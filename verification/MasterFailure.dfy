/**
 The failover without Raft: a new master is chosen by score among the pods labelled slave, and
 the pods are relabelled. The pod that was master is not one of them, and keeps its label.
 */
module MasterFailure {
  import opened KubeStore
  import opened Members
  import opened Roles
  import opened MasterChoice

  // The answer to a list call with the selector role=slave.
  ghost predicate ListsSlaves(listing: seq<SlavePod>, pods: Pods) {
    forall n :: n in Slaves(pods) <==> Listed(listing, n)
  }

  // The pod of this name wins the choice.
  ghost predicate Wins(listing: seq<SlavePod>, snapshot: string, name: string) {
    exists b: nat :: IsWinner(listing, snapshot, b) && name == listing[b].name
  }

  lemma ChosenAmongSlaves(listing: seq<SlavePod>, snapshot: string, pods: Pods, c: Choice)
    requires ListsSlaves(listing, pods)
    requires exists b: nat ::
               IsWinner(listing, snapshot, b) && c == Elected(listing[b].name, NamesBut(listing, listing[b].name))
    ensures Wins(listing, snapshot, c.master) && c.master in Slaves(pods)
    ensures Range(c.remaining) == Slaves(pods) - {c.master}
  {
    var b: nat :| IsWinner(listing, snapshot, b) && c == Elected(listing[b].name, NamesBut(listing, listing[b].name));
    assert Listed(listing, c.master);
    forall n ensures n in Range(c.remaining) <==> n in Slaves(pods) - {c.master} {
      NamesButExactly(listing, c.master, n);
    }
  }

  // After a completed failover the masters are the chosen slave and all the masters there were,
  // so there is one master exactly if the failed one had lost its pod or its label.
  lemma OldMastersStay(pods: Pods, pods': Pods, master: string, others: seq<string>)
    requires Relabelled(pods, pods', master, others, true, |others|)
    requires master in Slaves(pods) && Range(others) == Slaves(pods) - {master}
    ensures Masters(pods') == Masters(pods) + {master}
    ensures Slaves(pods') == Slaves(pods) - {master}
    ensures Masters(pods') == {master} <==> Masters(pods) == {}
  {
    assert others[..|others|] == others;
    MastersOfAssigned(pods, {master}, Range(others));
    assert master !in Masters(pods);
    if n :| n in Masters(pods) {
      assert n in Masters(pods') && n != master;
    }
  }

  method HandleMasterFailure(s: Store, listing: seq<SlavePod>, snapshot: string, listed: bool)
    returns (ok: bool, ghost master: string)
    requires listed ==> ListsSlaves(listing, s.pods)
    modifies s`pods
    ensures ok ==> Wins(listing, snapshot, master)
    ensures ok ==> Masters(s.pods) == Masters(old(s.pods)) + {master}
    ensures ok ==> Slaves(s.pods) == Slaves(old(s.pods)) - {master}
    ensures s.pods == old(s.pods) || Masters(s.pods) == Masters(old(s.pods)) + {master}
    ensures !listed || SomeUnreadable(listing, snapshot) || NobodyScores(listing, snapshot) ==>
              !ok && s.pods == old(s.pods)
    ensures s.reliable && listed && !SomeUnreadable(listing, snapshot) && !NobodyScores(listing, snapshot) ==> ok
  {
    var c := ElectNewMaster(listing, snapshot, listed);
    if c.Failed? {
      return false, "";
    }
    master := c.master;
    ChosenAmongSlaves(listing, snapshot, s.pods, c);
    ok := Promote(s, c.master, c.remaining);
  }

  method Promote(s: Store, master: string, others: seq<string>) returns (ok: bool)
    requires master in Slaves(s.pods) && Range(others) == Slaves(s.pods) - {master}
    modifies s`pods
    ensures ok ==> Masters(s.pods) == Masters(old(s.pods)) + {master}
    ensures ok ==> Slaves(s.pods) == Slaves(old(s.pods)) - {master}
    ensures s.pods == old(s.pods) || Masters(s.pods) == Masters(old(s.pods)) + {master}
    ensures s.reliable ==> ok
  {
    ghost var pods := s.pods;
    ghost var started, done;
    ok, started, done := SetupMasterSlaveReplication(s, master, others);
    if started {
      StopsAmongSlaves(pods, s.pods, master, others, done);
    }
    if ok {
      OldMastersStay(pods, s.pods, master, others);
    }
  }

  // Wherever the relabelling stops after its first write, the slaves it reached were no masters.
  lemma StopsAmongSlaves(pods: Pods, pods': Pods, master: string, others: seq<string>, done: nat)
    requires Relabelled(pods, pods', master, others, true, done)
    requires Range(others) == Slaves(pods) - {master}
    ensures Masters(pods') == Masters(pods) + {master}
  {
    MastersAfterStop(pods, pods', master, others, done);
    assert Range(others[..done]) <= Range(others);
  }
}
