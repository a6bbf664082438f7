/**
 Which corrections each safety property of Raft takes. Of the 32 variants of the code, a property
 holds over all runs exactly in those that make the corrections named.
 */
module ExactCorrections {
  import opened RaftNode
  import opened RaftCluster
  import opened CorrectedElections
  import opened RaftSafety
  import opened LeaderCompleteness
  import opened CommittedEntries
  import opened Scenarios
  import opened Counterexamples
  import opened LostEntries

  predicate LeadsAt(r: Run, i: nat, n: NodeId, t: int) {
    i < |r.states| && Leads(r.states[i], n, t)
  }

  predicate At(r: Run, i: nat, n: NodeId) {
    i < |r.states| && n in r.states[i].nodes
  }

  function NodeAt(r: Run, i: nat, n: NodeId): Node
    requires At(r, i, n)
  {
    r.states[i].nodes[n]
  }

  // ---- the properties ----

  ghost predicate ElectionSafe(v: Variant) {
    forall r, i: nat, j: nat, n1, n2, t ::
      IsRun(v, r) && LeadsAt(r, i, n1, t) && LeadsAt(r, j, n2, t) ==> n1 == n2
  }

  // The same term at index k in two logs that differ up to there.
  predicate Clash(r: Run, i: nat, n1: NodeId, j: nat, n2: NodeId, k: int) {
    && At(r, i, n1) && At(r, j, n2)
    && 1 <= k <= |NodeAt(r, i, n1).log| && k <= |NodeAt(r, j, n2).log|
    && NodeAt(r, i, n1).log[k - 1].term == NodeAt(r, j, n2).log[k - 1].term
    && NodeAt(r, i, n1).log[..k] != NodeAt(r, j, n2).log[..k]
  }

  ghost predicate LogsMatching(v: Variant) {
    forall r, i: nat, n1, j: nat, n2, k :: IsRun(v, r) ==> !Clash(r, i, n1, j, n2, k)
  }

  predicate SharePrefix(a: Log, b: Log, k: int) {
    0 <= k <= |a| && k <= |b| && a[..k] == b[..k]
  }

  // A majority accepted index k in its term t, p among others; a leader of a later term lacks it.
  ghost predicate Lost(r: Run, q: set<NodeId>, t: int, k: int, i: nat, p: NodeId, j: nat, n: NodeId, u: int) {
    && 0 < |r.states| && MajorityHolds(r, q, t, k) && HoldsAt(r, i, p, t, k)
    && LeadsAt(r, j, n, u) && t < u
    && !SharePrefix(r.states[j].nodes[n].log, r.states[i].nodes[p].log, k)
  }

  ghost predicate LeadersComplete(v: Variant) {
    forall r, q, t, k, i: nat, p, j: nat, n, u :: IsRun(v, r) ==> !Lost(r, q, t, k, i, p, j, n, u)
  }

  // Both nodes have committed up to k, and not the same.
  predicate Disagree(r: Run, i: nat, n1: NodeId, j: nat, n2: NodeId, k: int) {
    && At(r, i, n1) && At(r, j, n2)
    && 0 <= k <= NodeAt(r, i, n1).commitIndex && k <= NodeAt(r, j, n2).commitIndex
    && !SharePrefix(NodeAt(r, i, n1).log, NodeAt(r, j, n2).log, k)
  }

  ghost predicate CommitsAgree(v: Variant) {
    forall r, i: nat, n1, j: nat, n2, k :: IsRun(v, r) && EarnedRun(r) ==> !Disagree(r, i, n1, j, n2, k)
  }

  // ---- the record of what was held is true ----

  predicate HoldsNow(c: Cluster, p: NodeId, t: int, k: int) {
    && p in c.nodes && c.nodes[p].currentTerm == t
    && 1 <= k <= |c.nodes[p].log| && c.nodes[p].log[k - 1].term == t
  }

  ghost predicate HeldTruly(c: Cluster, c': Cluster) {
    forall p, t, k :: (p, t, k) in c'.held ==> (p, t, k) in c.held || HoldsNow(c', p, t, k)
  }

  lemma SetNodeTruly(c: Cluster, id: NodeId, n: Node)
    ensures HeldTruly(c, SetNode(c, id, n))
  {
  }

  lemma CountTruly(v: Variant, c: Cluster, n: NodeId, t: int, p: NodeId, voterLog: Log)
    requires n in c.nodes && (n, t) in c.ballots
    ensures HeldTruly(c, Count(v, c, n, t, p, voterLog))
  {
    SetNodeTruly(c, n, BecomeLeader(c.nodes[n], n, c.nodes.Keys));
  }

  lemma VoteTruly(c: Cluster, m: Msg)
    requires m.VoteRequest? && m.to in c.nodes
    ensures HeldTruly(c, Vote(c, m))
  {
    SetNodeTruly(c, m.to, HandleVoteRequest(c.nodes[m.to], m.from, m.term, m.lastLogIndex, m.lastLogTerm).0);
  }

  lemma ReceiveTruly(v: Variant, c: Cluster, m: Msg)
    requires m.AppendEntries? && m.to in c.nodes
    ensures HeldTruly(c, Receive(v, c, m))
  {
    if SliceInRange(c.nodes[m.to], m.term, m.prevLogIndex, m.entries) {
      SetNodeTruly(c, m.to, HandleAppendEntries(v, c.nodes[m.to], m.term, m.prevLogIndex, m.prevLogTerm,
                                                m.entries, m.leaderCommit).0);
    }
  }

  lemma StepTruly(v: Variant, c: Cluster, a: Action)
    requires Enabled(v, c, a)
    ensures HeldTruly(c, Apply(v, c, a))
  {
    match a
    case Timeout(n) => SetNodeTruly(c, n, StartElection(c.nodes[n], n));
    case SendVoteRequest(n, t, p) =>
    case DeliverVoteRequest(m) => VoteTruly(c, m);
    case CountVote(n, t, p, voterLog) => CountTruly(v, c, n, t, p, voterLog);
    case SendAppendEntries(n, p, count) =>
    case DeliverAppendEntries(m) => ReceiveTruly(v, c, m);
    case AppendEntry(n, e) => SetNodeTruly(c, n, c.nodes[n].(log := c.nodes[n].log + [e]));
    case SetNextIndex(n, p, k) => SetNodeTruly(c, n, c.nodes[n].(nextIndex := c.nodes[n].nextIndex[p := k]));
    case AdvanceCommit(n, k) => SetNodeTruly(c, n, c.nodes[n].(commitIndex := k));
    case ForceStepDown(n) => SetNodeTruly(c, n, StepDown(c.nodes[n]));
  }

  // The history variable `held` says nothing the run did not do.
  lemma {:induction false} HeldOnce(v: Variant, r: Run, i: nat, p: NodeId, t: int, k: int)
    requires IsRun(v, r) && i < |r.states| && (p, t, k) in r.states[i].held
    ensures exists j: nat :: HoldsAt(r, j, p, t, k)
  {
    if 0 < i {
      StepTruly(v, r.states[i - 1], r.actions[i - 1]);
      if (p, t, k) in r.states[i - 1].held {
        HeldOnce(v, r, i - 1, p, t, k);
      } else {
        assert HoldsNow(r.states[i], p, t, k);
        assert HoldsAt(r, i, p, t, k);
      }
    }
  }

  lemma {:induction false} SameMembers(v: Variant, r: Run, i: nat)
    requires IsRun(v, r) && i < |r.states|
    ensures r.states[i].nodes.Keys == r.states[0].nodes.Keys
  {
    if 0 < i {
      SameMembers(v, r, i - 1);
      KeysKept(v, r.states[i - 1], r.actions[i - 1]);
    }
  }

  lemma KeysKept(v: Variant, c: Cluster, a: Action)
    requires Enabled(v, c, a)
    ensures Apply(v, c, a).nodes.Keys == c.nodes.Keys
  {
  }

  lemma MajorityHeld(v: Variant, r: Run, q: set<NodeId>, t: int, k: int)
    requires IsRun(v, r) && HeldByMajority(r.states[|r.states| - 1], q, t, k)
    ensures MajorityHolds(r, q, t, k)
  {
    SameMembers(v, r, |r.states| - 1);
    forall p | p in q ensures exists i: nat :: HoldsAt(r, i, p, t, k) {
      HeldOnce(v, r, |r.states| - 1, p, t, k);
    }
  }

  // ---- the characterisations ----

  // Election Safety takes the three corrections of the elections, and no other.
  lemma ElectionSafeExactly(v: Variant)
    ensures ElectionSafe(v) <==> v.countsGrants && v.checksTerm && v.keepsVote
  {
    if VotesOnce(v) {
      forall r, i: nat, j: nat, n1, n2, t | IsRun(v, r) && LeadsAt(r, i, n1, t) && LeadsAt(r, j, n2, t)
        ensures n1 == n2
      {
        VotesOnceIsRuled(v, r);
        AtMostOneLeaderPerTerm(v, r, i, j, n1, n2, t);
      }
    } else {
      var c, t := TwoLeaders(v, "a", "b", "c");
      var r :| EndsIn(v, r, c);
      var end := |r.states| - 1;
      assert LeadsAt(r, end, "a", t) && LeadsAt(r, end, "c", t);
    }
  }

  // So does Log Matching.
  lemma LogsMatchExactly(v: Variant)
    ensures LogsMatching(v) <==> v.countsGrants && v.checksTerm && v.keepsVote
  {
    if VotesOnce(v) {
      forall r, i: nat, n1, j: nat, n2, k | IsRun(v, r) ensures !Clash(r, i, n1, j, n2, k) {
        if Clash(r, i, n1, j, n2, k) {
          VotesOnceIsRuled(v, r);
          LogsMatch(v, r, i, n1, j, n2, k);
        }
      }
    } else {
      var c, t := TwoHistories(v, "a", "b", "c", "e", "f");
      var r :| EndsIn(v, r, c);
      var end := |r.states| - 1;
      assert Clash(r, end, "a", end, "c", 1);
    }
  }

  lemma CompleteWith(v: Variant)
    requires VotesOnce(v) && v.keepsSuffix
    ensures LeadersComplete(v)
  {
    forall r, q, t, k, i: nat, p, j: nat, n, u | IsRun(v, r) ensures !Lost(r, q, t, k, i, p, j, n, u) {
      if Lost(r, q, t, k, i, p, j, n, u) {
        VotesOnceIsRuled(v, r);
        KeptSuffixIsFresh(v, r);
        LeadersAreComplete(v, r, q, t, k, i, p, j, n, u);
      }
    }
  }

  lemma LostAtEnd(v: Variant, r: Run, c: Cluster, x: NodeId, y: NodeId, z: NodeId, t: int)
    requires EndsIn(v, r, c) && HeldByMajority(c, {x, y}, t, 1) && Leads(c, z, t + 1)
    requires HoldsNow(c, x, t, 1) && |c.nodes[z].log| == 1 && c.nodes[x].log[0] != c.nodes[z].log[0]
    ensures Lost(r, {x, y}, t, 1, |r.states| - 1, x, |r.states| - 1, z, t + 1)
  {
    MajorityHeld(v, r, {x, y}, t, 1);
    assert c.nodes[x].log[..1][0] != c.nodes[z].log[..1][0];
  }

  lemma LostToRival(v: Variant)
    requires !VotesOnce(v)
    ensures !LeadersComplete(v)
  {
    RivalForgets(v, "a", "b", "c");
    var c, t :| Reachable(v, c) && HeldByMajority(c, {"a", "b"}, t, 1) && Leads(c, "c", t + 1) && Apart(c, "a", "c", t);
    var r :| EndsIn(v, r, c);
    LostAtEnd(v, r, c, "a", "b", "c", t);
  }

  lemma LostToStaleBatch(v: Variant)
    requires !v.keepsSuffix
    ensures !LeadersComplete(v)
  {
    StaleBatchLosesEntry(v, "a", "b", "c");
    var c :| Reachable(v, c) && HeldByMajority(c, {"a", "b"}, 1, 2) && Leads(c, "b", 2) && |c.nodes["b"].log| < 2;
    var r :| EndsIn(v, r, c);
    MajorityHeld(v, r, {"a", "b"}, 1, 2);
    var end := |r.states| - 1;
    assert "a" in {"a", "b"};
    var i: nat :| HoldsAt(r, i, "a", 1, 2);
    assert Lost(r, {"a", "b"}, 1, 2, i, "a", end, "b", 2);
  }

  // Leader Completeness also takes a batch that deletes only what conflicts.
  lemma LeadersCompleteExactly(v: Variant)
    ensures LeadersComplete(v) <==> v.countsGrants && v.checksTerm && v.keepsVote && v.keepsSuffix
  {
    if !VotesOnce(v) {
      LostToRival(v);
    } else if !v.keepsSuffix {
      LostToStaleBatch(v);
    } else {
      CompleteWith(v);
    }
  }

  lemma AgreeWith(v: Variant)
    requires VotesOnce(v) && v.keepsSuffix && v.boundsCommit
    ensures CommitsAgree(v)
  {
    forall r, i: nat, n1, j: nat, n2, k | IsRun(v, r) && EarnedRun(r) ensures !Disagree(r, i, n1, j, n2, k) {
      if Disagree(r, i, n1, j, n2, k) {
        VotesOnceIsRuled(v, r);
        KeptSuffixIsFresh(v, r);
        BoundedIsChecked(v, r);
        CommittedEntriesAgree(v, r, i, n1, j, n2, k);
      }
    }
  }

  lemma ApartDisagree(v: Variant, c: Cluster, n1: NodeId, n2: NodeId, k: int)
    requires Reachable(v, c) && CommittedApart(c, n1, n2, k)
    ensures !CommitsAgree(v)
  {
    var r :| EndsIn(v, r, c);
    var end := |r.states| - 1;
    assert c.nodes[n1].log[..k][k - 1] != c.nodes[n2].log[..k][k - 1];
    assert Disagree(r, end, n1, end, n2, k);
  }

  // Agreement on what is committed takes all five.
  lemma CommitsAgreeExactly(v: Variant)
    ensures CommitsAgree(v) <==> v == AS_PUBLISHED
  {
    if !VotesOnce(v) {
      RivalsCommit(v, "a", "b", "c");
      var c :| Reachable(v, c) && CommittedApart(c, "a", "c", 1);
      ApartDisagree(v, c, "a", "c", 1);
    } else if !v.keepsSuffix {
      StaleBatchCommitsAnotherEntry(v, "a", "b", "c");
      var c :| Reachable(v, c) && CommittedApart(c, "a", "b", 2);
      ApartDisagree(v, c, "a", "b", 2);
    } else if !v.boundsCommit {
      HeartbeatCommitsAnotherEntry(v, "a", "b", "c");
      var c :| Reachable(v, c) && CommittedApart(c, "a", "b", 1);
      ApartDisagree(v, c, "a", "b", 1);
    } else {
      AgreeWith(v);
    }
  }
}
