/**
 From a Raft leader to the roles of the MySQL pods: the election result, the failover, and what
 Election Safety says about two failovers.
 */
module Failover {
  import opened RaftNode
  import opened RaftCluster
  import opened VoteRules
  import opened RaftManagers
  import opened CorrectedElections
  import opened RaftSafety
  import opened Scenarios
  import opened Counterexamples
  import opened KubeStore
  import opened Members
  import opened Roles

  datatype Choice = NoLeader | Chosen(master: NodeId, slaves: seq<NodeId>)

  // Some poll found the node leading term t.
  predicate SeenLeading(polls: seq<Node>, t: int) {
    exists k :: 0 <= k < |polls| && polls[k].role == Leader && polls[k].currentTerm == t
  }

  predicate EverLeading(polls: seq<Node>) {
    exists k :: 0 <= k < |polls| && polls[k].role == Leader
  }

  // RaftBasedMasterElection: `polls` are the states of the node at the moments it is looked at
  // before the wait is over; `term` is the term it is found leading.
  method RaftBasedMasterElection(rm: RaftManager, polls: seq<Node>) returns (c: Choice, ghost term: int)
    ensures c.NoLeader? <==> !EverLeading(polls)
    ensures c.Chosen? ==> c == Chosen(rm.nodeId, Others(rm.members, rm.nodeId)) && SeenLeading(polls, term)
  {
    term := 0;
    for i := 0 to |polls|
      invariant forall j :: 0 <= j < i ==> polls[j].role != Leader
    {
      if polls[i].role == Leader {
        term := polls[i].currentTerm;
        var newMaster := rm.nodeId;
        var slaves := [];
        for k := 0 to |rm.members|
          invariant slaves == Others(rm.members[..k], newMaster)
        {
          assert rm.members[..k + 1] == rm.members[..k] + [rm.members[k]];
          OthersAppend(rm.members[..k], rm.members[k], newMaster);
          if rm.members[k] != newMaster {
            slaves := slaves + [rm.members[k]];
          }
        }
        assert rm.members[..|rm.members|] == rm.members;
        return Chosen(newMaster, slaves), term;
      }
    }
    return NoLeader, term;
  }

  // One failover: the node that ran it, what it polled, the pods before and after.
  datatype Episode = Episode(id: NodeId, polls: seq<Node>, pods: Pods, pods': Pods)

  // It went through: the node was seen leading term t, and the pods were relabelled to the end.
  ghost predicate Completed(f: Episode, members: seq<NodeId>, t: int) {
    && SeenLeading(f.polls, t)
    && Relabelled(f.pods, f.pods', f.id, Others(members, f.id), true, |Others(members, f.id)|)
  }

  // HandleRaftBasedFailover. A failover that completes leaves exactly one master among the
  // cluster's nodes, the node that leads; one that fails leaves the roles as they were or stops
  // somewhere in the relabelling of that same choice.
  method HandleRaftBasedFailover(rm: RaftManager, s: Store, polls: seq<Node>) returns (ok: bool, ghost term: int)
    modifies rm, s`pods
    ensures rm.State() == StepDown(old(rm.State()))
    ensures ok ==> EverLeading(polls) && Completed(Episode(rm.nodeId, polls, old(s.pods), s.pods), rm.members, term)
    ensures s.reliable && rm.Members() + {rm.nodeId} <= old(s.pods).Keys ==> (ok <==> EverLeading(polls))
    ensures rm.nodeId !in old(s.pods) ==> !ok && s.pods == old(s.pods)
    ensures ok ==> Masters(s.pods) * (rm.Members() + {rm.nodeId}) == {rm.nodeId}
    ensures ok ==> Slaves(s.pods) * (rm.Members() + {rm.nodeId}) == rm.Members() - {rm.nodeId}
    ensures exists started, done ::
              Relabelled(old(s.pods), s.pods, rm.nodeId, Others(rm.members, rm.nodeId), started, done)
  {
    ghost var pods := s.pods;
    rm.ForceStepDown();
    var c;
    c, term := RaftBasedMasterElection(rm, polls);
    if c.NoLeader? {
      assert Relabelled(pods, s.pods, rm.nodeId, Others(rm.members, rm.nodeId), false, 0);
      return false, term;
    }
    ghost var started, done;
    ok, started, done := SetupMySQLMasterSlaveReplication(s, c.master, c.slaves);
    assert Relabelled(pods, s.pods, rm.nodeId, Others(rm.members, rm.nodeId), started, done);
    if ok {
      OneMasterAfterSuccess(pods, s.pods, rm.Members() + {rm.nodeId}, c.master, c.slaves);
    }
  }

  // ---- two failovers ----

  // The polls show the node at moments of this run.
  ghost predicate PolledFrom(r: Run, id: NodeId, polls: seq<Node>) {
    forall k :: 0 <= k < |polls| ==> exists i :: StateAt(r, i, id, polls[k])
  }

  predicate StateAt(r: Run, i: int, id: NodeId, n: Node) {
    0 <= i < |r.states| && id in r.states[i].nodes && r.states[i].nodes[id] == n
  }

  // A poll that found the node leading found a leader of the run.
  lemma SeenIsLeader(r: Run, id: NodeId, polls: seq<Node>, t: int) returns (i: nat)
    requires PolledFrom(r, id, polls) && SeenLeading(polls, t)
    ensures i < |r.states| && Leads(r.states[i], id, t)
  {
    var k :| 0 <= k < |polls| && polls[k].role == Leader && polls[k].currentTerm == t;
    var j :| StateAt(r, j, id, polls[k]);
    i := j;
  }

  // A completed failover whose polls show the node at moments of this run.
  ghost predicate CompletedIn(r: Run, f: Episode, members: seq<NodeId>, t: int) {
    PolledFrom(r, f.id, f.polls) && Completed(f, members, t)
  }

  // Two failovers that were completed by nodes of one run, each seen leading the same term, chose
  // the same master and the same slaves, and leave the same roles, on whatever pods.
  lemma FailoversOfOneTermAgree(v: Variant, r: Run, members: seq<NodeId>, t: int, f: Episode, g: Episode)
    requires IsRun(v, r) && RuledRun(v, r) && CompletedIn(r, f, members, t) && CompletedIn(r, g, members, t)
    ensures f.id == g.id && Others(members, f.id) == Others(members, g.id)
    ensures var all := Range(members) + {f.id};
            && Masters(f.pods') * all == Masters(g.pods') * all == {f.id}
            && Slaves(f.pods') * all == Slaves(g.pods') * all == Range(members) - {f.id}
  {
    var i := SeenIsLeader(r, f.id, f.polls, t);
    var j := SeenIsLeader(r, g.id, g.polls, t);
    AtMostOneLeaderPerTerm(v, r, i, j, f.id, g.id, t);
    OneMasterAfterSuccess(f.pods, f.pods', Range(members) + {f.id}, f.id, Others(members, f.id));
    OneMasterAfterSuccess(g.pods, g.pods', Range(members) + {f.id}, f.id, Others(members, f.id));
  }

  // No two completed failovers of one term disagree.
  ghost predicate FailoversAgree(v: Variant) {
    forall r, members, t, f, g ::
      IsRun(v, r) && CompletedIn(r, f, members, t) && CompletedIn(r, g, members, t) ==> f.id == g.id
  }

  // A leader of a run completes a failover over the pods of its cluster.
  lemma LeaderCompletes(r: Run, i: nat, id: NodeId, t: int, members: seq<NodeId>, pods: Pods) returns (f: Episode)
    requires i < |r.states| && Leads(r.states[i], id, t)
    requires id in pods && Range(members) <= pods.Keys
    ensures f.id == id && CompletedIn(r, f, members, t)
  {
    var others := Others(members, id);
    f := Episode(id, [r.states[i].nodes[id]], pods, Assigned(pods, {id}, Range(others)));
    assert StateAt(r, i, id, f.polls[0]);
    assert f.polls[0].role == Leader && f.polls[0].currentTerm == t;
    assert others[..|others|] == others;
  }

  // They agree if and only if the elections are corrected: with any of the three departures, two
  // nodes complete a failover of the same term, each making itself the master.
  lemma FailoversAgreeExactly(v: Variant)
    ensures FailoversAgree(v) <==> v.countsGrants && v.checksTerm && v.keepsVote
  {
    if VotesOnce(v) {
      forall r, members, t, f, g | IsRun(v, r) && CompletedIn(r, f, members, t) && CompletedIn(r, g, members, t)
        ensures f.id == g.id
      {
        VotesOnceIsRuled(v, r);
        FailoversOfOneTermAgree(v, r, members, t, f, g);
      }
    } else {
      var c, t := TwoLeaders(v, "a", "b", "c");
      var r :| EndsIn(v, r, c);
      var p := Pod(map[], "", "");
      var pods := map["a" := p, "b" := p, "c" := p];
      var f := LeaderCompletes(r, |r.states| - 1, "a", t, ["a", "b", "c"], pods);
      var g := LeaderCompletes(r, |r.states| - 1, "c", t, ["a", "b", "c"], pods);
    }
  }
}
