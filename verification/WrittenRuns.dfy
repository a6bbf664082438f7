/**
 The code as written, run by run: exactly the steps at which it does what the protocol it
 documents does, and the safety of all the runs that keep to the vote rules.
 */
module WrittenRuns {
  import opened RaftNode
  import opened RaftCluster
  import opened RaftAsWritten
  import opened VoteRules
  import opened CorrectedElections
  import opened LeaderCompleteness
  import opened CommittedEntries
  import opened RaftSafety

  // What can be seen before a step: a vote to be counted was granted and, if it elects, was cast in
  // the node's current term; AppendEntries of the current term finds no vote to forget.
  predicate StepAsIntended(c: Cluster, a: Action) {
    match a
    case CountVote(n, t, p, voterLog) =>
      && VoteGrant(p, n, t, voterLog) in c.msgs
      && (n in c.nodes && (n, t) in c.ballots && Elects(AS_WRITTEN, c, n, t, c.ballots[(n, t)].votes[p := voterLog]) ==>
            c.nodes[n].currentTerm == t)
    case DeliverAppendEntries(m) =>
      m.AppendEntries? && m.to in c.nodes ==> m.term != c.nodes[m.to].currentTerm || c.nodes[m.to].votedFor == NOBODY
    case _ => true
  }

  ghost predicate SameStep(c: Cluster, a: Action)
    requires Enabled(AS_WRITTEN, c, a)
  {
    Enabled(AS_INTENDED, c, a) && Apply(AS_WRITTEN, c, a) == Apply(AS_INTENDED, c, a)
  }

  lemma CountExactly(c: Cluster, n: NodeId, t: int, p: NodeId, voterLog: Log)
    requires Enabled(AS_WRITTEN, c, CountVote(n, t, p, voterLog))
    ensures SameStep(c, CountVote(n, t, p, voterLog)) <==> StepAsIntended(c, CountVote(n, t, p, voterLog))
  {
    var b := c.ballots[(n, t)];
    var votes := b.votes[p := voterLog];
    var c1 := SetBallot(c, n, t, b.(votes := votes));
    if Elects(AS_WRITTEN, c, n, t, votes) && c.nodes[n].currentTerm != t {
      assert Promote(c1, n, votes).nodes[n].role == Leader != c1.nodes[n].role;
    }
  }

  lemma ReceiveExactly(c: Cluster, m: Msg)
    requires Sound(c) && m in c.msgs && m.AppendEntries? && m.to in c.nodes
    ensures Receive(AS_WRITTEN, c, m) == Receive(AS_INTENDED, c, m) <==> StepAsIntended(c, DeliverAppendEntries(m))
  {
    assert MsgOk(m, c.nodes.Keys);
    var n := c.nodes[m.to];
    var w := HandleAppendEntries(AS_WRITTEN, n, m.term, m.prevLogIndex, m.prevLogTerm, m.entries, m.leaderCommit).0;
    var i := HandleAppendEntries(AS_INTENDED, n, m.term, m.prevLogIndex, m.prevLogTerm, m.entries, m.leaderCommit).0;
    assert w.(votedFor := NOBODY) == i.(votedFor := NOBODY);
    assert Receive(AS_WRITTEN, c, m).nodes[m.to] == w && Receive(AS_INTENDED, c, m).nodes[m.to] == i;
  }

  // A step of the code is a step of the documented protocol if and only if the condition holds.
  lemma StepExactly(c: Cluster, a: Action)
    requires Sound(c) && Enabled(AS_WRITTEN, c, a)
    ensures SameStep(c, a) <==> StepAsIntended(c, a)
  {
    match a
    case CountVote(n, t, p, voterLog) => CountExactly(c, n, t, p, voterLog);
    case DeliverAppendEntries(m) => ReceiveExactly(c, m);
    case _ =>
  }

  ghost predicate StepsAsIntended(r: Run) {
    |r.states| == |r.actions| + 1 && forall i :: 0 <= i < |r.actions| ==> StepAsIntended(r.states[i], r.actions[i])
  }

  // The i-th step of the run is a step of the variant.
  ghost predicate Follows(v: Variant, r: Run, i: nat) {
    && i < |r.actions| && i + 1 < |r.states|
    && Enabled(v, r.states[i], r.actions[i]) && r.states[i + 1] == Apply(v, r.states[i], r.actions[i])
  }

  lemma FollowsExactly(r: Run, i: nat)
    requires IsRun(AS_WRITTEN, r) && i < |r.actions|
    ensures Follows(AS_INTENDED, r, i) <==> StepAsIntended(r.states[i], r.actions[i])
  {
    SoundAlong(AS_WRITTEN, r, i);
    StepExactly(r.states[i], r.actions[i]);
  }

  // A run of the code is a run of the documented protocol if and only if all its steps meet it.
  lemma RunExactly(r: Run)
    requires IsRun(AS_WRITTEN, r)
    ensures IsRun(AS_INTENDED, r) <==> StepsAsIntended(r)
  {
    if IsRun(AS_INTENDED, r) {
      forall i | 0 <= i < |r.actions| ensures StepAsIntended(r.states[i], r.actions[i]) {
        FollowsExactly(r, i);
        assert Follows(AS_INTENDED, r, i);
      }
    }
    if StepsAsIntended(r) {
      forall i | 0 <= i < |r.actions|
        ensures Enabled(AS_INTENDED, r.states[i], r.actions[i])
        ensures r.states[i + 1] == Apply(AS_INTENDED, r.states[i], r.actions[i])
      {
        FollowsExactly(r, i);
        assert Follows(AS_INTENDED, r, i);
      }
    }
  }

  // These runs keep to the vote rules; the rules ask less, and nothing of AppendEntries.
  lemma IntendedIsRuled(r: Run)
    requires IsRun(AS_WRITTEN, r) && StepsAsIntended(r)
    ensures RuledRun(AS_WRITTEN, r)
  {
    RunExactly(r);
    VotesOnceIsRuled(AS_INTENDED, r);
    forall i | 0 <= i < |r.actions| ensures RuledStep(AS_WRITTEN, r.states[i], r.actions[i]) {
      assert RuledStep(AS_INTENDED, r.states[i], r.actions[i]) && StepAsIntended(r.states[i], r.actions[i]);
    }
  }

  // ---- safety of the code as written ----

  // Election Safety and Log Matching, over the runs that keep to the vote rules.
  lemma WrittenElectionSafety(r: Run, i: nat, j: nat, n1: NodeId, n2: NodeId, t: int)
    requires IsRun(AS_WRITTEN, r) && RuledRun(AS_WRITTEN, r) && i < |r.states| && j < |r.states|
    requires Leads(r.states[i], n1, t) && Leads(r.states[j], n2, t)
    ensures n1 == n2
  {
    AtMostOneLeaderPerTerm(AS_WRITTEN, r, i, j, n1, n2, t);
  }

  lemma WrittenLogsMatch(r: Run, i: nat, n1: NodeId, j: nat, n2: NodeId, k: int)
    requires IsRun(AS_WRITTEN, r) && RuledRun(AS_WRITTEN, r) && i < |r.states| && j < |r.states|
    requires n1 in r.states[i].nodes && n2 in r.states[j].nodes
    requires 1 <= k <= |r.states[i].nodes[n1].log| && k <= |r.states[j].nodes[n2].log|
    requires r.states[i].nodes[n1].log[k - 1].term == r.states[j].nodes[n2].log[k - 1].term
    ensures r.states[i].nodes[n1].log[..k] == r.states[j].nodes[n2].log[..k]
  {
    LogsMatch(AS_WRITTEN, r, i, n1, j, n2, k);
  }

  // With no stale batch besides, Leader Completeness.
  lemma WrittenLeadersComplete(r: Run, q: set<NodeId>, t: int, k: int, i: nat, p: NodeId, j: nat, n: NodeId, u: int)
    requires IsRun(AS_WRITTEN, r) && RuledRun(AS_WRITTEN, r) && FreshRun(AS_WRITTEN, r)
    requires MajorityHolds(r, q, t, k) && HoldsAt(r, i, p, t, k)
    requires j < |r.states| && Leads(r.states[j], n, u) && t < u
    ensures k <= |r.states[j].nodes[n].log|
    ensures r.states[j].nodes[n].log[..k] == r.states[i].nodes[p].log[..k]
  {
    LeadersAreComplete(AS_WRITTEN, r, q, t, k, i, p, j, n, u);
  }

  // With nothing committed unearned or unchecked besides, agreement on what is committed.
  lemma WrittenCommitsAgree(r: Run, i: nat, n1: NodeId, j: nat, n2: NodeId, k: int)
    requires IsRun(AS_WRITTEN, r) && RuledRun(AS_WRITTEN, r) && FreshRun(AS_WRITTEN, r)
    requires EarnedRun(r) && CheckedRun(AS_WRITTEN, r)
    requires i < |r.states| && j < |r.states| && n1 in r.states[i].nodes && n2 in r.states[j].nodes
    requires 0 <= k <= r.states[i].nodes[n1].commitIndex && k <= r.states[j].nodes[n2].commitIndex
    ensures k <= |r.states[i].nodes[n1].log| && k <= |r.states[j].nodes[n2].log|
    ensures r.states[i].nodes[n1].log[..k] == r.states[j].nodes[n2].log[..k]
  {
    CommittedEntriesAgree(AS_WRITTEN, r, i, n1, j, n2, k);
  }
}
