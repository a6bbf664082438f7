/**
 The commit index, in every variant. The handler truncates a log without looking at it, so what
 it keeps depends on how far accepted batches reach.
 */
module CommitIndex {
  import opened RaftNode
  import opened RaftCluster
  import opened RaftAsWritten

  predicate CommitInLog(n: Node) {
    0 <= n.commitIndex <= |n.log|
  }

  // How long an accepted batch leaves the log: as far as the batch reaches, unless only conflicts are
  // deleted and there is none.
  function Reach(v: Variant, log: Log, at: nat, entries: Log): int
    requires at <= |log|
  {
    if v.keepsSuffix && FirstConflict(log, at, entries) == |entries| then |log| else at + |entries|
  }

  lemma NewLogReach(v: Variant, log: Log, at: nat, entries: Log)
    requires at <= |log| && entries != []
    ensures |NewLog(v, log, at, entries)| == Reach(v, log, at, entries)
  {
  }

  // For one accepted batch the bound is exact: shorter than the commit index, and the commit index
  // is lost or points past the end of the log.
  lemma CommitKeptExactly(v: Variant, n: Node, term: int, prevLogIndex: int, prevLogTerm: int, entries: Log,
                          leaderCommit: int)
    requires CommitInLog(n) && 0 <= prevLogIndex && entries != []
    requires Accepts(n, term, prevLogIndex, prevLogTerm)
    ensures var n' := HandleAppendEntries(v, n, term, prevLogIndex, prevLogTerm, entries, leaderCommit).0;
            (n.commitIndex <= n'.commitIndex && CommitInLog(n')) <==>
            n.commitIndex <= Reach(v, n.log, prevLogIndex, entries)
  {
    var n' := HandleAppendEntries(v, n, term, prevLogIndex, prevLogTerm, entries, leaderCommit).0;
    assert n'.log == NewLog(v, n.log, prevLogIndex, entries);
    NewLogReach(v, n.log, prevLogIndex, entries);
  }

  // The batch about to be delivered, if accepted, reaches the follower's commit index.
  predicate ReachesCommit(v: Variant, c: Cluster, a: Action) {
    a.DeliverAppendEntries? && a.m.AppendEntries? && a.m.to in c.nodes ==>
      var n := c.nodes[a.m.to];
      Accepts(n, a.m.term, a.m.prevLogIndex, a.m.prevLogTerm) && a.m.entries != [] && 0 <= a.m.prevLogIndex ==>
        n.commitIndex <= Reach(v, n.log, a.m.prevLogIndex, a.m.entries)
  }

  ghost predicate ReachingRun(v: Variant, r: Run) {
    |r.states| == |r.actions| + 1 && forall i :: 0 <= i < |r.actions| ==> ReachesCommit(v, r.states[i], r.actions[i])
  }

  ghost predicate CommitsInLog(c: Cluster) {
    forall n :: n in c.nodes ==> CommitInLog(c.nodes[n])
  }

  ghost predicate CommitsGrow(c: Cluster, c': Cluster) {
    c'.nodes.Keys == c.nodes.Keys &&
    forall n :: n in c.nodes ==> CommitInLog(c'.nodes[n]) && c.nodes[n].commitIndex <= c'.nodes[n].commitIndex
  }

  lemma CommitSetNode(c: Cluster, id: NodeId, n: Node)
    requires CommitsInLog(c) && id in c.nodes && CommitInLog(n) && c.nodes[id].commitIndex <= n.commitIndex
    ensures CommitsGrow(c, SetNode(c, id, n))
  {
  }

  // What AppendEntries does to the commit index of one node.
  lemma CommitNodeExactly(v: Variant, n: Node, m: Msg)
    requires CommitInLog(n) && m.AppendEntries? && 0 <= m.prevLogIndex
    ensures var n' := HandleAppendEntries(v, n, m.term, m.prevLogIndex, m.prevLogTerm, m.entries, m.leaderCommit).0;
            (n.commitIndex <= n'.commitIndex && CommitInLog(n')) <==>
            (Accepts(n, m.term, m.prevLogIndex, m.prevLogTerm) && m.entries != [] ==>
               n.commitIndex <= Reach(v, n.log, m.prevLogIndex, m.entries))
  {
    if Accepts(n, m.term, m.prevLogIndex, m.prevLogTerm) && m.entries != [] {
      CommitKeptExactly(v, n, m.term, m.prevLogIndex, m.prevLogTerm, m.entries, m.leaderCommit);
    }
  }

  lemma CommitReceive(v: Variant, c: Cluster, m: Msg)
    requires Sound(c) && CommitsInLog(c) && m in c.msgs && m.AppendEntries? && m.to in c.nodes
    ensures CommitsGrow(c, Receive(v, c, m)) <==> ReachesCommit(v, c, DeliverAppendEntries(m))
  {
    assert MsgOk(m, c.nodes.Keys);
    var n := c.nodes[m.to];
    var n' := HandleAppendEntries(v, n, m.term, m.prevLogIndex, m.prevLogTerm, m.entries, m.leaderCommit).0;
    CommitNodeExactly(v, n, m);
    assert Receive(v, c, m).nodes == c.nodes[m.to := n'];
  }

  lemma CommitCount(v: Variant, c: Cluster, n: NodeId, t: int, p: NodeId, voterLog: Log)
    requires CommitsInLog(c) && n in c.nodes && (n, t) in c.ballots
    ensures CommitsGrow(c, Count(v, c, n, t, p, voterLog))
  {
    if Elects(v, c, n, t, c.ballots[(n, t)].votes[p := voterLog]) {
      CommitSetNode(c, n, BecomeLeader(c.nodes[n], n, c.nodes.Keys));
    }
  }

  lemma CommitVote(c: Cluster, m: Msg)
    requires CommitsInLog(c) && m.VoteRequest? && m.to in c.nodes
    ensures CommitsGrow(c, Vote(c, m))
  {
    CommitSetNode(c, m.to, HandleVoteRequest(c.nodes[m.to], m.from, m.term, m.lastLogIndex, m.lastLogTerm).0);
  }

  lemma CommitExtend(c: Cluster, n: NodeId, e: Entry)
    requires CommitsInLog(c) && n in c.nodes
    ensures CommitsGrow(c, Extend(c, n, e))
  {
    CommitSetNode(c, n, c.nodes[n].(log := c.nodes[n].log + [e]));
  }

  lemma CommitElect(c: Cluster, n: NodeId)
    requires CommitsInLog(c) && n in c.nodes
    ensures CommitsGrow(c, Elect(c, n))
  {
    CommitSetNode(c, n, StartElection(c.nodes[n], n));
  }

  lemma CommitAskVote(c: Cluster, n: NodeId, t: int, p: NodeId)
    requires CommitsInLog(c) && n in c.nodes && (n, t) in c.ballots
    ensures CommitsGrow(c, AskVote(c, n, t, p))
  {
  }

  // What one step does to the commit indexes: a batch that does not reach its receiver's loses it,
  // and nothing else does.
  lemma CommitStep(v: Variant, c: Cluster, a: Action)
    requires Sound(c) && CommitsInLog(c) && Enabled(v, c, a)
    ensures CommitsGrow(c, Apply(v, c, a)) <==> ReachesCommit(v, c, a)
  {
    match a
    case DeliverAppendEntries(m) => CommitReceive(v, c, m);
    case Timeout(n) => CommitElect(c, n);
    case DeliverVoteRequest(m) => CommitVote(c, m);
    case CountVote(n, t, p, voterLog) => CommitCount(v, c, n, t, p, voterLog);
    case AppendEntry(n, e) => CommitExtend(c, n, e);
    case SendVoteRequest(n, t, p) => CommitAskVote(c, n, t, p);
    case SendAppendEntries(n, p, count) =>
    case SetNextIndex(n, p, k) => CommitSetNode(c, n, c.nodes[n].(nextIndex := c.nodes[n].nextIndex[p := k]));
    case AdvanceCommit(n, k) => CommitSetNode(c, n, c.nodes[n].(commitIndex := k));
    case ForceStepDown(n) => CommitSetNode(c, n, StepDown(c.nodes[n]));
  }

  // The i-th step lowers no commit index and leaves each in its log.
  ghost predicate GrowsAt(r: Run, i: nat) {
    i + 1 < |r.states| ==> CommitsGrow(r.states[i], r.states[i + 1])
  }

  ghost predicate GrowingRun(r: Run) {
    forall i: nat :: GrowsAt(r, i)
  }

  lemma CommitAtExactly(v: Variant, r: Run, i: nat)
    requires IsRun(v, r) && i < |r.actions| && CommitsInLog(r.states[i])
    ensures GrowsAt(r, i) <==> ReachesCommit(v, r.states[i], r.actions[i])
  {
    SoundAlong(v, r, i);
    CommitStep(v, r.states[i], r.actions[i]);
  }

  lemma {:induction false} CommitsInLogWhileGrowing(v: Variant, r: Run, i: nat)
    requires IsRun(v, r) && i < |r.states| && forall j: nat :: j < i ==> GrowsAt(r, j)
    ensures CommitsInLog(r.states[i])
  {
    if 0 < i {
      CommitsInLogWhileGrowing(v, r, i - 1);
      assert GrowsAt(r, i - 1);
    }
  }

  lemma {:induction false} GrowingWhileReaching(v: Variant, r: Run, i: nat)
    requires IsRun(v, r) && ReachingRun(v, r) && i <= |r.actions|
    ensures forall j: nat :: j < i ==> GrowsAt(r, j)
  {
    if 0 < i {
      GrowingWhileReaching(v, r, i - 1);
      CommitsInLogWhileGrowing(v, r, i - 1);
      CommitAtExactly(v, r, i - 1);
    }
  }

  // Over a run no commit index falls or leaves its log if and only if every accepted batch reaches its
  // receiver's commit index.
  lemma CommitsGrowExactly(v: Variant, r: Run)
    requires IsRun(v, r)
    ensures GrowingRun(r) <==> ReachingRun(v, r)
  {
    if ReachingRun(v, r) {
      GrowingWhileReaching(v, r, |r.actions|);
    }
    if GrowingRun(r) {
      forall i | 0 <= i < |r.actions| ensures ReachesCommit(v, r.states[i], r.actions[i]) {
        CommitsInLogWhileGrowing(v, r, i);
        CommitAtExactly(v, r, i);
        assert GrowsAt(r, i);
      }
    }
  }

  lemma {:induction false} CommitsGrowAlong(r: Run, i: nat, j: nat, n: NodeId)
    requires GrowingRun(r) && i <= j < |r.states| && n in r.states[i].nodes
    ensures n in r.states[j].nodes && r.states[i].nodes[n].commitIndex <= r.states[j].nodes[n].commitIndex
  {
    if i < j {
      CommitsGrowAlong(r, i, j - 1, n);
      assert GrowsAt(r, j - 1);
    }
  }

  lemma CommitIndexMonotone(v: Variant, r: Run, i: nat, j: nat, n: NodeId)
    requires IsRun(v, r) && ReachingRun(v, r) && i <= j < |r.states| && n in r.states[i].nodes
    ensures n in r.states[j].nodes && CommitInLog(r.states[j].nodes[n])
    ensures r.states[i].nodes[n].commitIndex <= r.states[j].nodes[n].commitIndex
  {
    CommitsGrowExactly(v, r);
    CommitsInLogWhileGrowing(v, r, j);
    CommitsGrowAlong(r, i, j, n);
  }

  // ---- the shipped steps alone never commit anything ----

  ghost predicate NothingCommitted(c: Cluster) {
    && (forall n :: n in c.nodes ==> c.nodes[n].commitIndex == 0)
    && (forall m :: m in c.msgs && m.AppendEntries? ==> m.leaderCommit == 0)
  }

  lemma NothingSetNode(c: Cluster, id: NodeId, n: Node)
    requires NothingCommitted(c) && id in c.nodes && n.commitIndex == 0
    ensures NothingCommitted(SetNode(c, id, n))
  {
  }

  lemma NothingReceive(v: Variant, c: Cluster, m: Msg)
    requires NothingCommitted(c) && m in c.msgs && m.AppendEntries? && m.to in c.nodes
    ensures NothingCommitted(Receive(v, c, m))
  {
  }

  lemma NothingVote(c: Cluster, m: Msg)
    requires NothingCommitted(c) && m.VoteRequest? && m.to in c.nodes
    ensures NothingCommitted(Vote(c, m))
  {
    NothingSetNode(c, m.to, HandleVoteRequest(c.nodes[m.to], m.from, m.term, m.lastLogIndex, m.lastLogTerm).0);
  }

  lemma NothingCount(v: Variant, c: Cluster, n: NodeId, t: int, p: NodeId, voterLog: Log)
    requires NothingCommitted(c) && n in c.nodes && (n, t) in c.ballots
    ensures NothingCommitted(Count(v, c, n, t, p, voterLog))
  {
    if Elects(v, c, n, t, c.ballots[(n, t)].votes[p := voterLog]) {
      NothingSetNode(c, n, BecomeLeader(c.nodes[n], n, c.nodes.Keys));
    }
  }

  lemma NothingCommittedStep(v: Variant, c: Cluster, a: Action)
    requires NothingCommitted(c) && Enabled(v, c, a) && !a.AdvanceCommit?
    ensures NothingCommitted(Apply(v, c, a))
  {
    match a
    case DeliverAppendEntries(m) => NothingReceive(v, c, m);
    case Timeout(n) => NothingSetNode(c, n, StartElection(c.nodes[n], n));
    case DeliverVoteRequest(m) => NothingVote(c, m);
    case CountVote(n, t, p, voterLog) => NothingCount(v, c, n, t, p, voterLog);
    case _ =>
  }

  // No method of the operator advances a leader's commit index, and without that step no node
  // of any run ever commits an entry.
  lemma {:induction false} ShippedStepsCommitNothing(v: Variant, r: Run, i: nat)
    requires IsRun(v, r) && i < |r.states|
    requires forall j :: 0 <= j < i ==> !r.actions[j].AdvanceCommit?
    ensures NothingCommitted(r.states[i])
  {
    if 0 < i {
      ShippedStepsCommitNothing(v, r, i - 1);
      NothingCommittedStep(v, r.states[i - 1], r.actions[i - 1]);
    }
  }
}
