/**
 What every run keeps, whichever of the five corrections are made: all the theorems of this
 module hold of the code as written as well.
 */
module RaftAsWritten {
  import opened RaftNode
  import opened RaftCluster

  // Terms from 1 to `bound`, never decreasing with the index.
  predicate TermsOrdered(log: Log, bound: int) {
    && (forall i :: 0 <= i < |log| ==> 1 <= log[i].term <= bound)
    && (forall i, j :: 0 <= i < j < |log| ==> log[i].term <= log[j].term)
  }

  // A candidate or a leader has voted for itself.
  predicate NodeOk(n: Node, self: NodeId) {
    && 0 <= n.currentTerm
    && TermsOrdered(n.log, n.currentTerm)
    && (n.role != Follower ==> n.votedFor == self && 1 <= n.currentTerm)
  }

  predicate NextIndexesOk(n: Node, self: NodeId, members: set<NodeId>) {
    && (forall p :: p in n.nextIndex ==> 1 <= n.nextIndex[p])
    && (n.role == Leader ==> forall p :: p in members && p != self ==> 1 <= NextIndex(n, p) <= |n.log| + 1)
  }

  // A window in flight: it continues, in term order, the entry it says it follows.
  predicate MsgOk(m: Msg, members: set<NodeId>) {
    && m.from in members
    && 0 <= m.term
    && (m.AppendEntries? ==>
          && 0 <= m.prevLogIndex
          && TermsOrdered(m.entries, m.term)
          && (0 < m.prevLogIndex && m.entries != [] ==> m.prevLogTerm <= m.entries[0].term))
  }

  ghost predicate Sound(c: Cluster) {
    && NOBODY !in c.nodes
    && (forall n :: n in c.nodes ==> NodeOk(c.nodes[n], n) && NextIndexesOk(c.nodes[n], n, c.nodes.Keys))
    && (forall m :: m in c.msgs ==> MsgOk(m, c.nodes.Keys))
    && (forall n, t :: (n, t) in c.ballots ==>
          1 <= t && n in c.ballots[(n, t)].votes && c.ballots[(n, t)].votes.Keys <= c.nodes.Keys)
    && (forall t :: t in c.reigns ==> 1 <= t)
  }

  lemma SoundInit(c: Cluster)
    requires Init(c)
    ensures Sound(c)
  {
  }

  // Overwriting from the first conflict on or from the start of the batch: the terms are the same.
  lemma MergedTerms(log: Log, at: nat, entries: Log)
    requires at <= |log|
    ensures Merged(log, at, entries) == log ||
            (|Merged(log, at, entries)| == at + |entries| &&
             forall i :: 0 <= i < at + |entries| ==> Merged(log, at, entries)[i].term == (log[..at] + entries)[i].term)
  {
  }

  lemma NewLogOrdered(v: Variant, log: Log, at: nat, entries: Log, bound: int)
    requires at <= |log| && TermsOrdered(log, bound) && TermsOrdered(entries, bound)
    requires 0 < at && entries != [] ==> log[at - 1].term <= entries[0].term
    ensures TermsOrdered(NewLog(v, log, at, entries), bound)
  {
    var all := log[..at] + entries;
    forall i, j | 0 <= i < j < |all| ensures all[i].term <= all[j].term {
      if i < at <= j {
        assert all[i].term <= log[at - 1].term <= entries[0].term;
      }
    }
    MergedTerms(log, at, entries);
  }

  // What AppendEntries leaves of a sound node is sound.
  lemma HandlerKeepsNodeOk(v: Variant, n: Node, self: NodeId, m: Msg, members: set<NodeId>)
    requires NodeOk(n, self) && m.AppendEntries? && MsgOk(m, members)
    ensures SliceInRange(n, m.term, m.prevLogIndex, m.entries)
    ensures NodeOk(HandleAppendEntries(v, n, m.term, m.prevLogIndex, m.prevLogTerm, m.entries, m.leaderCommit).0, self)
  {
    if Accepts(n, m.term, m.prevLogIndex, m.prevLogTerm) && m.entries != [] {
      NewLogOrdered(v, n.log, m.prevLogIndex, m.entries, m.term);
    }
  }

  // With a next index in range the window is the slice of the log that starts there.
  lemma WindowShape(n: Node, self: NodeId, p: NodeId, count: nat)
    requires 1 <= NextIndex(n, p) <= |n.log| + 1 && WindowInRange(n, p, count)
    ensures var m := AppendMessage(n, self, p, count);
            && 0 <= m.prevLogIndex && m.prevLogIndex + count <= |n.log|
            && m.entries == n.log[m.prevLogIndex..m.prevLogIndex + count]
            && m.prevLogTerm == PrevTerm(n.log, m.prevLogIndex)
  {
  }

  lemma SliceOrdered(log: Log, bound: int, from: nat, to: nat)
    requires TermsOrdered(log, bound) && from <= to <= |log|
    ensures TermsOrdered(log[from..to], bound)
    ensures 0 < from < to ==> log[from - 1].term <= log[from..to][0].term
  {
  }

  lemma WindowIsOk(n: Node, self: NodeId, p: NodeId, count: nat, members: set<NodeId>)
    requires NodeOk(n, self) && NextIndexesOk(n, self, members)
    requires n.role == Leader || (count == 0 && p in n.nextIndex)
    requires self in members && p in members && p != self && WindowInRange(n, p, count)
    ensures MsgOk(AppendMessage(n, self, p, count), members)
  {
    var prev := NextIndex(n, p) - 1;
    if n.role == Leader {
      WindowShape(n, self, p, count);
      SliceOrdered(n.log, n.currentTerm, prev, prev + count);
    }
  }

  lemma SoundSetNode(c: Cluster, id: NodeId, n: Node)
    requires Sound(c) && id in c.nodes
    requires NodeOk(n, id) && NextIndexesOk(n, id, c.nodes.Keys)
    ensures Sound(SetNode(c, id, n))
  {
    assert SetNode(c, id, n).nodes.Keys == c.nodes.Keys;
  }

  lemma SoundSend(c: Cluster, m: Msg)
    requires Sound(c) && MsgOk(m, c.nodes.Keys)
    ensures Sound(Send(c, m))
  {
  }

  lemma SoundBallot(c: Cluster, n: NodeId, t: int, b: Ballot)
    requires Sound(c) && 1 <= t && n in b.votes && b.votes.Keys <= c.nodes.Keys
    ensures Sound(SetBallot(c, n, t, b))
  {
  }

  lemma SoundReign(c: Cluster, t: int, r: Reign)
    requires Sound(c) && 1 <= t
    ensures Sound(SetReign(c, t, r))
  {
  }

  lemma SoundCast(c: Cluster, voter: NodeId, t: int, candidate: NodeId)
    requires Sound(c)
    ensures Sound(Cast(c, voter, t, candidate))
  {
  }

  lemma SoundElect(c: Cluster, n: NodeId)
    requires Sound(c) && n in c.nodes
    ensures Sound(Elect(c, n))
  {
    var node := StartElection(c.nodes[n], n);
    var b := Ballot({}, map[n := node.log]);
    SoundSetNode(c, n, node);
    SoundBallot(SetNode(c, n, node), n, node.currentTerm, b);
    SoundCast(SetBallot(SetNode(c, n, node), n, node.currentTerm, b), n, node.currentTerm, n);
  }

  lemma PromotedNodeOk(n: Node, self: NodeId, members: set<NodeId>)
    requires NodeOk(n, self) && NextIndexesOk(n, self, members) && n.role == Candidate
    ensures NodeOk(BecomeLeader(n, self, members), self) && NextIndexesOk(BecomeLeader(n, self, members), self, members)
  {
  }

  lemma SoundPromote(c: Cluster, n: NodeId, votes: map<NodeId, Log>)
    requires Sound(c) && n in c.nodes && c.nodes[n].role == Candidate
    ensures Sound(Promote(c, n, votes))
  {
    var node := BecomeLeader(c.nodes[n], n, c.nodes.Keys);
    PromotedNodeOk(c.nodes[n], n, c.nodes.Keys);
    SoundSetNode(c, n, node);
    SoundReign(SetNode(c, n, node), node.currentTerm, Reign(n, votes, node.log, node.log));
  }

  lemma SoundCount(v: Variant, c: Cluster, n: NodeId, t: int, p: NodeId, voterLog: Log)
    requires Sound(c) && n in c.nodes && (n, t) in c.ballots && p in c.nodes
    ensures Sound(Count(v, c, n, t, p, voterLog))
  {
    var b := c.ballots[(n, t)];
    var votes := b.votes[p := voterLog];
    SoundBallot(c, n, t, b.(votes := votes));
    if Elects(v, c, n, t, votes) {
      SoundPromote(SetBallot(c, n, t, b.(votes := votes)), n, votes);
    }
  }

  lemma SoundAskVote(c: Cluster, n: NodeId, t: int, p: NodeId)
    requires Sound(c) && n in c.nodes && (n, t) in c.ballots
    ensures Sound(AskVote(c, n, t, p))
  {
    var b := c.ballots[(n, t)];
    SoundBallot(c, n, t, b.(sent := b.sent + {p}));
  }

  lemma SoundVote(c: Cluster, m: Msg)
    requires Sound(c) && m in c.msgs && m.VoteRequest? && m.to in c.nodes
    ensures Sound(Vote(c, m))
  {
    var (node, granted) := HandleVoteRequest(c.nodes[m.to], m.from, m.term, m.lastLogIndex, m.lastLogTerm);
    SoundSetNode(c, m.to, node);
    if granted {
      var g := VoteGrant(m.to, m.from, m.term, node.log);
      SoundSend(SetNode(c, m.to, node), g);
      SoundCast(Send(SetNode(c, m.to, node), g), m.to, m.term, m.from);
    }
  }

  lemma SoundExtend(c: Cluster, n: NodeId, e: Entry)
    requires Sound(c) && n in c.nodes && c.nodes[n].role == Leader && e.term == c.nodes[n].currentTerm
    ensures Sound(Extend(c, n, e))
  {
    var node := c.nodes[n].(log := c.nodes[n].log + [e]);
    SoundSetNode(c, n, node);
  }

  lemma SoundSendAppend(c: Cluster, n: NodeId, p: NodeId, count: nat)
    requires Sound(c) && n in c.nodes && p in c.nodes && p != n
    requires c.nodes[n].role == Leader || (count == 0 && p in c.nodes[n].nextIndex)
    requires WindowInRange(c.nodes[n], p, count)
    ensures Sound(Send(c, AppendMessage(c.nodes[n], n, p, count)))
  {
    WindowIsOk(c.nodes[n], n, p, count, c.nodes.Keys);
    SoundSend(c, AppendMessage(c.nodes[n], n, p, count));
  }

  lemma SoundReceive(v: Variant, c: Cluster, m: Msg)
    requires Sound(c) && m in c.msgs && m.AppendEntries? && m.to in c.nodes
    ensures Sound(Receive(v, c, m))
  {
    HandlerKeepsNodeOk(v, c.nodes[m.to], m.to, m, c.nodes.Keys);
    SoundSetNode(c, m.to,
      HandleAppendEntries(v, c.nodes[m.to], m.term, m.prevLogIndex, m.prevLogTerm, m.entries, m.leaderCommit).0);
  }

  lemma SoundStep(v: Variant, c: Cluster, a: Action)
    requires Sound(c) && Enabled(v, c, a)
    ensures Sound(Apply(v, c, a))
  {
    match a
    case Timeout(n) => SoundElect(c, n);
    case SendVoteRequest(n, t, p) => SoundAskVote(c, n, t, p);
    case DeliverVoteRequest(m) => SoundVote(c, m);
    case CountVote(n, t, p, voterLog) => SoundCount(v, c, n, t, p, voterLog);
    case SendAppendEntries(n, p, count) => SoundSendAppend(c, n, p, count);
    case DeliverAppendEntries(m) => SoundReceive(v, c, m);
    case AppendEntry(n, e) => SoundExtend(c, n, e);
    case SetNextIndex(n, p, k) => SoundSetNode(c, n, c.nodes[n].(nextIndex := c.nodes[n].nextIndex[p := k]));
    case AdvanceCommit(n, k) => SoundSetNode(c, n, c.nodes[n].(commitIndex := k));
    case ForceStepDown(n) => SoundSetNode(c, n, StepDown(c.nodes[n]));
  }

  lemma {:induction false} SoundAlong(v: Variant, r: Run, i: nat)
    requires IsRun(v, r) && i < |r.states|
    ensures Sound(r.states[i])
  {
    if i == 0 {
      SoundInit(r.states[0]);
    } else {
      SoundAlong(v, r, i - 1);
      SoundStep(v, r.states[i - 1], r.actions[i - 1]);
    }
  }
}
