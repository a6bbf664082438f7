/**
 The vote test of section 5.4.1 of the extended Raft paper, over whole runs that keep to the vote
 rules: every vote that elected a leader came from a log no more recent than the log the leader was
 elected with, although requests are sent late and answered later still.
 */
module VoteRecency {
  import opened RaftNode
  import opened RaftCluster
  import opened VoteRules

  predicate NoMoreRecent(voterLog: Log, log: Log) {
    AtLeastAsRecent(|log|, LastTerm(log), voterLog)
  }

  // No request or grant runs ahead of the candidate's own term.
  ghost predicate RequestsInPast(c: Cluster) {
    forall m :: m in c.msgs ==>
      && (m.VoteRequest? ==> m.from in c.nodes && m.term <= c.nodes[m.from].currentTerm)
      && (m.VoteGrant? ==> m.to in c.nodes && m.term <= c.nodes[m.to].currentTerm)
  }

  // What is on its way to or from a candidate speaks about the log it has now.
  predicate AboutLog(n: Node, id: NodeId, m: Msg) {
    n.role == Candidate && m.term == n.currentTerm ==>
      && (m.VoteRequest? && m.from == id ==> m.lastLogIndex == |n.log| && m.lastLogTerm == LastTerm(n.log))
      && (m.VoteGrant? && m.to == id ==> NoMoreRecent(m.voterLog, n.log))
  }

  ghost predicate MessagesAboutLogs(c: Cluster) {
    forall m, n :: m in c.msgs && n in c.nodes ==> AboutLog(c.nodes[n], n, m)
  }

  predicate VotesNoMoreRecent(votes: map<NodeId, Log>, log: Log) {
    forall p :: p in votes ==> NoMoreRecent(votes[p], log)
  }

  predicate BallotAboutLog(c: Cluster, n: NodeId, t: int)
    requires n in c.nodes && (n, t) in c.ballots
  {
    c.nodes[n].role == Candidate && c.nodes[n].currentTerm == t ==>
      VotesNoMoreRecent(c.ballots[(n, t)].votes, c.nodes[n].log)
  }

  ghost predicate BallotsAboutLogs(c: Cluster) {
    forall n, t :: n in c.nodes && (n, t) in c.ballots ==> BallotAboutLog(c, n, t)
  }

  ghost predicate ReignsRecent(c: Cluster) {
    forall t :: t in c.reigns ==> VotesNoMoreRecent(c.reigns[t].votes, c.reigns[t].elected)
  }

  ghost predicate Recent(c: Cluster) {
    RequestsInPast(c) && MessagesAboutLogs(c) && BallotsAboutLogs(c) && ReignsRecent(c)
  }

  lemma RecentInit(c: Cluster)
    requires Init(c)
    ensures Recent(c)
  {
  }

  lemma RecentSetNode(c: Cluster, id: NodeId, n: Node)
    requires Recent(c) && id in c.nodes && c.nodes[id].currentTerm <= n.currentTerm
    requires n.role == Candidate ==>
               c.nodes[id].role == Candidate && n.currentTerm == c.nodes[id].currentTerm && n.log == c.nodes[id].log
    ensures Recent(SetNode(c, id, n))
  {
    var c' := SetNode(c, id, n);
    forall x, t | x in c'.nodes && (x, t) in c'.ballots ensures BallotAboutLog(c', x, t) {
      assert BallotAboutLog(c, x, t);
    }
    forall m, x | m in c'.msgs && x in c'.nodes ensures AboutLog(c'.nodes[x], x, m) {
      assert AboutLog(c.nodes[x], x, m);
    }
  }

  lemma RecentSend(c: Cluster, m: Msg)
    requires Recent(c)
    requires m.VoteRequest? ==> m.from in c.nodes && m.term <= c.nodes[m.from].currentTerm
    requires m.VoteGrant? ==> m.to in c.nodes && m.term <= c.nodes[m.to].currentTerm
    requires forall n :: n in c.nodes ==> AboutLog(c.nodes[n], n, m)
    ensures Recent(Send(c, m))
  {
    var c' := Send(c, m);
    forall x, t | x in c'.nodes && (x, t) in c'.ballots ensures BallotAboutLog(c', x, t) {
      assert BallotAboutLog(c, x, t);
    }
  }

  lemma RecentBallot(c: Cluster, n: NodeId, t: int, b: Ballot)
    requires Recent(c) && n in c.nodes
    requires c.nodes[n].role == Candidate && c.nodes[n].currentTerm == t ==> VotesNoMoreRecent(b.votes, c.nodes[n].log)
    ensures Recent(SetBallot(c, n, t, b))
  {
    var c' := SetBallot(c, n, t, b);
    forall x, u | x in c'.nodes && (x, u) in c'.ballots ensures BallotAboutLog(c', x, u) {
      assert (x, u) != (n, t) ==> BallotAboutLog(c, x, u);
    }
  }

  lemma RecentReign(c: Cluster, t: int, r: Reign)
    requires Recent(c) && VotesNoMoreRecent(r.votes, r.elected)
    ensures Recent(SetReign(c, t, r))
  {
    var c' := SetReign(c, t, r);
    forall x, u | x in c'.nodes && (x, u) in c'.ballots ensures BallotAboutLog(c', x, u) {
      assert BallotAboutLog(c, x, u);
    }
  }

  lemma RecentCast(c: Cluster, voter: NodeId, t: int, candidate: NodeId)
    requires Recent(c)
    ensures Recent(Cast(c, voter, t, candidate))
  {
    var c' := Cast(c, voter, t, candidate);
    forall x, u | x in c'.nodes && (x, u) in c'.ballots ensures BallotAboutLog(c', x, u) {
      assert BallotAboutLog(c, x, u);
    }
  }

  lemma RecentElect(c: Cluster, n: NodeId)
    requires Recent(c) && n in c.nodes
    ensures Recent(Elect(c, n))
  {
    var node := StartElection(c.nodes[n], n);
    var t := node.currentTerm;
    var b := Ballot({}, map[n := node.log]);
    // Aside as a follower in the new term: nothing is under way in a term nobody asked for yet.
    RecentSetNode(c, n, node.(role := Follower));
    var c1 := SetNode(c, n, node.(role := Follower));
    RecentBallot(c1, n, t, b);
    var c2 := Elect(c, n);
    forall m, x | m in c2.msgs && x in c2.nodes ensures AboutLog(c2.nodes[x], x, m) {
      assert AboutLog(c.nodes[x], x, m);
    }
    forall x, u | x in c2.nodes && (x, u) in c2.ballots ensures BallotAboutLog(c2, x, u) {
      assert (x, u) != (n, t) ==> BallotAboutLog(SetBallot(c1, n, t, b), x, u);
    }
  }

  lemma RecentAskVote(c: Cluster, n: NodeId, t: int, p: NodeId)
    requires Recent(c) && n in c.nodes && (n, t) in c.ballots
    ensures Recent(AskVote(c, n, t, p))
  {
    var b := c.ballots[(n, t)];
    assert BallotAboutLog(c, n, t);
    RecentBallot(c, n, t, b.(sent := b.sent + {p}));
    RecentSend(SetBallot(c, n, t, b.(sent := b.sent + {p})),
               VoteRequest(n, p, c.nodes[n].currentTerm, |c.nodes[n].log|, LastTerm(c.nodes[n].log)));
  }

  lemma RecentVote(c: Cluster, m: Msg)
    requires Recent(c) && m in c.msgs && m.VoteRequest? && m.to in c.nodes
    ensures Recent(Vote(c, m))
  {
    var (node, granted) := HandleVoteRequest(c.nodes[m.to], m.from, m.term, m.lastLogIndex, m.lastLogTerm);
    RecentSetNode(c, m.to, node);
    if granted {
      var c1 := SetNode(c, m.to, node);
      var g := VoteGrant(m.to, m.from, m.term, node.log);
      forall n | n in c1.nodes ensures AboutLog(c1.nodes[n], n, g) {
        assert AboutLog(c1.nodes[n], n, m);
      }
      RecentSend(c1, g);
      RecentCast(Send(c1, g), m.to, m.term, m.from);
    }
  }

  lemma RecentCount(v: Variant, c: Cluster, n: NodeId, t: int, p: NodeId, voterLog: Log)
    requires Recent(c) && Enabled(v, c, CountVote(n, t, p, voterLog)) && CountRule(v, c, n, t, p, voterLog)
    ensures Recent(Count(v, c, n, t, p, voterLog))
  {
    var b := c.ballots[(n, t)];
    var node := c.nodes[n];
    var votes := b.votes[p := voterLog];
    assert BallotAboutLog(c, n, t) && AboutLog(node, n, VoteGrant(p, n, t, voterLog));
    RecentBallot(c, n, t, b.(votes := votes));
    if Elects(v, c, n, t, votes) {
      var c1 := SetBallot(c, n, t, b.(votes := votes));
      var leader := BecomeLeader(node, n, c.nodes.Keys);
      RecentSetNode(c1, n, leader);
      RecentReign(SetNode(c1, n, leader), node.currentTerm, Reign(n, votes, node.log, node.log));
    }
  }

  lemma RecentExtend(c: Cluster, n: NodeId, e: Entry)
    requires Recent(c) && n in c.nodes && c.nodes[n].role == Leader
    ensures Recent(Extend(c, n, e))
  {
    var node := c.nodes[n].(log := c.nodes[n].log + [e]);
    var t := node.currentTerm;
    RecentSetNode(c, n, node);
    if t in c.reigns {
      RecentReign(SetNode(c, n, node), t, c.reigns[t].(log := node.log));
    }
  }

  lemma RecentStep(v: Variant, c: Cluster, a: Action)
    requires Recent(c) && Enabled(v, c, a) && RuledStep(v, c, a)
    ensures Recent(Apply(v, c, a))
  {
    match a
    case Timeout(n) => RecentElect(c, n);
    case SendVoteRequest(n, t, p) => RecentAskVote(c, n, t, p);
    case DeliverVoteRequest(m) => RecentVote(c, m);
    case CountVote(n, t, p, voterLog) => RecentCount(v, c, n, t, p, voterLog);
    case SendAppendEntries(n, p, count) => RecentSend(c, AppendMessage(c.nodes[n], n, p, count));
    case DeliverAppendEntries(m) =>
      if SliceInRange(c.nodes[m.to], m.term, m.prevLogIndex, m.entries) {
        RecentSetNode(c, m.to, HandleAppendEntries(v, c.nodes[m.to], m.term, m.prevLogIndex, m.prevLogTerm,
                                                   m.entries, m.leaderCommit).0);
      }
    case AppendEntry(n, e) => RecentExtend(c, n, e);
    case SetNextIndex(n, p, k) => RecentSetNode(c, n, c.nodes[n].(nextIndex := c.nodes[n].nextIndex[p := k]));
    case AdvanceCommit(n, k) => RecentSetNode(c, n, c.nodes[n].(commitIndex := k));
    case ForceStepDown(n) => RecentSetNode(c, n, StepDown(c.nodes[n]));
  }

  lemma {:induction false} RecentAlong(v: Variant, r: Run, i: nat)
    requires IsRun(v, r) && RuledRun(v, r) && i < |r.states|
    ensures Recent(r.states[i])
  {
    if i == 0 {
      RecentInit(r.states[0]);
    } else {
      RecentAlong(v, r, i - 1);
      RecentStep(v, r.states[i - 1], r.actions[i - 1]);
    }
  }
}
