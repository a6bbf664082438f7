/**
 A run of the code as written that meets every condition its safety theorems have: a leader is
 elected, the follower takes its heartbeat and its entry, the entry is committed, and the next
 leader has it.
 */
module OrdinaryRuns {
  import opened RaftNode
  import opened RaftCluster
  import opened VoteRules
  import opened CorrectedElections
  import opened LeaderCompleteness
  import opened CommittedEntries

  ghost predicate Ordinary(r: Run) {
    && IsRun(AS_WRITTEN, r) && RuledRun(AS_WRITTEN, r) && FreshRun(AS_WRITTEN, r)
    && EarnedRun(r) && CheckedRun(AS_WRITTEN, r)
  }

  ghost predicate EndsAt(r: Run, c: Cluster) {
    Ordinary(r) && r.states[|r.states| - 1] == c
  }

  ghost predicate OrdinaryState(c: Cluster) {
    exists r :: EndsAt(r, c)
  }

  ghost predicate OrdinaryStep(c: Cluster, a: Action) {
    && Enabled(AS_WRITTEN, c, a) && RuledStep(AS_WRITTEN, c, a) && FreshStep(AS_WRITTEN, c, a)
    && EarnedCommit(c, a) && CheckedCommit(AS_WRITTEN, c, a)
  }

  lemma Extended(r: Run, c: Cluster, a: Action)
    requires EndsAt(r, c) && OrdinaryStep(c, a)
    ensures EndsAt(Run(r.states + [Apply(AS_WRITTEN, c, a)], r.actions + [a]), Apply(AS_WRITTEN, c, a))
  {
    var r' := Run(r.states + [Apply(AS_WRITTEN, c, a)], r.actions + [a]);
    forall i | 0 <= i < |r'.actions|
      ensures OrdinaryStep(r'.states[i], r'.actions[i])
      ensures r'.states[i + 1] == Apply(AS_WRITTEN, r'.states[i], r'.actions[i])
    {
      if i < |r.actions| {
        assert r'.states[i] == r.states[i] && r'.states[i + 1] == r.states[i + 1] && r'.actions[i] == r.actions[i];
      }
    }
  }

  lemma Step(c: Cluster, a: Action)
    requires OrdinaryState(c) && OrdinaryStep(c, a)
    ensures OrdinaryState(Apply(AS_WRITTEN, c, a))
  {
    var r :| EndsAt(r, c);
    Extended(r, c, a);
  }

  lemma NoLaterVote(c: Cluster, p: NodeId, t: int)
    requires OrdinaryState(c) && p in c.nodes && c.nodes[p].currentTerm < t
    ensures (p, t) !in c.cast
  {
    var r :| EndsAt(r, c);
    CastsInPastAlong(AS_WRITTEN, r, |r.states| - 1);
  }

  function Pair(x: NodeId, y: NodeId): Cluster {
    Cluster(map[x := NEW_NODE, y := NEW_NODE], {}, map[], map[], map[], {})
  }

  ghost predicate Two(c: Cluster, x: NodeId, y: NodeId) {
    OrdinaryState(c) && x != y && c.nodes.Keys == {x, y}
  }

  lemma StartOfTwo(x: NodeId, y: NodeId)
    requires x != y && x != NOBODY && y != NOBODY
    ensures Two(Pair(x, y), x, y)
  {
    assert EndsAt(Run([Pair(x, y)], []), Pair(x, y));
  }

  // ---- an election ----

  // x may ask y for its vote in the next term, and y would give it.
  predicate MayStand(c: Cluster, x: NodeId, y: NodeId, t: int)
    requires x in c.nodes && y in c.nodes
  {
    && c.nodes[x].role != Leader && t == c.nodes[x].currentTerm + 1 && c.nodes[y].currentTerm < t
    && AtLeastAsRecent(|c.nodes[x].log|, LastTerm(c.nodes[x].log), c.nodes[y].log)
  }

  lemma Asks(c: Cluster, x: NodeId, y: NodeId, t: int) returns (c': Cluster)
    requires Two(c, x, y) && MayStand(c, x, y, t)
    ensures Two(c', x, y) && c.held <= c'.held
    ensures c'.nodes == c.nodes[x := StartElection(c.nodes[x], x)]
    ensures (x, t) in c'.ballots && c'.ballots[(x, t)] == Ballot({y}, map[x := c.nodes[x].log])
    ensures VoteRequest(x, y, t, |c.nodes[x].log|, LastTerm(c.nodes[x].log)) in c'.msgs
  {
    Step(c, Timeout(x));
    var c1 := Elect(c, x);
    assert {} + {y} == {y};
    Step(c1, SendVoteRequest(x, t, y));
    c' := AskVote(c1, x, t, y);
  }

  lemma Grants(c: Cluster, x: NodeId, y: NodeId, t: int, m: Msg) returns (c': Cluster)
    requires Two(c, x, y) && m in c.msgs && m.VoteRequest? && m.from == x && m.to == y && m.term == t
    requires c.nodes[y].currentTerm < t && AtLeastAsRecent(m.lastLogIndex, m.lastLogTerm, c.nodes[y].log)
    ensures Two(c', x, y) && c.held <= c'.held && c'.ballots == c.ballots
    ensures c'.nodes == c.nodes[y := c.nodes[y].(role := Follower, currentTerm := t, votedFor := x)]
    ensures VoteGrant(y, x, t, c.nodes[y].log) in c'.msgs
  {
    NoLaterVote(c, y, t);
    Step(c, DeliverVoteRequest(m));
    c' := Vote(c, m);
  }

  lemma TwoElect(c: Cluster, x: NodeId, y: NodeId, t: int, log: Log, voterLog: Log)
    requires x != y && c.nodes.Keys == {x, y} && c.nodes[x].role == Candidate
    ensures Elects(AS_WRITTEN, c, x, t, map[x := log][y := voterLog])
  {
    assert map[x := log][y := voterLog].Keys == {x, y} && |{x, y}| == 2;
  }

  lemma Promoted(c: Cluster, x: NodeId, y: NodeId, t: int, log: Log, voterLog: Log)
    requires x != y && c.nodes.Keys == {x, y} && c.nodes[x].role == Candidate
    requires (x, t) in c.ballots && c.ballots[(x, t)] == Ballot({y}, map[x := log])
    ensures var c' := Count(AS_WRITTEN, c, x, t, y, voterLog);
            c'.nodes == c.nodes[x := BecomeLeader(c.nodes[x], x, {x, y})] && c.held <= c'.held
  {
    TwoElect(c, x, y, t, log, voterLog);
  }

  lemma CountIsOrdinary(c: Cluster, x: NodeId, y: NodeId, t: int, voterLog: Log)
    requires OrdinaryState(c) && x in c.nodes && y in c.nodes && (x, t) in c.ballots
    requires y in c.ballots[(x, t)].sent && y !in c.ballots[(x, t)].votes && VoteGrant(y, x, t, voterLog) in c.msgs
    requires c.nodes[x].currentTerm == t
    ensures OrdinaryState(Count(AS_WRITTEN, c, x, t, y, voterLog))
  {
    Step(c, CountVote(x, t, y, voterLog));
  }

  lemma Counts(c: Cluster, x: NodeId, y: NodeId, t: int, log: Log, voterLog: Log) returns (c': Cluster)
    requires Two(c, x, y) && VoteGrant(y, x, t, voterLog) in c.msgs
    requires (x, t) in c.ballots && c.ballots[(x, t)] == Ballot({y}, map[x := log])
    requires c.nodes[x].role == Candidate && c.nodes[x].currentTerm == t
    ensures Two(c', x, y) && c.held <= c'.held
    ensures c'.nodes == c.nodes[x := BecomeLeader(c.nodes[x], x, {x, y})]
  {
    Promoted(c, x, y, t, log, voterLog);
    CountIsOrdinary(c, x, y, t, voterLog);
    c' := Count(AS_WRITTEN, c, x, t, y, voterLog);
  }

  lemma Wins(c: Cluster, x: NodeId, y: NodeId, t: int) returns (c': Cluster)
    requires Two(c, x, y) && MayStand(c, x, y, t)
    ensures Two(c', x, y) && c.held <= c'.held
    ensures c'.nodes[x] == BecomeLeader(StartElection(c.nodes[x], x), x, {x, y})
    ensures c'.nodes[y] == c.nodes[y].(role := Follower, currentTerm := t, votedFor := x)
  {
    var log := c.nodes[x].log;
    var c1 := Asks(c, x, y, t);
    var c2 := Grants(c1, x, y, t, VoteRequest(x, y, t, |log|, LastTerm(log)));
    c' := Counts(c2, x, y, t, log, c.nodes[y].log);
  }

  // ---- replication ----

  // x, leading with nothing committed, sends y what it has from the first entry on.
  lemma Sends(c: Cluster, x: NodeId, y: NodeId, count: nat) returns (c': Cluster)
    requires Two(c, x, y) && c.nodes[x].role == Leader && c.nodes[x].commitIndex == 0 == c.nodes[y].commitIndex
    requires NextIndex(c.nodes[x], y) == 1 && count <= |c.nodes[x].log|
    requires c.nodes[y].currentTerm <= c.nodes[x].currentTerm && c.nodes[y].log == []
    ensures Two(c', x, y) && c.held <= c'.held
    ensures c'.nodes[x] == c.nodes[x]
    ensures c'.nodes[y] == Follow(AS_WRITTEN, c.nodes[y], c.nodes[x].currentTerm).(log := c.nodes[x].log[..count])
    ensures HeldBy(y, c'.nodes[y]) <= c'.held
  {
    var m := AppendMessage(c.nodes[x], x, y, count);
    assert m.entries == c.nodes[x].log[..count];
    Step(c, SendAppendEntries(x, y, count));
    c' := Takes(Send(c, m), x, y, m);
  }

  // y, with an empty log, takes a batch from the first entry on.
  lemma Takes(c: Cluster, x: NodeId, y: NodeId, m: Msg) returns (c': Cluster)
    requires Two(c, x, y) && m in c.msgs && m.AppendEntries? && m.to == y && m.prevLogIndex == 0 == m.leaderCommit
    requires c.nodes[y].currentTerm <= m.term && c.nodes[y].log == [] && c.nodes[y].commitIndex == 0
    ensures Two(c', x, y) && c.held <= c'.held
    ensures c'.nodes == c.nodes[y := Follow(AS_WRITTEN, c.nodes[y], m.term).(log := m.entries)]
    ensures HeldBy(y, c'.nodes[y]) <= c'.held
  {
    assert [] + m.entries == m.entries;
    Step(c, DeliverAppendEntries(m));
    c' := Receive(AS_WRITTEN, c, m);
  }

  lemma Writes(c: Cluster, x: NodeId, y: NodeId, e: Entry) returns (c': Cluster)
    requires Two(c, x, y) && c.nodes[x].role == Leader && e.term == c.nodes[x].currentTerm
    ensures Two(c', x, y) && c.held <= c'.held
    ensures c'.nodes == c.nodes[x := c.nodes[x].(log := c.nodes[x].log + [e])]
    ensures HeldBy(x, c'.nodes[x]) <= c'.held
  {
    Step(c, AppendEntry(x, e));
    c' := Extend(c, x, e);
  }

  lemma Commits(c: Cluster, x: NodeId, y: NodeId, t: int) returns (c': Cluster)
    requires Two(c, x, y) && c.nodes[x].role == Leader && c.nodes[x].commitIndex == 0 < |c.nodes[x].log|
    requires t == c.nodes[x].currentTerm && (x, t, 1) in c.held && (y, t, 1) in c.held
    ensures Two(c', x, y) && c.held <= c'.held && c'.nodes == c.nodes[x := c.nodes[x].(commitIndex := 1)]
    ensures HeldByMajority(c', {x, y}, t, 1)
  {
    assert |{x, y}| == 2;
    assert HeldByMajority(c, {x, y}, t, 1);
    Step(c, AdvanceCommit(x, 1));
    c' := SetNode(c, x, c.nodes[x].(commitIndex := 1));
  }

  // x, elected by y, has had its heartbeat taken.
  lemma Heard(x: NodeId, y: NodeId) returns (c: Cluster)
    requires x != y && x != NOBODY && y != NOBODY
    ensures Two(c, x, y) && Leads(c, x, 1)
    ensures c.nodes[x].log == [] && c.nodes[x].commitIndex == 0 && NextIndex(c.nodes[x], y) == 1
    ensures c.nodes[y] == NEW_NODE.(currentTerm := 1)
  {
    StartOfTwo(x, y);
    var c1 := Wins(Pair(x, y), x, y, 1);
    c := Sends(c1, x, y, 0);
  }

  lemma Committed(x: NodeId, y: NodeId, e: Entry) returns (c: Cluster)
    requires x != y && x != NOBODY && y != NOBODY && e.term == 1
    ensures Two(c, x, y) && HeldByMajority(c, {x, y}, 1, 1)
    ensures c.nodes[x].log == [e] && c.nodes[x].commitIndex == 1 && c.nodes[x].currentTerm == 1
    ensures c.nodes[y] == NEW_NODE.(currentTerm := 1, log := [e])
  {
    var c1 := Heard(x, y);
    var c2 := Writes(c1, x, y, e);
    assert (x, 1, 1) in HeldBy(x, c2.nodes[x]);
    var c3 := Sends(c2, x, y, 1);
    assert (y, 1, 1) in HeldBy(y, c3.nodes[y]);
    c := Commits(c3, x, y, 1);
  }

  // In a cluster of two: a run that meets all conditions, in which both nodes hold an entry of term 1,
  // it is committed, and the follower, who forgot its vote at the first heartbeat, leads term 2.
  lemma ConditionsCanBeMet(x: NodeId, y: NodeId)
    requires x != y && x != NOBODY && y != NOBODY
    ensures exists r, c :: EndsAt(r, c) && HeldByMajority(c, {x, y}, 1, 1) && Leads(c, y, 2)
              && c.nodes.Keys == {x, y} && c.nodes[x].commitIndex == 1
  {
    var c1 := Committed(x, y, Entry(1, 0, ""));
    var c2 := Wins(c1, y, x, 2);
    var r :| EndsAt(r, c2);
    assert HeldByMajority(c2, {x, y}, 1, 1);
  }
}
