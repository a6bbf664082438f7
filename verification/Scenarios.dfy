/**
 How to build runs: the moves the counterexamples are made of, for any variant.
 */
module Scenarios {
  import opened RaftNode
  import opened RaftCluster
  import opened LeaderCompleteness
  import opened CommittedEntries

  // A run in which leaders commit only what they have earned ends in this state.
  ghost predicate Reachable(v: Variant, c: Cluster) {
    exists r :: EndsIn(v, r, c)
  }

  ghost predicate EndsIn(v: Variant, r: Run, c: Cluster) {
    IsRun(v, r) && EarnedRun(r) && r.states[|r.states| - 1] == c
  }

  lemma RunExtended(v: Variant, r: Run, c: Cluster, a: Action)
    requires EndsIn(v, r, c) && Enabled(v, c, a) && EarnedCommit(c, a)
    ensures EndsIn(v, Run(r.states + [Apply(v, c, a)], r.actions + [a]), Apply(v, c, a))
  {
    var r' := Run(r.states + [Apply(v, c, a)], r.actions + [a]);
    forall i | 0 <= i < |r'.actions|
      ensures Enabled(v, r'.states[i], r'.actions[i]) && r'.states[i + 1] == Apply(v, r'.states[i], r'.actions[i])
      ensures EarnedCommit(r'.states[i], r'.actions[i])
    {
      if i < |r.actions| {
        assert r'.states[i] == r.states[i] && r'.states[i + 1] == r.states[i + 1] && r'.actions[i] == r.actions[i];
      }
    }
  }

  lemma ReachStep(v: Variant, c: Cluster, a: Action)
    requires Reachable(v, c) && Enabled(v, c, a) && EarnedCommit(c, a)
    ensures Reachable(v, Apply(v, c, a))
  {
    var r :| EndsIn(v, r, c);
    RunExtended(v, r, c, a);
  }

  function Start(x: NodeId, y: NodeId, z: NodeId): Cluster {
    Cluster(map[x := NEW_NODE, y := NEW_NODE, z := NEW_NODE], {}, map[], map[], map[], {})
  }

  predicate Three(x: NodeId, y: NodeId, z: NodeId) {
    x != y && y != z && x != z && x != NOBODY && y != NOBODY && z != NOBODY
  }

  lemma ReachStart(v: Variant, x: NodeId, y: NodeId, z: NodeId)
    requires Three(x, y, z)
    ensures Reachable(v, Start(x, y, z))
  {
    assert EndsIn(v, Run([Start(x, y, z)], []), Start(x, y, z));
  }

  lemma TwoOfThree(x: NodeId, y: NodeId, z: NodeId)
    requires Three(x, y, z)
    ensures |{x, y}| >= Majority(|{x, y, z}|)
  {
    assert |{x, y, z}| == 3 && |{x, y}| == 2;
  }

  lemma TwoCountedIsMajority(c: Cluster, x: NodeId, y: NodeId, z: NodeId, votes: map<NodeId, Log>)
    requires Three(x, y, z) && c.nodes.Keys == {x, y, z} && {x, y} <= votes.Keys
    ensures |votes.Keys| >= Majority(|c.nodes.Keys|)
  {
    TwoOfThree(x, y, z);
    assert votes.Keys == {x, y} + (votes.Keys - {x, y});
  }

  // Outside x and y the nodes are what they were, and so are the tallies not of (x, t).
  ghost predicate Elsewhere(c: Cluster, c': Cluster, x: NodeId, y: NodeId, t: int) {
    && c'.nodes.Keys == c.nodes.Keys
    && (forall n :: n in c.nodes && n != x && n != y ==> c'.nodes[n] == c.nodes[n])
    && c.msgs <= c'.msgs && c.held <= c'.held
    && (forall n, u :: (n, u) in c.ballots && (n, u) != (x, t) ==>
          (n, u) in c'.ballots && c'.ballots[(n, u)] == c.ballots[(n, u)])
  }

  lemma ElsewhereTwice(c: Cluster, c1: Cluster, c2: Cluster, x: NodeId, y: NodeId, t: int)
    requires Elsewhere(c, c1, x, y, t) && Elsewhere(c1, c2, x, x, t)
    ensures Elsewhere(c, c2, x, y, t)
  {
  }

  // A tally that has asked y and not counted it.
  predicate Asked(b: Ballot, x: NodeId, y: NodeId) {
    y in b.sent && x in b.votes && y !in b.votes
  }

  // ---- elections ----

  // x opens the election of the next term.
  lemma Stand(v: Variant, c: Cluster, x: NodeId, t: int) returns (c': Cluster)
    requires Reachable(v, c) && x in c.nodes && c.nodes[x].role != Leader && t == c.nodes[x].currentTerm + 1
    ensures Reachable(v, c') && Elsewhere(c, c', x, x, t)
    ensures c'.nodes[x] == StartElection(c.nodes[x], x)
    ensures (x, t) in c'.ballots && c'.ballots[(x, t)] == Ballot({}, map[x := c.nodes[x].log])
  {
    ReachStep(v, c, Timeout(x));
    c' := Elect(c, x);
  }

  // x asks y for its vote.
  lemma Ask(v: Variant, c: Cluster, x: NodeId, t: int, y: NodeId) returns (c': Cluster)
    requires Reachable(v, c) && x in c.nodes && y in c.nodes && x != y
    requires (x, t) in c.ballots && c.ballots[(x, t)].sent == {}
    ensures Reachable(v, c') && Elsewhere(c, c', x, x, t) && c'.nodes[x] == c.nodes[x]
    ensures VoteRequest(x, y, c.nodes[x].currentTerm, |c.nodes[x].log|, LastTerm(c.nodes[x].log)) in c'.msgs
    ensures (x, t) in c'.ballots && c'.ballots[(x, t)].votes == c.ballots[(x, t)].votes && y in c'.ballots[(x, t)].sent
  {
    ReachStep(v, c, SendVoteRequest(x, t, y));
    c' := AskVote(c, x, t, y);
  }

  // x stands for the next term and asks y.
  lemma StandAndAsk(v: Variant, c: Cluster, x: NodeId, y: NodeId, t: int) returns (c': Cluster)
    requires Reachable(v, c) && x in c.nodes && y in c.nodes && x != y
    requires c.nodes[x].role != Leader && t == c.nodes[x].currentTerm + 1
    ensures Reachable(v, c') && Elsewhere(c, c', x, x, t)
    ensures c'.nodes[x] == StartElection(c.nodes[x], x)
    ensures VoteRequest(x, y, t, |c.nodes[x].log|, LastTerm(c.nodes[x].log)) in c'.msgs
    ensures (x, t) in c'.ballots && Asked(c'.ballots[(x, t)], x, y)
  {
    var c1 := Stand(v, c, x, t);
    c' := Ask(v, c1, x, t, y);
    ElsewhereTwice(c, c1, c', x, x, t);
  }

  // y is free to vote in term t for a log that is as recent as this.
  predicate FreeFor(n: Node, t: int, log: Log) {
    && AtLeastAsRecent(|log|, LastTerm(log), n.log)
    && (n.currentTerm < t || (n.currentTerm == t && n.votedFor == NOBODY && n.role == Follower))
  }

  lemma Grant(v: Variant, c: Cluster, m: Msg, log: Log) returns (c': Cluster)
    requires Reachable(v, c) && m in c.msgs && m.VoteRequest? && m.to in c.nodes
    requires m.lastLogIndex == |log| && m.lastLogTerm == LastTerm(log) && FreeFor(c.nodes[m.to], m.term, log)
    ensures Reachable(v, c') && Elsewhere(c, c', m.to, m.to, m.term) && c'.ballots == c.ballots
    ensures c'.nodes[m.to] == c.nodes[m.to].(role := Follower, currentTerm := m.term, votedFor := m.from)
    ensures VoteGrant(m.to, m.from, m.term, c.nodes[m.to].log) in c'.msgs
  {
    ReachStep(v, c, DeliverVoteRequest(m));
    c' := Vote(c, m);
  }

  // A new leader: it has what it had, and takes the others to have it too.
  predicate Crowned(n: Node, n': Node, y: NodeId, z: NodeId) {
    && n' == n.(role := Leader, nextIndex := n'.nextIndex, matchIndex := n'.matchIndex)
    && NextIndex(n', y) == |n.log| + 1 && NextIndex(n', z) == |n.log| + 1
  }

  lemma CrownedLeader(n: Node, x: NodeId, y: NodeId, z: NodeId)
    requires Three(x, y, z)
    ensures Crowned(n, BecomeLeader(n, x, {x, y, z}), y, z)
  {
  }

  lemma CountElects(v: Variant, c: Cluster, x: NodeId, y: NodeId, z: NodeId, t: int, voterLog: Log)
    requires Three(x, y, z) && c.nodes.Keys == {x, y, z}
    requires (x, t) in c.ballots && Asked(c.ballots[(x, t)], x, y)
    requires c.nodes[x].role == Candidate && (v.checksTerm ==> c.nodes[x].currentTerm == t)
    ensures var c' := Count(v, c, x, t, y, voterLog);
            && c'.nodes == c.nodes[x := BecomeLeader(c.nodes[x], x, {x, y, z})] && c.held <= c'.held
            && c'.msgs == c.msgs
            && c'.ballots == c.ballots[(x, t) := c.ballots[(x, t)].(votes := c.ballots[(x, t)].votes[y := voterLog])]
  {
    TwoCountedIsMajority(c, x, y, z, c.ballots[(x, t)].votes[y := voterLog]);
  }

  // x counts y in the tally it opened for term t, and that elects it.
  lemma CountIn(v: Variant, c: Cluster, x: NodeId, y: NodeId, z: NodeId, t: int, voterLog: Log) returns (c': Cluster)
    requires Reachable(v, c) && Three(x, y, z) && c.nodes.Keys == {x, y, z}
    requires (x, t) in c.ballots && Asked(c.ballots[(x, t)], x, y)
    requires v.countsGrants ==> VoteGrant(y, x, t, voterLog) in c.msgs
    requires c.nodes[x].role == Candidate && (v.checksTerm ==> c.nodes[x].currentTerm == t)
    ensures Reachable(v, c') && Elsewhere(c, c', x, x, t)
    ensures Crowned(c.nodes[x], c'.nodes[x], y, z)
  {
    CountElects(v, c, x, y, z, t, voterLog);
    CrownedLeader(c.nodes[x], x, y, z);
    ReachStep(v, c, CountVote(x, t, y, voterLog));
    c' := Count(v, c, x, t, y, voterLog);
  }

  // x stands for the next term and y grants it its vote.
  lemma StandAndGrant(v: Variant, c: Cluster, x: NodeId, y: NodeId, t: int) returns (c': Cluster)
    requires Reachable(v, c) && x in c.nodes && y in c.nodes && x != y
    requires c.nodes[x].role != Leader && t == c.nodes[x].currentTerm + 1
    requires FreeFor(c.nodes[y], t, c.nodes[x].log)
    ensures Reachable(v, c') && Elsewhere(c, c', x, y, t)
    ensures c'.nodes[x] == StartElection(c.nodes[x], x)
    ensures c'.nodes[y] == c.nodes[y].(role := Follower, currentTerm := t, votedFor := x)
    ensures VoteGrant(y, x, t, c.nodes[y].log) in c'.msgs
    ensures (x, t) in c'.ballots && Asked(c'.ballots[(x, t)], x, y)
  {
    c' := StandAndAsk(v, c, x, y, t);
    c' := Grant(v, c', VoteRequest(x, y, t, |c.nodes[x].log|, LastTerm(c.nodes[x].log)), c.nodes[x].log);
  }

  // x stands, y grants, x counts y and leads.
  lemma Campaign(v: Variant, c: Cluster, x: NodeId, y: NodeId, z: NodeId, t: int) returns (c': Cluster)
    requires Reachable(v, c) && Three(x, y, z) && c.nodes.Keys == {x, y, z}
    requires c.nodes[x].role != Leader && t == c.nodes[x].currentTerm + 1
    requires FreeFor(c.nodes[y], t, c.nodes[x].log)
    ensures Reachable(v, c') && Elsewhere(c, c', x, y, t)
    ensures Crowned(StartElection(c.nodes[x], x), c'.nodes[x], y, z)
    ensures c'.nodes[y] == c.nodes[y].(role := Follower, currentTerm := t, votedFor := x)
  {
    var c1 := StandAndGrant(v, c, x, y, t);
    c' := CountIn(v, c1, x, y, z, t, c.nodes[y].log);
  }

  // x stands and counts y, to whom its request has only been sent.
  lemma CampaignUnanswered(v: Variant, c: Cluster, x: NodeId, y: NodeId, z: NodeId, t: int) returns (c': Cluster)
    requires Reachable(v, c) && !v.countsGrants && Three(x, y, z) && c.nodes.Keys == {x, y, z}
    requires c.nodes[x].role != Leader && t == c.nodes[x].currentTerm + 1
    ensures Reachable(v, c') && Elsewhere(c, c', x, x, t)
    ensures Crowned(StartElection(c.nodes[x], x), c'.nodes[x], y, z)
  {
    var c1 := StandAndAsk(v, c, x, y, t);
    c' := CountIn(v, c1, x, y, z, t, []);
  }

  // ---- entries ----

  lemma Append(v: Variant, c: Cluster, x: NodeId, e: Entry) returns (c': Cluster)
    requires Reachable(v, c) && x in c.nodes && c.nodes[x].role == Leader && e.term == c.nodes[x].currentTerm
    ensures Reachable(v, c') && Elsewhere(c, c', x, x, 0)
    ensures c'.nodes[x] == c.nodes[x].(log := c.nodes[x].log + [e])
    ensures (x, e.term, |c.nodes[x].log| + 1) in c'.held
  {
    ReachStep(v, c, AppendEntry(x, e));
    c' := Extend(c, x, e);
    assert (x, e.term, |c.nodes[x].log| + 1) in HeldBy(x, c'.nodes[x]);
  }

  lemma SendBatch(v: Variant, c: Cluster, x: NodeId, y: NodeId, count: nat) returns (c': Cluster)
    requires Reachable(v, c) && x in c.nodes && y in c.nodes && x != y
    requires c.nodes[x].role == Leader && WindowInRange(c.nodes[x], y, count)
    ensures Reachable(v, c') && c'.nodes == c.nodes && c'.ballots == c.ballots && Elsewhere(c, c', y, y, 0)
    ensures AppendMessage(c.nodes[x], x, y, count) in c'.msgs
  {
    ReachStep(v, c, SendAppendEntries(x, y, count));
    c' := Send(c, AppendMessage(c.nodes[x], x, y, count));
  }

  // A batch from the start of the log, or a heartbeat that checks nothing, is always accepted.
  lemma TakeBatch(v: Variant, c: Cluster, m: Msg) returns (c': Cluster)
    requires Reachable(v, c) && m in c.msgs && m.AppendEntries? && m.to in c.nodes && m.prevLogIndex == 0
    requires c.nodes[m.to].currentTerm <= m.term
    ensures Reachable(v, c') && Elsewhere(c, c', m.to, m.to, 0) && c'.ballots == c.ballots
    ensures var n := c.nodes[m.to];
            var log := if m.entries == [] then n.log else NewLog(v, n.log, 0, m.entries);
            c'.nodes[m.to] == Follow(v, n, m.term).(
              log := log, commitIndex := NewCommit(v, n.commitIndex, m.leaderCommit, |log|, |m.entries|))
    ensures HeldBy(m.to, c'.nodes[m.to]) <= c'.held
  {
    ReachStep(v, c, DeliverAppendEntries(m));
    c' := Receive(v, c, m);
  }

  lemma FirstBatch(v: Variant, entries: Log)
    ensures entries != [] ==> NewLog(v, [], 0, entries) == entries
  {
  }

  // x sends y its first `count` entries, and y takes them at once.
  lemma Replicate(v: Variant, c: Cluster, x: NodeId, y: NodeId, count: nat) returns (c': Cluster)
    requires Reachable(v, c) && x in c.nodes && y in c.nodes && x != y
    requires c.nodes[x].role == Leader && NextIndex(c.nodes[x], y) == 1 && 0 < count <= |c.nodes[x].log|
    requires c.nodes[x].commitIndex == 0 == c.nodes[y].commitIndex
    requires c.nodes[y].currentTerm <= c.nodes[x].currentTerm && (c.nodes[y].log == [] || !v.keepsSuffix)
    ensures Reachable(v, c') && Elsewhere(c, c', y, y, 0)
    ensures c'.nodes[y].log == c.nodes[x].log[..count] && c'.nodes[y].role == Follower
    ensures c'.nodes[y].currentTerm == c.nodes[x].currentTerm && c'.nodes[y].commitIndex == 0
    ensures HeldBy(y, c'.nodes[y]) <= c'.held
  {
    var m := AppendMessage(c.nodes[x], x, y, count);
    assert m.entries == c.nodes[x].log[..count];
    FirstBatch(v, m.entries);
    var c1 := SendBatch(v, c, x, y, count);
    c' := TakeBatch(v, c1, m);
  }

  // x's heartbeat from the start of the log reaches y in x's term.
  lemma Heartbeat(v: Variant, c: Cluster, x: NodeId, y: NodeId) returns (c': Cluster)
    requires Reachable(v, c) && x in c.nodes && y in c.nodes && x != y
    requires c.nodes[x].role == Leader && NextIndex(c.nodes[x], y) == 1
    requires c.nodes[y].currentTerm <= c.nodes[x].currentTerm
    ensures Reachable(v, c') && Elsewhere(c, c', y, y, 0) && c'.ballots == c.ballots
    ensures var n := c.nodes[y];
            c'.nodes[y] == Follow(v, n, c.nodes[x].currentTerm).(
              commitIndex := NewCommit(v, n.commitIndex, c.nodes[x].commitIndex, |n.log|, 0))
  {
    var m := AppendMessage(c.nodes[x], x, y, 0);
    var c1 := SendBatch(v, c, x, y, 0);
    c' := TakeBatch(v, c1, m);
  }

  // x commits what x and y hold in x's term.
  lemma Commit(v: Variant, c: Cluster, x: NodeId, y: NodeId, z: NodeId, w: NodeId, k: int) returns (c': Cluster)
    requires Reachable(v, c) && Three(x, y, z) && c.nodes.Keys == {x, y, z} && w in c.nodes
    requires c.nodes[w].role == Leader && c.nodes[w].commitIndex <= k <= |c.nodes[w].log|
    requires (x, c.nodes[w].currentTerm, k) in c.held && (y, c.nodes[w].currentTerm, k) in c.held
    ensures Reachable(v, c') && Elsewhere(c, c', w, w, 0)
    ensures c'.nodes[w] == c.nodes[w].(commitIndex := k)
  {
    TwoOfThree(x, y, z);
    assert HeldByMajority(c, {x, y}, c.nodes[w].currentTerm, k);
    ReachStep(v, c, AdvanceCommit(w, k));
    c' := SetNode(c, w, c.nodes[w].(commitIndex := k));
  }

  // x starts again with y from the first entry.
  lemma Rewind(v: Variant, c: Cluster, x: NodeId, y: NodeId) returns (c': Cluster)
    requires Reachable(v, c) && x in c.nodes && y in c.nodes && x != y && c.nodes[x].role == Leader
    ensures Reachable(v, c') && Elsewhere(c, c', x, x, 0)
    ensures c'.nodes[x] == c.nodes[x].(nextIndex := c.nodes[x].nextIndex[y := 1])
  {
    ReachStep(v, c, SetNextIndex(x, y, 1));
    c' := SetNode(c, x, c.nodes[x].(nextIndex := c.nodes[x].nextIndex[y := 1]));
  }
}
