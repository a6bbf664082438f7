/**
 What the handlers of a node answer, said of the logs of the two sides: when a vote is given, when
 a batch is taken, and what a promotion and a step-down leave. Every law holds for every variant.
 */
module HandlerLaws {
  import opened RaftNode
  import opened RaftCluster
  import opened RaftAsWritten
  import opened LogMatching
  import opened PaperRules

  // ---- votes ----

  // The answer of `voter` to the request that a candidate with this log makes in term t.
  function Answer(voter: Node, candidateId: NodeId, t: int, log: Log): bool {
    HandleVoteRequest(voter, candidateId, t, |log|, if log == [] then 0 else log[|log| - 1].term).1
  }

  // A node that has not voted in term t, nor left it behind.
  predicate FreeIn(n: Node, t: int) {
    n.currentTerm < t || (n.currentTerm == t && n.votedFor == NOBODY)
  }

  // The last entry of `a` is of a later term, or of the same term in a log that is no shorter.
  predicate NoOlder(a: Log, b: Log) {
    var ta := if a == [] then 0 else a[|a| - 1].term;
    var tb := if b == [] then 0 else b[|b| - 1].term;
    ta > tb || (ta == tb && |a| >= |b|)
  }

  // A free node votes for a candidate if and only if the candidate's log is no older than its own.
  lemma FreeNodeVotesExactly(voter: Node, candidateId: NodeId, t: int, log: Log)
    requires FreeIn(voter, t)
    ensures Answer(voter, candidateId, t, log) <==> NoOlder(log, voter.log)
  {
  }

  // Of two nodes that are free in a term, one at least would vote for the other; both would only if
  // their logs end alike.
  lemma OneOfTwoVotes(a: Node, aId: NodeId, b: Node, bId: NodeId, t: int)
    requires FreeIn(a, t) && FreeIn(b, t)
    ensures Answer(a, bId, t, b.log) || Answer(b, aId, t, a.log)
    ensures Answer(a, bId, t, b.log) && Answer(b, aId, t, a.log) ==> |a.log| == |b.log|
  {
    FreeNodeVotesExactly(a, bId, t, b.log);
    FreeNodeVotesExactly(b, aId, t, a.log);
  }

  // A vote is given to one candidate of a term, who may ask again; every other is refused.
  lemma VoteIsKept(voter: Node, candidateId: NodeId, otherId: NodeId, t: int, log: Log, otherLog: Log)
    requires candidateId != NOBODY && Answer(voter, candidateId, t, log)
    ensures var n := HandleVoteRequest(voter, candidateId, t, |log|, if log == [] then 0 else log[|log| - 1].term).0;
            && n.currentTerm == t && n.log == voter.log
            && Answer(n, candidateId, t, log)
            && (otherId != candidateId ==> !Answer(n, otherId, t, otherLog))
  {
  }

  // A request of an old term is refused and changes nothing; one of a new term makes the node a
  // follower of that term, whether or not it gives its vote.
  lemma RequestedTermTaken(voter: Node, candidateId: NodeId, t: int, lastLogIndex: int, lastLogTerm: int)
    ensures var (n, granted) := HandleVoteRequest(voter, candidateId, t, lastLogIndex, lastLogTerm);
            && (t < voter.currentTerm ==> n == voter && !granted)
            && (t > voter.currentTerm ==>
                  n == voter.(currentTerm := t, role := Follower, votedFor := if granted then candidateId else NOBODY))
            && (t == voter.currentTerm && !granted ==> n == voter)
            && (t == voter.currentTerm && granted ==> n == voter.(votedFor := candidateId))
  {
  }

  // ---- batches ----

  // What a node makes of the window of `count` entries that a sender with this log, in term t, sends
  // after its first k entries.
  function Window(v: Variant, n: Node, t: int, sender: Log, k: nat, count: nat, leaderCommit: int): (Node, bool)
    requires k + count <= |sender|
  {
    HandleAppendEntries(v, n, t, k, if k == 0 then 0 else sender[k - 1].term, sender[k..k + count], leaderCommit)
  }

  // A window that fits is taken: of a sender whose term is not old and whose log up to the window is
  // the receiver's, the receiver becomes a follower of that term, and has the sender's log as far as
  // the window goes.
  lemma FittingWindowTaken(v: Variant, n: Node, t: int, sender: Log, k: nat, count: nat, leaderCommit: int)
    requires n.currentTerm <= t && k <= |n.log| && k + count <= |sender| && n.log[..k] == sender[..k]
    requires v.keepsSuffix ==> SameTermSameEntry(n.log, k, sender[k..k + count])
    ensures var (n', ok) := Window(v, n, t, sender, k, count, leaderCommit);
            && ok && n'.currentTerm == t && n'.role == Follower
            && k + count <= |n'.log| && n'.log[..k + count] == sender[..k + count]
            && (count == 0 ==> n'.log == n.log)
            && (0 < count && !v.keepsSuffix ==> n'.log == sender[..k + count])
  {
    if 0 < k {
      SamePlace(n.log, sender, k);
    }
    WindowLog(v, n.log, sender, k, count);
    TakenShape(v, n, t, k, if k == 0 then 0 else sender[k - 1].term, sender[k..k + count], leaderCommit);
  }

  lemma SamePlace(a: Log, b: Log, k: nat)
    requires 0 < k <= |a| && k <= |b| && a[..k] == b[..k]
    ensures a[k - 1] == b[k - 1]
  {
    assert a[..k][k - 1] == b[..k][k - 1];
  }

  lemma TakenShape(v: Variant, n: Node, t: int, k: nat, prevTerm: int, entries: Log, leaderCommit: int)
    requires n.currentTerm <= t && k <= |n.log| && (0 < k ==> n.log[k - 1].term == prevTerm)
    ensures var (n', ok) := HandleAppendEntries(v, n, t, k, prevTerm, entries, leaderCommit);
            && ok && n'.currentTerm == t && n'.role == Follower
            && n'.log == if entries == [] then n.log else NewLog(v, n.log, k, entries)
  {
  }

  lemma WindowLog(v: Variant, log: Log, sender: Log, k: nat, count: nat)
    requires k <= |log| && k + count <= |sender| && log[..k] == sender[..k]
    requires v.keepsSuffix ==> SameTermSameEntry(log, k, sender[k..k + count])
    ensures var log' := if sender[k..k + count] == [] then log else NewLog(v, log, k, sender[k..k + count]);
            && k + count <= |log'| && log'[..k + count] == sender[..k + count]
            && (count == 0 ==> log' == log)
            && (0 < count && !v.keepsSuffix ==> log' == sender[..k + count])
  {
    assert |sender[k..k + count]| == count;
    assert sender[..k] + sender[k..k + count] == sender[..k + count];
    if 0 < count && v.keepsSuffix {
      MergedShape(log, k, sender[k..k + count]);
    }
  }

  // A heartbeat that names no place is taken by any node that is not in a later term.
  lemma PlacelessHeartbeatTaken(v: Variant, n: Node, t: int, prevLogIndex: int, prevLogTerm: int, leaderCommit: int)
    requires n.currentTerm <= t && prevLogIndex <= 0
    ensures var (n', ok) := HandleAppendEntries(v, n, t, prevLogIndex, prevLogTerm, [], leaderCommit);
            ok && n'.currentTerm == t && n'.role == Follower && n'.log == n.log
  {
  }

  // Where equal terms at an index mean equal logs up to it, a window is taken only if it fits.
  lemma TakenExactly(v: Variant, n: Node, t: int, sender: Log, k: nat, count: nat, leaderCommit: int)
    requires k + count <= |sender|
    requires forall i :: 0 < i <= |sender| && i <= |n.log| && sender[i - 1].term == n.log[i - 1].term ==>
               sender[..i] == n.log[..i]
    ensures Window(v, n, t, sender, k, count, leaderCommit).1 <==>
            n.currentTerm <= t && k <= |n.log| && n.log[..k] == sender[..k]
  {
    if 0 < k <= |n.log| && n.log[..k] == sender[..k] {
      SamePlace(n.log, sender, k);
    }
    if k == 0 {
      assert n.log[..0] == sender[..0];
    }
  }

  // So in every state that keeps Log Matching: a leader's window is taken if and only if the receiver
  // has not gone to a later term and has the leader's log up to the window.
  lemma LeaderWindowTakenExactly(v: Variant, c: Cluster, leader: NodeId, id: NodeId, k: nat, count: nat)
    requires Logs(c) && leader in c.nodes && id in c.nodes && c.nodes[leader].role == Leader
    requires k + count <= |c.nodes[leader].log|
    ensures var l, n := c.nodes[leader], c.nodes[id];
            Window(v, n, l.currentTerm, l.log, k, count, l.commitIndex).1 <==>
            n.currentTerm <= l.currentTerm && k <= |n.log| && n.log[..k] == l.log[..k]
  {
    var l, n := c.nodes[leader], c.nodes[id];
    forall i | 0 < i <= |l.log| && i <= |n.log| && l.log[i - 1].term == n.log[i - 1].term
      ensures l.log[..i] == n.log[..i]
    {
      TracedAgree(c.reigns, l.log, n.log, i);
    }
    TakenExactly(v, n, l.currentTerm, l.log, k, count, l.commitIndex);
  }

  // An old sender is answered with false and changes nothing; any other makes the receiver a follower
  // of its term, even where the window does not fit, and the log then stays. A vote of an earlier term
  // is forgotten; one of the same term is too, where votes are not kept.
  lemma SenderObeyed(v: Variant, n: Node, t: int, sender: Log, k: nat, count: nat, leaderCommit: int)
    requires k + count <= |sender|
    ensures var (n', ok) := Window(v, n, t, sender, k, count, leaderCommit);
            && (t < n.currentTerm ==> n' == n && !ok)
            && (n.currentTerm <= t ==> n'.currentTerm == t && n'.role == Follower)
            && (n.currentTerm < t ==> n'.votedFor == NOBODY)
            && (n.currentTerm == t ==> n'.votedFor == if v.keepsVote then n.votedFor else NOBODY)
            && (!ok ==> n'.log == n.log && n'.commitIndex == n.commitIndex)
            && n'.nextIndex == n.nextIndex && n'.matchIndex == n.matchIndex
  {
  }

  // What the sender has committed, the receiver commits as far as its log goes, in the code as written.
  lemma CommitFollows(n: Node, t: int, sender: Log, k: nat, count: nat, leaderCommit: int)
    requires n.currentTerm <= t && k <= |n.log| && k + count <= |sender| && n.log[..k] == sender[..k] && 0 < count
    ensures var n' := Window(AS_WRITTEN, n, t, sender, k, count, leaderCommit).0;
            && (leaderCommit <= n.commitIndex ==> n'.commitIndex == n.commitIndex)
            && (n.commitIndex < leaderCommit <= k + count ==> n'.commitIndex == leaderCommit)
            && (n.commitIndex < leaderCommit && k + count < leaderCommit ==> n'.commitIndex == k + count)
  {
    FittingWindowTaken(AS_WRITTEN, n, t, sender, k, count, leaderCommit);
  }

  // ---- repair ----

  // From any sound state a leader can bring any node that is not in a later term to its own log, in
  // three steps: back to the first entry, one window with all entries, its delivery.
  lemma LeaderCanRepair(v: Variant, c: Cluster, leader: NodeId, id: NodeId)
    returns (c1: Cluster, m: Msg, c2: Cluster, c3: Cluster)
    requires Sound(c) && Logs(c) && leader in c.nodes && id in c.nodes && id != leader
    requires c.nodes[leader].role == Leader && c.nodes[id].currentTerm <= c.nodes[leader].currentTerm
    ensures StepsTo(v, c, SetNextIndex(leader, id, 1), c1)
    ensures StepsTo(v, c1, SendAppendEntries(leader, id, |c.nodes[leader].log|), c2)
    ensures StepsTo(v, c2, DeliverAppendEntries(m), c3)
    ensures id in c3.nodes && c3.nodes[id].role == Follower
    ensures c3.nodes[id].currentTerm == c.nodes[leader].currentTerm
    ensures c.nodes[leader].log <= c3.nodes[id].log
    ensures !v.keepsSuffix && c.nodes[leader].log != [] ==> c3.nodes[id].log == c.nodes[leader].log
  {
    c1 := GoesBack(v, c, leader, id);
    m, c2 := SendsAll(v, c1, leader, id);
    c3 := Takes(v, c2, id, m, c.nodes[leader].log);
  }

  predicate StepsTo(v: Variant, c: Cluster, a: Action, c': Cluster) {
    Enabled(v, c, a) && c' == Apply(v, c, a)
  }

  lemma GoesBack(v: Variant, c: Cluster, leader: NodeId, id: NodeId) returns (c': Cluster)
    requires leader in c.nodes && id in c.nodes && id != leader && c.nodes[leader].role == Leader && Logs(c)
    ensures StepsTo(v, c, SetNextIndex(leader, id, 1), c')
    ensures Logs(c') && c'.nodes.Keys == c.nodes.Keys && c'.nodes[id] == c.nodes[id]
    ensures c'.nodes[leader].role == Leader && c'.nodes[leader].log == c.nodes[leader].log
    ensures c'.nodes[leader].currentTerm == c.nodes[leader].currentTerm && NextIndex(c'.nodes[leader], id) == 1
  {
    var n := c.nodes[leader].(nextIndex := c.nodes[leader].nextIndex[id := 1]);
    LogsSetQuiet(c, leader, n);
    c' := SetNode(c, leader, n);
  }

  lemma SendsAll(v: Variant, c: Cluster, leader: NodeId, id: NodeId) returns (m: Msg, c': Cluster)
    requires leader in c.nodes && id in c.nodes && id != leader && c.nodes[leader].role == Leader
    requires NextIndex(c.nodes[leader], id) == 1 && Logs(c)
    ensures StepsTo(v, c, SendAppendEntries(leader, id, |c.nodes[leader].log|), c')
    ensures c'.nodes == c.nodes && c'.msgs == c.msgs + {m}
    ensures m.AppendEntries? && m.to == id && m.term == c.nodes[leader].currentTerm
    ensures m.prevLogIndex == 0 == m.prevLogTerm && m.entries == c.nodes[leader].log
    ensures SameTermSameEntry(c.nodes[id].log, 0, c.nodes[leader].log)
  {
    var log := c.nodes[leader].log;
    assert log[0..0 + |log|] == log;
    SameEntries(c, leader, id);
    m := AppendMessage(c.nodes[leader], leader, id, |log|);
    c' := Send(c, m);
  }

  lemma Takes(v: Variant, c: Cluster, id: NodeId, m: Msg, sender: Log) returns (c': Cluster)
    requires id in c.nodes && m in c.msgs && m.AppendEntries? && m.to == id && c.nodes[id].currentTerm <= m.term
    requires m.prevLogIndex == 0 == m.prevLogTerm && m.entries == sender
    requires SameTermSameEntry(c.nodes[id].log, 0, sender)
    ensures StepsTo(v, c, DeliverAppendEntries(m), c')
    ensures id in c'.nodes && c'.nodes[id].role == Follower && c'.nodes[id].currentTerm == m.term
    ensures sender <= c'.nodes[id].log
    ensures !v.keepsSuffix && sender != [] ==> c'.nodes[id].log == sender
  {
    assert sender[0..0 + |sender|] == sender && sender[..|sender|] == sender;
    FittingWindowTaken(v, c.nodes[id], m.term, sender, 0, |sender|, m.leaderCommit);
    c' := Receive(v, c, m);
  }

  lemma SameEntries(c: Cluster, a: NodeId, b: NodeId)
    requires Logs(c) && a in c.nodes && b in c.nodes
    ensures SameTermSameEntry(c.nodes[b].log, 0, c.nodes[a].log)
  {
    var m, n := c.nodes[a].log, c.nodes[b].log;
    forall i | 0 <= i < |m| && 0 + i < |n| && n[0 + i].term == m[i].term ensures n[0 + i] == m[i] {
      TracedAgree(c.reigns, m, n, i + 1);
      assert m[..i + 1][i] == n[..i + 1][i];
    }
  }

  // ---- promotion, step-down, majority ----

  // Standing for election is a new term, the own vote and the role, and nothing else.
  lemma StandingKeepsRest(n: Node, self: NodeId)
    ensures var c := StartElection(n, self);
            && c.role == Candidate && c.currentTerm == n.currentTerm + 1 && c.votedFor == self
            && c.log == n.log && c.commitIndex == n.commitIndex
            && c.nextIndex == n.nextIndex && c.matchIndex == n.matchIndex
  {
  }

  // A node that never led has noted nothing of a peer: its heartbeat would name no place.
  lemma UnknownPeerPlaceless(n: Node, self: NodeId, p: NodeId)
    requires p !in n.nextIndex
    ensures var m := AppendMessage(n, self, p, 0);
            m.prevLogIndex < 0 && m.prevLogTerm == 0 && m.entries == []
  {
  }

  // A new leader takes every other member to have its whole log, and to have confirmed nothing of it.
  lemma PromotedIndexes(n: Node, self: NodeId, members: set<NodeId>, p: NodeId)
    ensures var l := BecomeLeader(n, self, members);
            && l.role == Leader && l.currentTerm == n.currentTerm && l.votedFor == n.votedFor && l.log == n.log
            && l.commitIndex == n.commitIndex
            && (p in members && p != self ==>
                  p in l.nextIndex && l.nextIndex[p] == |n.log| + 1 && p in l.matchIndex && l.matchIndex[p] == 0)
            && (p !in members || p == self ==>
                  && (p in l.nextIndex <==> p in n.nextIndex) && (p in n.nextIndex ==> l.nextIndex[p] == n.nextIndex[p])
                  && (p in l.matchIndex <==> p in n.matchIndex)
                  && (p in n.matchIndex ==> l.matchIndex[p] == n.matchIndex[p]))
  {
  }

  // After the step-down no tally elects the node before it stands again, and only a leader stays one.
  lemma SteppedDownIsNotElected(v: Variant, c: Cluster, id: NodeId, t: int, votes: map<NodeId, Log>)
    requires id in c.nodes
    ensures var c' := SetNode(c, id, StepDown(c.nodes[id]));
            && !Elects(v, c', id, t, votes)
            && (c'.nodes[id].role == Leader <==> c.nodes[id].role == Leader)
            && c'.nodes[id] == c.nodes[id].(role := c'.nodes[id].role)
  {
  }

  // The fewest votes of which no two candidates can both have so many.
  lemma MajorityIsLeast(size: nat)
    ensures 2 * Majority(size) > size >= 2 * (Majority(size) - 1)
  {
  }
}
