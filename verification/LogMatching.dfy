/**
 Log Matching (section 5.3 of the extended Raft paper), for the runs of any variant
 that keep to the vote rules.

 The invariant is stronger than the property: whatever a log holds up to an entry of term t is
 what the leader of term t held up to there.
 */
module LogMatching {
  import opened RaftNode
  import opened RaftCluster
  import opened VoteRules
  import opened RaftAsWritten
  import opened PaperRules
  import opened ElectionSafety

  // Up to its i-th entry, `log` is a prefix of what the leader of that entry's term had.
  predicate Traced(reigns: map<int, Reign>, log: Log, i: int)
    requires 1 <= i <= |log|
  {
    var t := log[i - 1].term;
    t in reigns && i <= |reigns[t].log| && log[..i] == reigns[t].log[..i]
  }

  predicate AllTraced(reigns: map<int, Reign>, log: Log) {
    forall i :: 1 <= i <= |log| ==> Traced(reigns, log, i)
  }

  // A leader starts from older entries and adds entries of its own term.
  predicate ReignLog(t: int, r: Reign) {
    && r.elected <= r.log
    && (forall i :: 0 <= i < |r.elected| ==> r.elected[i].term < t)
    && (forall i :: |r.elected| <= i < |r.log| ==> r.log[i].term == t)
  }

  predicate LeadsWith(reigns: map<int, Reign>, n: Node) {
    n.role == Leader ==> n.currentTerm in reigns && n.log == reigns[n.currentTerm].log
  }

  // A leader of term t had an entry of this term at this place.
  predicate PlaceTraced(reigns: map<int, Reign>, i: int, t: int) {
    0 < i && t != 0 ==> t in reigns && i <= |reigns[t].log| && reigns[t].log[i - 1].term == t
  }

  // A window in flight names a real place, and what it carries is a slice of the log of the leader
  // of its term. (A late heartbeat carries nothing, and may be of a term without a leader.)
  predicate WindowTraced(reigns: map<int, Reign>, m: Msg) {
    m.AppendEntries? ==>
      && 0 <= m.prevLogIndex
      && PlaceTraced(reigns, m.prevLogIndex, m.prevLogTerm)
      && (m.entries != [] ==>
            && m.term in reigns
            && m.prevLogIndex + |m.entries| <= |reigns[m.term].log|
            && m.entries == reigns[m.term].log[m.prevLogIndex..m.prevLogIndex + |m.entries|]
            && m.prevLogTerm == PrevTerm(reigns[m.term].log, m.prevLogIndex))
  }

  ghost predicate NodesTraced(c: Cluster) {
    forall n :: n in c.nodes ==> AllTraced(c.reigns, c.nodes[n].log) && LeadsWith(c.reigns, c.nodes[n])
  }

  ghost predicate ReignsTraced(c: Cluster) {
    forall t :: t in c.reigns ==> ReignLog(t, c.reigns[t]) && AllTraced(c.reigns, c.reigns[t].log)
  }

  ghost predicate WindowsTraced(c: Cluster) {
    forall m :: m in c.msgs ==> WindowTraced(c.reigns, m)
  }

  ghost predicate Logs(c: Cluster) {
    NodesTraced(c) && ReignsTraced(c) && WindowsTraced(c)
  }

  predicate OnlyLeader(c: Cluster, n: NodeId)
    requires n in c.nodes
  {
    forall x :: x in c.nodes && x != n && c.nodes[x].role == Leader ==> c.nodes[x].currentTerm != c.nodes[n].currentTerm
  }

  // History is only ever added to.
  predicate ReignGrows(r: Reign, r': Reign) {
    r.leader == r'.leader && r.votes == r'.votes && r.elected == r'.elected && r.log <= r'.log
  }

  ghost predicate ReignsGrow(r: map<int, Reign>, r': map<int, Reign>) {
    forall t :: t in r ==> t in r' && ReignGrows(r[t], r'[t])
  }

  lemma TracedGrows(r: map<int, Reign>, r': map<int, Reign>, log: Log)
    requires ReignsGrow(r, r') && AllTraced(r, log)
    ensures AllTraced(r', log)
  {
    forall i | 1 <= i <= |log| ensures Traced(r', log, i) {
      assert Traced(r, log, i);
    }
  }

  // Two traced logs with the same term at the same index agree up to there.
  lemma TracedAgree(reigns: map<int, Reign>, a: Log, b: Log, i: int)
    requires AllTraced(reigns, a) && AllTraced(reigns, b)
    requires 1 <= i <= |a| && i <= |b| && a[i - 1].term == b[i - 1].term
    ensures a[..i] == b[..i]
  {
    assert Traced(reigns, a, i) && Traced(reigns, b, i);
  }

  lemma PrefixTraced(reigns: map<int, Reign>, log: Log, k: int)
    requires AllTraced(reigns, log) && 0 <= k <= |log|
    ensures AllTraced(reigns, log[..k])
  {
    forall i | 1 <= i <= k ensures Traced(reigns, log[..k], i) {
      assert Traced(reigns, log, i);
      assert log[..k][..i] == log[..i];
    }
  }

  lemma LogsInit(c: Cluster)
    requires Init(c)
    ensures Logs(c)
  {
  }

  lemma LogsSetNode(c: Cluster, id: NodeId, n: Node)
    requires Logs(c) && id in c.nodes && AllTraced(c.reigns, n.log) && LeadsWith(c.reigns, n)
    ensures Logs(SetNode(c, id, n))
  {
  }

  // Nothing but nodes, messages and reigns matters here.
  lemma LogsSame(c: Cluster, c': Cluster)
    requires Logs(c) && c'.nodes == c.nodes && c'.reigns == c.reigns
    requires forall m :: m in c'.msgs && m !in c.msgs ==> WindowTraced(c.reigns, m)
    ensures Logs(c')
  {
  }

  lemma WindowGrows(r: map<int, Reign>, r': map<int, Reign>, m: Msg)
    requires ReignsGrow(r, r') && WindowTraced(r, m)
    ensures WindowTraced(r', m)
  {
  }

  // What an accepted, non-empty batch makes of a log: a prefix of the sender's.
  lemma BatchIsPrefix(c: Cluster, n: Node, m: Msg)
    requires Logs(c) && AllTraced(c.reigns, n.log) && m in c.msgs && m.AppendEntries?
    requires PrevMatches(n.log, m.prevLogIndex, m.prevLogTerm) && m.entries != []
    ensures m.term in c.reigns && 0 <= m.prevLogIndex <= m.prevLogIndex + |m.entries| <= |c.reigns[m.term].log|
    ensures m.prevLogIndex <= |n.log|
    ensures n.log[..m.prevLogIndex] + m.entries == c.reigns[m.term].log[..m.prevLogIndex + |m.entries|]
  {
    assert WindowTraced(c.reigns, m);
    var leaderLog := c.reigns[m.term].log;
    if 0 < m.prevLogIndex {
      TracedAgree(c.reigns, n.log, leaderLog, m.prevLogIndex);
    }
    assert leaderLog[..m.prevLogIndex + |m.entries|] ==
           leaderLog[..m.prevLogIndex] + leaderLog[m.prevLogIndex..m.prevLogIndex + |m.entries|];
  }

  // Same term at the same index in a batch and in the log it meets: the same entry.
  lemma OverlapIsSame(c: Cluster, n: Node, m: Msg)
    requires Logs(c) && AllTraced(c.reigns, n.log) && m in c.msgs && m.AppendEntries? && m.entries != []
    requires PrevMatches(n.log, m.prevLogIndex, m.prevLogTerm)
    ensures 0 <= m.prevLogIndex <= |n.log| && SameTermSameEntry(n.log, m.prevLogIndex, m.entries)
  {
    BatchIsPrefix(c, n, m);
    var at := m.prevLogIndex;
    var leaderLog := c.reigns[m.term].log;
    forall i | 0 <= i < |m.entries| && at + i < |n.log| && n.log[at + i].term == m.entries[i].term
      ensures n.log[at + i] == m.entries[i]
    {
      assert m.entries[i] == leaderLog[at + i];
      TracedAgree(c.reigns, n.log, leaderLog, at + i + 1);
      assert n.log[..at + i + 1][at + i] == leaderLog[..at + i + 1][at + i];
    }
  }

  // What an accepted batch leaves: the log as it was, which the batch repeats, or a prefix of the
  // sender's log.
  lemma BatchOutcome(v: Variant, c: Cluster, n: Node, m: Msg)
    requires Logs(c) && AllTraced(c.reigns, n.log) && m in c.msgs && m.AppendEntries? && m.entries != []
    requires PrevMatches(n.log, m.prevLogIndex, m.prevLogTerm)
    ensures m.term in c.reigns && 0 <= m.prevLogIndex <= |n.log|
    ensures var log := NewLog(v, n.log, m.prevLogIndex, m.entries);
            var reach := m.prevLogIndex + |m.entries|;
            && reach <= |log| && reach <= |c.reigns[m.term].log| && log[..reach] == c.reigns[m.term].log[..reach]
            && (log == n.log || log == c.reigns[m.term].log[..reach])
  {
    BatchIsPrefix(c, n, m);
    OverlapIsSame(c, n, m);
    MergedShape(n.log, m.prevLogIndex, m.entries);
  }

  // Of a log that begins like the sender's, what an accepted batch keeps.
  lemma PrefixKeptExactly(v: Variant, log: Log, at: nat, entries: Log, leaderLog: Log, i: nat)
    requires at <= |log| && entries != [] && SameTermSameEntry(log, at, entries)
    requires at + |entries| <= |leaderLog| && log[..at] + entries == leaderLog[..at + |entries|]
    requires i <= |log| && i <= |leaderLog| && log[..i] == leaderLog[..i]
    ensures log[..i] <= NewLog(v, log, at, entries) <==> v.keepsSuffix || i <= at + |entries|
  {
    var reach := at + |entries|;
    MergedShape(log, at, entries);
    if reach < i {
      assert leaderLog[..i][..reach] == leaderLog[..reach] == log[..i][..reach] == log[..reach];
      TruncationAgreesExactly(log, at, entries);
      assert log[..i] <= log;
    } else {
      assert leaderLog[..reach][..i] == log[..i];
      assert log[..i] <= log;
    }
  }

  // An entry the sender has too stays in the follower's log if and only if the batch reaches it,
  // or nothing is deleted without a conflict.
  lemma BatchKeepsExactly(v: Variant, c: Cluster, n: Node, m: Msg, i: nat)
    requires Logs(c) && AllTraced(c.reigns, n.log) && m in c.msgs && m.AppendEntries? && m.entries != []
    requires PrevMatches(n.log, m.prevLogIndex, m.prevLogTerm) && m.term in c.reigns && 0 <= m.prevLogIndex <= |n.log|
    requires i <= |n.log| && i <= |c.reigns[m.term].log| && n.log[..i] == c.reigns[m.term].log[..i]
    ensures n.log[..i] <= NewLog(v, n.log, m.prevLogIndex, m.entries) <==>
            v.keepsSuffix || i <= m.prevLogIndex + |m.entries|
  {
    BatchIsPrefix(c, n, m);
    OverlapIsSame(c, n, m);
    PrefixKeptExactly(v, n.log, m.prevLogIndex, m.entries, c.reigns[m.term].log, i);
  }

  lemma LogsReceive(v: Variant, c: Cluster, m: Msg)
    requires Logs(c) && m in c.msgs && m.AppendEntries? && m.to in c.nodes
    ensures Logs(Receive(v, c, m))
  {
    var n := c.nodes[m.to];
    assert WindowTraced(c.reigns, m);
    var n' := HandleAppendEntries(v, n, m.term, m.prevLogIndex, m.prevLogTerm, m.entries, m.leaderCommit).0;
    if Accepts(n, m.term, m.prevLogIndex, m.prevLogTerm) && m.entries != [] {
      BatchOutcome(v, c, n, m);
      PrefixTraced(c.reigns, c.reigns[m.term].log, m.prevLogIndex + |m.entries|);
    }
    LogsSetNode(c, m.to, n');
  }

  lemma LogsSendWindow(c: Cluster, n: NodeId, m: Msg)
    requires Logs(c) && n in c.nodes && c.nodes[n].role == Leader
    requires m.AppendEntries? && m.term == c.nodes[n].currentTerm
    requires 0 <= m.prevLogIndex <= m.prevLogIndex + |m.entries| <= |c.nodes[n].log|
    requires m.entries == c.nodes[n].log[m.prevLogIndex..m.prevLogIndex + |m.entries|]
    requires m.prevLogTerm == PrevTerm(c.nodes[n].log, m.prevLogIndex)
    ensures Logs(Send(c, m))
  {
    assert LeadsWith(c.reigns, c.nodes[n]);
    PlaceInLog(c, c.nodes[n].log, m.prevLogIndex);
    LogsSame(c, Send(c, m));
  }

  lemma PlaceInLog(c: Cluster, log: Log, i: int)
    requires AllTraced(c.reigns, log)
    ensures PlaceTraced(c.reigns, i, PrevTerm(log, i))
  {
    if 0 < i <= |log| {
      assert Traced(c.reigns, log, i);
      assert log[i - 1] == log[..i][i - 1] == c.reigns[log[i - 1].term].log[..i][i - 1];
    }
  }

  lemma LogsSendLate(c: Cluster, n: NodeId, m: Msg)
    requires Logs(c) && n in c.nodes && m.AppendEntries? && m.entries == [] && 0 <= m.prevLogIndex
    requires m.prevLogTerm == PrevTerm(c.nodes[n].log, m.prevLogIndex)
    ensures Logs(Send(c, m))
  {
    PlaceInLog(c, c.nodes[n].log, m.prevLogIndex);
    LogsSame(c, Send(c, m));
  }

  lemma LogsSendAppend(v: Variant, c: Cluster, n: NodeId, p: NodeId, count: nat)
    requires Sound(c) && Logs(c) && Enabled(v, c, SendAppendEntries(n, p, count))
    ensures Logs(Send(c, AppendMessage(c.nodes[n], n, p, count)))
  {
    assert NextIndexesOk(c.nodes[n], n, c.nodes.Keys);
    if c.nodes[n].role == Leader {
      WindowShape(c.nodes[n], n, p, count);
      LogsSendWindow(c, n, AppendMessage(c.nodes[n], n, p, count));
    } else {
      LogsSendLate(c, n, AppendMessage(c.nodes[n], n, p, count));
    }
  }

  // A change of history that only adds keeps everything already traced.
  lemma LogsReign(c: Cluster, t: int, r: Reign)
    requires Logs(c) && ReignLog(t, r) && AllTraced(c.reigns[t := r], r.log)
    requires t in c.reigns ==> ReignGrows(c.reigns[t], r)
    requires forall n :: n in c.nodes && c.nodes[n].role == Leader && c.nodes[n].currentTerm == t ==>
               c.nodes[n].log == r.log
    ensures Logs(SetReign(c, t, r))
  {
    var reigns := c.reigns[t := r];
    forall n | n in c.nodes ensures AllTraced(reigns, c.nodes[n].log) {
      TracedGrows(c.reigns, reigns, c.nodes[n].log);
    }
    forall u | u in reigns ensures ReignLog(u, reigns[u]) && AllTraced(reigns, reigns[u].log) {
      if u != t { TracedGrows(c.reigns, reigns, c.reigns[u].log); }
    }
    forall m | m in c.msgs ensures WindowTraced(reigns, m) {
      WindowGrows(c.reigns, reigns, m);
    }
  }

  lemma LogsPromote(c: Cluster, n: NodeId, votes: map<NodeId, Log>)
    requires Logs(c) && n in c.nodes && c.nodes[n].currentTerm !in c.reigns
    requires TermsOrdered(c.nodes[n].log, c.nodes[n].currentTerm)
    ensures Logs(Promote(c, n, votes))
  {
    var node := c.nodes[n];
    var t := node.currentTerm;
    var r := Reign(n, votes, node.log, node.log);
    TracedGrows(c.reigns, c.reigns[t := r], node.log);
    forall i | 0 <= i < |node.log| ensures node.log[i].term < t {
      assert Traced(c.reigns, node.log, i + 1);
    }
    LogsReign(c, t, r);
    var leader := BecomeLeader(node, n, c.nodes.Keys);
    LogsSetNode(SetReign(c, t, r), n, leader);
    LogsSame(SetNode(SetReign(c, t, r), n, leader), Promote(c, n, votes));
  }

  lemma ExtendedTraced(reigns: map<int, Reign>, t: int, r: Reign, e: Entry)
    requires t in reigns && r == reigns[t].(log := reigns[t].log + [e]) && e.term == t
    requires AllTraced(reigns, reigns[t].log)
    ensures AllTraced(reigns[t := r], r.log)
  {
    var log := reigns[t].log;
    var reigns' := reigns[t := r];
    forall i | 1 <= i <= |r.log| ensures Traced(reigns', r.log, i) {
      if i <= |log| {
        assert Traced(reigns, log, i);
        assert r.log[..i] == log[..i];
      }
    }
  }

  lemma LeaderIsAlone(c: Cluster, n: NodeId)
    requires Elections(c) && n in c.nodes && c.nodes[n].role == Leader
    ensures OnlyLeader(c, n)
  {
    assert RoleOnRecord(c, n, c.nodes[n]);
    forall x | x in c.nodes && x != n && c.nodes[x].role == Leader
      ensures c.nodes[x].currentTerm != c.nodes[n].currentTerm
    {
      assert RoleOnRecord(c, x, c.nodes[x]);
    }
  }

  lemma LogsExtend(c: Cluster, n: NodeId, e: Entry)
    requires Logs(c) && n in c.nodes && c.nodes[n].role == Leader && e.term == c.nodes[n].currentTerm
    requires OnlyLeader(c, n)
    ensures Logs(Extend(c, n, e))
  {
    var node := c.nodes[n];
    var t := node.currentTerm;
    assert LeadsWith(c.reigns, node);
    var log := node.log + [e];
    var r := c.reigns[t].(log := log);
    ExtendedTraced(c.reigns, t, r, e);
    // As a follower while its reign is extended, then back in charge with the longer log.
    var aside := SetNode(c, n, node.(role := Follower));
    LogsSetNode(c, n, node.(role := Follower));
    LogsReign(aside, t, r);
    LogsSetNode(SetReign(aside, t, r), n, node.(log := log));
    LogsSame(SetNode(SetReign(aside, t, r), n, node.(log := log)), Extend(c, n, e));
  }

  lemma LogsCount(v: Variant, c: Cluster, n: NodeId, t: int, p: NodeId, voterLog: Log)
    requires Sound(c) && Elections(c) && Logs(c)
    requires Enabled(v, c, CountVote(n, t, p, voterLog)) && CountRule(v, c, n, t, p, voterLog)
    ensures Logs(Count(v, c, n, t, p, voterLog))
  {
    var b := c.ballots[(n, t)];
    var votes := b.votes[p := voterLog];
    var c1 := SetBallot(c, n, t, b.(votes := votes));
    LogsSame(c, c1);
    if Elects(v, c, n, t, votes) {
      assert Voted(c, p, t, n);
      assert Tally(c, t, n, votes);
      FirstElection(c, n, votes);
      LogsPromote(c1, n, votes);
    }
  }

  lemma LogsAskVote(c: Cluster, n: NodeId, t: int, p: NodeId)
    requires Logs(c) && n in c.nodes && (n, t) in c.ballots
    ensures Logs(AskVote(c, n, t, p))
  {
    LogsSame(c, AskVote(c, n, t, p));
  }

  lemma LogsSetQuiet(c: Cluster, id: NodeId, n: Node)
    requires Logs(c) && id in c.nodes && n.log == c.nodes[id].log
    requires n.role == Leader ==> c.nodes[id].role == Leader && n.currentTerm == c.nodes[id].currentTerm
    ensures Logs(SetNode(c, id, n))
  {
    LogsSetNode(c, id, n);
  }

  lemma LogsVote(c: Cluster, m: Msg)
    requires Logs(c) && m.VoteRequest? && m.to in c.nodes
    ensures Logs(Vote(c, m))
  {
    var (node, granted) := HandleVoteRequest(c.nodes[m.to], m.from, m.term, m.lastLogIndex, m.lastLogTerm);
    LogsSetNode(c, m.to, node);
    LogsSame(SetNode(c, m.to, node), Vote(c, m));
  }

  lemma LogsElect(c: Cluster, n: NodeId)
    requires Logs(c) && n in c.nodes
    ensures Logs(Elect(c, n))
  {
    LogsSetNode(c, n, StartElection(c.nodes[n], n));
    LogsSame(SetNode(c, n, StartElection(c.nodes[n], n)), Elect(c, n));
  }

  lemma LogsStep(v: Variant, c: Cluster, a: Action)
    requires Sound(c) && Elections(c) && Logs(c) && Enabled(v, c, a) && RuledStep(v, c, a)
    ensures Logs(Apply(v, c, a))
  {
    match a
    case Timeout(n) => LogsElect(c, n);
    case SendVoteRequest(n, t, p) => LogsAskVote(c, n, t, p);
    case DeliverVoteRequest(m) => LogsVote(c, m);
    case CountVote(n, t, p, voterLog) => LogsCount(v, c, n, t, p, voterLog);
    case SendAppendEntries(n, p, count) => LogsSendAppend(v, c, n, p, count);
    case DeliverAppendEntries(m) => LogsReceive(v, c, m);
    case AppendEntry(n, e) =>
      LeaderIsAlone(c, n);
      LogsExtend(c, n, e);
    case SetNextIndex(n, p, k) => LogsSetQuiet(c, n, c.nodes[n].(nextIndex := c.nodes[n].nextIndex[p := k]));
    case AdvanceCommit(n, k) => LogsSetQuiet(c, n, c.nodes[n].(commitIndex := k));
    case ForceStepDown(n) => LogsSetQuiet(c, n, StepDown(c.nodes[n]));
  }

  lemma {:induction false} LogsAlong(v: Variant, r: Run, i: nat)
    requires IsRun(v, r) && RuledRun(v, r) && i < |r.states|
    ensures Sound(r.states[i]) && Elections(r.states[i]) && Logs(r.states[i])
  {
    ElectionsAlong(v, r, i);
    if i == 0 {
      LogsInit(r.states[0]);
    } else {
      LogsAlong(v, r, i - 1);
      LogsStep(v, r.states[i - 1], r.actions[i - 1]);
    }
  }
}
