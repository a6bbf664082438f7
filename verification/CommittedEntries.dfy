/**
 State Machine Safety (section 5.4.3 of the extended Raft paper): what two nodes have committed is
 the same, over the runs of any variant that keep to the vote rules, in which leaders commit what
 they have earned and no accepted message deletes or commits more than it has checked. With all
 five corrections only what leaders commit remains a condition.
 */
module CommittedEntries {
  import opened RaftNode
  import opened RaftCluster
  import opened VoteRules
  import opened RaftAsWritten
  import opened ElectionSafety
  import opened LogMatching
  import opened VoteRecency
  import opened LeaderCompleteness
  import opened RaftSafety
  import opened CommitIndex

  // A leader only commits an entry of its own term that a majority has accepted.
  ghost predicate EarnedCommit(c: Cluster, a: Action) {
    a.AdvanceCommit? && a.n in c.nodes ==>
      a.k == c.nodes[a.n].commitIndex || exists q :: HeldByMajority(c, q, c.nodes[a.n].currentTerm, a.k)
  }

  ghost predicate EarnedRun(r: Run) {
    |r.states| == |r.actions| + 1 && forall i :: 0 <= i < |r.actions| ==> EarnedCommit(r.states[i], r.actions[i])
  }

  // A message does not raise a commit index past the place it has checked.
  predicate CheckedCommit(v: Variant, c: Cluster, a: Action) {
    a.DeliverAppendEntries? && a.m.AppendEntries? && a.m.to in c.nodes ==>
      var n := c.nodes[a.m.to];
      Accepts(n, a.m.term, a.m.prevLogIndex, a.m.prevLogTerm) && 0 <= a.m.prevLogIndex ==>
        var k := AcceptedCommit(v, n, a.m);
        k <= n.commitIndex || k <= a.m.prevLogIndex + |a.m.entries|
  }

  ghost predicate CheckedRun(v: Variant, r: Run) {
    |r.states| == |r.actions| + 1 && forall i :: 0 <= i < |r.actions| ==> CheckedCommit(v, r.states[i], r.actions[i])
  }

  lemma BoundedIsChecked(v: Variant, r: Run)
    requires v.boundsCommit && |r.states| == |r.actions| + 1
    ensures CheckedRun(v, r)
  {
  }

  // What an accepting follower makes of its log and its commit index.
  function AcceptedLog(v: Variant, n: Node, m: Msg): Log
    requires m.AppendEntries? && 0 <= m.prevLogIndex <= |n.log|
  {
    if m.entries == [] then n.log else NewLog(v, n.log, m.prevLogIndex, m.entries)
  }

  function AcceptedCommit(v: Variant, n: Node, m: Msg): int
    requires m.AppendEntries? && 0 <= m.prevLogIndex <= |n.log|
  {
    NewCommit(v, n.commitIndex, m.leaderCommit, |AcceptedLog(v, n, m)|, m.prevLogIndex + |m.entries|)
  }

  // Some majority has accepted, in a term up to `last`, entries that start with log[..k].
  ghost predicate BackedBy(c: Cluster, log: Log, k: int, last: int, q: set<NodeId>, t: int, i: int) {
    && HeldByMajority(c, q, t, i)
    && t <= last && t in c.reigns
    && 0 <= k <= i <= |c.reigns[t].log| && k <= |log|
    && log[..k] == c.reigns[t].log[..k]
  }

  ghost predicate Backed(c: Cluster, log: Log, k: int, last: int) {
    k == 0 || exists q, t, i :: BackedBy(c, log, k, last, q, t, i)
  }

  ghost predicate NodesBacked(c: Cluster) {
    forall n :: n in c.nodes ==>
      && 0 <= c.nodes[n].commitIndex <= |c.nodes[n].log|
      && Backed(c, c.nodes[n].log, c.nodes[n].commitIndex, c.nodes[n].currentTerm)
  }

  // The log a message speaks for, up to the place it reaches, has what the message says is committed.
  ghost predicate VouchedFor(c: Cluster, t: int, reach: int, leaderCommit: int, last: int) {
    && t in c.reigns && 0 <= reach <= |c.reigns[t].log|
    && Backed(c, c.reigns[t].log, Min(leaderCommit, reach), last)
  }

  ghost predicate MsgBacked(c: Cluster, m: Msg) {
    m.AppendEntries? ==>
      && 0 <= m.leaderCommit
      && (m.entries != [] ==> VouchedFor(c, m.term, m.prevLogIndex + |m.entries|, m.leaderCommit, m.term))
      && (m.entries == [] && 0 < m.prevLogIndex && m.prevLogTerm != 0 ==>
            VouchedFor(c, m.prevLogTerm, m.prevLogIndex, m.leaderCommit, m.term))
  }

  ghost predicate MsgsBacked(c: Cluster) {
    forall m :: m in c.msgs ==> MsgBacked(c, m)
  }

  lemma BackedGrows(c: Cluster, c': Cluster, log: Log, log': Log, k: int, last: int, last': int)
    requires Grows(c, c') && Backed(c, log, k, last) && 0 <= k <= |log|
    requires k <= |log'| && log'[..k] == log[..k] && last <= last'
    ensures Backed(c', log', k, last')
  {
    if k != 0 {
      var q, t, i :| BackedBy(c, log, k, last, q, t, i);
      assert BackedBy(c', log', k, last', q, t, i);
    }
  }

  // A later leader's log contains what a majority accepted.
  lemma LaterReignKeeps(c: Cluster, q: set<NodeId>, t: int, i: int, s: int)
    requires Elections(c) && Logs(c) && Recent(c) && Memory(c)
    requires HeldByMajority(c, q, t, i) && t <= s && s in c.reigns
    ensures Keeps(c.reigns, c.reigns[s].log, t, i)
  {
    assert q != {};
    var v :| v in q;
    assert (v, t, i) in c.held && OwnEntry(c.reigns, t, i);
    if t < s { ElectedComplete(c, q, t, i, s); }
    SenderKeeps(c, s, t, i);
  }

  lemma ShorterPrefix(a: Log, b: Log, i: int, k: int)
    requires 0 <= k <= i <= |a| && i <= |b| && a[..i] == b[..i]
    ensures a[..k] == b[..k]
  {
    assert a[..k] == a[..i][..k] && b[..k] == b[..i][..k];
  }

  // What is committed is at the start of every later leader's log.
  lemma BackedInReign(c: Cluster, log: Log, k: int, last: int, s: int)
    requires Elections(c) && Logs(c) && Recent(c) && Memory(c)
    requires 0 < k <= |log| && Backed(c, log, k, last) && s in c.reigns && last <= s
    ensures k <= |c.reigns[s].log| && c.reigns[s].log[..k] == log[..k]
  {
    var q, t, i :| BackedBy(c, log, k, last, q, t, i);
    LaterReignKeeps(c, q, t, i, s);
    ShorterPrefix(c.reigns[s].log, c.reigns[t].log, i, k);
  }

  // An accepted batch that is not stale keeps what the follower had committed.
  lemma BatchKeepsPrefix(log: Log, log': Log, r: Log, k: int)
    requires 0 <= k <= |log| && k <= |r| && log[..k] == r[..k] && log' <= r && !(log' < log)
    ensures k <= |log'| && log'[..k] == log[..k]
  {
    if |log'| < k {
      ShortIsPrefix(log, log', r, k);
    } else {
      ShorterPrefix(log', r, |log'|, k);
    }
  }

  // What one step leaves in the acting node, given what it left on record.
  lemma SetNodeBacked(c: Cluster, c': Cluster, id: NodeId, n: Node)
    requires NodesBacked(c) && Grows(c, c') && id in c.nodes && c'.nodes == c.nodes[id := n]
    requires 0 <= n.commitIndex <= |n.log| && Backed(c', n.log, n.commitIndex, n.currentTerm)
    ensures NodesBacked(c')
  {
    forall x | x in c'.nodes && x != id
      ensures Backed(c', c'.nodes[x].log, c'.nodes[x].commitIndex, c'.nodes[x].currentTerm)
    {
      var o := c.nodes[x];
      BackedGrows(c, c', o.log, o.log, o.commitIndex, o.currentTerm, o.currentTerm);
    }
  }

  lemma QuietBacked(c: Cluster, c': Cluster, id: NodeId, n: Node)
    requires NodesBacked(c) && Grows(c, c') && id in c.nodes && c'.nodes == c.nodes[id := n]
    requires c.nodes[id].log <= n.log && n.commitIndex == c.nodes[id].commitIndex
    requires c.nodes[id].currentTerm <= n.currentTerm
    ensures NodesBacked(c')
  {
    var o := c.nodes[id];
    BackedGrows(c, c', o.log, n.log, o.commitIndex, o.currentTerm, n.currentTerm);
    SetNodeBacked(c, c', id, n);
  }

  lemma VouchedGrows(c: Cluster, c': Cluster, t: int, reach: int, leaderCommit: int, last: int)
    requires Grows(c, c') && VouchedFor(c, t, reach, leaderCommit, last) && 0 <= leaderCommit
    ensures VouchedFor(c', t, reach, leaderCommit, last)
  {
    assert ReignGrows(c.reigns[t], c'.reigns[t]);
    BackedGrows(c, c', c.reigns[t].log, c'.reigns[t].log, Min(leaderCommit, reach), last, last);
  }

  lemma MsgGrows(c: Cluster, c': Cluster, m: Msg)
    requires Grows(c, c') && MsgBacked(c, m)
    ensures MsgBacked(c', m)
  {
    if m.AppendEntries? {
      if m.entries != [] {
        VouchedGrows(c, c', m.term, m.prevLogIndex + |m.entries|, m.leaderCommit, m.term);
      } else if 0 < m.prevLogIndex && m.prevLogTerm != 0 {
        VouchedGrows(c, c', m.prevLogTerm, m.prevLogIndex, m.leaderCommit, m.term);
      }
    }
  }

  lemma MsgsStayBacked(c: Cluster, c': Cluster)
    requires MsgsBacked(c) && Grows(c, c')
    requires forall m :: m in c'.msgs && m !in c.msgs ==> MsgBacked(c', m)
    ensures MsgsBacked(c')
  {
    forall m | m in c'.msgs ensures MsgBacked(c', m) {
      if m in c.msgs {
        MsgGrows(c, c', m);
      }
    }
  }

  ghost predicate SafeState(c: Cluster) {
    Sound(c) && Elections(c) && Logs(c) && Recent(c) && Memory(c) && HeldNow(c)
  }

  predicate Accepted(v: Variant, n: Node, m: Msg, n': Node)
    requires m.AppendEntries? && 0 <= m.prevLogIndex <= |n.log|
  {
    n'.currentTerm == m.term && n'.log == AcceptedLog(v, n, m) && n'.commitIndex == AcceptedCommit(v, n, m)
  }

  lemma AcceptShape(v: Variant, n: Node, m: Msg)
    requires m.AppendEntries? && 0 <= m.prevLogIndex && Accepts(n, m.term, m.prevLogIndex, m.prevLogTerm)
    ensures Accepted(v, n, m, HandleAppendEntries(v, n, m.term, m.prevLogIndex, m.prevLogTerm, m.entries,
                                                  m.leaderCommit).0)
  {
  }

  // What a node has committed is still in its log after a batch that was not stale.
  lemma KeptLog(c: Cluster, n: Node, log: Log, s: int)
    requires Elections(c) && Logs(c) && Recent(c) && Memory(c) && n.currentTerm <= s
    requires 0 <= n.commitIndex <= |n.log| && Backed(c, n.log, n.commitIndex, n.currentTerm)
    requires log == n.log || (s in c.reigns && log <= c.reigns[s].log && !(log < n.log))
    ensures n.commitIndex <= |log| && log[..n.commitIndex] == n.log[..n.commitIndex]
  {
    if log != n.log && 0 < n.commitIndex {
      BackedInReign(c, n.log, n.commitIndex, n.currentTerm, s);
      BatchKeepsPrefix(n.log, log, c.reigns[s].log, n.commitIndex);
    }
  }

  // A commit index that does not rise: what it covers is still there.
  lemma KeptBacked(c: Cluster, n: Node, n': Node, s: int)
    requires Elections(c) && Logs(c) && Recent(c) && Memory(c) && n.currentTerm <= s == n'.currentTerm
    requires 0 <= n.commitIndex <= |n.log| && Backed(c, n.log, n.commitIndex, n.currentTerm)
    requires n'.log == n.log || (s in c.reigns && n'.log <= c.reigns[s].log && !(n'.log < n.log))
    requires 0 <= n'.commitIndex <= n.commitIndex
    ensures n'.commitIndex <= |n'.log| && Backed(c, n'.log, n'.commitIndex, n'.currentTerm)
  {
    KeptLog(c, n, n'.log, s);
    BackedGrows(c, c, n.log, n'.log, n.commitIndex, n.currentTerm, s);
    BackedShorter(c, n'.log, n.commitIndex, n'.commitIndex, s);
  }

  // The leader's log that vouches for what an accepted message has checked.
  lemma CheckedAgainst(v: Variant, c: Cluster, n: Node, m: Msg) returns (t: int)
    requires Logs(c) && MsgsBacked(c) && m in c.msgs
    requires m.AppendEntries? && 0 <= m.prevLogIndex && AllTraced(c.reigns, n.log)
    requires TermsOrdered(n.log, n.currentTerm) && PrevMatches(n.log, m.prevLogIndex, m.prevLogTerm)
    requires 0 < m.prevLogIndex + |m.entries|
    ensures VouchedFor(c, t, m.prevLogIndex + |m.entries|, m.leaderCommit, m.term)
    ensures var reach := m.prevLogIndex + |m.entries|;
            reach <= |AcceptedLog(v, n, m)| && AcceptedLog(v, n, m)[..reach] == c.reigns[t].log[..reach]
  {
    assert MsgBacked(c, m);
    if m.entries != [] {
      BatchOutcome(v, c, n, m);
      t := m.term;
    } else {
      t := m.prevLogTerm;
      assert Traced(c.reigns, n.log, m.prevLogIndex);
    }
  }

  // A commit index that rises: what it covers was checked, and its sender had it backed.
  lemma RaisedBacked(v: Variant, c: Cluster, n: Node, m: Msg, n': Node)
    requires Logs(c) && MsgsBacked(c) && m in c.msgs
    requires m.AppendEntries? && 0 <= m.prevLogIndex && AllTraced(c.reigns, n.log)
    requires TermsOrdered(n.log, n.currentTerm)
    requires PrevMatches(n.log, m.prevLogIndex, m.prevLogTerm) && Accepted(v, n, m, n')
    requires 0 <= n.commitIndex < n'.commitIndex <= m.prevLogIndex + |m.entries|
    ensures n'.commitIndex <= |n'.log| && Backed(c, n'.log, n'.commitIndex, n'.currentTerm)
  {
    var t := CheckedAgainst(v, c, n, m);
    VouchedPrefix(c, t, m.prevLogIndex + |m.entries|, m.leaderCommit, m.term, n'.log, n'.commitIndex);
  }

  lemma VouchedPrefix(c: Cluster, t: int, reach: int, leaderCommit: int, last: int, log: Log, k: int)
    requires VouchedFor(c, t, reach, leaderCommit, last) && 0 <= k <= Min(leaderCommit, reach)
    requires reach <= |log| && log[..reach] == c.reigns[t].log[..reach]
    ensures Backed(c, log, k, last)
  {
    var r := c.reigns[t].log;
    BackedShorter(c, r, Min(leaderCommit, reach), k, last);
    ShorterPrefix(log, r, reach, k);
    BackedGrows(c, c, r, log, k, last, last);
  }

  lemma BackedShorter(c: Cluster, log: Log, k: int, k': int, last: int)
    requires Backed(c, log, k, last) && 0 <= k' <= k <= |log|
    ensures Backed(c, log, k', last)
  {
    if k != 0 {
      var q, t, i :| BackedBy(c, log, k, last, q, t, i);
      ShorterPrefix(log, c.reigns[t].log, k, k');
      assert BackedBy(c, log, k', last, q, t, i);
    }
  }

  // The new log of an accepting follower, if it is another one, is the start of its leader's.
  lemma AcceptedOutcome(v: Variant, c: Cluster, n: Node, m: Msg)
    requires Logs(c) && AllTraced(c.reigns, n.log) && m in c.msgs && m.AppendEntries? && 0 <= m.prevLogIndex
    requires PrevMatches(n.log, m.prevLogIndex, m.prevLogTerm)
    ensures AcceptedLog(v, n, m) == n.log || (m.term in c.reigns && AcceptedLog(v, n, m) <= c.reigns[m.term].log)
  {
    if m.entries != [] {
      BatchOutcome(v, c, n, m);
    }
  }

  lemma AcceptedNodeBacked(v: Variant, c: Cluster, n: Node, m: Msg, n': Node)
    requires Elections(c) && Logs(c) && Recent(c) && Memory(c) && MsgsBacked(c)
    requires m in c.msgs && m.AppendEntries? && 0 <= m.prevLogIndex && 0 <= m.leaderCommit
    requires AllTraced(c.reigns, n.log) && TermsOrdered(n.log, n.currentTerm)
    requires 0 <= n.commitIndex <= |n.log| && Backed(c, n.log, n.commitIndex, n.currentTerm)
    requires Accepts(n, m.term, m.prevLogIndex, m.prevLogTerm) && Accepted(v, n, m, n') && !(n'.log < n.log)
    requires n'.commitIndex <= n.commitIndex || n'.commitIndex <= m.prevLogIndex + |m.entries|
    ensures 0 <= n'.commitIndex <= |n'.log| && Backed(c, n'.log, n'.commitIndex, n'.currentTerm)
  {
    if n'.commitIndex > n.commitIndex {
      RaisedBacked(v, c, n, m, n');
    } else {
      AcceptedOutcome(v, c, n, m);
      KeptBacked(c, n, n', m.term);
    }
  }

  // The new commit index of an accepting follower is backed by its new log.
  lemma AcceptBacked(v: Variant, c: Cluster, m: Msg, n': Node)
    requires Sound(c) && Elections(c) && Logs(c) && Recent(c) && Memory(c) && NodesBacked(c) && MsgsBacked(c)
    requires m in c.msgs && m.AppendEntries? && m.to in c.nodes && 0 <= m.prevLogIndex
    requires Accepts(c.nodes[m.to], m.term, m.prevLogIndex, m.prevLogTerm) && Accepted(v, c.nodes[m.to], m, n')
    requires FreshStep(v, c, DeliverAppendEntries(m)) && CheckedCommit(v, c, DeliverAppendEntries(m))
    ensures 0 <= n'.commitIndex <= |n'.log| && Backed(c, n'.log, n'.commitIndex, n'.currentTerm)
  {
    var n := c.nodes[m.to];
    assert MsgBacked(c, m) && NodeOk(n, m.to);
    AcceptedNodeBacked(v, c, n, m, n');
  }

  lemma ReceiveBacked(v: Variant, c: Cluster, m: Msg)
    requires SafeState(c) && NodesBacked(c) && MsgsBacked(c) && m in c.msgs && m.AppendEntries? && m.to in c.nodes
    requires FreshStep(v, c, DeliverAppendEntries(m)) && CheckedCommit(v, c, DeliverAppendEntries(m))
    ensures NodesBacked(Receive(v, c, m)) && MsgsBacked(Receive(v, c, m))
  {
    var n := c.nodes[m.to];
    var c' := Receive(v, c, m);
    HandlerKeepsNodeOk(v, n, m.to, m, c.nodes.Keys);
    ReceiveHeld(v, c, m);
    var n' := HandleAppendEntries(v, n, m.term, m.prevLogIndex, m.prevLogTerm, m.entries, m.leaderCommit).0;
    MsgsStayBacked(c, c');
    if Accepts(n, m.term, m.prevLogIndex, m.prevLogTerm) {
      AcceptShape(v, n, m);
      AcceptBacked(v, c, m, n');
      BackedGrows(c, c', n'.log, n'.log, n'.commitIndex, n'.currentTerm, n'.currentTerm);
      SetNodeBacked(c, c', m.to, n');
    } else {
      QuietBacked(c, c', m.to, n');
    }
  }

  lemma AdvanceBacked(v: Variant, c: Cluster, n: NodeId, k: int)
    requires Elections(c) && Logs(c) && HeldNow(c) && NodesBacked(c) && MsgsBacked(c)
    requires Enabled(v, c, AdvanceCommit(n, k)) && EarnedCommit(c, AdvanceCommit(n, k))
    ensures NodesBacked(Apply(v, c, AdvanceCommit(n, k)))
    ensures MsgsBacked(Apply(v, c, AdvanceCommit(n, k)))
  {
    var node := c.nodes[n];
    var n' := node.(commitIndex := k);
    var c' := SetNode(c, n, n');
    SetNodeHeld(c, n, n');
    MsgsStayBacked(c, c');
    if k != node.commitIndex {
      var q :| HeldByMajority(c, q, node.currentTerm, k);
      assert LeadsWith(c.reigns, node);
      assert BackedBy(c', n'.log, k, n'.currentTerm, q, n'.currentTerm, k);
    } else {
      BackedGrows(c, c', n'.log, n'.log, k, n'.currentTerm, n'.currentTerm);
    }
    SetNodeBacked(c, c', n, n');
  }

  lemma WindowBacked(c: Cluster, n: NodeId, t: int, reach: int)
    requires Logs(c) && NodesBacked(c) && n in c.nodes && t in c.reigns
    requires 0 <= reach <= |c.nodes[n].log| && reach <= |c.reigns[t].log|
    requires c.nodes[n].log[..reach] == c.reigns[t].log[..reach]
    ensures VouchedFor(c, t, reach, c.nodes[n].commitIndex, c.nodes[n].currentTerm)
  {
    var node := c.nodes[n];
    var k := Min(node.commitIndex, reach);
    BackedShorter(c, node.log, node.commitIndex, k, node.currentTerm);
    ShorterPrefix(node.log, c.reigns[t].log, reach, k);
    BackedGrows(c, c, node.log, c.reigns[t].log, k, node.currentTerm, node.currentTerm);
  }

  lemma BatchIsBacked(c: Cluster, n: NodeId, m: Msg)
    requires Logs(c) && NodesBacked(c) && n in c.nodes && c.nodes[n].role == Leader && m.AppendEntries?
    requires m.term == c.nodes[n].currentTerm && m.leaderCommit == c.nodes[n].commitIndex && m.entries != []
    requires 0 <= m.prevLogIndex && m.prevLogIndex + |m.entries| <= |c.nodes[n].log|
    ensures MsgBacked(c, m)
  {
    assert LeadsWith(c.reigns, c.nodes[n]);
    WindowBacked(c, n, m.term, m.prevLogIndex + |m.entries|);
  }

  lemma HeartbeatIsBacked(c: Cluster, n: NodeId, p: NodeId)
    requires Logs(c) && NodesBacked(c) && n in c.nodes
    ensures MsgBacked(c, AppendMessage(c.nodes[n], n, p, 0))
  {
    var node := c.nodes[n];
    var prev := NextIndex(node, p) - 1;
    if 0 < prev && PrevTerm(node.log, prev) != 0 {
      assert Traced(c.reigns, node.log, prev);
      WindowBacked(c, n, PrevTerm(node.log, prev), prev);
    }
  }

  lemma SentBacked(c: Cluster, m: Msg)
    requires NodesBacked(c) && MsgsBacked(c) && MsgBacked(c, m)
    ensures NodesBacked(Send(c, m)) && MsgsBacked(Send(c, m))
  {
    var c' := Send(c, m);
    MsgGrows(c, c', m);
    MsgsStayBacked(c, c');
    forall x | x in c'.nodes ensures Backed(c', c'.nodes[x].log, c'.nodes[x].commitIndex, c'.nodes[x].currentTerm) {
      var o := c.nodes[x];
      BackedGrows(c, c', o.log, o.log, o.commitIndex, o.currentTerm, o.currentTerm);
    }
  }

  lemma SendBacked(v: Variant, c: Cluster, n: NodeId, p: NodeId, count: nat)
    requires Sound(c) && Logs(c) && NodesBacked(c) && MsgsBacked(c) && Enabled(v, c, SendAppendEntries(n, p, count))
    ensures var c' := Send(c, AppendMessage(c.nodes[n], n, p, count)); NodesBacked(c') && MsgsBacked(c')
  {
    if count == 0 {
      HeartbeatIsBacked(c, n, p);
    } else {
      assert NextIndexesOk(c.nodes[n], n, c.nodes.Keys);
      WindowShape(c.nodes[n], n, p, count);
      BatchIsBacked(c, n, AppendMessage(c.nodes[n], n, p, count));
    }
    SentBacked(c, AppendMessage(c.nodes[n], n, p, count));
  }

  lemma CountBacked(v: Variant, c: Cluster, n: NodeId, t: int, p: NodeId, voterLog: Log)
    requires NodesBacked(c) && MsgsBacked(c) && n in c.nodes && (n, t) in c.ballots
    requires Grows(c, Count(v, c, n, t, p, voterLog))
    ensures var c' := Count(v, c, n, t, p, voterLog); NodesBacked(c') && MsgsBacked(c')
  {
    var c' := Count(v, c, n, t, p, voterLog);
    MsgsStayBacked(c, c');
    if Elects(v, c, n, t, c.ballots[(n, t)].votes[p := voterLog]) {
      QuietBacked(c, c', n, BecomeLeader(c.nodes[n], n, c.nodes.Keys));
    } else {
      assert c'.nodes == c.nodes[n := c.nodes[n]];
      QuietBacked(c, c', n, c.nodes[n]);
    }
  }

  lemma VoteBacked(c: Cluster, m: Msg)
    requires NodesBacked(c) && MsgsBacked(c) && m.VoteRequest? && m.to in c.nodes && Grows(c, Vote(c, m))
    ensures NodesBacked(Vote(c, m)) && MsgsBacked(Vote(c, m))
  {
    MsgsStayBacked(c, Vote(c, m));
    QuietBacked(c, Vote(c, m), m.to, HandleVoteRequest(c.nodes[m.to], m.from, m.term, m.lastLogIndex, m.lastLogTerm).0);
  }

  lemma AskBacked(c: Cluster, n: NodeId, t: int, p: NodeId)
    requires NodesBacked(c) && MsgsBacked(c) && n in c.nodes && (n, t) in c.ballots && Grows(c, AskVote(c, n, t, p))
    ensures NodesBacked(AskVote(c, n, t, p)) && MsgsBacked(AskVote(c, n, t, p))
  {
    MsgsStayBacked(c, AskVote(c, n, t, p));
    assert AskVote(c, n, t, p).nodes == c.nodes[n := c.nodes[n]];
    QuietBacked(c, AskVote(c, n, t, p), n, c.nodes[n]);
  }

  // Steps that leave every log as it was or longer, and every commit index alone.
  lemma PlainBacked(c: Cluster, c': Cluster, id: NodeId, n: Node)
    requires NodesBacked(c) && MsgsBacked(c) && Grows(c, c') && id in c.nodes && c'.nodes == c.nodes[id := n]
    requires c.nodes[id].log <= n.log && n.commitIndex == c.nodes[id].commitIndex
    requires c.nodes[id].currentTerm <= n.currentTerm
    requires c'.msgs == c.msgs
    ensures NodesBacked(c') && MsgsBacked(c')
  {
    QuietBacked(c, c', id, n);
    MsgsStayBacked(c, c');
  }

  lemma ElectBacked(c: Cluster, n: NodeId)
    requires NodesBacked(c) && MsgsBacked(c) && n in c.nodes && Grows(c, Elect(c, n))
    ensures NodesBacked(Elect(c, n)) && MsgsBacked(Elect(c, n))
  {
    PlainBacked(c, Elect(c, n), n, StartElection(c.nodes[n], n));
  }

  lemma ExtendBacked(c: Cluster, n: NodeId, e: Entry)
    requires NodesBacked(c) && MsgsBacked(c) && n in c.nodes && Grows(c, Extend(c, n, e))
    ensures NodesBacked(Extend(c, n, e)) && MsgsBacked(Extend(c, n, e))
  {
    PlainBacked(c, Extend(c, n, e), n, c.nodes[n].(log := c.nodes[n].log + [e]));
  }

  lemma SetPlainBacked(c: Cluster, id: NodeId, n: Node)
    requires NodesBacked(c) && MsgsBacked(c) && id in c.nodes && Grows(c, SetNode(c, id, n))
    requires n.log == c.nodes[id].log && n.commitIndex == c.nodes[id].commitIndex
    requires n.currentTerm == c.nodes[id].currentTerm
    ensures NodesBacked(SetNode(c, id, n)) && MsgsBacked(SetNode(c, id, n))
  {
    PlainBacked(c, SetNode(c, id, n), id, n);
  }

  lemma OtherStepBacked(v: Variant, c: Cluster, a: Action)
    requires Sound(c) && Logs(c) && NodesBacked(c) && MsgsBacked(c) && Enabled(v, c, a) && RuledStep(v, c, a)
    requires Grows(c, Apply(v, c, a)) && !a.DeliverAppendEntries? && !a.AdvanceCommit?
    ensures NodesBacked(Apply(v, c, a)) && MsgsBacked(Apply(v, c, a))
  {
    match a
    case Timeout(n) => ElectBacked(c, n);
    case SendVoteRequest(n, t, p) => AskBacked(c, n, t, p);
    case DeliverVoteRequest(m) => VoteBacked(c, m);
    case CountVote(n, t, p, voterLog) => CountBacked(v, c, n, t, p, voterLog);
    case SendAppendEntries(n, p, count) => SendBacked(v, c, n, p, count);
    case AppendEntry(n, e) => ExtendBacked(c, n, e);
    case SetNextIndex(n, p, k) => SetPlainBacked(c, n, c.nodes[n].(nextIndex := c.nodes[n].nextIndex[p := k]));
    case ForceStepDown(n) => SetPlainBacked(c, n, StepDown(c.nodes[n]));
  }

  lemma BackedStep(v: Variant, c: Cluster, a: Action)
    requires SafeState(c) && NodesBacked(c) && MsgsBacked(c) && Enabled(v, c, a) && RuledStep(v, c, a)
    requires FreshStep(v, c, a) && EarnedCommit(c, a) && CheckedCommit(v, c, a)
    ensures NodesBacked(Apply(v, c, a)) && MsgsBacked(Apply(v, c, a))
  {
    if a.DeliverAppendEntries? {
      ReceiveBacked(v, c, a.m);
    } else if a.AdvanceCommit? {
      AdvanceBacked(v, c, a.n, a.k);
    } else {
      GrowsStep(v, c, a);
      OtherStepBacked(v, c, a);
    }
  }

  lemma SafeAlong(v: Variant, r: Run, i: nat)
    requires IsRun(v, r) && RuledRun(v, r) && FreshRun(v, r) && i < |r.states|
    ensures SafeState(r.states[i])
  {
    LogsAlong(v, r, i);
    RecentAlong(v, r, i);
    MemoryAlong(v, r, i);
    HeldNowAlong(v, r, i);
  }

  lemma {:induction false} BackedAlong(v: Variant, r: Run, i: nat)
    requires IsRun(v, r) && RuledRun(v, r) && FreshRun(v, r) && EarnedRun(r) && CheckedRun(v, r) && i < |r.states|
    ensures NodesBacked(r.states[i]) && MsgsBacked(r.states[i])
  {
    if 0 < i {
      BackedAlong(v, r, i - 1);
      SafeAlong(v, r, i - 1);
      BackedStep(v, r.states[i - 1], r.actions[i - 1]);
    }
  }

  // What the follower has committed is still in its log after it accepted a batch.
  lemma AcceptedReaches(v: Variant, c: Cluster, m: Msg)
    requires SafeState(c) && NodesBacked(c) && m in c.msgs && m.AppendEntries? && m.to in c.nodes
    requires FreshStep(v, c, DeliverAppendEntries(m))
    ensures ReachesCommit(v, c, DeliverAppendEntries(m))
  {
    var n := c.nodes[m.to];
    if Accepts(n, m.term, m.prevLogIndex, m.prevLogTerm) && m.entries != [] && 0 <= m.prevLogIndex {
      AcceptedOutcome(v, c, n, m);
      KeptLog(c, n, NewLog(v, n.log, m.prevLogIndex, m.entries), m.term);
      NewLogReach(v, n.log, m.prevLogIndex, m.entries);
    }
  }

  // So no commit index falls or leaves its log in these runs.
  lemma CommitsStay(v: Variant, r: Run)
    requires IsRun(v, r) && RuledRun(v, r) && FreshRun(v, r) && EarnedRun(r) && CheckedRun(v, r)
    ensures ReachingRun(v, r) && GrowingRun(r)
  {
    forall i | 0 <= i < |r.actions| ensures ReachesCommit(v, r.states[i], r.actions[i]) {
      if r.actions[i].DeliverAppendEntries? {
        SafeAlong(v, r, i);
        BackedAlong(v, r, i);
        AcceptedReaches(v, r.states[i], r.actions[i].m);
      }
    }
    CommitsGrowExactly(v, r);
  }

  lemma BackedAgree(c: Cluster, log1: Log, k1: int, last1: int, log2: Log, k2: int, last2: int, k: int)
    requires Elections(c) && Logs(c) && Recent(c) && Memory(c)
    requires Backed(c, log1, k1, last1) && Backed(c, log2, k2, last2)
    requires 0 <= k <= k1 <= |log1| && k <= k2 <= |log2|
    ensures log1[..k] == log2[..k]
  {
    if 0 < k {
      var q1, t1, i1 :| BackedBy(c, log1, k1, last1, q1, t1, i1);
      var q2, t2, i2 :| BackedBy(c, log2, k2, last2, q2, t2, i2);
      ShorterPrefix(log1, c.reigns[t1].log, k1, k);
      ShorterPrefix(log2, c.reigns[t2].log, k2, k);
      if t1 <= t2 {
        LaterReignKeeps(c, q1, t1, i1, t2);
        ShorterPrefix(c.reigns[t1].log, c.reigns[t2].log, i1, k);
      } else {
        LaterReignKeeps(c, q2, t2, i2, t1);
        ShorterPrefix(c.reigns[t1].log, c.reigns[t2].log, i2, k);
      }
    }
  }

  // Two nodes never disagree, at any two moments of a run, on an entry both have committed.
  lemma CommittedEntriesAgree(v: Variant, r: Run, i: nat, n1: NodeId, j: nat, n2: NodeId, k: int)
    requires IsRun(v, r) && RuledRun(v, r) && FreshRun(v, r) && EarnedRun(r) && CheckedRun(v, r)
    requires i < |r.states| && j < |r.states| && n1 in r.states[i].nodes && n2 in r.states[j].nodes
    requires 0 <= k <= r.states[i].nodes[n1].commitIndex && k <= r.states[j].nodes[n2].commitIndex
    ensures k <= |r.states[i].nodes[n1].log| && k <= |r.states[j].nodes[n2].log|
    ensures r.states[i].nodes[n1].log[..k] == r.states[j].nodes[n2].log[..k]
  {
    var end := |r.states| - 1;
    var o1, o2 := r.states[i].nodes[n1], r.states[j].nodes[n2];
    SafeAlong(v, r, end);
    BackedAlong(v, r, i);
    GrowsAlong(v, r, i, end);
    BackedGrows(r.states[i], r.states[end], o1.log, o1.log, o1.commitIndex, o1.currentTerm, o1.currentTerm);
    BackedAlong(v, r, j);
    GrowsAlong(v, r, j, end);
    BackedGrows(r.states[j], r.states[end], o2.log, o2.log, o2.commitIndex, o2.currentTerm, o2.currentTerm);
    BackedAgree(r.states[end], o1.log, o1.commitIndex, o1.currentTerm, o2.log, o2.commitIndex, o2.currentTerm, k);
  }
}
