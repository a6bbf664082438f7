/**
 Leader Completeness (section 5.4.3 of the extended Raft paper), for the runs of any variant that
 keep to the vote rules and accept no stale batch (`FreshStep`). Where a batch deletes only what
 conflicts (`keepsSuffix`), no batch is stale.
 */
module LeaderCompleteness {
  import opened RaftNode
  import opened RaftCluster
  import opened VoteRules
  import opened RaftAsWritten
  import opened Quorums
  import opened ElectionSafety
  import opened LogMatching
  import opened VoteRecency

  // The log contains the entries of term t's leader up to the i-th.
  predicate Keeps(reigns: map<int, Reign>, log: Log, t: int, i: int) {
    t in reigns && 1 <= i <= |log| && i <= |reigns[t].log| && log[..i] == reigns[t].log[..i]
  }

  // Some leader after term t, up to term `last`, was elected without them.
  ghost predicate Forgotten(reigns: map<int, Reign>, t: int, i: int, last: int) {
    exists u :: t < u <= last && u in reigns && !Keeps(reigns, reigns[u].elected, t, i)
  }

  ghost predicate Remembers(reigns: map<int, Reign>, log: Log, t: int, i: int, last: int) {
    Keeps(reigns, log, t, i) || Forgotten(reigns, t, i, last)
  }

  predicate OwnEntry(reigns: map<int, Reign>, t: int, i: int) {
    t in reigns && 1 <= i <= |reigns[t].log| && reigns[t].log[i - 1].term == t
  }

  // An entry once held in its own term stays in the node's log until a later leader lacks it.
  ghost predicate HeldKept(c: Cluster) {
    forall v, t, i :: (v, t, i) in c.held ==>
      && v in c.nodes && t <= c.nodes[v].currentTerm && OwnEntry(c.reigns, t, i)
      && Remembers(c.reigns, c.nodes[v].log, t, i, c.nodes[v].currentTerm)
  }

  // The same of the log a voter had when it voted in term `term`.
  ghost predicate Informed(c: Cluster, v: NodeId, term: int, log: Log, last: int) {
    && AllTraced(c.reigns, log) && TermsOrdered(log, term)
    && forall t, i :: (v, t, i) in c.held && t < term ==> Remembers(c.reigns, log, t, i, last)
  }

  ghost predicate GrantsInformed(c: Cluster) {
    forall m :: m in c.msgs && m.VoteGrant? ==> Informed(c, m.from, m.term, m.voterLog, m.term)
  }

  ghost predicate BallotsInformed(c: Cluster) {
    forall n, t, p :: (n, t) in c.ballots && p in c.ballots[(n, t)].votes ==>
      Informed(c, p, t, c.ballots[(n, t)].votes[p], t)
  }

  ghost predicate ReignsInformed(c: Cluster) {
    forall t, p :: t in c.reigns && p in c.reigns[t].votes ==> Informed(c, p, t, c.reigns[t].votes[p], t - 1)
  }

  ghost predicate Memory(c: Cluster) {
    HeldKept(c) && GrantsInformed(c) && BallotsInformed(c) && ReignsInformed(c)
  }

  // The batch about to be delivered does not cut off the end of the follower's log and no more.
  predicate FreshStep(v: Variant, c: Cluster, a: Action) {
    a.DeliverAppendEntries? && a.m.AppendEntries? && a.m.to in c.nodes ==>
      var n := c.nodes[a.m.to];
      Accepts(n, a.m.term, a.m.prevLogIndex, a.m.prevLogTerm) && a.m.entries != [] && 0 <= a.m.prevLogIndex ==>
        !(NewLog(v, n.log, a.m.prevLogIndex, a.m.entries) < n.log)
  }

  ghost predicate FreshRun(v: Variant, r: Run) {
    |r.states| == |r.actions| + 1 && forall i :: 0 <= i < |r.actions| ==> FreshStep(v, r.states[i], r.actions[i])
  }

  // Without truncation except at a conflict every run is fresh.
  lemma KeptSuffixIsFresh(v: Variant, r: Run)
    requires v.keepsSuffix && |r.states| == |r.actions| + 1
    ensures FreshRun(v, r)
  {
  }

  lemma MemoryInit(c: Cluster)
    requires Init(c)
    ensures Memory(c)
  {
  }

  lemma RemembersGrows(r: map<int, Reign>, r': map<int, Reign>, log: Log, t: int, i: int, last: int, last': int)
    requires ReignsGrow(r, r') && OwnEntry(r, t, i) && Remembers(r, log, t, i, last) && last <= last'
    ensures Remembers(r', log, t, i, last')
  {
    if !Keeps(r, log, t, i) {
      var u :| t < u <= last && u in r && !Keeps(r, r[u].elected, t, i);
      assert t < u <= last' && u in r' && !Keeps(r', r'[u].elected, t, i);
    }
  }

  // A node step: the term does not fall and what the node remembered it still remembers.
  lemma MemorySetNode(c: Cluster, id: NodeId, n: Node)
    requires Elections(c) && Memory(c) && id in c.nodes && c.nodes[id].currentTerm <= n.currentTerm
    requires AllTraced(c.reigns, n.log)
    requires forall t, i :: (id, t, i) in c.held ==> Remembers(c.reigns, n.log, t, i, n.currentTerm)
    ensures Memory(SetNode(c, id, n))
  {
    var c' := SetNode(c, id, n);
    HeldKeptSetNode(c, id, n);
    forall m | m in c'.msgs && m.VoteGrant? ensures Informed(c', m.from, m.term, m.voterLog, m.term) {
      assert Voted(c, m.from, m.term, m.to);
      InformedSetNode(c, id, n, m.from, m.term, m.voterLog, m.term);
    }
    forall x, t, p | (x, t) in c'.ballots && p in c'.ballots[(x, t)].votes
      ensures Informed(c', p, t, c'.ballots[(x, t)].votes[p], t)
    {
      assert Voted(c, p, t, x);
      InformedSetNode(c, id, n, p, t, c.ballots[(x, t)].votes[p], t);
    }
    forall t, p | t in c'.reigns && p in c'.reigns[t].votes ensures Informed(c', p, t, c'.reigns[t].votes[p], t - 1) {
      assert ElectedBy(c, t, c.reigns[t]);
      InformedSetNode(c, id, n, p, t, c.reigns[t].votes[p], t - 1);
    }
  }

  predicate HasVoted(c: Cluster, p: NodeId, t: int) {
    (p, t) in c.cast
  }

  lemma HeldKeptSetNode(c: Cluster, id: NodeId, n: Node)
    requires HeldKept(c) && id in c.nodes && c.nodes[id].currentTerm <= n.currentTerm
    requires AllTraced(c.reigns, n.log)
    requires forall t, i :: (id, t, i) in c.held ==> Remembers(c.reigns, n.log, t, i, n.currentTerm)
    ensures HeldKept(SetNode(c, id, n))
  {
    forall v, t, i | (v, t, i) in HeldBy(id, n)
      ensures v == id && t == n.currentTerm && OwnEntry(c.reigns, t, i) && Keeps(c.reigns, n.log, t, i)
    {
      assert Traced(c.reigns, n.log, i);
    }
  }

  // Whoever voted in a term holds nothing new of an earlier one.
  lemma InformedSetNode(c: Cluster, id: NodeId, n: Node, v: NodeId, term: int, log: Log, last: int)
    requires Elections(c) && id in c.nodes && c.nodes[id].currentTerm <= n.currentTerm
    requires HasVoted(c, v, term) && Informed(c, v, term, log, last)
    ensures Informed(SetNode(c, id, n), v, term, log, last)
  {
    var c' := SetNode(c, id, n);
    assert term <= c.nodes[v].currentTerm;
    forall t, i | (v, t, i) in c'.held && t < term ensures Remembers(c.reigns, log, t, i, last) {
      assert (v, t, i) in c.held;
    }
  }

  lemma InformedGrows(c: Cluster, c': Cluster, v: NodeId, term: int, log: Log, last: int)
    requires HeldKept(c) && ReignsGrow(c.reigns, c'.reigns) && c'.held == c.held && Informed(c, v, term, log, last)
    ensures Informed(c', v, term, log, last)
  {
    TracedGrows(c.reigns, c'.reigns, log);
    forall t, i | (v, t, i) in c'.held && t < term ensures Remembers(c'.reigns, log, t, i, last) {
      RemembersGrows(c.reigns, c'.reigns, log, t, i, last, last);
    }
  }

  lemma MemoryReign(c: Cluster, t: int, r: Reign)
    requires Memory(c) && ReignsGrow(c.reigns, c.reigns[t := r])
    requires forall p :: p in r.votes ==> Informed(c, p, t, r.votes[p], t - 1)
    ensures Memory(SetReign(c, t, r))
  {
    var c' := SetReign(c, t, r);
    forall v, u, i | (v, u, i) in c'.held
      ensures OwnEntry(c'.reigns, u, i) && Remembers(c'.reigns, c'.nodes[v].log, u, i, c'.nodes[v].currentTerm)
    {
      RemembersGrows(c.reigns, c'.reigns, c.nodes[v].log, u, i, c.nodes[v].currentTerm, c.nodes[v].currentTerm);
    }
    forall m | m in c'.msgs && m.VoteGrant? ensures Informed(c', m.from, m.term, m.voterLog, m.term) {
      InformedGrows(c, c', m.from, m.term, m.voterLog, m.term);
    }
    forall n, u, p | (n, u) in c'.ballots && p in c'.ballots[(n, u)].votes
      ensures Informed(c', p, u, c'.ballots[(n, u)].votes[p], u)
    {
      InformedGrows(c, c', p, u, c.ballots[(n, u)].votes[p], u);
    }
    forall u, p | u in c'.reigns && p in c'.reigns[u].votes ensures Informed(c', p, u, c'.reigns[u].votes[p], u - 1) {
      InformedGrows(c, c', p, u, c'.reigns[u].votes[p], u - 1);
    }
  }

  lemma InformedSame(c: Cluster, c': Cluster)
    requires c'.reigns == c.reigns && c'.held == c.held
    ensures forall v, t, log, last :: Informed(c, v, t, log, last) ==> Informed(c', v, t, log, last)
  {
  }

  // New messages and tallies of informed votes.
  lemma MemorySame(c: Cluster, c': Cluster)
    requires Memory(c) && c'.nodes == c.nodes && c'.reigns == c.reigns && c'.held == c.held
    requires forall m :: m in c'.msgs && m !in c.msgs && m.VoteGrant? ==>
               Informed(c, m.from, m.term, m.voterLog, m.term)
    requires forall n, t, p :: (n, t) in c'.ballots && p in c'.ballots[(n, t)].votes ==>
               Informed(c, p, t, c'.ballots[(n, t)].votes[p], t)
    ensures Memory(c')
  {
    InformedSame(c, c');
  }

  lemma MemoryElect(c: Cluster, n: NodeId)
    requires Sound(c) && Elections(c) && Logs(c) && Memory(c) && n in c.nodes
    ensures Memory(Elect(c, n))
  {
    var node := StartElection(c.nodes[n], n);
    var t := node.currentTerm;
    RemembersLater(c, n, node);
    MemorySetNode(c, n, node);
    var c1 := SetNode(c, n, node);
    assert TermsOrdered(node.log, t);
    assert Informed(c1, n, t, node.log, t);
    MemorySame(c1, Elect(c, n));
  }

  // Same log, same or later term: nothing is forgotten.
  lemma RemembersLater(c: Cluster, id: NodeId, n: Node)
    requires HeldKept(c) && id in c.nodes && n.log == c.nodes[id].log && c.nodes[id].currentTerm <= n.currentTerm
    ensures forall t, i :: (id, t, i) in c.held ==> Remembers(c.reigns, n.log, t, i, n.currentTerm)
  {
    forall t, i | (id, t, i) in c.held ensures Remembers(c.reigns, n.log, t, i, n.currentTerm) {
      RemembersGrows(c.reigns, c.reigns, n.log, t, i, c.nodes[id].currentTerm, n.currentTerm);
    }
  }

  lemma MemorySetQuiet(c: Cluster, id: NodeId, n: Node)
    requires Elections(c) && Logs(c) && Memory(c) && id in c.nodes
    requires n.log == c.nodes[id].log && c.nodes[id].currentTerm <= n.currentTerm
    ensures Memory(SetNode(c, id, n))
  {
    RemembersLater(c, id, n);
    MemorySetNode(c, id, n);
  }

  lemma VoterUnchanged(n: Node, candidateId: NodeId, term: int, lastLogIndex: int, lastLogTerm: int)
    ensures var (n', granted) := HandleVoteRequest(n, candidateId, term, lastLogIndex, lastLogTerm);
            n'.log == n.log && n.currentTerm <= n'.currentTerm && (granted ==> n'.currentTerm == term)
  {
  }

  lemma InformedVoter(c: Cluster, v: NodeId)
    requires Logs(c) && HeldKept(c) && v in c.nodes && TermsOrdered(c.nodes[v].log, c.nodes[v].currentTerm)
    ensures Informed(c, v, c.nodes[v].currentTerm, c.nodes[v].log, c.nodes[v].currentTerm)
  {
  }

  lemma MemoryVote(c: Cluster, m: Msg)
    requires Sound(c) && Elections(c) && Logs(c) && Memory(c) && m in c.msgs && m.VoteRequest? && m.to in c.nodes
    ensures Memory(Vote(c, m))
  {
    var (node, granted) := HandleVoteRequest(c.nodes[m.to], m.from, m.term, m.lastLogIndex, m.lastLogTerm);
    VoterUnchanged(c.nodes[m.to], m.from, m.term, m.lastLogIndex, m.lastLogTerm);
    MemorySetQuiet(c, m.to, node);
    if granted {
      var c1 := SetNode(c, m.to, node);
      assert NodeOk(c.nodes[m.to], m.to);
      LogsSetQuiet(c, m.to, node);
      InformedVoter(c1, m.to);
      MemoryGrant(c1, m.to, m.from, m.term, node.log);
    }
  }

  lemma MemoryGrant(c: Cluster, v: NodeId, candidate: NodeId, term: int, log: Log)
    requires Memory(c) && Informed(c, v, term, log, term)
    ensures Memory(Cast(Send(c, VoteGrant(v, candidate, term, log)), v, term, candidate))
  {
    MemorySame(c, Cast(Send(c, VoteGrant(v, candidate, term, log)), v, term, candidate));
  }

  lemma MemoryAskVote(c: Cluster, n: NodeId, t: int, p: NodeId)
    requires Memory(c) && n in c.nodes && (n, t) in c.ballots
    ensures Memory(AskVote(c, n, t, p))
  {
    MemorySame(c, AskVote(c, n, t, p));
  }

  lemma MemorySendAppend(c: Cluster, n: NodeId, p: NodeId, count: nat)
    requires Memory(c) && n in c.nodes && WindowInRange(c.nodes[n], p, count)
    ensures Memory(Send(c, AppendMessage(c.nodes[n], n, p, count)))
  {
    MemorySame(c, Send(c, AppendMessage(c.nodes[n], n, p, count)));
  }

  lemma MemoryCount(v: Variant, c: Cluster, n: NodeId, t: int, p: NodeId, voterLog: Log)
    requires Elections(c) && Logs(c) && Memory(c)
    requires Enabled(v, c, CountVote(n, t, p, voterLog)) && CountRule(v, c, n, t, p, voterLog)
    requires (n, t) in c.ballots && c.ballots[(n, t)].votes.Keys <= c.nodes.Keys
    ensures Memory(Count(v, c, n, t, p, voterLog))
  {
    var b := c.ballots[(n, t)];
    var votes := b.votes[p := voterLog];
    var c1 := SetBallot(c, n, t, b.(votes := votes));
    assert Voted(c, p, t, n);
    MemorySame(c, c1);
    if Elects(v, c, n, t, votes) {
      assert Tally(c, t, n, votes);
      FirstElection(c, n, votes);
      ElectionsBallot(c, n, t, b.(votes := votes));
      LogsSame(c, c1);
      MemoryPromote(c1, n, votes);
    }
  }

  // While nobody has reigned in term t, a forgetful leader is of an earlier term.
  lemma InformedBefore(c: Cluster, p: NodeId, t: int, log: Log)
    requires t !in c.reigns && Informed(c, p, t, log, t)
    ensures Informed(c, p, t, log, t - 1)
  {
    forall u, i | (p, u, i) in c.held && u < t ensures Remembers(c.reigns, log, u, i, t - 1) {
      assert Remembers(c.reigns, log, u, i, t);
    }
  }

  lemma MemoryPromote(c: Cluster, n: NodeId, votes: map<NodeId, Log>)
    requires Elections(c) && Logs(c) && Memory(c) && n in c.nodes
    requires c.nodes[n].currentTerm !in c.reigns
    requires forall p :: p in votes ==> HasVoted(c, p, c.nodes[n].currentTerm)
    requires forall p :: p in votes ==> Informed(c, p, c.nodes[n].currentTerm, votes[p], c.nodes[n].currentTerm)
    ensures Memory(Promote(c, n, votes))
  {
    var node := c.nodes[n];
    var t := node.currentTerm;
    var leader := BecomeLeader(node, n, c.nodes.Keys);
    MemorySetQuiet(c, n, leader);
    forall p | p in votes ensures Informed(SetNode(c, n, leader), p, t, votes[p], t - 1) {
      InformedBefore(c, p, t, votes[p]);
      InformedSetNode(c, n, leader, p, t, votes[p], t - 1);
    }
    MemoryReign(SetNode(c, n, leader), t, Reign(n, votes, node.log, node.log));
  }

  lemma SenderKeeps(c: Cluster, s: int, t: int, i: int)
    requires Logs(c) && s in c.reigns && OwnEntry(c.reigns, t, i)
    requires s == t || Keeps(c.reigns, c.reigns[s].elected, t, i)
    ensures Keeps(c.reigns, c.reigns[s].log, t, i)
  {
    assert ReignLog(s, c.reigns[s]);
    if s != t {
      var e := c.reigns[s].elected;
      assert c.reigns[s].log[..|e|][..i] == c.reigns[s].log[..i];
    }
  }

  // Of two logs that share i entries with a third, the one that is its prefix and ends before i
  // is a prefix of the other.
  lemma ShortIsPrefix(log: Log, log': Log, senderLog: Log, i: int)
    requires log' <= senderLog && |log'| <= i <= |log| && i <= |senderLog| && log[..i] == senderLog[..i]
    ensures log' <= log
  {
    assert log' == senderLog[..|log'|] == senderLog[..i][..|log'|] == log[..i][..|log'|] == log[..|log'|];
  }

  lemma PrefixKeeps(reigns: map<int, Reign>, log: Log, log': Log, senderLog: Log, t: int, i: int)
    requires Keeps(reigns, log, t, i) && Keeps(reigns, senderLog, t, i)
    requires log' <= senderLog && !(log' < log)
    ensures Keeps(reigns, log', t, i)
  {
    if |log'| < i {
      ShortIsPrefix(log, log', senderLog, i);
    } else {
      assert log'[..i] == senderLog[..|log'|][..i] == senderLog[..i];
    }
  }

  // The step the hypothesis is for: an accepted batch that is not stale forgets nothing, unless
  // its sender had already forgotten.
  lemma BatchRemembers(c: Cluster, n: Node, log: Log, s: int, t: int, i: int)
    requires Logs(c) && s in c.reigns && log <= c.reigns[s].log && !(log < n.log)
    requires OwnEntry(c.reigns, t, i) && t <= n.currentTerm <= s && Remembers(c.reigns, n.log, t, i, n.currentTerm)
    ensures Remembers(c.reigns, log, t, i, s)
  {
    if !Keeps(c.reigns, n.log, t, i) {
      RemembersGrows(c.reigns, c.reigns, n.log, t, i, n.currentTerm, s);
    } else if t < s && !Keeps(c.reigns, c.reigns[s].elected, t, i) {
      assert Forgotten(c.reigns, t, i, s);
    } else {
      SenderKeeps(c, s, t, i);
      PrefixKeeps(c.reigns, n.log, log, c.reigns[s].log, t, i);
    }
  }

  lemma MemoryAccept(v: Variant, c: Cluster, m: Msg, n': Node)
    requires Elections(c) && Logs(c) && Memory(c) && m in c.msgs && m.AppendEntries? && m.to in c.nodes
    requires FreshStep(v, c, DeliverAppendEntries(m))
    requires Accepts(c.nodes[m.to], m.term, m.prevLogIndex, m.prevLogTerm) && m.entries != []
    requires 0 <= m.prevLogIndex && n'.log == NewLog(v, c.nodes[m.to].log, m.prevLogIndex, m.entries)
    requires n'.currentTerm == m.term
    ensures Memory(SetNode(c, m.to, n'))
  {
    var n := c.nodes[m.to];
    BatchOutcome(v, c, n, m);
    if n'.log == n.log {
      MemorySetQuiet(c, m.to, n');
    } else {
      MemoryReplace(c, m.to, n', m.prevLogIndex + |m.entries|);
    }
  }

  lemma MemoryReplace(c: Cluster, id: NodeId, n': Node, reach: nat)
    requires Elections(c) && Logs(c) && Memory(c) && id in c.nodes
    requires c.nodes[id].currentTerm <= n'.currentTerm && n'.currentTerm in c.reigns
    requires reach <= |c.reigns[n'.currentTerm].log| && n'.log == c.reigns[n'.currentTerm].log[..reach]
    requires !(n'.log < c.nodes[id].log)
    ensures Memory(SetNode(c, id, n'))
  {
    PrefixTraced(c.reigns, c.reigns[n'.currentTerm].log, reach);
    forall t, i | (id, t, i) in c.held ensures Remembers(c.reigns, n'.log, t, i, n'.currentTerm) {
      BatchRemembers(c, c.nodes[id], n'.log, n'.currentTerm, t, i);
    }
    MemorySetNode(c, id, n');
  }

  lemma MemoryReceive(v: Variant, c: Cluster, m: Msg)
    requires Sound(c) && Elections(c) && Logs(c) && Memory(c) && m in c.msgs && m.AppendEntries? && m.to in c.nodes
    requires FreshStep(v, c, DeliverAppendEntries(m))
    ensures Memory(Receive(v, c, m))
  {
    var n := c.nodes[m.to];
    HandlerKeepsNodeOk(v, n, m.to, m, c.nodes.Keys);
    var n' := HandleAppendEntries(v, n, m.term, m.prevLogIndex, m.prevLogTerm, m.entries, m.leaderCommit).0;
    if Accepts(n, m.term, m.prevLogIndex, m.prevLogTerm) && m.entries != [] {
      MemoryAccept(v, c, m, n');
    } else {
      MemorySetQuiet(c, m.to, n');
    }
  }

  lemma MemoryExtend(c: Cluster, n: NodeId, e: Entry)
    requires Elections(c) && Logs(c) && Memory(c) && n in c.nodes && c.nodes[n].role == Leader
    requires e.term == c.nodes[n].currentTerm
    ensures Memory(Extend(c, n, e))
  {
    var node := c.nodes[n];
    var t := node.currentTerm;
    assert RoleOnRecord(c, n, node) && LeadsWith(c.reigns, node);
    var log := node.log + [e];
    var r := c.reigns[t].(log := log);
    MemoryReign(c, t, r);
    ElectionsReign(c, t, r);
    var c1 := SetReign(c, t, r);
    ExtendedTraced(c.reigns, t, r, e);
    forall u, i | (n, u, i) in c1.held ensures Remembers(c1.reigns, log, u, i, t) {
      assert Remembers(c1.reigns, node.log, u, i, t);
      assert Keeps(c1.reigns, node.log, u, i) ==> log[..i] == node.log[..i];
    }
    MemorySetNode(c1, n, node.(log := log));
    assert Extend(c, n, e) == SetNode(c1, n, node.(log := log));
  }

  lemma MemoryStep(v: Variant, c: Cluster, a: Action)
    requires Sound(c) && Elections(c) && Logs(c) && Memory(c)
    requires Enabled(v, c, a) && RuledStep(v, c, a) && FreshStep(v, c, a)
    ensures Memory(Apply(v, c, a))
  {
    match a
    case Timeout(n) => MemoryElect(c, n);
    case SendVoteRequest(n, t, p) => MemoryAskVote(c, n, t, p);
    case DeliverVoteRequest(m) => MemoryVote(c, m);
    case CountVote(n, t, p, voterLog) => MemoryCount(v, c, n, t, p, voterLog);
    case SendAppendEntries(n, p, count) => MemorySendAppend(c, n, p, count);
    case DeliverAppendEntries(m) => MemoryReceive(v, c, m);
    case AppendEntry(n, e) => MemoryExtend(c, n, e);
    case SetNextIndex(n, p, k) => MemorySetQuiet(c, n, c.nodes[n].(nextIndex := c.nodes[n].nextIndex[p := k]));
    case AdvanceCommit(n, k) => MemorySetQuiet(c, n, c.nodes[n].(commitIndex := k));
    case ForceStepDown(n) => MemorySetQuiet(c, n, StepDown(c.nodes[n]));
  }

  lemma {:induction false} MemoryAlong(v: Variant, r: Run, i: nat)
    requires IsRun(v, r) && RuledRun(v, r) && FreshRun(v, r) && i < |r.states|
    ensures Memory(r.states[i])
  {
    if i == 0 {
      MemoryInit(r.states[0]);
    } else {
      MemoryAlong(v, r, i - 1);
      LogsAlong(v, r, i - 1);
      MemoryStep(v, r.states[i - 1], r.actions[i - 1]);
    }
  }

  // ---- from the invariants to the theorem ----

  // A candidate whose log is at least as recent as a log that has the entries has them too, once
  // every leader in between has them.
  lemma RecentKeeps(c: Cluster, t: int, i: int, u: int, voterLog: Log)
    requires Logs(c) && t in c.reigns && u in c.reigns && OwnEntry(c.reigns, t, i)
    requires AllTraced(c.reigns, voterLog) && TermsOrdered(voterLog, u) && Keeps(c.reigns, voterLog, t, i)
    requires NoMoreRecent(voterLog, c.reigns[u].elected)
    requires forall s :: t < s < u && s in c.reigns ==> Keeps(c.reigns, c.reigns[s].elected, t, i)
    ensures Keeps(c.reigns, c.reigns[u].elected, t, i)
  {
    var e := c.reigns[u].elected;
    assert ReignLog(u, c.reigns[u]);
    assert voterLog[i - 1] == voterLog[..i][i - 1] == c.reigns[t].log[..i][i - 1] == c.reigns[t].log[i - 1];
    assert t <= LastTerm(voterLog) <= LastTerm(e);
    assert e == c.reigns[u].log[..|e|];
    PrefixTraced(c.reigns, c.reigns[u].log, |e|);
    var s := LastTerm(e);
    assert Traced(c.reigns, e, |e|);
    assert e[..|e|] == e;
    var leaderLog := c.reigns[s].log;
    if s == LastTerm(voterLog) {
      assert Traced(c.reigns, voterLog, |voterLog|);
      assert voterLog[..|voterLog|] == voterLog;
      assert e[..i] == leaderLog[..|e|][..i] == leaderLog[..i] == leaderLog[..|voterLog|][..i] == voterLog[..i];
    } else {
      var e' := c.reigns[s].elected;
      assert ReignLog(s, c.reigns[s]);
      assert leaderLog[|e| - 1] == e[|e| - 1];
      assert |e'| < |e|;
      assert e[..i] == leaderLog[..|e|][..i] == leaderLog[..i] == leaderLog[..|e'|][..i] == e'[..i];
    }
  }

  ghost predicate HeldByMajority(c: Cluster, q: set<NodeId>, t: int, i: int) {
    q <= c.nodes.Keys && |q| >= Majority(|c.nodes.Keys|) && forall v :: v in q ==> (v, t, i) in c.held
  }

  lemma {:induction false} ElectedComplete(c: Cluster, q: set<NodeId>, t: int, i: int, u: int)
    requires Elections(c) && Logs(c) && Recent(c) && Memory(c)
    requires HeldByMajority(c, q, t, i) && t < u && u in c.reigns
    ensures Keeps(c.reigns, c.reigns[u].elected, t, i)
    decreases u - t
  {
    forall s | t < s < u && s in c.reigns ensures Keeps(c.reigns, c.reigns[s].elected, t, i) {
      ElectedComplete(c, q, t, i, s);
    }
    var r := c.reigns[u];
    assert ElectedBy(c, u, r);
    var v := MajoritiesMeet(q, r.votes.Keys, c.nodes.Keys);
    assert (v, t, i) in c.held && Informed(c, v, u, r.votes[v], u - 1);
    assert VotesNoMoreRecent(r.votes, r.elected);
    RecentKeeps(c, t, i, u, r.votes[v]);
  }
}
