/**
 The safety theorems in terms of what the nodes of a run hold and do, the vote rules being kept:
 Election Safety, Log Matching and Leader Completeness, between any two moments of a run.
 */
module RaftSafety {
  import opened RaftNode
  import opened RaftCluster
  import opened VoteRules
  import opened RaftAsWritten
  import opened ElectionSafety
  import opened LogMatching
  import opened VoteRecency
  import opened LeaderCompleteness

  // ---- the record only grows ----

  ghost predicate Grows(c: Cluster, c': Cluster) {
    c'.nodes.Keys == c.nodes.Keys && c.held <= c'.held && ReignsGrow(c.reigns, c'.reigns)
  }

  // What a node holds of its own term is on record.
  ghost predicate HeldNow(c: Cluster) {
    forall v :: v in c.nodes ==> HeldBy(v, c.nodes[v]) <= c.held
  }

  lemma SetNodeHeld(c: Cluster, id: NodeId, n: Node)
    requires HeldNow(c) && id in c.nodes
    ensures HeldNow(SetNode(c, id, n)) && Grows(c, SetNode(c, id, n))
  {
  }

  lemma PromoteHeld(c: Cluster, n: NodeId, votes: map<NodeId, Log>)
    requires HeldNow(c) && n in c.nodes && c.nodes[n].currentTerm !in c.reigns
    ensures HeldNow(Promote(c, n, votes)) && Grows(c, Promote(c, n, votes))
  {
    SetNodeHeld(c, n, BecomeLeader(c.nodes[n], n, c.nodes.Keys));
  }

  lemma CountHeld(v: Variant, c: Cluster, n: NodeId, t: int, p: NodeId, voterLog: Log)
    requires Elections(c) && HeldNow(c)
    requires Enabled(v, c, CountVote(n, t, p, voterLog)) && CountRule(v, c, n, t, p, voterLog)
    requires c.ballots[(n, t)].votes.Keys <= c.nodes.Keys
    ensures var c' := Count(v, c, n, t, p, voterLog); HeldNow(c') && Grows(c, c')
  {
    var votes := c.ballots[(n, t)].votes[p := voterLog];
    assert Voted(c, p, t, n);
    if Elects(v, c, n, t, votes) {
      assert Tally(c, t, n, votes);
      FirstElection(c, n, votes);
      PromoteHeld(SetBallot(c, n, t, c.ballots[(n, t)].(votes := votes)), n, votes);
    }
  }

  lemma VoteHeld(c: Cluster, m: Msg)
    requires HeldNow(c) && m.VoteRequest? && m.to in c.nodes
    ensures HeldNow(Vote(c, m)) && Grows(c, Vote(c, m))
  {
    SetNodeHeld(c, m.to, HandleVoteRequest(c.nodes[m.to], m.from, m.term, m.lastLogIndex, m.lastLogTerm).0);
  }

  lemma ReceiveHeld(v: Variant, c: Cluster, m: Msg)
    requires HeldNow(c) && m.AppendEntries? && m.to in c.nodes
    ensures HeldNow(Receive(v, c, m)) && Grows(c, Receive(v, c, m))
  {
    if SliceInRange(c.nodes[m.to], m.term, m.prevLogIndex, m.entries) {
      SetNodeHeld(c, m.to, HandleAppendEntries(v, c.nodes[m.to], m.term, m.prevLogIndex, m.prevLogTerm,
                                               m.entries, m.leaderCommit).0);
    }
  }

  lemma ExtendHeld(c: Cluster, n: NodeId, e: Entry)
    requires Elections(c) && Logs(c) && HeldNow(c) && n in c.nodes && c.nodes[n].role == Leader
    ensures HeldNow(Extend(c, n, e)) && Grows(c, Extend(c, n, e))
  {
    assert LeadsWith(c.reigns, c.nodes[n]);
    SetNodeHeld(c, n, c.nodes[n].(log := c.nodes[n].log + [e]));
  }

  lemma GrowsStep(v: Variant, c: Cluster, a: Action)
    requires Sound(c) && Elections(c) && Logs(c) && HeldNow(c) && Enabled(v, c, a) && RuledStep(v, c, a)
    ensures HeldNow(Apply(v, c, a)) && Grows(c, Apply(v, c, a))
  {
    match a
    case Timeout(n) => SetNodeHeld(c, n, StartElection(c.nodes[n], n));
    case SendVoteRequest(n, t, p) =>
    case DeliverVoteRequest(m) => VoteHeld(c, m);
    case CountVote(n, t, p, voterLog) => CountHeld(v, c, n, t, p, voterLog);
    case SendAppendEntries(n, p, count) =>
    case DeliverAppendEntries(m) => ReceiveHeld(v, c, m);
    case AppendEntry(n, e) => ExtendHeld(c, n, e);
    case SetNextIndex(n, p, k) => SetNodeHeld(c, n, c.nodes[n].(nextIndex := c.nodes[n].nextIndex[p := k]));
    case AdvanceCommit(n, k) => SetNodeHeld(c, n, c.nodes[n].(commitIndex := k));
    case ForceStepDown(n) => SetNodeHeld(c, n, StepDown(c.nodes[n]));
  }

  lemma {:induction false} HeldNowAlong(v: Variant, r: Run, i: nat)
    requires IsRun(v, r) && RuledRun(v, r) && i < |r.states|
    ensures HeldNow(r.states[i])
    ensures 0 < i ==> Grows(r.states[i - 1], r.states[i])
  {
    if 0 < i {
      HeldNowAlong(v, r, i - 1);
      LogsAlong(v, r, i - 1);
      GrowsStep(v, r.states[i - 1], r.actions[i - 1]);
    }
  }

  ghost predicate Growing(states: seq<Cluster>) {
    forall i :: 0 <= i < |states| - 1 ==> Grows(states[i], states[i + 1])
  }

  lemma {:induction false} GrowingAlong(states: seq<Cluster>, i: nat, j: nat)
    requires Growing(states) && i <= j < |states|
    ensures Grows(states[i], states[j])
  {
    if i < j {
      GrowingAlong(states, i, j - 1);
      assert Grows(states[j - 1], states[j - 1 + 1]);
    }
  }

  lemma GrowsAlong(v: Variant, r: Run, i: nat, j: nat)
    requires IsRun(v, r) && RuledRun(v, r) && i <= j < |r.states|
    ensures Grows(r.states[i], r.states[j])
  {
    forall k | 0 <= k < |r.states| - 1 ensures Grows(r.states[k], r.states[k + 1]) {
      HeldNowAlong(v, r, k + 1);
    }
    GrowingAlong(r.states, i, j);
  }

  // ---- Election Safety ----

  lemma LeaderOnRecord(v: Variant, r: Run, i: nat, j: nat, n: NodeId, t: int)
    requires IsRun(v, r) && RuledRun(v, r) && i <= j < |r.states| && Leads(r.states[i], n, t)
    ensures t in r.states[j].reigns && r.states[j].reigns[t].leader == n
    ensures r.states[i].nodes[n].log <= r.states[j].reigns[t].log
  {
    LogsAlong(v, r, i);
    GrowsAlong(v, r, i, j);
    assert RoleOnRecord(r.states[i], n, r.states[i].nodes[n]);
    assert LeadsWith(r.states[i].reigns, r.states[i].nodes[n]);
    assert ReignGrows(r.states[i].reigns[t], r.states[j].reigns[t]);
  }

  // At most one node leads a term, over the whole run.
  lemma AtMostOneLeaderPerTerm(v: Variant, r: Run, i: nat, j: nat, n1: NodeId, n2: NodeId, t: int)
    requires IsRun(v, r) && RuledRun(v, r) && i < |r.states| && j < |r.states|
    requires Leads(r.states[i], n1, t) && Leads(r.states[j], n2, t)
    ensures n1 == n2
  {
    LeaderOnRecord(v, r, i, |r.states| - 1, n1, t);
    LeaderOnRecord(v, r, j, |r.states| - 1, n2, t);
  }

  // ---- Log Matching ----

  lemma TracedAtEnd(v: Variant, r: Run, i: nat, n: NodeId)
    requires IsRun(v, r) && RuledRun(v, r) && i < |r.states| && n in r.states[i].nodes
    ensures AllTraced(r.states[|r.states| - 1].reigns, r.states[i].nodes[n].log)
  {
    LogsAlong(v, r, i);
    GrowsAlong(v, r, i, |r.states| - 1);
    TracedGrows(r.states[i].reigns, r.states[|r.states| - 1].reigns, r.states[i].nodes[n].log);
  }

  // Two logs, at any two moments, with an entry of the same term at the same index are
  // identical up to that index.
  lemma LogsMatch(v: Variant, r: Run, i: nat, n1: NodeId, j: nat, n2: NodeId, k: int)
    requires IsRun(v, r) && RuledRun(v, r) && i < |r.states| && j < |r.states|
    requires n1 in r.states[i].nodes && n2 in r.states[j].nodes
    requires 1 <= k <= |r.states[i].nodes[n1].log| && k <= |r.states[j].nodes[n2].log|
    requires r.states[i].nodes[n1].log[k - 1].term == r.states[j].nodes[n2].log[k - 1].term
    ensures r.states[i].nodes[n1].log[..k] == r.states[j].nodes[n2].log[..k]
  {
    TracedAtEnd(v, r, i, n1);
    TracedAtEnd(v, r, j, n2);
    TracedAgree(r.states[|r.states| - 1].reigns, r.states[i].nodes[n1].log, r.states[j].nodes[n2].log, k);
  }

  // ---- Leader Completeness ----

  // In state i node v, being in term t, holds at index k an entry of term t.
  predicate HoldsAt(r: Run, i: nat, v: NodeId, t: int, k: int) {
    && i < |r.states| && v in r.states[i].nodes
    && r.states[i].nodes[v].currentTerm == t
    && 1 <= k <= |r.states[i].nodes[v].log|
    && r.states[i].nodes[v].log[k - 1].term == t
  }

  // A majority accepted index k of term t in term t, each at some moment of the run.
  ghost predicate MajorityHolds(r: Run, q: set<NodeId>, t: int, k: int)
    requires 0 < |r.states|
  {
    && q <= r.states[0].nodes.Keys
    && |q| >= Majority(|r.states[0].nodes.Keys|)
    && forall v :: v in q ==> exists i :: HoldsAt(r, i, v, t, k)
  }

  // An AppendEntries answered with true in its own term leaves the follower holding the
  // entries of that term it sent.
  lemma AcceptedIsHeld(v: Variant, n: Node, id: NodeId, m: Msg, k: int)
    requires m.AppendEntries? && SliceInRange(n, m.term, m.prevLogIndex, m.entries) && 0 <= m.prevLogIndex
    requires HandleAppendEntries(v, n, m.term, m.prevLogIndex, m.prevLogTerm, m.entries, m.leaderCommit).1
    requires m.prevLogIndex < k <= m.prevLogIndex + |m.entries| && m.entries[k - 1 - m.prevLogIndex].term == m.term
    ensures (id, m.term, k) in
              HeldBy(id, HandleAppendEntries(v, n, m.term, m.prevLogIndex, m.prevLogTerm, m.entries, m.leaderCommit).0)
  {
  }

  lemma HeldAtEnd(v: Variant, r: Run, i: nat, p: NodeId, t: int, k: int)
    requires IsRun(v, r) && RuledRun(v, r) && HoldsAt(r, i, p, t, k)
    ensures (p, t, k) in r.states[|r.states| - 1].held
    ensures t in r.states[|r.states| - 1].reigns && k <= |r.states[|r.states| - 1].reigns[t].log|
    ensures r.states[i].nodes[p].log[..k] == r.states[|r.states| - 1].reigns[t].log[..k]
  {
    HeldNowAlong(v, r, i);
    GrowsAlong(v, r, i, |r.states| - 1);
    TracedAtEnd(v, r, i, p);
    assert (p, t, k) in HeldBy(p, r.states[i].nodes[p]);
    assert Traced(r.states[|r.states| - 1].reigns, r.states[i].nodes[p].log, k);
  }

  lemma MajorityAtEnd(v: Variant, r: Run, q: set<NodeId>, t: int, k: int)
    requires IsRun(v, r) && RuledRun(v, r) && MajorityHolds(r, q, t, k)
    ensures HeldByMajority(r.states[|r.states| - 1], q, t, k)
  {
    GrowsAlong(v, r, 0, |r.states| - 1);
    forall p | p in q ensures (p, t, k) in r.states[|r.states| - 1].held {
      var i :| HoldsAt(r, i, p, t, k);
      HeldAtEnd(v, r, i, p, t, k);
    }
  }

  // An entry a majority accepted in its own term is, with all before it, in the log of every
  // leader of a later term, whenever that leader leads.
  lemma LeadersAreComplete(v: Variant, r: Run, q: set<NodeId>, t: int, k: int, i: nat, p: NodeId, j: nat, n: NodeId,
                           u: int)
    requires IsRun(v, r) && RuledRun(v, r) && FreshRun(v, r) && MajorityHolds(r, q, t, k)
    requires HoldsAt(r, i, p, t, k)
    requires j < |r.states| && Leads(r.states[j], n, u) && t < u
    ensures k <= |r.states[j].nodes[n].log|
    ensures r.states[j].nodes[n].log[..k] == r.states[i].nodes[p].log[..k]
  {
    CompleteAtEnd(v, r, q, t, k, j, n, u);
    HeldAtEnd(v, r, i, p, t, k);
    ElectedInLog(v, r, j, n, u);
    KeptPrefix(r.states[|r.states| - 1].reigns, u, r.states[j].nodes[n].log, r.states[i].nodes[p].log, t, k);
  }

  lemma KeptPrefix(reigns: map<int, Reign>, u: int, log: Log, voterLog: Log, t: int, k: int)
    requires u in reigns && reigns[u].elected <= log && Keeps(reigns, reigns[u].elected, t, k)
    requires k <= |voterLog| && voterLog[..k] == reigns[t].log[..k]
    ensures k <= |log| && log[..k] == voterLog[..k]
  {
    assert log[..k] == reigns[u].elected[..k];
  }

  lemma CompleteAtEnd(v: Variant, r: Run, q: set<NodeId>, t: int, k: int, j: nat, n: NodeId, u: int)
    requires IsRun(v, r) && RuledRun(v, r) && FreshRun(v, r) && MajorityHolds(r, q, t, k)
    requires j < |r.states| && Leads(r.states[j], n, u) && t < u
    ensures u in r.states[|r.states| - 1].reigns
    ensures Keeps(r.states[|r.states| - 1].reigns, r.states[|r.states| - 1].reigns[u].elected, t, k)
  {
    var end := |r.states| - 1;
    LeaderOnRecord(v, r, j, end, n, u);
    LogsAlong(v, r, end);
    RecentAlong(v, r, end);
    MemoryAlong(v, r, end);
    MajorityAtEnd(v, r, q, t, k);
    ElectedComplete(r.states[end], q, t, k, u);
  }

  // A leader's log starts with the log it was elected with.
  lemma ElectedInLog(v: Variant, r: Run, j: nat, n: NodeId, u: int)
    requires IsRun(v, r) && RuledRun(v, r) && j < |r.states| && Leads(r.states[j], n, u)
    ensures u in r.states[|r.states| - 1].reigns
    ensures r.states[|r.states| - 1].reigns[u].elected <= r.states[j].nodes[n].log
  {
    LogsAlong(v, r, j);
    GrowsAlong(v, r, j, |r.states| - 1);
    assert LeadsWith(r.states[j].reigns, r.states[j].nodes[n]);
    assert ReignLog(u, r.states[j].reigns[u]);
    assert ReignGrows(r.states[j].reigns[u], r.states[|r.states| - 1].reigns[u]);
  }
}
