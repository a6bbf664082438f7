/**
 Who keeps to the vote rules: every run of a variant with corrected elections, and, as to one
 vote a term, exactly the runs of any variant in which no vote on record is ever overwritten.
 */
module CorrectedElections {
  import opened RaftNode
  import opened RaftCluster
  import opened RaftAsWritten
  import opened VoteRules

  // ---- corrected elections keep to the rules ----

  // The vote on record for a term is still the node's vote, or the node has left the term.
  predicate StandsBy(n: Node, t: int, candidate: NodeId) {
    t < n.currentTerm || (t == n.currentTerm && n.votedFor == candidate)
  }

  ghost predicate VotesStand(c: Cluster) {
    forall p, t :: (p, t) in c.cast ==>
      p in c.nodes && c.cast[(p, t)] != NOBODY && StandsBy(c.nodes[p], t, c.cast[(p, t)])
  }

  // How a node may change without going back on a vote.
  predicate KeepsWord(o: Node, n: Node) {
    || o.currentTerm < n.currentTerm
    || (o.currentTerm == n.currentTerm && (o.votedFor == NOBODY || n.votedFor == o.votedFor))
  }

  lemma StandSetNode(c: Cluster, id: NodeId, n: Node)
    requires VotesStand(c) && id in c.nodes && KeepsWord(c.nodes[id], n)
    ensures VotesStand(SetNode(c, id, n))
  {
  }

  lemma StandElect(c: Cluster, n: NodeId)
    requires Sound(c) && VotesStand(c) && n in c.nodes
    ensures VotesStand(Elect(c, n))
  {
    StandSetNode(c, n, StartElection(c.nodes[n], n));
  }

  lemma StandVote(c: Cluster, m: Msg)
    requires Sound(c) && VotesStand(c) && m in c.msgs && m.VoteRequest? && m.to in c.nodes
    ensures VotesStand(Vote(c, m))
  {
    assert MsgOk(m, c.nodes.Keys);
    StandSetNode(c, m.to, HandleVoteRequest(c.nodes[m.to], m.from, m.term, m.lastLogIndex, m.lastLogTerm).0);
  }

  lemma StandReceive(v: Variant, c: Cluster, m: Msg)
    requires v.keepsVote && VotesStand(c) && m.AppendEntries? && m.to in c.nodes
    ensures VotesStand(Receive(v, c, m))
  {
    var node := c.nodes[m.to];
    if SliceInRange(node, m.term, m.prevLogIndex, m.entries) {
      StandSetNode(c, m.to,
        HandleAppendEntries(v, node, m.term, m.prevLogIndex, m.prevLogTerm, m.entries, m.leaderCommit).0);
    }
  }

  lemma StandCount(v: Variant, c: Cluster, n: NodeId, t: int, p: NodeId, voterLog: Log)
    requires VotesStand(c) && n in c.nodes && (n, t) in c.ballots
    ensures VotesStand(Count(v, c, n, t, p, voterLog))
  {
    if Elects(v, c, n, t, c.ballots[(n, t)].votes[p := voterLog]) {
      StandSetNode(c, n, BecomeLeader(c.nodes[n], n, c.nodes.Keys));
    }
  }

  lemma StandStep(v: Variant, c: Cluster, a: Action)
    requires v.keepsVote && Sound(c) && VotesStand(c) && Enabled(v, c, a)
    ensures VotesStand(Apply(v, c, a))
  {
    match a
    case Timeout(n) => StandElect(c, n);
    case SendVoteRequest(n, t, p) =>
    case DeliverVoteRequest(m) => StandVote(c, m);
    case CountVote(n, t, p, voterLog) => StandCount(v, c, n, t, p, voterLog);
    case SendAppendEntries(n, p, count) =>
    case DeliverAppendEntries(m) => StandReceive(v, c, m);
    case AppendEntry(n, e) => StandSetNode(c, n, c.nodes[n].(log := c.nodes[n].log + [e]));
    case SetNextIndex(n, p, k) => StandSetNode(c, n, c.nodes[n].(nextIndex := c.nodes[n].nextIndex[p := k]));
    case AdvanceCommit(n, k) => StandSetNode(c, n, c.nodes[n].(commitIndex := k));
    case ForceStepDown(n) => StandSetNode(c, n, StepDown(c.nodes[n]));
  }

  lemma {:induction false} StandAlong(v: Variant, r: Run, i: nat)
    requires v.keepsVote && IsRun(v, r) && i < |r.states|
    ensures Sound(r.states[i]) && VotesStand(r.states[i])
  {
    SoundAlong(v, r, i);
    if 0 < i {
      StandAlong(v, r, i - 1);
      StandStep(v, r.states[i - 1], r.actions[i - 1]);
    }
  }

  lemma CorrectedStep(v: Variant, c: Cluster, a: Action)
    requires VotesOnce(v) && Sound(c) && VotesStand(c) && Enabled(v, c, a)
    ensures RuledStep(v, c, a)
  {
  }

  lemma VotesOnceIsRuled(v: Variant, r: Run)
    requires VotesOnce(v) && IsRun(v, r)
    ensures RuledRun(v, r)
  {
    forall i | 0 <= i < |r.actions| ensures RuledStep(v, r.states[i], r.actions[i]) {
      StandAlong(v, r, i);
      CorrectedStep(v, r.states[i], r.actions[i]);
    }
  }

  // ---- one vote a term, of any variant ----

  // No vote on record is from a later term than the voter's.
  ghost predicate CastsInPast(c: Cluster) {
    forall p, t :: (p, t) in c.cast ==> p in c.nodes && t <= c.nodes[p].currentTerm
  }

  ghost predicate CastsKept(c: Cluster, c': Cluster) {
    forall p, t :: (p, t) in c.cast ==> (p, t) in c'.cast && c'.cast[(p, t)] == c.cast[(p, t)]
  }

  // What one step does to the votes on record: of a request that is granted, the rule says exactly
  // whether an older vote of the term is overwritten; no other step overwrites any.
  lemma CastsKeptExactly(v: Variant, c: Cluster, a: Action)
    requires CastsInPast(c) && Enabled(v, c, a)
    ensures CastsInPast(Apply(v, c, a))
    ensures CastsKept(c, Apply(v, c, a)) <==> (a.DeliverVoteRequest? ==> VoteRule(c, a.m))
  {
    match a
    case Timeout(n) =>
    case DeliverVoteRequest(m) => VoteKeepsExactly(c, m);
    case CountVote(n, t, p, voterLog) => CountKeeps(v, c, n, t, p, voterLog);
    case DeliverAppendEntries(m) => ReceiveKeeps(v, c, m);
    case _ =>
  }

  lemma VoteKeepsExactly(c: Cluster, m: Msg)
    requires CastsInPast(c) && m.VoteRequest? && m.to in c.nodes
    ensures CastsInPast(Vote(c, m))
    ensures CastsKept(c, Vote(c, m)) <==> VoteRule(c, m)
  {
  }

  lemma CountKeeps(v: Variant, c: Cluster, n: NodeId, t: int, p: NodeId, voterLog: Log)
    requires CastsInPast(c) && n in c.nodes && (n, t) in c.ballots
    ensures CastsInPast(Count(v, c, n, t, p, voterLog)) && CastsKept(c, Count(v, c, n, t, p, voterLog))
  {
  }

  lemma ReceiveKeeps(v: Variant, c: Cluster, m: Msg)
    requires CastsInPast(c) && m.AppendEntries? && m.to in c.nodes
    ensures CastsInPast(Receive(v, c, m)) && CastsKept(c, Receive(v, c, m))
  {
  }

  lemma {:induction false} CastsInPastAlong(v: Variant, r: Run, i: nat)
    requires IsRun(v, r) && i < |r.states|
    ensures CastsInPast(r.states[i])
  {
    if 0 < i {
      CastsInPastAlong(v, r, i - 1);
      CastsKeptExactly(v, r.states[i - 1], r.actions[i - 1]);
    }
  }

  predicate RuleAt(r: Run, i: nat)
    requires i < |r.actions| && i < |r.states|
  {
    var a := r.actions[i];
    a.DeliverVoteRequest? && a.m.VoteRequest? && a.m.to in r.states[i].nodes ==> VoteRule(r.states[i], a.m)
  }

  ghost predicate KeptAt(r: Run, i: nat) {
    i + 1 < |r.states| ==> CastsKept(r.states[i], r.states[i + 1])
  }

  lemma KeptAtExactly(v: Variant, r: Run, i: nat)
    requires IsRun(v, r) && i < |r.actions|
    ensures KeptAt(r, i) <==> RuleAt(r, i)
  {
    CastsInPastAlong(v, r, i);
    CastsKeptExactly(v, r.states[i], r.actions[i]);
  }

  // No vote is overwritten in the whole run if and only if each granted request meets the rule.
  lemma OneVoteExactly(v: Variant, r: Run)
    requires IsRun(v, r)
    ensures (forall i: nat :: i < |r.actions| ==> KeptAt(r, i)) <==>
            (forall i: nat :: i < |r.actions| ==> RuleAt(r, i))
  {
    forall i: nat | i < |r.actions| ensures KeptAt(r, i) <==> RuleAt(r, i) {
      KeptAtExactly(v, r, i);
    }
  }
}
