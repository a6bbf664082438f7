/**
 Theorems about every run of every variant, hence of the code as written.
 */
module AsWrittenTheorems {
  import opened RaftNode
  import opened RaftCluster
  import opened RaftAsWritten

  // ---- what one step may do to the nodes ----

  // Inside one term a node only moves candidate -> leader -> follower or candidate -> follower.
  predicate RoleForward(o: Role, n: Role) {
    n == o || n == Follower || (o == Candidate && n == Leader)
  }

  // Terms grow, and within a term a leader's log only grows.
  predicate NodeForward(o: Node, n: Node) {
    && o.currentTerm <= n.currentTerm
    && (o.currentTerm == n.currentTerm ==> RoleForward(o.role, n.role))
    && (o.currentTerm == n.currentTerm && o.role == Leader && n.role == Leader ==> o.log <= n.log)
  }

  ghost predicate Forward(c: Cluster, c': Cluster) {
    && c'.nodes.Keys == c.nodes.Keys
    && forall n :: n in c.nodes ==> NodeForward(c.nodes[n], c'.nodes[n])
  }

  lemma SetNodeForward(c: Cluster, id: NodeId, n: Node)
    requires id in c.nodes && NodeForward(c.nodes[id], n)
    ensures Forward(c, SetNode(c, id, n))
  {
  }

  lemma CountForward(v: Variant, c: Cluster, n: NodeId, t: int, p: NodeId, voterLog: Log)
    requires n in c.nodes && (n, t) in c.ballots
    ensures Forward(c, Count(v, c, n, t, p, voterLog))
  {
    var b := c.ballots[(n, t)];
    var votes := b.votes[p := voterLog];
    if Elects(v, c, n, t, votes) {
      SetNodeForward(c, n, BecomeLeader(c.nodes[n], n, c.nodes.Keys));
    }
  }

  lemma VoteForward(c: Cluster, m: Msg)
    requires m.VoteRequest? && m.to in c.nodes
    ensures Forward(c, Vote(c, m))
  {
    SetNodeForward(c, m.to, HandleVoteRequest(c.nodes[m.to], m.from, m.term, m.lastLogIndex, m.lastLogTerm).0);
  }

  lemma ReceiveForward(v: Variant, c: Cluster, m: Msg)
    requires m.AppendEntries? && m.to in c.nodes
    ensures Forward(c, Receive(v, c, m))
  {
  }

  lemma StepForward(v: Variant, c: Cluster, a: Action)
    requires Enabled(v, c, a)
    ensures Forward(c, Apply(v, c, a))
  {
    match a
    case Timeout(n) => SetNodeForward(c, n, StartElection(c.nodes[n], n));
    case DeliverVoteRequest(m) => VoteForward(c, m);
    case CountVote(n, t, p, voterLog) => CountForward(v, c, n, t, p, voterLog);
    case DeliverAppendEntries(m) => ReceiveForward(v, c, m);
    case _ =>
  }

  // A run, as far as its nodes are concerned.
  ghost predicate Advancing(states: seq<Cluster>) {
    forall i :: 0 <= i < |states| - 1 ==> Forward(states[i], states[i + 1])
  }

  lemma RunAdvances(v: Variant, r: Run)
    requires IsRun(v, r)
    ensures Advancing(r.states)
  {
    forall i | 0 <= i < |r.states| - 1 ensures Forward(r.states[i], r.states[i + 1]) {
      StepForward(v, r.states[i], r.actions[i]);
    }
  }

  // A leader that was one in an earlier state of the same term has kept its log, and added to it.
  predicate StillLeading(o: Node, n: Node) {
    o.role == Leader && o.currentTerm == n.currentTerm ==>
      n.role != Candidate && (n.role == Leader ==> o.log <= n.log)
  }

  lemma {:induction false} ForwardAlong(states: seq<Cluster>, i: nat, j: nat)
    requires Advancing(states) && i <= j < |states|
    ensures states[j].nodes.Keys == states[i].nodes.Keys
    ensures forall n :: n in states[i].nodes ==>
              && states[i].nodes[n].currentTerm <= states[j].nodes[n].currentTerm
              && StillLeading(states[i].nodes[n], states[j].nodes[n])
  {
    if i < j {
      ForwardAlong(states, i, j - 1);
      assert Forward(states[j - 1], states[j - 1 + 1]);
      forall n | n in states[i].nodes
        ensures states[i].nodes[n].currentTerm <= states[j].nodes[n].currentTerm
        ensures StillLeading(states[i].nodes[n], states[j].nodes[n])
      {
        assert NodeForward(states[j - 1].nodes[n], states[j].nodes[n]);
      }
    }
  }

  // ---- theorems on whole runs ----

  lemma TermsNeverDecrease(v: Variant, r: Run, i: nat, j: nat, n: NodeId)
    requires IsRun(v, r) && i <= j < |r.states| && n in r.states[i].nodes
    ensures n in r.states[j].nodes
    ensures r.states[i].nodes[n].currentTerm <= r.states[j].nodes[n].currentTerm
  {
    RunAdvances(v, r);
    ForwardAlong(r.states, i, j);
  }

  lemma LeaderAppendOnly(v: Variant, r: Run, i: nat, j: nat, n: NodeId, t: int)
    requires IsRun(v, r) && i <= j < |r.states|
    requires Leads(r.states[i], n, t) && Leads(r.states[j], n, t)
    ensures r.states[i].nodes[n].log <= r.states[j].nodes[n].log
  {
    RunAdvances(v, r);
    ForwardAlong(r.states, i, j);
  }

  lemma CandidatesVoteForThemselves(v: Variant, r: Run, i: nat, n: NodeId)
    requires IsRun(v, r) && i < |r.states| && n in r.states[i].nodes && r.states[i].nodes[n].role != Follower
    ensures r.states[i].nodes[n].votedFor == n
  {
    SoundAlong(v, r, i);
    assert NodeOk(r.states[i].nodes[n], n);
  }

  // Terms are ordered by index in every log and every window in flight, and bounded by the
  // holder's term or the message's.
  lemma LogTermsOrdered(v: Variant, r: Run, i: nat)
    requires IsRun(v, r) && i < |r.states|
    ensures forall n :: n in r.states[i].nodes ==>
              TermsOrdered(r.states[i].nodes[n].log, r.states[i].nodes[n].currentTerm)
    ensures forall m :: m in r.states[i].msgs && m.AppendEntries? ==> TermsOrdered(m.entries, m.term)
  {
    SoundAlong(v, r, i);
    forall n | n in r.states[i].nodes
      ensures TermsOrdered(r.states[i].nodes[n].log, r.states[i].nodes[n].currentTerm)
    {
      assert NodeOk(r.states[i].nodes[n], n);
    }
    forall m | m in r.states[i].msgs && m.AppendEntries? ensures TermsOrdered(m.entries, m.term) {
      assert MsgOk(m, r.states[i].nodes.Keys);
    }
  }

  // The message a leader sends names a real place in its log, with the true term there, and
  // carries what the log holds after it.
  predicate TrueWindow(log: Log, m: Msg)
    requires m.AppendEntries?
  {
    && 0 <= m.prevLogIndex <= m.prevLogIndex + |m.entries| <= |log|
    && (m.prevLogIndex == 0 ==> m.prevLogTerm == 0)
    && (0 < m.prevLogIndex ==> m.prevLogTerm == log[m.prevLogIndex - 1].term)
    && m.entries == log[m.prevLogIndex..m.prevLogIndex + |m.entries|]
  }

  // A heartbeat that goes out late, when its sender no longer leads, may name a place past the end
  // of the sender's log; it then claims the term 0, which no entry has.
  predicate LateHeartbeat(log: Log, m: Msg)
    requires m.AppendEntries?
  {
    && m.entries == [] && 0 <= m.prevLogIndex
    && (m.prevLogIndex == 0 || |log| < m.prevLogIndex ==> m.prevLogTerm == 0)
    && (0 < m.prevLogIndex <= |log| ==> m.prevLogTerm == log[m.prevLogIndex - 1].term)
  }

  lemma SentWindowsAreTrue(v: Variant, r: Run, i: nat)
    requires IsRun(v, r) && i < |r.actions| && r.actions[i].SendAppendEntries?
    ensures var a := r.actions[i];
            var n := r.states[i].nodes[a.n];
            var m := AppendMessage(n, a.n, a.p, a.count);
            && m in r.states[i + 1].msgs && m.term == n.currentTerm
            && (if n.role == Leader then TrueWindow(n.log, m) else LateHeartbeat(n.log, m))
  {
    SoundAlong(v, r, i);
    var a := r.actions[i];
    var n := r.states[i].nodes[a.n];
    assert NextIndexesOk(n, a.n, r.states[i].nodes.Keys);
    if n.role == Leader {
      WindowShape(n, a.n, a.p, a.count);
    }
  }

  // No follower takes such a place for its own: an accepted window always names a place that
  // the term it claims fits.
  lemma OverlongHeartbeatsRejected(v: Variant, r: Run, i: nat, m: Msg)
    requires IsRun(v, r) && i < |r.states| && m in r.states[i].msgs && m.AppendEntries? && m.to in r.states[i].nodes
    requires 0 < m.prevLogIndex && m.prevLogTerm == 0
    ensures !Accepts(r.states[i].nodes[m.to], m.term, m.prevLogIndex, m.prevLogTerm)
  {
    SoundAlong(v, r, i);
    assert NodeOk(r.states[i].nodes[m.to], m.to);
  }

  // No delivery ever makes the handler slice out of range.
  lemma SlicesStayInRange(v: Variant, r: Run, i: nat, m: Msg)
    requires IsRun(v, r) && i < |r.states| && m in r.states[i].msgs && m.AppendEntries? && m.to in r.states[i].nodes
    ensures SliceInRange(r.states[i].nodes[m.to], m.term, m.prevLogIndex, m.entries)
    ensures Accepts(r.states[i].nodes[m.to], m.term, m.prevLogIndex, m.prevLogTerm) ==>
              0 <= m.prevLogIndex <= |r.states[i].nodes[m.to].log|
  {
    SoundAlong(v, r, i);
    assert MsgOk(m, r.states[i].nodes.Keys);
  }

  // ---- a node alone ----

  lemma {:induction false} NoVoteFromPeers(v: Variant, r: Run, i: nat, n: NodeId)
    requires IsRun(v, r) && i < |r.states| && r.states[i].nodes.Keys == {n}
    requires forall j :: 0 <= j < i ==> r.states[j].nodes.Keys == {n}
    ensures r.states[i].nodes[n].role != Leader
  {
    if 0 < i {
      NoVoteFromPeers(v, r, i - 1, n);
      SoundAlong(v, r, i - 1);
      LoneStep(v, r.states[i - 1], r.actions[i - 1], n);
    }
  }

  lemma VotePromotesNobody(c: Cluster, m: Msg, n: NodeId)
    requires m.VoteRequest? && m.to in c.nodes && n in c.nodes && c.nodes[n].role != Leader
    ensures n in Vote(c, m).nodes && Vote(c, m).nodes[n].role != Leader
  {
  }

  lemma ReceivePromotesNobody(v: Variant, c: Cluster, m: Msg, n: NodeId)
    requires m.AppendEntries? && m.to in c.nodes && n in c.nodes && c.nodes[n].role != Leader
    ensures n in Receive(v, c, m).nodes && Receive(v, c, m).nodes[n].role != Leader
  {
  }

  // The only peer a lone node could count is itself, and it was counted when the tally opened.
  lemma LoneNodeCountsNobody(v: Variant, c: Cluster, a: Action, n: NodeId)
    requires Sound(c) && c.nodes.Keys == {n} && a.CountVote?
    ensures !Enabled(v, c, a)
  {
    assert a.n in c.nodes && (a.n, a.t) in c.ballots ==> a.n in c.ballots[(a.n, a.t)].votes;
  }

  lemma LoneStep(v: Variant, c: Cluster, a: Action, n: NodeId)
    requires Sound(c) && Enabled(v, c, a) && c.nodes.Keys == {n} && c.nodes[n].role != Leader
    ensures n in Apply(v, c, a).nodes && Apply(v, c, a).nodes[n].role != Leader
  {
    if a.CountVote? {
      LoneNodeCountsNobody(v, c, a, n);
    } else if a.DeliverVoteRequest? {
      VotePromotesNobody(c, a.m, n);
    } else if a.DeliverAppendEntries? {
      ReceivePromotesNobody(v, c, a.m, n);
    }
  }

  // Only a peer's answer promotes a node, so a cluster of one never has a leader.
  lemma LoneNodeNeverLeads(v: Variant, r: Run, i: nat, n: NodeId)
    requires IsRun(v, r) && i < |r.states| && r.states[0].nodes.Keys == {n}
    ensures r.states[i].nodes.Keys == {n} && r.states[i].nodes[n].role != Leader
  {
    RunAdvances(v, r);
    forall j | 0 <= j <= i ensures r.states[j].nodes.Keys == {n} {
      ForwardAlong(r.states, 0, j);
    }
    NoVoteFromPeers(v, r, i, n);
  }
}
