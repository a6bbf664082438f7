/**
 Election Safety (section 5.2 of the extended Raft paper), for the runs of any variant that keep
 to the vote rules: at most one node ever leads a given term.
 */
module ElectionSafety {
  import opened RaftNode
  import opened RaftCluster
  import opened VoteRules
  import opened RaftAsWritten
  import opened Quorums

  predicate Voted(c: Cluster, p: NodeId, t: int, candidate: NodeId) {
    (p, t) in c.cast && c.cast[(p, t)] == candidate
  }

  predicate ElectedBy(c: Cluster, t: int, r: Reign) {
    && r.leader in r.votes
    && r.votes.Keys <= c.nodes.Keys
    && |r.votes.Keys| >= Majority(|c.nodes.Keys|)
    && forall p :: p in r.votes ==> Voted(c, p, t, r.leader)
  }

  // A leader is the one on record for its term; a candidate is not.
  predicate RoleOnRecord(c: Cluster, id: NodeId, n: Node) {
    && (n.role == Leader ==> n.currentTerm in c.reigns && c.reigns[n.currentTerm].leader == id)
    && (n.role == Candidate ==> n.currentTerm in c.reigns ==> c.reigns[n.currentTerm].leader != id)
  }

  ghost predicate CastsStand(c: Cluster) {
    forall p, t :: (p, t) in c.cast ==>
      p in c.nodes && c.cast[(p, t)] != NOBODY && t <= c.nodes[p].currentTerm
  }

  ghost predicate GrantsOnRecord(c: Cluster) {
    forall m :: m in c.msgs && m.VoteGrant? ==> Voted(c, m.from, m.term, m.to)
  }

  ghost predicate BallotsOnRecord(c: Cluster) {
    forall n, t, p :: (n, t) in c.ballots && p in c.ballots[(n, t)].votes ==> Voted(c, p, t, n)
  }

  ghost predicate ReignsElected(c: Cluster) {
    forall t :: t in c.reigns ==> ElectedBy(c, t, c.reigns[t])
  }

  ghost predicate RolesOnRecord(c: Cluster) {
    forall n :: n in c.nodes ==> RoleOnRecord(c, n, c.nodes[n])
  }

  ghost predicate Elections(c: Cluster) {
    CastsStand(c) && GrantsOnRecord(c) && BallotsOnRecord(c) && ReignsElected(c) && RolesOnRecord(c)
  }

  lemma ElectionsInit(c: Cluster)
    requires Init(c)
    ensures Elections(c)
  {
  }

  lemma ElectionsSetNode(c: Cluster, id: NodeId, n: Node)
    requires Elections(c) && id in c.nodes && c.nodes[id].currentTerm <= n.currentTerm && RoleOnRecord(c, id, n)
    ensures Elections(SetNode(c, id, n))
  {
    assert SetNode(c, id, n).nodes.Keys == c.nodes.Keys;
  }

  // A new vote on record, in a term the node has not voted otherwise in.
  lemma ElectionsCast(c: Cluster, voter: NodeId, t: int, candidate: NodeId)
    requires Elections(c) && voter in c.nodes && candidate != NOBODY
    requires (voter, t) in c.cast ==> c.cast[(voter, t)] == candidate
    requires t <= c.nodes[voter].currentTerm
    ensures Elections(Cast(c, voter, t, candidate))
  {
    var c' := Cast(c, voter, t, candidate);
    assert forall p, u, x :: Voted(c, p, u, x) ==> Voted(c', p, u, x);
  }

  lemma ElectionsBallot(c: Cluster, n: NodeId, t: int, b: Ballot)
    requires Elections(c) && forall p :: p in b.votes ==> Voted(c, p, t, n)
    ensures Elections(SetBallot(c, n, t, b))
  {
  }

  lemma ElectionsSend(c: Cluster, m: Msg)
    requires Elections(c) && (m.VoteGrant? ==> Voted(c, m.from, m.term, m.to))
    ensures Elections(Send(c, m))
  {
  }

  lemma ElectionsElect(c: Cluster, n: NodeId)
    requires Sound(c) && Elections(c) && n in c.nodes
    ensures Elections(Elect(c, n))
  {
    var node := StartElection(c.nodes[n], n);
    var t := node.currentTerm;
    assert (n, t) !in c.cast;
    assert t in c.reigns && c.reigns[t].leader == n ==> Voted(c, n, t, n);
    ElectionsSetNode(c, n, node);
    var c1 := SetNode(c, n, node);
    ElectionsCast(c1, n, t, n);
    ElectionsBallot(Cast(c1, n, t, n), n, t, Ballot({}, map[n := node.log]));
  }

  lemma ElectionsAskVote(c: Cluster, n: NodeId, t: int, p: NodeId)
    requires Elections(c) && n in c.nodes && (n, t) in c.ballots
    ensures Elections(AskVote(c, n, t, p))
  {
    var b := c.ballots[(n, t)];
    ElectionsBallot(c, n, t, b.(sent := b.sent + {p}));
    ElectionsSend(SetBallot(c, n, t, b.(sent := b.sent + {p})),
                  VoteRequest(n, p, c.nodes[n].currentTerm, |c.nodes[n].log|, LastTerm(c.nodes[n].log)));
  }

  lemma ElectionsVote(c: Cluster, m: Msg)
    requires Sound(c) && Elections(c) && m in c.msgs && m.VoteRequest? && m.to in c.nodes && VoteRule(c, m)
    ensures Elections(Vote(c, m))
  {
    var (node, granted) := HandleVoteRequest(c.nodes[m.to], m.from, m.term, m.lastLogIndex, m.lastLogTerm);
    ElectionsSetNode(c, m.to, node);
    if granted {
      var c1 := SetNode(c, m.to, node);
      ElectionsCast(c1, m.to, m.term, m.from);
      ElectionsSend(Cast(c1, m.to, m.term, m.from), VoteGrant(m.to, m.from, m.term, node.log));
    }
  }

  predicate Tally(c: Cluster, t: int, n: NodeId, votes: map<NodeId, Log>) {
    && votes.Keys <= c.nodes.Keys
    && |votes.Keys| >= Majority(|c.nodes.Keys|)
    && forall p :: p in votes ==> Voted(c, p, t, n)
  }

  // The heart of the matter: two electing tallies of one term share a voter, who voted once.
  lemma OneCandidate(c: Cluster, t: int, n1: NodeId, votes1: map<NodeId, Log>, n2: NodeId, votes2: map<NodeId, Log>)
    requires Tally(c, t, n1, votes1) && Tally(c, t, n2, votes2)
    ensures n1 == n2
  {
    var p := MajoritiesMeet(votes1.Keys, votes2.Keys, c.nodes.Keys);
    assert Voted(c, p, t, n1) && Voted(c, p, t, n2);
  }

  lemma FirstElection(c: Cluster, n: NodeId, votes: map<NodeId, Log>)
    requires Elections(c) && n in c.nodes && c.nodes[n].role == Candidate
    requires Tally(c, c.nodes[n].currentTerm, n, votes)
    ensures c.nodes[n].currentTerm !in c.reigns
  {
    var t := c.nodes[n].currentTerm;
    assert RoleOnRecord(c, n, c.nodes[n]);
    if t in c.reigns {
      assert ElectedBy(c, t, c.reigns[t]);
      OneCandidate(c, t, n, votes, c.reigns[t].leader, c.reigns[t].votes);
    }
  }

  lemma ElectionsCrown(c: Cluster, id: NodeId, n: Node, r: Reign)
    requires Elections(c) && id in c.nodes && n.role == Leader && n.votedFor == c.nodes[id].votedFor
    requires n.currentTerm == c.nodes[id].currentTerm && n.currentTerm !in c.reigns
    requires r.leader == id && ElectedBy(c, n.currentTerm, r)
    ensures Elections(SetReign(SetNode(c, id, n), n.currentTerm, r))
  {
    var c' := SetReign(SetNode(c, id, n), n.currentTerm, r);
    assert c'.nodes.Keys == c.nodes.Keys;
    CrownedReigns(c, c', n.currentTerm, r);
    CrownedRoles(c, c', id, n, r);
  }

  lemma CrownedReigns(c: Cluster, c': Cluster, t: int, r: Reign)
    requires ReignsElected(c) && ElectedBy(c, t, r)
    requires c'.nodes.Keys == c.nodes.Keys && c'.cast == c.cast && c'.reigns == c.reigns[t := r]
    ensures ReignsElected(c')
  {
    forall u | u in c'.reigns ensures ElectedBy(c', u, c'.reigns[u]) {
      assert ElectedBy(c, u, c'.reigns[u]);
    }
  }

  lemma CrownedRoles(c: Cluster, c': Cluster, id: NodeId, n: Node, r: Reign)
    requires RolesOnRecord(c) && n.role == Leader && r.leader == id && n.currentTerm !in c.reigns
    requires c'.nodes == c.nodes[id := n] && c'.reigns == c.reigns[n.currentTerm := r]
    ensures RolesOnRecord(c')
  {
    forall x | x in c'.nodes ensures RoleOnRecord(c', x, c'.nodes[x]) {
      assert x != id ==> RoleOnRecord(c, x, c.nodes[x]);
    }
  }

  lemma ElectionsPromote(c: Cluster, n: NodeId, votes: map<NodeId, Log>)
    requires Elections(c) && n in c.nodes && c.nodes[n].role == Candidate
    requires n in votes && Tally(c, c.nodes[n].currentTerm, n, votes)
    ensures Elections(Promote(c, n, votes))
  {
    var node := c.nodes[n];
    FirstElection(c, n, votes);
    ElectionsCrown(c, n, BecomeLeader(node, n, c.nodes.Keys), Reign(n, votes, node.log, node.log));
  }

  lemma ElectionsReign(c: Cluster, t: int, r: Reign)
    requires Elections(c) && ElectedBy(c, t, r)
    requires t !in c.reigns || c.reigns[t].leader == r.leader
    requires r.leader in c.nodes ==> !(c.nodes[r.leader].role == Candidate && c.nodes[r.leader].currentTerm == t)
    ensures Elections(SetReign(c, t, r))
  {
  }

  // One more granted vote in a tally.
  lemma VotesOnRecord(c: Cluster, n: NodeId, t: int, p: NodeId, voterLog: Log)
    requires Sound(c) && Elections(c) && (n, t) in c.ballots && p in c.nodes && VoteGrant(p, n, t, voterLog) in c.msgs
    ensures var votes := c.ballots[(n, t)].votes[p := voterLog];
            n in votes && votes.Keys <= c.nodes.Keys && forall x :: x in votes ==> Voted(c, x, t, n)
  {
    assert Voted(c, p, t, n);
  }

  lemma ElectionsTally(v: Variant, c: Cluster, n: NodeId, t: int, b: Ballot)
    requires Elections(c) && n in c.nodes && (Elects(v, c, n, t, b.votes) ==> c.nodes[n].currentTerm == t)
    requires n in b.votes && b.votes.Keys <= c.nodes.Keys && forall x :: x in b.votes ==> Voted(c, x, t, n)
    ensures Elections(SetBallot(c, n, t, b))
    ensures Elects(v, c, n, t, b.votes) ==> Elections(Promote(SetBallot(c, n, t, b), n, b.votes))
  {
    ElectionsBallot(c, n, t, b);
    if Elects(v, c, n, t, b.votes) {
      ElectionsPromote(SetBallot(c, n, t, b), n, b.votes);
    }
  }

  lemma ElectionsCount(v: Variant, c: Cluster, n: NodeId, t: int, p: NodeId, voterLog: Log)
    requires Sound(c) && Elections(c) && Enabled(v, c, CountVote(n, t, p, voterLog))
    requires CountRule(v, c, n, t, p, voterLog)
    ensures Elections(Count(v, c, n, t, p, voterLog))
  {
    var b := c.ballots[(n, t)];
    VotesOnRecord(c, n, t, p, voterLog);
    ElectionsTally(v, c, n, t, b.(votes := b.votes[p := voterLog]));
  }

  lemma ElectionsReceive(v: Variant, c: Cluster, m: Msg)
    requires Sound(c) && Elections(c) && m in c.msgs && m.AppendEntries? && m.to in c.nodes
    ensures Elections(Receive(v, c, m))
  {
    var node := c.nodes[m.to];
    if SliceInRange(node, m.term, m.prevLogIndex, m.entries) {
      ElectionsSetNode(c, m.to,
        HandleAppendEntries(v, node, m.term, m.prevLogIndex, m.prevLogTerm, m.entries, m.leaderCommit).0);
    }
  }

  lemma ElectionsExtend(c: Cluster, n: NodeId, e: Entry)
    requires Elections(c) && n in c.nodes && c.nodes[n].role == Leader
    ensures Elections(Extend(c, n, e))
  {
    var node := c.nodes[n].(log := c.nodes[n].log + [e]);
    var t := node.currentTerm;
    ElectionsSetNode(c, n, node);
    ElectionsReign(SetNode(c, n, node), t, c.reigns[t].(log := node.log));
  }

  lemma ElectionsStep(v: Variant, c: Cluster, a: Action)
    requires Sound(c) && Elections(c) && Enabled(v, c, a) && RuledStep(v, c, a)
    ensures Elections(Apply(v, c, a))
  {
    match a
    case Timeout(n) => ElectionsElect(c, n);
    case SendVoteRequest(n, t, p) => ElectionsAskVote(c, n, t, p);
    case DeliverVoteRequest(m) => ElectionsVote(c, m);
    case CountVote(n, t, p, voterLog) => ElectionsCount(v, c, n, t, p, voterLog);
    case SendAppendEntries(n, p, count) => ElectionsSend(c, AppendMessage(c.nodes[n], n, p, count));
    case DeliverAppendEntries(m) => ElectionsReceive(v, c, m);
    case AppendEntry(n, e) => ElectionsExtend(c, n, e);
    case SetNextIndex(n, p, k) => ElectionsSetNode(c, n, c.nodes[n].(nextIndex := c.nodes[n].nextIndex[p := k]));
    case AdvanceCommit(n, k) => ElectionsSetNode(c, n, c.nodes[n].(commitIndex := k));
    case ForceStepDown(n) => ElectionsSetNode(c, n, StepDown(c.nodes[n]));
  }

  lemma {:induction false} ElectionsAlong(v: Variant, r: Run, i: nat)
    requires IsRun(v, r) && RuledRun(v, r) && i < |r.states|
    ensures Sound(r.states[i]) && Elections(r.states[i])
  {
    SoundAlong(v, r, i);
    if i == 0 {
      ElectionsInit(r.states[0]);
    } else {
      ElectionsAlong(v, r, i - 1);
      ElectionsStep(v, r.states[i - 1], r.actions[i - 1]);
    }
  }
}
