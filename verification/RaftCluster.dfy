/**
 A cluster of nodes and the messages between them.

 A message that was sent stays in `msgs` for ever, and any step may deliver any message of
 the set, so runs contain every reordering, every duplication and (by never delivering) every
 loss. The fields `cast`, `reigns` and `held`, the log carried by a VoteGrant and the logs in
 a ballot are history: no step reads them, except that a grant is recognised as a whole.
 */
module RaftCluster {
  import opened RaftNode

  datatype Msg =
    | VoteRequest(from: NodeId, to: NodeId, term: int, lastLogIndex: int, lastLogTerm: int)
      // `voterLog` is history: the log of the voter when it granted the vote
    | VoteGrant(from: NodeId, to: NodeId, term: int, voterLog: Log)
    | AppendEntries(from: NodeId, to: NodeId, term: int, prevLogIndex: int, prevLogTerm: int,
                    entries: Log, leaderCommit: int)

  /** The tally opened by one call of startElection: the peers whose request went out, and those
      counted so far (with the log each had when it voted). The source's `votes` is |votes|. */
  datatype Ballot = Ballot(sent: set<NodeId>, votes: map<NodeId, Log>)

  /** What a promotion leaves on record: who, elected by whom, with which log, and how far the
      leader's log has grown since. */
  datatype Reign = Reign(leader: NodeId, votes: map<NodeId, Log>, elected: Log, log: Log)

  datatype Cluster = Cluster(
    nodes: map<NodeId, Node>,
    msgs: set<Msg>,
    ballots: map<(NodeId, int), Ballot>,
    // history: the last vote of each node in each term
    cast: map<(NodeId, int), NodeId>,
    // history: the last promotion in each term
    reigns: map<int, Reign>,
    // history: (node, term, index) such that in this term the node held at this (1-based) index
    // an entry of this same term
    held: set<(NodeId, int, int)>)

  datatype Action =
    | Timeout(n: NodeId)
    | SendVoteRequest(n: NodeId, t: int, p: NodeId)
    | DeliverVoteRequest(m: Msg)
    | CountVote(n: NodeId, t: int, p: NodeId, voterLog: Log)
    | SendAppendEntries(n: NodeId, p: NodeId, count: nat)
    | DeliverAppendEntries(m: Msg)
    | AppendEntry(n: NodeId, e: Entry)
    | SetNextIndex(n: NodeId, p: NodeId, k: int)
    | AdvanceCommit(n: NodeId, k: int)
    | ForceStepDown(n: NodeId)

  function Majority(size: nat): nat {
    size / 2 + 1
  }

  function NextIndex(n: Node, p: NodeId): int {
    if p in n.nextIndex then n.nextIndex[p] else 0
  }

  predicate WindowInRange(n: Node, p: NodeId, count: nat) {
    0 < count ==> 1 <= NextIndex(n, p) && NextIndex(n, p) - 1 + count <= |n.log|
  }

  function AppendMessage(n: Node, self: NodeId, p: NodeId, count: nat): Msg
    requires WindowInRange(n, p, count)
  {
    var prev := NextIndex(n, p) - 1;
    AppendEntries(self, p, n.currentTerm, prev, PrevTerm(n.log, prev),
                  if count == 0 then [] else n.log[prev..prev + count], n.commitIndex)
  }

  predicate Enabled(v: Variant, c: Cluster, a: Action) {
    match a
    case Timeout(n) =>
      n in c.nodes && c.nodes[n].role != Leader
    case SendVoteRequest(n, t, p) =>
      n in c.nodes && p in c.nodes && p != n && (n, t) in c.ballots && p !in c.ballots[(n, t)].sent
    case DeliverVoteRequest(m) =>
      m in c.msgs && m.VoteRequest? && m.to in c.nodes
    case CountVote(n, t, p, voterLog) =>
      && n in c.nodes && p in c.nodes && (n, t) in c.ballots
      && p in c.ballots[(n, t)].sent && p !in c.ballots[(n, t)].votes
      && (v.countsGrants ==> VoteGrant(p, n, t, voterLog) in c.msgs)
    case SendAppendEntries(n, p, count) =>
      && n in c.nodes && p in c.nodes && p != n && WindowInRange(c.nodes[n], p, count)
      // a heartbeat started by a leader may go out when the node no longer leads
      && (c.nodes[n].role == Leader || (count == 0 && p in c.nodes[n].nextIndex))
    case DeliverAppendEntries(m) =>
      m in c.msgs && m.AppendEntries? && m.to in c.nodes
    case AppendEntry(n, e) =>
      n in c.nodes && c.nodes[n].role == Leader && e.term == c.nodes[n].currentTerm
    case SetNextIndex(n, p, k) =>
      n in c.nodes && p in c.nodes && p != n && c.nodes[n].role == Leader && 1 <= k <= |c.nodes[n].log| + 1
    case AdvanceCommit(n, k) =>
      n in c.nodes && c.nodes[n].role == Leader && c.nodes[n].commitIndex <= k <= |c.nodes[n].log|
    case ForceStepDown(n) =>
      n in c.nodes && c.nodes[n].role != Leader
  }

  function HeldBy(id: NodeId, n: Node): set<(NodeId, int, int)> {
    set i | 1 <= i <= |n.log| && n.log[i - 1].term == n.currentTerm :: (id, n.currentTerm, i)
  }

  // The pieces a step is made of.
  function SetNode(c: Cluster, id: NodeId, n: Node): Cluster {
    c.(nodes := c.nodes[id := n], held := c.held + HeldBy(id, n))
  }

  function Send(c: Cluster, m: Msg): Cluster {
    c.(msgs := c.msgs + {m})
  }

  function SetBallot(c: Cluster, n: NodeId, t: int, b: Ballot): Cluster {
    c.(ballots := c.ballots[(n, t) := b])
  }

  function Cast(c: Cluster, voter: NodeId, t: int, candidate: NodeId): Cluster {
    c.(cast := c.cast[(voter, t) := candidate])
  }

  function SetReign(c: Cluster, t: int, r: Reign): Cluster {
    c.(reigns := c.reigns[t := r])
  }

  predicate Elects(v: Variant, c: Cluster, n: NodeId, t: int, votes: map<NodeId, Log>)
    requires n in c.nodes
  {
    && |votes.Keys| >= Majority(|c.nodes.Keys|)
    && c.nodes[n].role == Candidate
    && (v.checksTerm ==> c.nodes[n].currentTerm == t)
  }

  function Elect(c: Cluster, n: NodeId): Cluster
    requires n in c.nodes
  {
    var node := StartElection(c.nodes[n], n);
    Cast(SetBallot(SetNode(c, n, node), n, node.currentTerm, Ballot({}, map[n := node.log])),
         n, node.currentTerm, n)
  }

  function Promote(c: Cluster, n: NodeId, votes: map<NodeId, Log>): Cluster
    requires n in c.nodes
  {
    var node := c.nodes[n];
    SetReign(SetNode(c, n, BecomeLeader(node, n, c.nodes.Keys)),
             node.currentTerm, Reign(n, votes, node.log, node.log))
  }

  function Count(v: Variant, c: Cluster, n: NodeId, t: int, p: NodeId, voterLog: Log): Cluster
    requires n in c.nodes && (n, t) in c.ballots
  {
    var b := c.ballots[(n, t)];
    var votes := b.votes[p := voterLog];
    var c' := SetBallot(c, n, t, b.(votes := votes));
    if Elects(v, c, n, t, votes) then Promote(c', n, votes) else c'
  }

  function AskVote(c: Cluster, n: NodeId, t: int, p: NodeId): Cluster
    requires n in c.nodes && (n, t) in c.ballots
  {
    var node := c.nodes[n];
    var b := c.ballots[(n, t)];
    Send(SetBallot(c, n, t, b.(sent := b.sent + {p})),
         VoteRequest(n, p, node.currentTerm, |node.log|, LastTerm(node.log)))
  }

  function Vote(c: Cluster, m: Msg): Cluster
    requires m.VoteRequest? && m.to in c.nodes
  {
    var (node, granted) := HandleVoteRequest(c.nodes[m.to], m.from, m.term, m.lastLogIndex, m.lastLogTerm);
    if granted then
      Cast(Send(SetNode(c, m.to, node), VoteGrant(m.to, m.from, m.term, node.log)), m.to, m.term, m.from)
    else SetNode(c, m.to, node)
  }

  function Receive(v: Variant, c: Cluster, m: Msg): Cluster
    requires m.AppendEntries? && m.to in c.nodes
  {
    var node := c.nodes[m.to];
    if SliceInRange(node, m.term, m.prevLogIndex, m.entries) then
      SetNode(c, m.to, HandleAppendEntries(v, node, m.term, m.prevLogIndex, m.prevLogTerm, m.entries, m.leaderCommit).0)
    else
      c  // the handler panics; `SlicesStayInRange` shows that no run gets here
  }

  function Extend(c: Cluster, n: NodeId, e: Entry): Cluster
    requires n in c.nodes
  {
    var node := c.nodes[n].(log := c.nodes[n].log + [e]);
    var t := node.currentTerm;
    var c' := SetNode(c, n, node);
    if t in c.reigns then SetReign(c', t, c.reigns[t].(log := node.log)) else c'
  }

  function Apply(v: Variant, c: Cluster, a: Action): Cluster
    requires Enabled(v, c, a)
  {
    match a
    case Timeout(n) => Elect(c, n)
    case SendVoteRequest(n, t, p) => AskVote(c, n, t, p)
    case DeliverVoteRequest(m) => Vote(c, m)
    case CountVote(n, t, p, voterLog) => Count(v, c, n, t, p, voterLog)
    case SendAppendEntries(n, p, count) => Send(c, AppendMessage(c.nodes[n], n, p, count))
    case DeliverAppendEntries(m) => Receive(v, c, m)
    case AppendEntry(n, e) => Extend(c, n, e)
    case SetNextIndex(n, p, k) => SetNode(c, n, c.nodes[n].(nextIndex := c.nodes[n].nextIndex[p := k]))
    case AdvanceCommit(n, k) => SetNode(c, n, c.nodes[n].(commitIndex := k))
    case ForceStepDown(n) => SetNode(c, n, StepDown(c.nodes[n]))
  }

  // A node id is never empty: it is the cluster name, a dash and a number.
  predicate Init(c: Cluster) {
    && NOBODY !in c.nodes
    && (forall n :: n in c.nodes ==> c.nodes[n] == NEW_NODE)
    && c.msgs == {} && c.ballots == map[] && c.cast == map[] && c.reigns == map[] && c.held == {}
  }

  datatype Run = Run(states: seq<Cluster>, actions: seq<Action>)

  ghost predicate IsRun(v: Variant, r: Run) {
    && |r.states| == |r.actions| + 1
    && Init(r.states[0])
    && forall i :: 0 <= i < |r.actions| ==>
         Enabled(v, r.states[i], r.actions[i]) && r.states[i + 1] == Apply(v, r.states[i], r.actions[i])
  }

  // Node `n` leads term `t` in this state.
  predicate Leads(c: Cluster, n: NodeId, t: int) {
    n in c.nodes && c.nodes[n].role == Leader && c.nodes[n].currentTerm == t
  }
}
