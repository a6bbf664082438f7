/**
 One Raft node of the operator as a value, and what each of its methods does to it.

 The functions here are the specification of the methods of class `RaftManager`
 (module RaftManagers) and the steps of a cluster (module RaftCluster).
 */
module RaftNode {

  type NodeId = string

  // The empty string is the value of `votedFor` before any vote.
  const NOBODY: NodeId := ""

  datatype Role = Follower | Candidate | Leader

  datatype Entry = Entry(term: int, index: int, command: string)

  type Log = seq<Entry>

  datatype Node = Node(
    role: Role,
    currentTerm: int,
    votedFor: NodeId,
    log: Log,
    commitIndex: int,
    nextIndex: map<NodeId, int>,
    matchIndex: map<NodeId, int>)

  /** The five points at which the code departs from Raft, three of them against its own documentation.
      - `countsGrants`: a vote is counted when the peer grants it, not when the request was sent;
      - `checksTerm`: a tally only promotes the node in the term the tally was opened for;
      - `keepsVote`: AppendEntries of the current term leaves `votedFor` alone;
      - `keepsSuffix`: AppendEntries only truncates a log at an entry that conflicts;
      - `boundsCommit`: AppendEntries commits no further than the last entry it has checked. */
  datatype Variant = Variant(countsGrants: bool, checksTerm: bool, keepsVote: bool, keepsSuffix: bool,
                             boundsCommit: bool)

  const AS_WRITTEN := Variant(false, false, false, false, false)
  const AS_INTENDED := Variant(true, true, true, false, false)
  const AS_PUBLISHED := Variant(true, true, true, true, true)

  // The three corrections that concern elections.
  predicate VotesOnce(v: Variant) {
    v.countsGrants && v.checksTerm && v.keepsVote
  }

  const NEW_NODE := Node(Follower, 0, NOBODY, [], 0, map[], map[])

  function Min(a: int, b: int): int {
    if a < b then a else b
  }

  function Max(a: int, b: int): int {
    if a < b then b else a
  }

  function LastTerm(log: Log): int {
    if log == [] then 0 else log[|log| - 1].term
  }

  // The term a leader reports for the entry before the batch, 0 when there is none.
  function PrevTerm(log: Log, prevLogIndex: int): int {
    if 0 < prevLogIndex <= |log| then log[prevLogIndex - 1].term else 0
  }

  // The vote test: a log with this last index and term is at least as recent as `log`.
  predicate AtLeastAsRecent(lastLogIndex: int, lastLogTerm: int, log: Log) {
    !(lastLogTerm < LastTerm(log) || (lastLogTerm == LastTerm(log) && lastLogIndex < |log|))
  }

  function StartElection(n: Node, self: NodeId): Node {
    n.(role := Candidate, currentTerm := n.currentTerm + 1, votedFor := self)
  }

  // The value, as a function of p: this gives the comprehension below a body that depends on its
  // variable, which the verifier needs to reason about two such maps at once.
  function AsFunctionOf(p: NodeId, value: int): int {
    value
  }

  // The same value for every other member.
  function ForPeers(members: set<NodeId>, self: NodeId, value: int): (m: map<NodeId, int>)
    ensures m.Keys == members - {self}
    ensures forall p :: p in m ==> m[p] == value
  {
    map p | p in members && p != self :: AsFunctionOf(p, value)
  }

  lemma OneMorePeer(m: map<NodeId, int>, members: set<NodeId>, self: NodeId, value: int, p: NodeId)
    ensures m + ForPeers(members + {p}, self, value) ==
            if p == self then m + ForPeers(members, self, value) else (m + ForPeers(members, self, value))[p := value]
  {
  }

  function BecomeLeader(n: Node, self: NodeId, members: set<NodeId>): Node {
    n.(role := Leader,
       nextIndex := n.nextIndex + ForPeers(members, self, |n.log| + 1),
       matchIndex := n.matchIndex + ForPeers(members, self, 0))
  }

  function HandleVoteRequest(n: Node, candidateId: NodeId, term: int, lastLogIndex: int, lastLogTerm: int): (Node,
                             bool) {
    if term < n.currentTerm then (n, false)
    else
      var m := if term > n.currentTerm then n.(currentTerm := term, votedFor := NOBODY, role := Follower) else n;
      if m.votedFor != NOBODY && m.votedFor != candidateId then (m, false)
      else if !AtLeastAsRecent(lastLogIndex, lastLogTerm, m.log) then (m, false)
      else (m.(votedFor := candidateId), true)
  }

  // What AppendEntries does to role, term and vote once the sender's term is not old.
  function Follow(v: Variant, n: Node, term: int): Node {
    n.(currentTerm := term, role := Follower,
       votedFor := if v.keepsVote && term == n.currentTerm then n.votedFor else NOBODY)
  }

  // The slice expression of the handler does not panic.
  predicate SliceInRange(n: Node, term: int, prevLogIndex: int, entries: Log) {
    n.currentTerm <= term && entries != [] ==> 0 <= prevLogIndex
  }

  predicate PrevMatches(log: Log, prevLogIndex: int, prevLogTerm: int) {
    0 < prevLogIndex ==> prevLogIndex <= |log| && log[prevLogIndex - 1].term == prevLogTerm
  }

  predicate Accepts(n: Node, term: int, prevLogIndex: int, prevLogTerm: int) {
    n.currentTerm <= term && PrevMatches(n.log, prevLogIndex, prevLogTerm)
  }

  // The first existing entry that conflicts with a new one, or where the overlap ends.
  function FirstConflict(log: Log, at: nat, entries: Log): (k: nat)
    requires at <= |log|
    ensures k <= |entries| && at + k <= |log|
    ensures forall i :: 0 <= i < k ==> log[at + i].term == entries[i].term
    ensures k < |entries| && at + k < |log| ==> log[at + k].term != entries[k].term
    decreases |entries|
  {
    if entries == [] || at == |log| || log[at].term != entries[0].term then 0
    else
      var k := FirstConflict(log, at + 1, entries[1..]);
      assert forall i :: 0 <= i < k + 1 ==> log[at + i].term == entries[i].term by {
        forall i | 0 < i < k + 1 ensures log[at + i].term == entries[i].term {
          assert log[at + 1 + (i - 1)].term == entries[1..][i - 1].term;
        }
      }
      k + 1
  }

  // Steps 3 and 4 of the paper's receiver: without a conflict inside the log nothing is deleted.
  function Merged(log: Log, at: nat, entries: Log): Log
    requires at <= |log|
  {
    var k := FirstConflict(log, at, entries);
    if k == |entries| then log else log[..at + k] + entries[k..]
  }

  function Replaced(log: Log, at: nat, entries: Log): Log
    requires at <= |log|
  {
    if entries == [] then log else log[..at] + entries
  }

  function NewLog(v: Variant, log: Log, at: nat, entries: Log): Log
    requires at <= |log|
  {
    if v.keepsSuffix then Merged(log, at, entries) else Replaced(log, at, entries)
  }

  // `checked` is the index of the last entry known to agree with the sender's log.
  function NewCommit(v: Variant, commit: int, leaderCommit: int, length: int, checked: int): int {
    if leaderCommit <= commit then commit
    else if v.boundsCommit then Max(commit, Min(leaderCommit, checked))
    else Min(leaderCommit, length)
  }

  function HandleAppendEntries(v: Variant, n: Node, term: int, prevLogIndex: int, prevLogTerm: int,
                               entries: Log, leaderCommit: int): (Node, bool)
    requires SliceInRange(n, term, prevLogIndex, entries)
  {
    if term < n.currentTerm then (n, false)
    else
      var m := Follow(v, n, term);
      if !PrevMatches(m.log, prevLogIndex, prevLogTerm) then (m, false)
      else
        var log := if entries == [] then m.log else NewLog(v, m.log, prevLogIndex, entries);
        var commit := NewCommit(v, m.commitIndex, leaderCommit, |log|, prevLogIndex + |entries|);
        (m.(log := log, commitIndex := commit), true)
  }

  // HandleRaftBasedFailover pushes a node that is not leader back to follower, in the same term.
  function StepDown(n: Node): Node {
    if n.role == Leader then n else n.(role := Follower)
  }
}
