/**
 The Raft manager object of the operator. Each method is proved against the function of module
 RaftNode that the cluster steps are made of, so an object's life is a sequence of those steps.

 The const `policy` chooses between the code as written and its corrections; the places that ask
 it are the departures of the code.
 */
module RaftManagers {
  import opened RaftNode
  import opened RaftCluster
  import opened Members

  // The variables captured by the vote-counting goroutines of one election.
  class Election {
    const term: int
    const majority: int
    var votes: int

    constructor (term: int, majority: int)
      ensures this.term == term && this.majority == majority && votes == 1
    {
      this.term, this.majority, votes := term, majority, 1;
    }
  }

  class RaftManager {
    const policy: Variant
    const nodeId: NodeId
    const members: seq<NodeId>
    var role: Role
    var currentTerm: int
    var votedFor: NodeId
    var log: Log
    var commitIndex: int
    var nextIndex: map<NodeId, int>
    var matchIndex: map<NodeId, int>

    function State(): Node
      reads this
    {
      Node(role, currentTerm, votedFor, log, commitIndex, nextIndex, matchIndex)
    }

    function Members(): set<NodeId> {
      Range(members)
    }

    constructor (policy: Variant, nodeId: NodeId, members: seq<NodeId>)
      ensures this.policy == policy && this.nodeId == nodeId && this.members == members
      ensures State() == NEW_NODE
    {
      this.policy, this.nodeId, this.members := policy, nodeId, members;
      role, currentTerm, votedFor, log, commitIndex := Follower, 0, NOBODY, [], 0;
      nextIndex, matchIndex := map[], map[];
    }

    // runElectionTimer calls this when no leader was heard of for long enough.
    method StartElection() returns (e: Election)
      modifies this
      ensures State() == RaftNode.StartElection(old(State()), nodeId)
      ensures fresh(e) && e.votes == 1 && e.term == currentTerm && e.majority == Majority(|members|)
    {
      role := Candidate;
      currentTerm := currentTerm + 1;
      votedFor := nodeId;
      e := new Election(currentTerm, |members| / 2 + 1);
    }

    // The body of the goroutine of one peer, once the peer's vote counts.
    method CountVote(e: Election)
      modifies this, e
      ensures e.votes == old(e.votes) + 1
      ensures State() ==
                if e.votes >= e.majority && old(role) == Candidate && (policy.checksTerm ==> old(currentTerm) == e.term)
                then RaftNode.BecomeLeader(old(State()), nodeId, Members())
                else old(State())
    {
      e.votes := e.votes + 1;
      if e.votes >= e.majority && role == Candidate && (policy.checksTerm ==> currentTerm == e.term) {
        BecomeLeader();
      }
    }

    method BecomeLeader()
      modifies this
      ensures State() == RaftNode.BecomeLeader(old(State()), nodeId, Members())
    {
      role := Leader;
      var next := |log| + 1;
      for i := 0 to |members|
        invariant State() == old(State()).(role := Leader, nextIndex := nextIndex, matchIndex := matchIndex)
        invariant nextIndex == old(nextIndex) + ForPeers(Range(members[..i]), nodeId, next)
        invariant matchIndex == old(matchIndex) + ForPeers(Range(members[..i]), nodeId, 0)
      {
        if members[i] != nodeId {
          nextIndex := nextIndex[members[i] := next];
          matchIndex := matchIndex[members[i] := 0];
        }
        RangeOneMore(members, i);
        OneMorePeer(old(nextIndex), Range(members[..i]), nodeId, next, members[i]);
        OneMorePeer(old(matchIndex), Range(members[..i]), nodeId, 0, members[i]);
      }
      assert members[..|members|] == members;
    }

    method SendVoteRequest(peer: NodeId) returns (m: Msg)
      ensures m == VoteRequest(nodeId, peer, currentTerm, |log|, LastTerm(log))
    {
      var lastLogTerm := 0;
      if |log| > 0 {
        lastLogTerm := log[|log| - 1].term;
      }
      m := VoteRequest(nodeId, peer, currentTerm, |log|, lastLogTerm);
    }

    method HandleVoteRequest(candidateId: NodeId, term: int, lastLogIndex: int,
                             lastLogTerm: int) returns (granted: bool)
      modifies this
      ensures (State(), granted) ==
                RaftNode.HandleVoteRequest(old(State()), candidateId, term, lastLogIndex, lastLogTerm)
    {
      if term < currentTerm {
        return false;
      }
      if term > currentTerm {
        currentTerm := term;
        votedFor := NOBODY;
        role := Follower;
      }
      if votedFor != NOBODY && votedFor != candidateId {
        return false;
      }
      var myLastLogTerm := 0;
      if |log| > 0 {
        myLastLogTerm := log[|log| - 1].term;
      }
      if lastLogTerm < myLastLogTerm || (lastLogTerm == myLastLogTerm && lastLogIndex < |log|) {
        return false;
      }
      votedFor := candidateId;
      return true;
    }

    method SendAppendEntries(peer: NodeId, entries: Log) returns (m: Msg)
      ensures var prev := NextIndex(State(), peer) - 1;
              m == AppendEntries(nodeId, peer, currentTerm, prev, PrevTerm(log, prev), entries, commitIndex)
    {
      var prevLogIndex := (if peer in nextIndex then nextIndex[peer] else 0) - 1;
      var prevLogTerm := 0;
      if prevLogIndex > 0 && prevLogIndex <= |log| {
        prevLogTerm := log[prevLogIndex - 1].term;
      }
      m := AppendEntries(nodeId, peer, currentTerm, prevLogIndex, prevLogTerm, entries, commitIndex);
    }

    // One empty AppendEntries for every other member, each a step of the cluster.
    method SendHeartbeats() returns (ms: seq<Msg>)
      ensures |ms| == |Others(members, nodeId)|
      ensures forall k :: 0 <= k < |ms| ==> ms[k] == AppendMessage(State(), nodeId, Others(members, nodeId)[k], 0)
    {
      ms := [];
      for i := 0 to |members|
        invariant |ms| == |Others(members[..i], nodeId)|
        invariant forall k :: 0 <= k < |ms| ==>
                    ms[k] == AppendMessage(State(), nodeId, Others(members[..i], nodeId)[k], 0)
      {
        assert members[..i + 1] == members[..i] + [members[i]];
        OthersAppend(members[..i], members[i], nodeId);
        if members[i] != nodeId {
          var m := SendAppendEntries(members[i], []);
          ms := ms + [m];
        }
      }
      assert members[..|members|] == members;
    }

    method HandleAppendEntries(term: int, prevLogIndex: int, prevLogTerm: int, entries: Log, leaderCommit: int)
      returns (success: bool)
      requires SliceInRange(State(), term, prevLogIndex, entries)
      modifies this
      ensures (State(), success) ==
                RaftNode.HandleAppendEntries(policy, old(State()), term, prevLogIndex, prevLogTerm, entries,
                                             leaderCommit)
    {
      if term < currentTerm {
        return false;
      }
      if !policy.keepsVote || term > currentTerm {
        votedFor := NOBODY;
      }
      currentTerm := term;
      role := Follower;
      if prevLogIndex > 0 {
        if |log| < prevLogIndex {
          return false;
        }
        if log[prevLogIndex - 1].term != prevLogTerm {
          return false;
        }
      }
      if |entries| > 0 {
        if policy.keepsSuffix {
          log := Merged(log, prevLogIndex, entries);
        } else {
          log := log[..prevLogIndex] + entries;
        }
      }
      if leaderCommit > commitIndex {
        if policy.boundsCommit {
          commitIndex := Max(commitIndex, Min(leaderCommit, prevLogIndex + |entries|));
        } else {
          commitIndex := Min(leaderCommit, |log|);
        }
      }
      return true;
    }

    // The first lines of HandleRaftBasedFailover.
    method ForceStepDown()
      modifies this
      ensures State() == StepDown(old(State()))
    {
      if role != Leader {
        role := Follower;
      }
    }

    // A write: the entry goes to the end of the log. (The cluster step asks for a leader and an
    // entry of its current term.)
    method AppendLogEntry(e: Entry)
      modifies this
      ensures State() == old(State()).(log := old(log) + [e])
    {
      log := log + [e];
    }
  }

  // The counter of an election is the size of the tally the cluster keeps for it: counting one
  // more peer adds one, and the test of CountVote is the test of the cluster step.
  lemma CounterIsTally(v: Variant, c: Cluster, n: NodeId, t: int, p: NodeId, voterLog: Log, votes: int)
    requires n in c.nodes && (n, t) in c.ballots && p !in c.ballots[(n, t)].votes
    requires votes == |c.ballots[(n, t)].votes.Keys|
    ensures var b := c.ballots[(n, t)].votes[p := voterLog];
            && |b.Keys| == votes + 1
            && (Elects(v, c, n, t, b) <==>
                  votes + 1 >= Majority(|c.nodes.Keys|) && c.nodes[n].role == Candidate &&
                  (v.checksTerm ==> c.nodes[n].currentTerm == t))
  {
    var b := c.ballots[(n, t)].votes;
    assert b[p := voterLog].Keys == b.Keys + {p};
  }

  // As written and as intended, AppendEntries differs exactly on a sender of the receiver's own
  // term that finds a vote to forget.
  lemma KeepingVoteMatters(n: Node, term: int, prevLogIndex: int, prevLogTerm: int, entries: Log, leaderCommit: int)
    requires SliceInRange(n, term, prevLogIndex, entries)
    ensures RaftNode.HandleAppendEntries(AS_WRITTEN, n, term, prevLogIndex, prevLogTerm, entries, leaderCommit) ==
            RaftNode.HandleAppendEntries(AS_INTENDED, n, term, prevLogIndex, prevLogTerm, entries, leaderCommit)
            <==> (term != n.currentTerm || n.votedFor == NOBODY)
  {
  }
}
