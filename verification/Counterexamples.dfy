/**
 Runs in which two nodes lead one term, one for each of the three corrections of the elections
 when it is missing.
 */
module Counterexamples {
  import opened RaftNode
  import opened RaftCluster
  import opened Scenarios

  // Two nodes lead one term in this state.
  predicate TwoLead(c: Cluster, n1: NodeId, n2: NodeId, t: int) {
    n1 != n2 && Leads(c, n1, t) && Leads(c, n2, t)
  }

  // A leader that has neither entries nor anything committed, and knows nothing of y.
  predicate Blank(n: Node, y: NodeId) {
    n.log == [] && n.commitIndex == 0 && NextIndex(n, y) == 1
  }

  // x and z lead term t; nobody has any entry.
  ghost predicate Split(v: Variant, c: Cluster, x: NodeId, y: NodeId, z: NodeId, t: int) {
    && Reachable(v, c) && c.nodes.Keys == {x, y, z}
    && TwoLead(c, x, z, t)
    && Blank(c.nodes[x], y) && Blank(c.nodes[x], z) && Blank(c.nodes[z], y)
    && c.nodes[y].log == [] && c.nodes[y].commitIndex == 0 && c.nodes[y].currentTerm <= t
  }

  // Counting requests: both candidates of term 1 count y, who never answered.
  lemma CountedRequestsElectTwo(v: Variant, x: NodeId, y: NodeId, z: NodeId)
    requires !v.countsGrants && Three(x, y, z)
    ensures exists c :: Split(v, c, x, y, z, 1)
  {
    ReachStart(v, x, y, z);
    var c1 := CampaignUnanswered(v, Start(x, y, z), x, y, z, 1);
    var c2 := CampaignUnanswered(v, c1, z, y, x, 1);
    assert Split(v, c2, x, y, z, 1);
  }

  // y has voted for x in term 1; x, without counting it, stands for term 2; z has stood for term 1.
  lemma OldTally(v: Variant, x: NodeId, y: NodeId, z: NodeId) returns (c: Cluster)
    requires Three(x, y, z)
    ensures Reachable(v, c) && c.nodes.Keys == {x, y, z}
    ensures c.nodes[x] == StartElection(StartElection(NEW_NODE, x), x) && c.nodes[z] == StartElection(NEW_NODE, z)
    ensures c.nodes[y] == NEW_NODE.(currentTerm := 1, votedFor := x)
    ensures (x, 1) in c.ballots && Asked(c.ballots[(x, 1)], x, y) && VoteGrant(y, x, 1, []) in c.msgs
  {
    ReachStart(v, x, y, z);
    var c1 := StandAndGrant(v, Start(x, y, z), x, y, 1);
    var c2 := Stand(v, c1, x, 2);
    c := Stand(v, c2, z, 1);
  }

  // z wins term 2 with the vote of y.
  lemma OldTallyOvertaken(v: Variant, x: NodeId, y: NodeId, z: NodeId) returns (c: Cluster)
    requires Three(x, y, z)
    ensures Reachable(v, c) && c.nodes.Keys == {x, y, z}
    ensures c.nodes[x] == StartElection(StartElection(NEW_NODE, x), x)
    ensures Leads(c, z, 2) && Blank(c.nodes[z], y)
    ensures c.nodes[y] == NEW_NODE.(currentTerm := 2, votedFor := z)
    ensures (x, 1) in c.ballots && Asked(c.ballots[(x, 1)], x, y) && VoteGrant(y, x, 1, []) in c.msgs
  {
    var c1 := OldTally(v, x, y, z);
    c := Campaign(v, c1, z, y, x, 2);
  }

  // Old tallies: y votes for x in term 1 and for z in term 2; x, by then a candidate of term 2,
  // counts its vote of term 1.
  lemma OldTalliesElectTwo(v: Variant, x: NodeId, y: NodeId, z: NodeId)
    requires !v.checksTerm && Three(x, y, z)
    ensures exists c :: Split(v, c, x, y, z, 2)
  {
    var c1 := OldTallyOvertaken(v, x, y, z);
    var c2 := CountIn(v, c1, x, y, z, 1, []);
    assert Split(v, c2, x, y, z, 2);
  }

  // x leads term 1 with the vote of y, which its heartbeat has made y forget.
  lemma ForgottenVote(v: Variant, x: NodeId, y: NodeId, z: NodeId) returns (c: Cluster)
    requires !v.keepsVote && Three(x, y, z)
    ensures Reachable(v, c) && c.nodes.Keys == {x, y, z}
    ensures Leads(c, x, 1) && Blank(c.nodes[x], y) && Blank(c.nodes[x], z)
    ensures c.nodes[y] == NEW_NODE.(currentTerm := 1) && c.nodes[z] == NEW_NODE
  {
    ReachStart(v, x, y, z);
    var c1 := Campaign(v, Start(x, y, z), x, y, z, 1);
    c := Heartbeat(v, c1, x, y);
  }

  // Cleared votes: y then votes for z in the same term.
  lemma ClearedVotesElectTwo(v: Variant, x: NodeId, y: NodeId, z: NodeId)
    requires !v.keepsVote && Three(x, y, z)
    ensures exists c :: Split(v, c, x, y, z, 1)
  {
    var c1 := ForgottenVote(v, x, y, z);
    var c2 := Campaign(v, c1, z, y, x, 1);
    assert Split(v, c2, x, y, z, 1);
  }

  lemma TwoLeaders(v: Variant, x: NodeId, y: NodeId, z: NodeId) returns (c: Cluster, t: int)
    requires !VotesOnce(v) && Three(x, y, z)
    ensures Split(v, c, x, y, z, t)
  {
    if !v.countsGrants {
      CountedRequestsElectTwo(v, x, y, z);
      t := 1;
    } else if !v.checksTerm {
      OldTalliesElectTwo(v, x, y, z);
      t := 2;
    } else {
      ClearedVotesElectTwo(v, x, y, z);
      t := 1;
    }
    c :| Split(v, c, x, y, z, t);
  }
}
