/**
 Runs that lose entries: of two leaders of one term; of a stale batch, where a batch deletes what
 follows it without a conflict; and of a heartbeat, where it commits what it has not checked.
 */
module LostEntries {
  import opened RaftNode
  import opened RaftCluster
  import opened LeaderCompleteness
  import opened Scenarios
  import opened Counterexamples

  // ---- two leaders ----

  // Each of the two leaders has one entry.
  lemma TwoAppends(v: Variant, x: NodeId, y: NodeId, z: NodeId, e: string, f: string) returns (c: Cluster, t: int)
    requires !VotesOnce(v) && Three(x, y, z)
    ensures Reachable(v, c) && c.nodes.Keys == {x, y, z} && TwoLead(c, x, z, t)
    ensures c.nodes[x].log == [Entry(t, 0, e)] && c.nodes[z].log == [Entry(t, 0, f)]
    ensures c.nodes[x].commitIndex == 0 == c.nodes[z].commitIndex
    ensures NextIndex(c.nodes[x], z) == 1 && NextIndex(c.nodes[x], y) == 1
    ensures c.nodes[y].currentTerm <= t && c.nodes[y].log == [] && c.nodes[y].commitIndex == 0
    ensures (x, t, 1) in c.held
  {
    var c0;
    c0, t := TwoLeaders(v, x, y, z);
    var c1 := Append(v, c0, x, Entry(t, 0, e));
    c := Append(v, c1, z, Entry(t, 0, f));
  }

  // y has accepted the entry of the first.
  lemma TwoHistories(v: Variant, x: NodeId, y: NodeId, z: NodeId, e: string, f: string) returns (c: Cluster, t: int)
    requires !VotesOnce(v) && Three(x, y, z)
    ensures Reachable(v, c) && c.nodes.Keys == {x, y, z} && TwoLead(c, x, z, t)
    ensures c.nodes[x].log == [Entry(t, 0, e)] && c.nodes[z].log == [Entry(t, 0, f)]
    ensures c.nodes[x].commitIndex == 0 == c.nodes[z].commitIndex && NextIndex(c.nodes[x], z) == 1
    ensures c.nodes[y].currentTerm == t && c.nodes[y].role == Follower && c.nodes[y].log == [Entry(t, 0, e)]
    ensures (x, t, 1) in c.held && (y, t, 1) in c.held
  {
    var c1;
    c1, t := TwoAppends(v, x, y, z, e, f);
    c := Replicate(v, c1, x, y, 1);
    assert (y, t, 1) in HeldBy(y, c.nodes[y]);
  }

  // x and y hold an entry of term t; z, who led the same term, leads the next without it.
  lemma RivalForgets(v: Variant, x: NodeId, y: NodeId, z: NodeId)
    requires !VotesOnce(v) && Three(x, y, z)
    ensures exists c, t :: Reachable(v, c) && HeldByMajority(c, {x, y}, t, 1) && Leads(c, z, t + 1) && Apart(c, x, z, t)
  {
    var c1, t := TwoHistories(v, x, y, z, "e", "f");
    var c2 := Heartbeat(v, c1, x, z);
    var c3 := Campaign(v, c2, z, y, x, t + 1);
    TwoOfThree(x, y, z);
    assert HeldByMajority(c3, {x, y}, t, 1) && Apart(c3, x, z, t);
  }

  // x is in term t with one entry of that term, z has another one.
  predicate Apart(c: Cluster, x: NodeId, z: NodeId, t: int) {
    && x in c.nodes && z in c.nodes && c.nodes[x].currentTerm == t
    && |c.nodes[x].log| == 1 && |c.nodes[z].log| == 1
    && c.nodes[x].log[0].term == t && c.nodes[x].log[0] != c.nodes[z].log[0]
  }

  // Both leaders commit their entry at index 1.
  lemma RivalsCommit(v: Variant, x: NodeId, y: NodeId, z: NodeId)
    requires !VotesOnce(v) && Three(x, y, z)
    ensures exists c :: Reachable(v, c) && CommittedApart(c, x, z, 1)
  {
    var c1, t := TwoHistories(v, x, y, z, "e", "f");
    var c2 := Commit(v, c1, x, y, z, x, 1);
    var c3 := Commit(v, c2, x, y, z, z, 1);
    assert CommittedApart(c3, x, z, 1);
  }

  // Two nodes have committed different entries at index k.
  predicate CommittedApart(c: Cluster, n1: NodeId, n2: NodeId, k: int) {
    && n1 in c.nodes && n2 in c.nodes && 1 <= k
    && k <= c.nodes[n1].commitIndex <= |c.nodes[n1].log|
    && k <= c.nodes[n2].commitIndex <= |c.nodes[n2].log|
    && c.nodes[n1].log[k - 1] != c.nodes[n2].log[k - 1]
  }

  // ---- a stale batch ----

  // x leads term 1, elected by y, with one entry nobody else has.
  lemma OneEntry(v: Variant, x: NodeId, y: NodeId, z: NodeId, e: Entry) returns (c: Cluster)
    requires Three(x, y, z) && e.term == 1
    ensures Reachable(v, c) && c.nodes.Keys == {x, y, z}
    ensures Leads(c, x, 1) && c.nodes[x].log == [e] && NextIndex(c.nodes[x], y) == 1 && c.nodes[x].commitIndex == 0
    ensures c.nodes[y] == NEW_NODE.(currentTerm := 1, votedFor := x) && c.nodes[z] == NEW_NODE
  {
    ReachStart(v, x, y, z);
    var c1 := Campaign(v, Start(x, y, z), x, y, z, 1);
    c := Append(v, c1, x, e);
  }

  lemma TwoEntries(v: Variant, x: NodeId, y: NodeId, z: NodeId, e: Entry) returns (c: Cluster)
    requires Three(x, y, z) && e.term == 1
    ensures Reachable(v, c) && c.nodes.Keys == {x, y, z}
    ensures Leads(c, x, 1) && c.nodes[x].log == [e, e] && NextIndex(c.nodes[x], y) == 1 && c.nodes[x].commitIndex == 0
    ensures (x, 1, 2) in c.held
    ensures c.nodes[y] == NEW_NODE.(currentTerm := 1, votedFor := x) && c.nodes[z] == NEW_NODE
  {
    var c1 := OneEntry(v, x, y, z, e);
    c := Append(v, c1, x, e);
  }

  // x leads term 1 with two entries; y has received both, and then, late, the first alone.
  lemma Truncated(v: Variant, x: NodeId, y: NodeId, z: NodeId, e: Entry) returns (c: Cluster)
    requires !v.keepsSuffix && Three(x, y, z) && e.term == 1
    ensures Reachable(v, c) && c.nodes.Keys == {x, y, z}
    ensures Leads(c, x, 1) && c.nodes[x].log == [e, e] && c.nodes[x].commitIndex == 0
    ensures (x, 1, 2) in c.held && (y, 1, 2) in c.held
    ensures c.nodes[y].role == Follower && c.nodes[y].currentTerm == 1
    ensures c.nodes[y].log == [e] && c.nodes[y].commitIndex == 0
    ensures c.nodes[z] == NEW_NODE
  {
    var c1 := TwoEntries(v, x, y, z, e);
    var c2 := Replicate(v, c1, x, y, 2);
    assert (y, 1, 2) in HeldBy(y, c2.nodes[y]);
    c := Replicate(v, c2, x, y, 1);
  }

  // An entry a majority accepted in its own term is missing from the log of a later leader.
  lemma StaleBatchLosesEntry(v: Variant, x: NodeId, y: NodeId, z: NodeId)
    requires !v.keepsSuffix && Three(x, y, z)
    ensures exists c :: Reachable(v, c) && HeldByMajority(c, {x, y}, 1, 2) && Leads(c, y, 2) && |c.nodes[y].log| < 2
  {
    var c1 := Truncated(v, x, y, z, Entry(1, 0, ""));
    var c2 := Campaign(v, c1, y, z, x, 2);
    TwoOfThree(x, y, z);
    assert HeldByMajority(c2, {x, y}, 1, 2);
  }

  // x has committed its two entries, and so has y; a batch with the first alone is still on its way.
  lemma BothCommitted(v: Variant, x: NodeId, y: NodeId, z: NodeId, e: Entry) returns (c: Cluster, stale: Msg)
    requires !v.keepsSuffix && Three(x, y, z) && e.term == 1
    ensures Reachable(v, c) && c.nodes.Keys == {x, y, z} && stale in c.msgs
    ensures stale == AppendEntries(x, y, 1, 0, 0, [e], 0)
    ensures c.nodes[y].log == [e, e] && c.nodes[y].commitIndex == 2 && c.nodes[y].currentTerm == 1
  {
    var c1 := TwoEntries(v, x, y, z, e);
    stale := AppendMessage(c1.nodes[x], x, y, 1);
    var c2 := SendBatch(v, c1, x, y, 1);
    var c3 := Replicate(v, c2, x, y, 2);
    assert (y, 1, 2) in HeldBy(y, c3.nodes[y]);
    var c4 := Commit(v, c3, x, y, z, x, 2);
    c := Repeat(v, c4, x, y);
  }

  // x sends y all its two entries again, now committed.
  lemma Repeat(v: Variant, c: Cluster, x: NodeId, y: NodeId) returns (c': Cluster)
    requires !v.keepsSuffix && Reachable(v, c) && x in c.nodes && y in c.nodes && x != y
    requires c.nodes[x].role == Leader && NextIndex(c.nodes[x], y) == 1
    requires |c.nodes[x].log| == 2 == c.nodes[x].commitIndex
    requires c.nodes[y].currentTerm == c.nodes[x].currentTerm && c.nodes[y].commitIndex == 0
    ensures Reachable(v, c') && Elsewhere(c, c', y, y, 0)
    ensures c'.nodes[y].log == c.nodes[x].log && c'.nodes[y].commitIndex == 2
    ensures c'.nodes[y].currentTerm == c.nodes[x].currentTerm
  {
    var m := AppendMessage(c.nodes[x], x, y, 2);
    assert m.entries == c.nodes[x].log;
    var c1 := SendBatch(v, c, x, y, 2);
    c' := TakeBatch(v, c1, m);
    assert [] + m.entries == m.entries;
  }

  // The commit index of y then points past the end of its log.
  lemma StaleBatchLosesCommit(v: Variant, x: NodeId, y: NodeId, z: NodeId)
    requires !v.keepsSuffix && Three(x, y, z)
    ensures exists c :: Reachable(v, c) && y in c.nodes && |c.nodes[y].log| == 1 && c.nodes[y].commitIndex == 2
  {
    var c1, m := BothCommitted(v, x, y, z, Entry(1, 0, ""));
    var c2 := TakeBatch(v, c1, m);
    assert [] + m.entries == m.entries;
  }

  // x commits its two entries; y, who accepted both and lost one, leads term 2.
  lemma Overtaken(v: Variant, x: NodeId, y: NodeId, z: NodeId, e: Entry) returns (c: Cluster)
    requires !v.keepsSuffix && Three(x, y, z) && e.term == 1
    ensures Reachable(v, c) && c.nodes.Keys == {x, y, z}
    ensures c.nodes[x].log == [e, e] && c.nodes[x].commitIndex == 2
    ensures Leads(c, y, 2) && c.nodes[y].log == [e] && c.nodes[y].commitIndex == 0
    ensures c.nodes[z].log == [] && c.nodes[z].commitIndex == 0 && c.nodes[z].currentTerm == 2
  {
    var c1 := Truncated(v, x, y, z, e);
    var c2 := Commit(v, c1, x, y, z, x, 2);
    c := Campaign(v, c2, y, z, x, 2);
  }

  // y has replicated an entry of its own to z.
  lemma OwnSecondEntry(v: Variant, x: NodeId, y: NodeId, z: NodeId, e: Entry, f: Entry) returns (c: Cluster)
    requires !v.keepsSuffix && Three(x, y, z) && e.term == 1 && f.term == 2
    ensures Reachable(v, c) && c.nodes.Keys == {x, y, z}
    ensures c.nodes[x].log == [e, e] && c.nodes[x].commitIndex == 2
    ensures Leads(c, y, 2) && c.nodes[y].log == [e, f] && c.nodes[y].commitIndex == 0
    ensures (y, 2, 2) in c.held && (z, 2, 2) in c.held
  {
    var c1 := Overtaken(v, x, y, z, e);
    var c2 := Append(v, c1, y, f);
    var c3 := Rewind(v, c2, y, z);
    c := Replicate(v, c3, y, z, 2);
    assert (z, 2, 2) in HeldBy(z, c.nodes[z]);
  }

  // y then commits another entry than x at index 2.
  lemma StaleBatchCommitsAnotherEntry(v: Variant, x: NodeId, y: NodeId, z: NodeId)
    requires !v.keepsSuffix && Three(x, y, z)
    ensures exists c :: Reachable(v, c) && CommittedApart(c, x, y, 2)
  {
    var e, f := Entry(1, 0, ""), Entry(2, 0, "");
    var c1 := OwnSecondEntry(v, x, y, z, e, f);
    var c2 := Commit(v, c1, y, z, x, y, 2);
    assert CommittedApart(c2, x, y, 2);
  }

  // ---- an unchecked heartbeat ----

  // x led term 1 and kept its entry to itself; y leads term 2.
  lemma Rivals(v: Variant, x: NodeId, y: NodeId, z: NodeId, e: Entry) returns (c: Cluster)
    requires Three(x, y, z) && e.term == 1
    ensures Reachable(v, c) && c.nodes.Keys == {x, y, z}
    ensures c.nodes[x].log == [e] && c.nodes[x].currentTerm == 1 && c.nodes[x].commitIndex == 0
    ensures Leads(c, y, 2) && c.nodes[y].log == [] && c.nodes[y].commitIndex == 0
    ensures NextIndex(c.nodes[y], x) == 1 && NextIndex(c.nodes[y], z) == 1
    ensures c.nodes[z].currentTerm == 2 && c.nodes[z].commitIndex == 0 && c.nodes[z].log == []
  {
    var c1 := OneEntry(v, x, y, z, e);
    c := Campaign(v, c1, y, z, x, 2);
  }

  // y leads term 2 and has replicated its first entry to z, while x still has one of term 1.
  lemma Diverged(v: Variant, x: NodeId, y: NodeId, z: NodeId, e: Entry, f: Entry) returns (c: Cluster)
    requires Three(x, y, z) && e.term == 1 && f.term == 2
    ensures Reachable(v, c) && c.nodes.Keys == {x, y, z}
    ensures c.nodes[x].log == [e] && c.nodes[x].currentTerm == 1 && c.nodes[x].commitIndex == 0
    ensures Leads(c, y, 2) && c.nodes[y].log == [f] && c.nodes[y].commitIndex == 0 && NextIndex(c.nodes[y], x) == 1
    ensures (y, 2, 1) in c.held && (z, 2, 1) in c.held
  {
    var c1 := Rivals(v, x, y, z, e);
    var c2 := Append(v, c1, y, f);
    c := Replicate(v, c2, y, z, 1);
    assert (z, 2, 1) in HeldBy(z, c.nodes[z]);
  }

  // The leader commits what a majority has accepted; its next heartbeat makes x commit, at the
  // same index, an entry of its own that nobody else has.
  lemma HeartbeatCommitsAnotherEntry(v: Variant, x: NodeId, y: NodeId, z: NodeId)
    requires !v.boundsCommit && Three(x, y, z)
    ensures exists c :: Reachable(v, c) && CommittedApart(c, x, y, 1)
  {
    var c1 := Diverged(v, x, y, z, Entry(1, 0, ""), Entry(2, 0, ""));
    var c2 := Commit(v, c1, y, z, x, y, 1);
    var c3 := Heartbeat(v, c2, y, x);
    assert CommittedApart(c3, x, y, 1);
  }
}
