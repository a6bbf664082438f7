/**
 The AppendEntries receiver of the extended Raft paper (figure 2, steps 3 to 5) beside the
 operator's: exactly when they do the same to the log and to the commit index.
 */
module PaperRules {
  import opened RaftNode

  // Entries of one term at one index are the same entry (Log Matching gives this on every run).
  predicate SameTermSameEntry(log: Log, at: nat, entries: Log)
    requires at <= |log|
  {
    forall i :: 0 <= i < |entries| && at + i < |log| && log[at + i].term == entries[i].term ==>
      log[at + i] == entries[i]
  }

  // What the paper's rule leaves, in the code's terms.
  lemma MergedShape(log: Log, at: nat, entries: Log)
    requires at <= |log| && SameTermSameEntry(log, at, entries)
    ensures Merged(log, at, entries) == log[..at] + entries ||
            (Merged(log, at, entries) == log && at + |entries| <= |log| && log[..at + |entries|] == log[..at] + entries)
  {
    var k := FirstConflict(log, at, entries);
    assert forall i :: 0 <= i < k ==> log[at + i] == entries[i];
    assert log[..at + k] == log[..at] + entries[..k];
    assert log[..at] + entries[..k] + entries[k..] == log[..at] + entries by {
      assert entries[..k] + entries[k..] == entries;
    }
  }

  // The unconditional truncation differs from the paper exactly on stale batches: those that
  // leave a proper prefix of what the follower already had.
  lemma TruncationAgreesExactly(log: Log, at: nat, entries: Log)
    requires at <= |log| && entries != [] && SameTermSameEntry(log, at, entries)
    ensures Replaced(log, at, entries) == Merged(log, at, entries) <==> !(log[..at] + entries < log)
  {
    var k := FirstConflict(log, at, entries);
    var code := log[..at] + entries;
    assert forall i :: 0 <= i < k ==> log[at + i] == entries[i];
    assert log[..at + k] == log[..at] + entries[..k];
    assert log[..at] + entries[..k] + entries[k..] == code by {
      assert entries[..k] + entries[k..] == entries;
    }
    if k == |entries| {
      assert code == log[..at + k];
    } else {
      assert Merged(log, at, entries) == code;
      assert at + k < |log| ==> code[at + k] != log[at + k];
    }
  }

  function PaperCommit(commit: int, leaderCommit: int, lastNewEntry: int): int {
    if leaderCommit > commit then Min(leaderCommit, lastNewEntry) else commit
  }

  // The commit bound differs from the paper exactly when a heartbeat reports a commit index
  // past the point its sender has checked, in a log that reaches further.
  lemma CommitBoundAgreesExactly(v: Variant, n: Node, term: int, prevLogIndex: int, prevLogTerm: int, entries: Log,
                                 leaderCommit: int)
    requires !v.keepsSuffix && !v.boundsCommit && 0 <= prevLogIndex && Accepts(n, term, prevLogIndex, prevLogTerm)
    ensures var n' := HandleAppendEntries(v, n, term, prevLogIndex, prevLogTerm, entries, leaderCommit).0;
            n'.commitIndex == PaperCommit(n.commitIndex, leaderCommit, prevLogIndex + |entries|) <==>
            (entries != [] || leaderCommit <= n.commitIndex || Min(leaderCommit, |n.log|) <= prevLogIndex)
  {
  }
}
