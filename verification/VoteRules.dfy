/**
 What elections must keep to for the safety theorems: a condition on each step of a run, seen
 before the step. The variants with corrected elections keep to it in every run (module
 CorrectedElections); the code as written does in the runs where no node grants two candidates of
 a term and only granted votes of the current term are counted.
 */
module VoteRules {
  import opened RaftNode
  import opened RaftCluster

  // A vote to be counted was granted, and if it elects, it does so in the term it was cast in.
  predicate CountRule(v: Variant, c: Cluster, n: NodeId, t: int, p: NodeId, voterLog: Log) {
    && VoteGrant(p, n, t, voterLog) in c.msgs
    && (n in c.nodes && (n, t) in c.ballots && Elects(v, c, n, t, c.ballots[(n, t)].votes[p := voterLog]) ==>
          c.nodes[n].currentTerm == t)
  }

  // A node about to grant its vote has not given it to another candidate of the same term.
  predicate VoteRule(c: Cluster, m: Msg)
    requires m.VoteRequest? && m.to in c.nodes
  {
    HandleVoteRequest(c.nodes[m.to], m.from, m.term, m.lastLogIndex, m.lastLogTerm).1 ==>
      (m.to, m.term) in c.cast ==> c.cast[(m.to, m.term)] == m.from
  }

  predicate RuledStep(v: Variant, c: Cluster, a: Action) {
    match a
    case CountVote(n, t, p, voterLog) => CountRule(v, c, n, t, p, voterLog)
    case DeliverVoteRequest(m) => m.VoteRequest? && m.to in c.nodes ==> VoteRule(c, m)
    case _ => true
  }

  ghost predicate RuledRun(v: Variant, r: Run) {
    |r.states| == |r.actions| + 1 && forall i :: 0 <= i < |r.actions| ==> RuledStep(v, r.states[i], r.actions[i])
  }
}
