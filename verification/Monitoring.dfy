/**
 The quorum arithmetic of the Raft monitor, against the majority of an election.
 */
module Monitoring {
  import opened RaftCluster
  import opened Quorums

  // The peers heard of within two heartbeat intervals; `elapsed` is the time since each contact.
  function Active(elapsed: map<string, int>, heartbeatInterval: int): set<string> {
    set p | p in elapsed && elapsed[p] < 2 * heartbeatInterval
  }

  // A peer counts as active for the second interval after its last contact, up to but not including the
  // end of it.
  lemma ActiveUpToTwoIntervals(elapsed: map<string, int>, heartbeatInterval: int, p: string, later: int)
    requires p in elapsed && elapsed[p] <= later
    ensures elapsed[p] == 2 * heartbeatInterval ==> p !in Active(elapsed, heartbeatInterval)
    ensures elapsed[p] == 2 * heartbeatInterval - 1 ==> p in Active(elapsed, heartbeatInterval)
    ensures p !in Active(elapsed, heartbeatInterval) ==> p !in Active(elapsed[p := later], heartbeatInterval)
  {
  }

  method CountActive(elapsed: map<string, int>, heartbeatInterval: int) returns (activeNodes: nat)
    ensures activeNodes == |Active(elapsed, heartbeatInterval)|
  {
    activeNodes := 0;
    var rest := elapsed.Keys;
    ghost var seen: set<string> := {};
    while rest != {}
      invariant seen <= Active(elapsed, heartbeatInterval) && rest <= elapsed.Keys && seen !! rest
      invariant Active(elapsed, heartbeatInterval) <= seen + rest
      invariant activeNodes == |seen|
      decreases rest
    {
      var p :| p in rest;
      rest := rest - {p};
      if elapsed[p] < 2 * heartbeatInterval {
        activeNodes := activeNodes + 1;
        seen := seen + {p};
      }
    }
    assert seen == Active(elapsed, heartbeatInterval);
  }

  // The active peers and the node itself are a majority in the sense of an election.
  predicate Quorum(elapsed: map<string, int>, heartbeatInterval: int) {
    |Active(elapsed, heartbeatInterval)| + 1 >= Majority(|elapsed.Keys| + 1)
  }

  // GetClusterHealth: the monitor reports a quorum exactly when there is one.
  method HasQuorum(elapsed: map<string, int>, heartbeatInterval: int) returns (hasQuorum: bool)
    ensures hasQuorum <==> Quorum(elapsed, heartbeatInterval)
  {
    var activeNodes := CountActive(elapsed, heartbeatInterval);
    var totalNodes := |elapsed.Keys| + 1;
    hasQuorum := activeNodes >= totalNodes / 2;
  }

  // performHealthCheck: the partition warning is given exactly when there is no quorum.
  method WarnsOfPartition(elapsed: map<string, int>, heartbeatInterval: int) returns (warns: bool)
    ensures warns <==> !Quorum(elapsed, heartbeatInterval)
  {
    var activeNodes := CountActive(elapsed, heartbeatInterval);
    var totalNodes := |elapsed.Keys| + 1;
    warns := activeNodes < totalNodes / 2;
  }

  // When the members fall apart into sides that only hear themselves, the monitors of two nodes on
  // different sides do not both report a quorum.
  lemma OneSideHasQuorum(members: set<string>, side1: set<string>, side2: set<string>, n1: string, n2: string,
                         elapsed1: map<string, int>, elapsed2: map<string, int>, heartbeatInterval: int)
    requires side1 <= members && side2 <= members && side1 !! side2 && n1 in side1 && n2 in side2
    requires elapsed1.Keys == members - {n1} && elapsed2.Keys == members - {n2}
    requires Active(elapsed1, heartbeatInterval) <= side1 && Active(elapsed2, heartbeatInterval) <= side2
    ensures !(Quorum(elapsed1, heartbeatInterval) && Quorum(elapsed2, heartbeatInterval))
  {
    assert members == elapsed1.Keys + {n1} && members == elapsed2.Keys + {n2};
    OneSideIsMajority(members, side1, side2, n1, n2,
                      Active(elapsed1, heartbeatInterval), Active(elapsed2, heartbeatInterval));
  }

  lemma OneSideIsMajority<T>(members: set<T>, side1: set<T>, side2: set<T>, n1: T, n2: T, active1: set<T>,
                             active2: set<T>)
    requires side1 <= members && side2 <= members && side1 !! side2
    requires n1 in side1 && n2 in side2 && active1 <= side1 - {n1} && active2 <= side2 - {n2}
    ensures !(|active1| + 1 >= Majority(|members|) && |active2| + 1 >= Majority(|members|))
  {
    SubsetSize(active1 + {n1}, side1);
    SubsetSize(active2 + {n2}, side2);
    SubsetSize(side1 + side2, members);
    assert |side1 + side2| == |side1| + |side2|;
  }

  // No method enters a peer into the map the monitor reads, and without peers a node always
  // reports a quorum, however large the cluster.
  lemma NoPeersAlwaysQuorum(heartbeatInterval: int)
    ensures Quorum(map[], heartbeatInterval)
  {
  }

  // A monitor that only lacks peers not heard of errs to one side: it reports every quorum there is.
  lemma MissingPeersErr(elapsed: map<string, int>, known: map<string, int>, heartbeatInterval: int)
    requires known.Keys <= elapsed.Keys && forall p :: p in known ==> known[p] == elapsed[p]
    requires Active(elapsed, heartbeatInterval) <= known.Keys
    ensures Active(known, heartbeatInterval) == Active(elapsed, heartbeatInterval)
    ensures Quorum(elapsed, heartbeatInterval) ==> Quorum(known, heartbeatInterval)
  {
    SubsetSize(known.Keys, elapsed.Keys);
  }

  // The deployment guide's replication rule, more than half of the peers counting the leader.
  predicate GuideCommits(n: nat, successCount: nat) {
    successCount > (n - 1) / 2
  }

  // It asks for an election majority exactly in clusters of odd size.
  lemma GuideThresholdExactly(n: nat)
    requires 1 <= n
    ensures (forall k: nat :: GuideCommits(n, k) <==> k >= Majority(n)) <==> n % 2 == 1
  {
    if n % 2 == 0 {
      assert GuideCommits(n, n / 2) && n / 2 < Majority(n);
    }
  }
}
