/**
 The reconcile function of the operator: initialise once, then on every call bring back missing
 replicas and put the roles right. Each call is one or two of the steps of module Convergence.
 */
module Reconciler {
  import opened RaftNode
  import opened RaftManagers
  import opened Names
  import opened KubeStore
  import opened Members
  import opened Replicas
  import opened Roles
  import opened Failover
  import opened Initialization
  import opened Convergence

  // What the master service's endpoints say, at the three places they are read.
  datatype MasterStatus = CannotTell | Down | Alive(reading1: Reading<string>, reading2: Reading<string>)

  // What the outside answers during one call.
  datatype World = World(servicesOk: bool, master: MasterStatus, polls: seq<Node>, replicating: set<string>)

  // Every pod is one the operator names.
  ghost predicate OnlyOperatorPods(pods: Pods) {
    forall n :: n in pods ==> exists i: nat :: n == PodName(i)
  }

  lemma NoPodForNode(pods: Pods, cluster: string)
    requires OnlyOperatorPods(pods)
    ensures NodeName(cluster, 0) !in pods
  {
    if NodeName(cluster, 0) in pods {
      var i: nat :| NodeName(cluster, 0) == PodName(i);
      FirstNodeIsNoPod(cluster, i);
    }
  }

  lemma StillOperatorPods(o: Objects, o': Objects, replicas: int)
    requires Keeps(o, o', replicas) && OnlyOperatorPods(o.pods)
    ensures OnlyOperatorPods(o'.pods)
  {
    forall n | n in o'.pods ensures exists i: nat :: n == PodName(i) {
      if n !in o.pods {
        assert n in Expected(replicas);
        var i: nat :| 1 <= i <= replicas && n == PodName(i);
      }
    }
  }

  // ---- calls ----

  // The annotation and the store, between two calls.
  datatype Moment = Moment(initialized: bool, objects: Objects)

  // All expected pods are there, and pod 1 alone is their master.
  ghost predicate FirstRolesGiven(o: Objects, replicas: int) {
    && 1 <= replicas && Expected(replicas) <= o.pods.Keys
    && Masters(o.pods) * Expected(replicas) == {PodName(1)}
    && Slaves(o.pods) * Expected(replicas) == Expected(replicas) - {PodName(1)}
  }

  // What one call of Reconcile does to the two: a cluster stays initialised, it becomes so only by a call
  // that gave the first roles, and until then every call initialises.
  ghost predicate Called(m: Moment, m': Moment, replicas: int) {
    && (m.initialized ==> m'.initialized)
    && (!m.initialized && m'.initialized ==> FirstRolesGiven(m'.objects, replicas))
    && (!m.initialized ==> Next(m.objects, m'.objects, replicas, Initialisation))
  }

  ghost predicate CalledAt(ms: seq<Moment>, replicas: int, k: nat) {
    k + 1 < |ms| ==> Called(ms[k], ms[k + 1], replicas)
  }

  ghost predicate Calls(ms: seq<Moment>, replicas: int) {
    forall k: nat :: CalledAt(ms, replicas, k)
  }

  // A cluster counts as initialised exactly from the end of some call on that gave the first roles, and
  // every call up to that one was an initialisation.
  lemma {:induction false} InitialisedOnce(ms: seq<Moment>, replicas: int, j: nat) returns (k: nat)
    requires Calls(ms, replicas) && j < |ms| && !ms[0].initialized && ms[j].initialized
    ensures k < j && !ms[k].initialized && ms[k + 1].initialized && FirstRolesGiven(ms[k + 1].objects, replicas)
    ensures forall i :: 0 <= i <= k ==> !ms[i].initialized
    ensures forall i :: k < i <= j ==> ms[i].initialized
  {
    assert CalledAt(ms, replicas, j - 1);
    if ms[j - 1].initialized {
      k := InitialisedOnce(ms, replicas, j - 1);
    } else {
      k := j - 1;
      NotYet(ms, replicas, k);
    }
  }

  lemma {:induction false} NotYet(ms: seq<Moment>, replicas: int, k: nat)
    requires Calls(ms, replicas) && k < |ms| && !ms[k].initialized
    ensures forall i :: 0 <= i <= k ==> !ms[i].initialized
  {
    if 0 < k {
      assert CalledAt(ms, replicas, k - 1);
      NotYet(ms, replicas, k - 1);
    }
  }

  class MysqlClusterReconciler {
    const policy: Variant
    const cluster: string
    const replicas: int
    // the annotation on the cluster object
    var initialized: bool
    var raftManager: RaftManager?

    // The controller is the first node of its cluster.
    ghost predicate Valid()
      reads this
    {
      raftManager != null ==> raftManager.nodeId == NodeName(cluster, 0)
    }

    constructor (policy: Variant, cluster: string, replicas: int)
      ensures this.policy == policy && this.cluster == cluster && this.replicas == replicas
      ensures !initialized && raftManager == null && Valid()
    {
      this.policy, this.cluster, this.replicas := policy, cluster, replicas;
      initialized, raftManager := false, null;
    }

    // initializeRaft: the controller takes itself for the first node of the cluster, which is a
    // member of it exactly if there are replicas.
    method InitializeRaft() returns (rm: RaftManager)
      ensures fresh(rm) && rm.State() == NEW_NODE && rm.policy == policy
      ensures rm.nodeId == NodeName(cluster, 0) && (rm.nodeId in rm.members <==> 1 <= replicas)
      ensures |rm.members| == if replicas < 0 then 0 else replicas
      ensures forall i :: 0 <= i < |rm.members| ==> rm.members[i] == NodeName(cluster, i)
    {
      var members := GetClusterNodes(cluster, replicas);
      assert 1 <= replicas ==> members[0] == NodeName(cluster, 0);
      rm := new RaftManager(policy, NodeName(cluster, 0), members);
    }

    // reconcileRaftBasedMasterSlave.
    method ReconcileRoles(s: Store, rm: RaftManager, w: World) returns (ok: bool)
      modifies rm, s`pods
      ensures rm.State() == old(rm.State()) || (w.master.Down? && rm.State() == StepDown(old(rm.State())))
      ensures Relabelling(old(s.Value()), s.Value())
      ensures w.master.CannotTell? ==> !ok && s.pods == old(s.pods)
      ensures s.reliable && w.master.Alive? && w.master.reading1.Value? && w.master.reading1.v in old(s.pods) ==>
                (ok <==> old(rm.role) != Leader || w.master.reading2.Value?)
      ensures s.reliable && w.master.Down? && rm.Members() + {rm.nodeId} <= old(s.pods).Keys ==>
                (ok <==> EverLeading(w.polls))
      ensures ok && w.master.Down? ==>
                Masters(s.pods) * (rm.Members() + {rm.nodeId}) == {rm.nodeId} && EverLeading(w.polls)
      ensures w.master.Down? && rm.nodeId !in old(s.pods) ==> !ok && s.pods == old(s.pods)
      ensures ok && w.master.Alive? && old(rm.role) == Leader ==>
                w.master.reading2.Value? && Masters(s.pods) * MysqlPods(s.pods) <= {w.master.reading2.v}
      ensures w.master.Alive? && old(rm.role) != Leader ==> ok && s.pods == old(s.pods)
      ensures s.reliable && old(rm.role) == Leader && w.master.Alive? && w.master.reading1 == w.master.reading2 && ok
              && w.master.reading1.v in old(s.pods)
              && MysqlPods(old(s.pods)) - {w.master.reading1.v} - w.replicating != {} ==>
                w.master.reading1.v in Masters(s.pods)
    {
      ghost var pods := s.pods;
      var isLeader := rm.role == Leader;
      assert s.pods == Assigned(pods, {}, {});
      match w.master
      case CannotTell =>
        ok := false;
      case Down =>
        ghost var term;
        ok, term := HandleRaftBasedFailover(rm, s, w.polls);
        ghost var started, done: nat :|
          Relabelled(pods, s.pods, rm.nodeId, Others(rm.members, rm.nodeId), started, done);
        if started {
          assert s.pods == Assigned(pods, {rm.nodeId}, Range(Others(rm.members, rm.nodeId)[..done]));
        }
      case Alive(reading1, reading2) =>
        ok := true;
        if isLeader {
          ghost var repaired;
          ok, repaired := RepairRoles(s, reading1, reading2, w.replicating);
        }
    }

    // The replicas, then the roles.
    method ReconcileCluster(s: Store, rm: RaftManager, w: World) returns (ok: bool, ghost middle: Objects,
                            ghost result: PassResult)
      requires rm.nodeId == NodeName(cluster, 0)
      modifies rm, s
      ensures Next(old(s.Value()), middle, replicas, ReplicaPass(result)) && Next(middle, s.Value(), replicas, RolesSet)
      ensures ok ==> result != Failed
      ensures result == Failed ==> s.Value() == middle && rm.State() == old(rm.State())
      ensures rm.State() == old(rm.State()) || (w.master.Down? && rm.State() == StepDown(old(rm.State())))
      ensures ok && w.master.Down? ==> Masters(s.pods) * (rm.Members() + {rm.nodeId}) == {rm.nodeId}
      ensures ok && w.master.Alive? && old(rm.role) == Leader ==>
                w.master.reading2.Value? && Masters(s.pods) * MysqlPods(s.pods) <= {w.master.reading2.v}
      ensures s.reliable && w.master.Alive? && w.master.reading1.Value? && w.master.reading1.v in old(s.pods) ==>
                (ok <==> old(rm.role) != Leader || w.master.reading2.Value?)
      ensures w.master.Down? && OnlyOperatorPods(old(s.pods)) ==> !ok && s.Value() == middle
    {
      ghost var o := s.Value();
      var pass := ReconcileReplicas(s, replicas);
      middle, result := s.Value(), pass;
      NoRelabelling(middle);
      ProgressKeeps(o, middle, replicas);
      if pass == Failed {
        return false, middle, result;
      }
      if OnlyOperatorPods(o.pods) {
        StillOperatorPods(o, middle, replicas);
        NoPodForNode(middle.pods, cluster);
      }
      ok := ReconcileRoles(s, rm, w);
    }

    // Reconcile. A call that finds the cluster not initialised is an initialisation; any other is a
    // pass over the replicas and work on the roles, wherever it stops.
    method Reconcile(s: Store, w: World) returns (ok: bool, ghost middle: Objects, ghost result: PassResult)
      requires Valid()
      modifies this, s, raftManager
      ensures Valid() && (old(initialized) ==> initialized && raftManager != null)
      ensures !old(initialized) ==> (initialized <==> ok) && raftManager == old(raftManager)
      ensures Called(Moment(old(initialized), old(s.Value())), Moment(initialized, s.Value()), replicas)
      // The node of the controller is made once, as a new one, and kept; only a failover touches it.
      ensures old(raftManager) != null ==> raftManager == old(raftManager)
      ensures old(initialized) && old(raftManager) == null ==>
                fresh(raftManager) && raftManager.State() == NEW_NODE && raftManager.policy == policy
      ensures old(initialized) && old(raftManager) != null ==>
                raftManager.State() == old(raftManager.State()) ||
                (w.master.Down? && raftManager.State() == StepDown(old(raftManager.State())))
      ensures !old(initialized) ==> Next(old(s.Value()), s.Value(), replicas, Initialisation)
      ensures old(initialized) ==>
                && Next(old(s.Value()), middle, replicas, ReplicaPass(result))
                && Next(middle, s.Value(), replicas, RolesSet)
      ensures ok && !old(initialized) ==>
                Expected(replicas) <= s.pods.Keys && Masters(s.pods) * Expected(replicas) == {PodName(1)}
      ensures s.reliable && !old(initialized) ==> (ok <==> w.servicesOk && 1 <= replicas)
      ensures ok && old(initialized) ==> result != Failed
      ensures ok && old(initialized) && w.master.Down? ==>
                Masters(s.pods) * (raftManager.Members() + {raftManager.nodeId}) == {raftManager.nodeId}
      ensures ok && old(initialized) && w.master.Alive? ==>
                old(raftManager) != null && old(raftManager.role) == Leader ==>
                w.master.reading2.Value? && Masters(s.pods) * MysqlPods(s.pods) <= {w.master.reading2.v}
      ensures s.reliable && old(initialized) && w.master.Alive? ==>
                w.master.reading1.Value? && w.master.reading2.Value? ==>
                w.master.reading1.v in old(s.pods) ==> ok
      // A failover never goes through in a store that holds the operator's own pods and no others.
      ensures old(initialized) && w.master.Down? && OnlyOperatorPods(old(s.pods)) ==> !ok && s.Value() == middle
    {
      middle, result := s.Value(), Skipped;
      if !initialized {
        ok := Init(s, replicas, w.servicesOk);
        if !ok {
          return;
        }
        ok := s.Try();
        if ok {
          initialized := true;
        }
        return;
      }
      var rm;
      if raftManager == null {
        rm := InitializeRaft();
        raftManager := rm;
      } else {
        rm := raftManager;
      }
      ok, middle, result := ReconcileCluster(s, rm, w);
    }
  }
}
