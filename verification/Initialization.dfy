/**
 The first reconcile of a cluster: services, ConfigMaps, volume claims and pods in three loops,
 then the roles. Any call may fail, and the object created last is then the last there is, so
 the postconditions about failures speak of every intermediate point.
 */
module Initialization {
  import opened Names
  import opened KubeStore
  import opened Replicas
  import opened Members
  import opened Roles

  // Work on roles: some pods are given a role, and nothing else changes.
  ghost predicate Relabelling(o: Objects, o': Objects) {
    && o'.pvcs == o.pvcs && o'.configMaps == o.configMaps
    && exists masters, slaves :: o'.pods == Assigned(o.pods, masters, slaves)
  }

  // What an initialisation leaves, wherever it stopped: objects, then roles.
  ghost predicate Initialised(o: Objects, o': Objects, replicas: int) {
    exists made :: Progress(o, made, replicas) && Relabelling(made, o')
  }

  lemma NoRelabelling(o: Objects)
    ensures Relabelling(o, o)
  {
    assert o.pods == Assigned(o.pods, {}, {});
  }

  lemma RelabelledIsRelabelling(o: Objects, o': Objects, master: string, slaves: seq<string>, started: bool, done: nat)
    requires o'.pvcs == o.pvcs && o'.configMaps == o.configMaps
    requires Relabelled(o.pods, o'.pods, master, slaves, started, done)
    ensures Relabelling(o, o')
  {
    if started {
      assert o'.pods == Assigned(o.pods, {master}, Range(slaves[..done]));
    } else {
      NoRelabelling(o);
    }
  }

  // The names of pods from..to, in order.
  function PodNames(from: nat, to: nat): (names: seq<string>)
    requires from <= to + 1
    ensures |names| == to + 1 - from
    ensures forall k :: 0 <= k < |names| ==> names[k] == PodName(from + k)
  {
    seq(to + 1 - from, k requires 0 <= k => PodName(from + k))
  }

  lemma OnlyNumber(i: nat)
    ensures forall j: nat :: ConfigMapName(j) == ConfigMapName(i) || PodName(j) == PodName(i) ==> j == i
  {
    forall j: nat ensures ConfigMapName(j) == ConfigMapName(i) || PodName(j) == PodName(i) ==> j == i {
      NamesDistinct(i, j);
    }
  }

  method CreateConfigMaps(s: Store, replicas: nat) returns (ok: bool)
    modifies s
    ensures Progress(old(s.Value()), s.Value(), replicas) && s.pods == old(s.pods) && s.pvcs == old(s.pvcs)
    ensures forall i: nat, k: nat :: ConfigMapName(i) in s.configMaps && ConfigMapName(i) !in old(s.configMaps) ==>
                                     1 <= k < i ==> ConfigMapName(k) in s.configMaps
    ensures ok ==> forall i: nat :: 1 <= i <= replicas ==> ConfigMapName(i) in s.configMaps
    ensures s.reliable ==> ok
  {
    ghost var o := s.Value();
    var i := 1;
    while i <= replicas
      invariant 1 <= i <= replicas + 1
      invariant Progress(o, s.Value(), replicas) && s.pods == o.pods && s.pvcs == o.pvcs
      invariant forall k: nat :: 1 <= k < i ==> ConfigMapName(k) in s.configMaps
      invariant forall j: nat :: ConfigMapName(j) in s.configMaps && ConfigMapName(j) !in o.configMaps ==> j < i
    {
      ghost var before := s.Value();
      ok := s.CreateConfigMap("mysql-config-" + TwoDigits(i), i);
      OnlyNumber(i);
      ConfigMapKeeps(before, s.Value(), i, replicas);
      Chain(o, before, s.Value(), replicas);
      if !ok {
        return;
      }
      i := i + 1;
    }
    ok := true;
  }

  method CreatePVCs(s: Store, replicas: nat) returns (ok: bool)
    modifies s
    ensures Progress(old(s.Value()), s.Value(), replicas) && s.pods == old(s.pods) && s.configMaps == old(s.configMaps)
    ensures forall i: nat, k: nat :: PodName(i) in s.pvcs && PodName(i) !in old(s.pvcs) && 1 <= k < i ==>
                                     PodName(k) in s.pvcs
    ensures ok ==> forall i: nat :: 1 <= i <= replicas ==> PodName(i) in s.pvcs
    ensures s.reliable ==> ok
  {
    ghost var o := s.Value();
    var i := 1;
    while i <= replicas
      invariant 1 <= i <= replicas + 1
      invariant Progress(o, s.Value(), replicas) && s.pods == o.pods && s.configMaps == o.configMaps
      invariant forall k: nat :: 1 <= k < i ==> PodName(k) in s.pvcs
      invariant forall j: nat :: PodName(j) in s.pvcs && PodName(j) !in o.pvcs ==> j < i
    {
      ghost var before := s.Value();
      ok := s.CreatePVC("mysql-" + TwoDigits(i));
      OnlyNumber(i);
      PvcKeeps(before, s.Value(), i, replicas);
      Chain(o, before, s.Value(), replicas);
      if !ok {
        return;
      }
      i := i + 1;
    }
    ok := true;
  }

  method CreatePods(s: Store, replicas: nat) returns (ok: bool)
    requires forall i: nat :: 1 <= i <= replicas ==> ConfigMapName(i) in s.configMaps && PodName(i) in s.pvcs
    modifies s
    ensures Progress(old(s.Value()), s.Value(), replicas)
    ensures forall i: nat, k: nat :: PodName(i) in s.pods && PodName(i) !in old(s.pods) && 1 <= k < i ==>
                                     PodName(k) in s.pods
    ensures ok ==> forall i: nat :: 1 <= i <= replicas ==> PodName(i) in s.pods
    ensures s.reliable ==> ok
  {
    ghost var o := s.Value();
    var i := 1;
    while i <= replicas
      invariant 1 <= i <= replicas + 1
      invariant Progress(o, s.Value(), replicas) && s.pvcs == o.pvcs && s.configMaps == o.configMaps
      invariant forall k: nat :: 1 <= k < i ==> PodName(k) in s.pods
      invariant forall j: nat :: PodName(j) in s.pods && PodName(j) !in o.pods ==> j < i
    {
      ghost var before := s.Value();
      ok := s.CreatePod("mysql-" + TwoDigits(i), "mysql-config-" + TwoDigits(i), "mysql-" + TwoDigits(i));
      OnlyNumber(i);
      PodKeeps(before, s.Value(), i, replicas);
      Chain(o, before, s.Value(), replicas);
      if !ok {
        return;
      }
      i := i + 1;
    }
    ok := true;
  }

  // Steps 3 to 5 of init: every object of every number.
  method CreateObjects(s: Store, replicas: nat) returns (ok: bool)
    modifies s
    ensures Progress(old(s.Value()), s.Value(), replicas)
    ensures Masters(s.pods) == Masters(old(s.pods)) && Slaves(s.pods) == Slaves(old(s.pods))
    // One kind of object after the other: no claim before all ConfigMaps, no pod before all claims.
    ensures s.pvcs != old(s.pvcs) ==> forall i: nat :: 1 <= i <= replicas ==> ConfigMapName(i) in s.configMaps
    ensures s.pods != old(s.pods) ==> forall i: nat :: 1 <= i <= replicas ==> PodName(i) in s.pvcs
    ensures ok ==> forall i: nat :: 1 <= i <= replicas ==> PodName(i) in s.pods
    ensures s.reliable ==> ok
  {
    ghost var o := s.Value();
    ok := CreateConfigMaps(s, replicas);
    if !ok {
      return;
    }
    ghost var o1 := s.Value();
    ok := CreatePVCs(s, replicas);
    Chain(o, o1, s.Value(), replicas);
    if !ok {
      return;
    }
    ghost var o2 := s.Value();
    ok := CreatePods(s, replicas);
    Chain(o, o2, s.Value(), replicas);
    ProgressKeepsRoles(o, s.Value(), replicas);
  }

  // Step 6: pod 1 is the master, the others its slaves.
  method AssignFirstRoles(s: Store, replicas: nat) returns (ok: bool)
    requires 1 <= replicas
    modifies s`pods
    ensures s.reliable && Expected(replicas) <= old(s.pods).Keys ==> ok
    ensures Relabelling(old(s.Value()), s.Value())
    ensures ok ==> Masters(s.pods) * Expected(replicas) == {PodName(1)}
    ensures ok ==> Slaves(s.pods) * Expected(replicas) == Expected(replicas) - {PodName(1)}
  {
    ghost var o := s.Value();
    var slavePodNames := [];
    var i := 2;
    while i <= replicas
      invariant 2 <= i <= replicas + 1 && slavePodNames == PodNames(2, i - 1)
    {
      slavePodNames := slavePodNames + ["mysql-" + TwoDigits(i)];
      i := i + 1;
    }
    FirstPodName();
    SlavePodNames(replicas);
    ghost var started, done;
    ok, started, done := SetupMasterSlaveReplication(s, "mysql-01", slavePodNames);
    RelabelledIsRelabelling(o, s.Value(), "mysql-01", slavePodNames, started, done);
    if ok {
      OneMasterAfterSuccess(o.pods, s.pods, Expected(replicas), PodName(1), slavePodNames);
    }
  }

  // `servicesOk` is the outcome of creating the two services, which touch nothing modelled here.
  method Init(s: Store, replicas: int, servicesOk: bool) returns (ok: bool)
    modifies s
    ensures !servicesOk || replicas < 1 ==> !ok && s.Value() == old(s.Value())
    ensures s.reliable ==> (ok <==> servicesOk && 1 <= replicas)
    ensures Initialised(old(s.Value()), s.Value(), replicas)
    // No role before all pods.
    ensures Masters(s.pods) != Masters(old(s.pods)) || Slaves(s.pods) != Slaves(old(s.pods)) ==>
              Expected(replicas) <= s.pods.Keys
    ensures ok ==> Expected(replicas) <= s.pods.Keys
    ensures ok ==> Masters(s.pods) * Expected(replicas) == {PodName(1)}
    ensures ok ==> Slaves(s.pods) * Expected(replicas) == Expected(replicas) - {PodName(1)}
  {
    ghost var o := s.Value();
    NoRelabelling(o);
    if !servicesOk || replicas < 1 {
      return false;
    }
    ok := CreateObjects(s, replicas);
    ghost var made := s.Value();
    NoRelabelling(made);
    if ok {
      ok := AssignFirstRoles(s, replicas);
    }
    assert Progress(o, made, replicas) && Relabelling(made, s.Value());
  }

  lemma NewPodsExpected(o: Objects, o': Objects, count: int)
    requires Grows(o, o', count)
    ensures o.pods.Keys <= o'.pods.Keys <= o.pods.Keys + Expected(count)
  {
  }

  lemma FirstPodName()
    ensures PodName(1) == "mysql-01"
  {
    assert Decimal(1) == "1";
  }

  lemma SlavePodNames(replicas: nat)
    requires 1 <= replicas
    ensures PodName(1) in Expected(replicas)
    ensures Range(PodNames(2, replicas)) == Expected(replicas) - {PodName(1)}
  {
    forall n | n in PodNames(2, replicas) ensures n in Expected(replicas) && n != PodName(1) {
      SlaveIsExpected(replicas, n);
    }
    forall i: nat | 2 <= i <= replicas ensures PodName(i) in PodNames(2, replicas) {
      ExpectedIsSlave(replicas, i);
    }
  }

  lemma SlaveIsExpected(replicas: nat, n: string)
    requires 1 <= replicas && n in PodNames(2, replicas)
    ensures n in Expected(replicas) && n != PodName(1)
  {
    var k: nat :| k < |PodNames(2, replicas)| && PodNames(2, replicas)[k] == n;
    var i: nat := 2 + k;
    NamesDistinct(i, 1);
    assert n == PodName(i) && 1 <= i <= replicas;
  }

  lemma ExpectedIsSlave(replicas: nat, i: nat)
    requires 2 <= i <= replicas
    ensures PodName(i) in PodNames(2, replicas)
  {
    var k := i - 2;
    assert PodNames(2, replicas)[k] == PodName(2 + k);
  }

  // Labels are no part of what backs a pod.
  lemma RelabellingKeeps(o: Objects, o': Objects)
    requires Relabelling(o, o')
    ensures Backed(o) ==> Backed(o')
    ensures o'.pods.Keys == o.pods.Keys && MysqlPods(o'.pods) == MysqlPods(o.pods)
  {
    var masters, slaves :| o'.pods == Assigned(o.pods, masters, slaves);
    RelabelKeepsMysql(o.pods, masters, slaves);
    if Backed(o) {
      forall i: nat ensures PodBacked(o', i) {
        assert PodBacked(o, i);
      }
    }
  }

  lemma RelabellingTwice(a: Objects, b: Objects, c: Objects)
    requires Relabelling(a, b) && Relabelling(b, c)
    ensures Relabelling(a, c)
  {
    var m1, s1 :| b.pods == Assigned(a.pods, m1, s1);
    var m2, s2 :| c.pods == Assigned(b.pods, m2, s2);
    AssignedThen(a.pods, m1, s1, m2, s2);
  }
}
