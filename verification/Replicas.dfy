/**
 Replica reconciliation and first-time initialisation: which pods, volume claims and ConfigMaps
 exist after a pass, whether or not it got to the end.
 */
module Replicas {
  import opened Names
  import opened KubeStore

  // ---- pod numbers ----

  // extractPodNumbers, one name at a time.
  function Numbers(names: seq<string>): seq<string> {
    if names == [] then []
    else
      match FindNumber(names[0])
      case Number(d) => [d] + Numbers(names[1..])
      case NoMatch => Numbers(names[1..])
  }

  lemma {:induction false} NumbersAppend(a: seq<string>, b: seq<string>)
    ensures Numbers(a + b) == Numbers(a) + Numbers(b)
  {
    if a == [] {
      assert a + b == b;
    } else {
      assert (a + b)[0] == a[0] && (a + b)[1..] == a[1..] + b;
      NumbersAppend(a[1..], b);
    }
  }

  lemma {:induction false} NumbersHold(names: seq<string>, d: string)
    ensures d in Numbers(names) <==> exists n :: n in names && FindNumber(n) == Number(d)
  {
    if names != [] {
      NumbersHold(names[1..], d);
      assert forall n :: n in names <==> n == names[0] || n in names[1..];
    }
  }

  // One name: its number, or nothing.
  lemma NumbersOfOne(name: string)
    ensures Numbers([name]) == match FindNumber(name) case Number(d) => [d] case NoMatch => []
  {
    assert [name][1..] == [];
  }

  method ExtractPodNumbers(podNames: seq<string>) returns (podNumbers: seq<string>)
    ensures podNumbers == Numbers(podNames)
  {
    podNumbers := [];
    for i := 0 to |podNames|
      invariant podNumbers == Numbers(podNames[..i])
    {
      assert podNames[..i + 1] == podNames[..i] + [podNames[i]];
      NumbersAppend(podNames[..i], [podNames[i]]);
      match FindNumber(podNames[i]) {
        case Number(d) => podNumbers := podNumbers + [d];
        case NoMatch =>
      }
    }
    assert podNames[..|podNames|] == podNames;
  }

  function ExpectedNumbers(count: int): set<string> {
    set i: nat | 1 <= i <= count :: TwoDigits(i)
  }

  method GenerateExpectedPodNumbers(count: int) returns (podNumbers: seq<string>)
    ensures forall d :: d in podNumbers <==> d in ExpectedNumbers(count)
    ensures |podNumbers| == if count < 0 then 0 else count
    ensures forall k :: 0 <= k < |podNumbers| ==> podNumbers[k] == TwoDigits(k + 1)
  {
    podNumbers := [];
    var i := 1;
    while i <= count
      invariant 1 <= i <= (if count < 0 then 0 else count) + 1 && |podNumbers| == i - 1
      invariant forall d :: d in podNumbers <==> d in ExpectedNumbers(i - 1)
      invariant forall k :: 0 <= k < |podNumbers| ==> podNumbers[k] == TwoDigits(k + 1)
    {
      podNumbers := podNumbers + [TwoDigits(i)];
      assert ExpectedNumbers(i) == ExpectedNumbers(i - 1) + {TwoDigits(i)};
      i := i + 1;
    }
  }

  // The set difference, in the order a Go map happens to be ranged over.
  method FindMissingPodNumbers(expected: seq<string>, actual: seq<string>) returns (missing: seq<string>)
    ensures forall d :: d in missing <==> d in expected && d !in actual
    ensures forall i, j :: 0 <= i < j < |missing| ==> missing[i] != missing[j]
  {
    var expectedSet: set<string> := {};
    for i := 0 to |expected|
      invariant forall d :: d in expectedSet <==> d in expected[..i]
    {
      expectedSet := expectedSet + {expected[i]};
    }
    for i := 0 to |actual|
      invariant forall d :: d in expectedSet <==> d in expected && d !in actual[..i]
    {
      expectedSet := expectedSet - {actual[i]};
    }
    missing := [];
    while expectedSet != {}
      invariant forall d :: d in missing || d in expectedSet <==> d in expected && d !in actual
      invariant forall d :: d in missing ==> d !in expectedSet
      invariant forall i, j :: 0 <= i < j < |missing| ==> missing[i] != missing[j]
      decreases expectedSet
    {
      var d :| d in expectedSet;
      missing := missing + [d];
      expectedSet := expectedSet - {d};
    }
  }

  function Expected(count: int): set<string> {
    set i: nat | 1 <= i <= count :: PodName(i)
  }

  lemma {:induction false} ExpectedSize(count: nat)
    ensures |Expected(count)| == count
  {
    if 0 < count {
      ExpectedSize(count - 1);
      forall i: nat | 1 <= i <= count - 1 ensures PodName(i) != PodName(count) {
        NamesDistinct(i, count);
      }
      assert Expected(count) == Expected(count - 1) + {PodName(count)};
    } else {
      assert Expected(0) == {};
    }
  }

  // ---- what the operator's objects look like ----

  // Each ConfigMap of the operator carries the server-id of its number.
  ghost predicate ServerIds(o: Objects) {
    forall i: nat :: ConfigMapName(i) in o.configMaps ==> o.configMaps[ConfigMapName(i)] == i
  }

  ghost predicate PodBacked(o: Objects, i: nat) {
    PodName(i) in o.pods ==>
      && o.pods[PodName(i)].pvc == PodName(i) && PodName(i) in o.pvcs
      && o.pods[PodName(i)].configMap == ConfigMapName(i) && ConfigMapName(i) in o.configMaps
  }

  // Every pod of the operator has its volume claim and its ConfigMap.
  ghost predicate Backed(o: Objects) {
    ServerIds(o) && forall i: nat :: PodBacked(o, i)
  }

  // No object with one of the operator's names.
  ghost predicate Untouched(o: Objects) {
    forall i: nat :: PodName(i) !in o.pods && ConfigMapName(i) !in o.configMaps
  }

  lemma UntouchedIsBacked(o: Objects)
    requires Untouched(o)
    ensures Backed(o)
  {
  }

  // Two pods of the operator never run with the same server-id.
  lemma ServerIdsDistinct(o: Objects, i: nat, j: nat)
    requires Backed(o) && PodName(i) in o.pods && PodName(j) in o.pods && i != j
    ensures o.pods[PodName(i)].configMap in o.configMaps && o.pods[PodName(j)].configMap in o.configMaps
    ensures o.configMaps[o.pods[PodName(i)].configMap] == i
    ensures o.configMaps[o.pods[PodName(i)].configMap] != o.configMaps[o.pods[PodName(j)].configMap]
  {
    assert PodBacked(o, i) && PodBacked(o, j);
  }

  // Nothing is lost, and what is new belongs to a number from 1 to `count`.
  ghost predicate Grows(o: Objects, o': Objects, count: int) {
    && (forall n :: n in o.pods ==> n in o'.pods && o'.pods[n] == o.pods[n])
    && (forall n :: n in o'.pods && n !in o.pods ==>
          exists i: nat :: 1 <= i <= count && n == PodName(i) && o'.pods[n] == NewPod(ConfigMapName(i), PodName(i)))
    && o.pvcs <= o'.pvcs <= o.pvcs + Expected(count)
    && (forall n :: n in o.configMaps ==> n in o'.configMaps && o'.configMaps[n] == o.configMaps[n])
    && (forall n :: n in o'.configMaps && n !in o.configMaps ==>
          exists i: nat :: 1 <= i <= count && n == ConfigMapName(i) && o'.configMaps[n] == i)
  }

  // Work that loses nothing and leaves no pod without its objects.
  ghost predicate Progress(o: Objects, o': Objects, count: int) {
    Grows(o, o', count) && (Backed(o) ==> Backed(o'))
  }

  // Work on the objects makes no pod a master and none a slave.
  lemma ProgressKeepsRoles(o: Objects, o': Objects, count: int)
    requires Progress(o, o', count)
    ensures Masters(o'.pods) == Masters(o.pods) && Slaves(o'.pods) == Slaves(o.pods)
  {
  }

  lemma GrowsTwice(a: Objects, b: Objects, c: Objects, count: int)
    requires Grows(a, b, count) && Grows(b, c, count)
    ensures Grows(a, c, count)
  {
  }

  // ---- single creations, by number ----

  // What the three create calls may do for number i, each on its own.
  predicate ConfigMapMade(o: Objects, o': Objects, i: nat) {
    o' == o || (ConfigMapName(i) !in o.configMaps && o' == o.(configMaps := o.configMaps[ConfigMapName(i) := i]))
  }

  predicate PvcMade(o: Objects, o': Objects, i: nat) {
    o' == o || o' == o.(pvcs := o.pvcs + {PodName(i)})
  }

  predicate PodMade(o: Objects, o': Objects, i: nat) {
    o' == o || (PodName(i) !in o.pods && o' == o.(pods := o.pods[PodName(i) := NewPod(ConfigMapName(i), PodName(i))]))
  }

  lemma ConfigMapKeeps(o: Objects, o': Objects, i: nat, count: int)
    requires ConfigMapMade(o, o', i) && 1 <= i <= count
    ensures Progress(o, o', count)
  {
    if Backed(o) {
      forall j: nat | ConfigMapName(j) in o'.configMaps ensures o'.configMaps[ConfigMapName(j)] == j {
        NamesDistinct(i, j);
      }
      forall j: nat ensures PodBacked(o', j) {
        assert PodBacked(o, j);
      }
    }
  }

  lemma PvcKeeps(o: Objects, o': Objects, i: nat, count: int)
    requires PvcMade(o, o', i) && 1 <= i <= count
    ensures Progress(o, o', count)
  {
    assert PodName(i) in Expected(count);
    if Backed(o) {
      forall j: nat ensures PodBacked(o', j) {
        assert PodBacked(o, j);
      }
    }
  }

  lemma PodKeeps(o: Objects, o': Objects, i: nat, count: int)
    requires PodMade(o, o', i) && 1 <= i <= count
    requires PodName(i) in o.pvcs && ConfigMapName(i) in o.configMaps
    ensures Progress(o, o', count)
  {
    if Backed(o) {
      forall j: nat ensures PodBacked(o', j) {
        NamesDistinct(i, j);
        assert PodBacked(o, j);
      }
    }
  }

  // Two stretches of work one after the other.
  lemma Chain(a: Objects, b: Objects, c: Objects, count: int)
    requires Progress(a, b, count) && Progress(b, c, count)
    ensures Progress(a, c, count)
  {
    GrowsTwice(a, b, c, count);
  }

  // ---- one reconcile pass ----

  datatype PassResult = Skipped | Completed | Failed

  // Some listed pod is read as number i.
  ghost predicate ReadAs(pods: Pods, i: nat) {
    exists n :: n in MysqlPods(pods) && FindNumber(n) == Number(TwoDigits(i))
  }

  // What a pass promises, whatever failed.
  ghost predicate Pass(o: Objects, o': Objects, replicas: int, result: PassResult) {
    && Progress(o, o', replicas)
    && (result == Skipped ==> o' == o && (|MysqlPods(o.pods)| == replicas || replicas == 0))
    && (result == Completed ==> forall i: nat :: 1 <= i <= replicas ==> PodName(i) in o'.pods || ReadAs(o.pods, i))
  }

  // No object of number i was made.
  ghost predicate NothingMade(o: Objects, o': Objects, i: nat) {
    && (PodName(i) in o'.pods ==> PodName(i) in o.pods)
    && (PodName(i) in o'.pvcs ==> PodName(i) in o.pvcs)
    && (ConfigMapName(i) in o'.configMaps ==> ConfigMapName(i) in o.configMaps)
  }

  // Objects were made for these numbers at most.
  ghost predicate MadeFor(o: Objects, o': Objects, numbers: seq<string>) {
    forall i: nat :: NothingMade(o, o', i) || TwoDigits(i) in numbers
  }

  lemma MadeForTwice(a: Objects, b: Objects, c: Objects, numbers: seq<string>)
    requires MadeFor(a, b, numbers) && MadeFor(b, c, numbers)
    ensures MadeFor(a, c, numbers)
  {
    forall i: nat ensures NothingMade(a, c, i) || TwoDigits(i) in numbers {
      assert NothingMade(a, b, i) || TwoDigits(i) in numbers;
      assert NothingMade(b, c, i) || TwoDigits(i) in numbers;
    }
  }

  lemma MadeForOne(o: Objects, o': Objects, i: nat)
    requires ConfigMapMade(o, o', i) || PvcMade(o, o', i) || PodMade(o, o', i)
    ensures MadeFor(o, o', [TwoDigits(i)])
  {
    forall j: nat ensures NothingMade(o, o', j) || TwoDigits(j) in [TwoDigits(i)] {
      NamesDistinct(i, j);
      if i == j {
        assert TwoDigits(j) == [TwoDigits(i)][0];
      }
    }
  }

  // The objects of pod number i, in the order of reconcileReplicas.
  method CreateReplica(s: Store, podNumber: string, ghost i: nat, ghost count: int) returns (ok: bool)
    requires 1 <= i <= count && podNumber == TwoDigits(i)
    modifies s
    ensures Progress(old(s.Value()), s.Value(), count) && MadeFor(old(s.Value()), s.Value(), [podNumber])
    ensures ok ==> PodName(i) in s.pods
    ensures s.reliable ==> ok
  {
    ghost var o0 := s.Value();
    var podName := "mysql-" + podNumber;
    var configMapName := "mysql-config-" + podNumber;
    assert podName == PodName(i) && configMapName == ConfigMapName(i);
    ok := s.CreatePVC(podName);
    ghost var o1 := s.Value();
    PvcKeeps(o0, o1, i, count);
    MadeForOne(o0, o1, i);
    if !ok {
      return;
    }
    var serverId := Atoi(podNumber);
    AtoiOfTwoDigits(i);
    ok := s.CreateConfigMap(configMapName, serverId);
    ghost var o2 := s.Value();
    ConfigMapKeeps(o1, o2, i, count);
    Chain(o0, o1, o2, count);
    MadeForOne(o1, o2, i);
    MadeForTwice(o0, o1, o2, [podNumber]);
    if !ok {
      return;
    }
    ok := s.CreatePod(podName, configMapName, podName);
    PodKeeps(o2, s.Value(), i, count);
    Chain(o0, o2, s.Value(), count);
    MadeForOne(o2, s.Value(), i);
    MadeForTwice(o0, o2, s.Value(), [podNumber]);
  }

  // The first k missing pods are there.
  predicate Created(pods: Pods, missing: seq<string>, k: nat)
    requires k <= |missing|
  {
    forall j :: 0 <= j < k ==> PREFIX + missing[j] in pods
  }

  lemma AllThere(o: Objects, pods: Pods, names: seq<string>, missing: seq<string>, replicas: int)
    requires forall n :: n in names ==> n in MysqlPods(o.pods)
    requires forall d :: d in ExpectedNumbers(replicas) && d !in Numbers(names) ==> d in missing
    requires Created(pods, missing, |missing|)
    ensures forall i: nat :: 1 <= i <= replicas ==> PodName(i) in pods || ReadAs(o.pods, i)
  {
    forall i: nat | 1 <= i <= replicas ensures PodName(i) in pods || ReadAs(o.pods, i) {
      assert TwoDigits(i) in ExpectedNumbers(replicas);
      if TwoDigits(i) !in missing {
        NumbersHold(names, TwoDigits(i));
      }
    }
  }

  method CreateMissing(s: Store, missing: seq<string>, ghost count: int) returns (ok: bool)
    requires forall d :: d in missing ==> d in ExpectedNumbers(count)
    modifies s
    ensures Progress(old(s.Value()), s.Value(), count) && MadeFor(old(s.Value()), s.Value(), missing)
    ensures ok ==> Created(s.pods, missing, |missing|)
    // Where it stops, the numbers before are made and those after are untouched.
    ensures !ok ==> exists k: nat :: k < |missing| && Created(s.pods, missing, k) &&
                                     MadeFor(old(s.Value()), s.Value(), missing[..k + 1])
    ensures s.reliable ==> ok
  {
    ghost var o := s.Value();
    for k := 0 to |missing|
      invariant Progress(o, s.Value(), count) && MadeFor(o, s.Value(), missing[..k])
      invariant Created(s.pods, missing, k)
    {
      ghost var before := s.Value();
      ok := CreateNext(s, missing, k, count);
      Chain(o, before, s.Value(), count);
      FirstNumbers(missing, k);
      MadeForWider(o, before, missing[..k], missing[..k + 1]);
      MadeForTwice(o, before, s.Value(), missing[..k + 1]);
      if !ok {
        assert Created(s.pods, missing, k) && MadeFor(o, s.Value(), missing[..k + 1]);
        return;
      }
    }
    assert missing[..|missing|] == missing;
    ok := true;
  }

  lemma FirstNumbers(missing: seq<string>, k: nat)
    requires k < |missing|
    ensures missing[..k + 1] == missing[..k] + [missing[k]]
    ensures forall d :: d in missing[..k + 1] ==> d in missing
  {
  }

  lemma MadeForWider(o: Objects, o': Objects, numbers: seq<string>, more: seq<string>)
    requires MadeFor(o, o', numbers) && forall d :: d in numbers ==> d in more
    ensures MadeFor(o, o', more)
  {
    forall i: nat ensures NothingMade(o, o', i) || TwoDigits(i) in more {
      assert NothingMade(o, o', i) || TwoDigits(i) in numbers;
    }
  }

  method CreateNext(s: Store, missing: seq<string>, k: nat, ghost count: int) returns (ok: bool)
    requires forall d :: d in missing ==> d in ExpectedNumbers(count)
    requires k < |missing| && Created(s.pods, missing, k)
    modifies s
    ensures Progress(old(s.Value()), s.Value(), count) && MadeFor(old(s.Value()), s.Value(), missing[..k + 1])
    ensures Created(s.pods, missing, k)
    ensures ok ==> Created(s.pods, missing, k + 1)
    ensures s.reliable ==> ok
  {
    ghost var i := NumberOf(missing, k, count);
    ghost var before := s.Value();
    ok := CreateReplica(s, missing[k], i, count);
    FirstNumbers(missing, k);
    MadeForWider(before, s.Value(), [missing[k]], missing[..k + 1]);
    StillCreated(before, s.Value(), missing, k, count);
  }

  lemma NumberOf(missing: seq<string>, k: nat, count: int) returns (i: nat)
    requires k < |missing| && forall d :: d in missing ==> d in ExpectedNumbers(count)
    ensures 1 <= i <= count && missing[k] == TwoDigits(i)
  {
    assert missing[k] in missing;
    i :| 1 <= i <= count && missing[k] == TwoDigits(i);
  }

  lemma StillCreated(o: Objects, o': Objects, missing: seq<string>, k: nat, count: int)
    requires Progress(o, o', count) && k <= |missing| && Created(o.pods, missing, k)
    ensures Created(o'.pods, missing, k)
  {
  }

  // What a pod in the list is read as, is not made.
  lemma ReadMeansNothingMade(o: Objects, o': Objects, names: seq<string>, missing: seq<string>)
    requires MadeFor(o, o', missing) && forall d :: d in missing ==> d !in Numbers(names)
    requires forall n :: n in names <==> n in MysqlPods(o.pods)
    ensures forall i: nat :: ReadAs(o.pods, i) ==> NothingMade(o, o', i)
  {
    forall i: nat | ReadAs(o.pods, i) ensures NothingMade(o, o', i) {
      NumbersHold(names, TwoDigits(i));
    }
  }

  method ReconcileReplicas(s: Store, replicas: int) returns (result: PassResult)
    modifies s
    ensures Pass(old(s.Value()), s.Value(), replicas, result)
    ensures Masters(s.pods) == Masters(old(s.pods)) && Slaves(s.pods) == Slaves(old(s.pods))
    ensures s.reliable ==> forall i: nat :: ReadAs(old(s.pods), i) ==> NothingMade(old(s.Value()), s.Value(), i)
    ensures s.reliable ==> result == if |MysqlPods(old(s.pods))| == replicas then Skipped else Completed
  {
    ghost var o := s.Value();
    var listed, names := s.ListMysqlPods();
    if |names| == replicas {
      return Skipped;
    }
    var actual := ExtractPodNumbers(names);
    var expected := GenerateExpectedPodNumbers(replicas);
    var missing := FindMissingPodNumbers(expected, actual);
    var ok := CreateMissing(s, missing, replicas);
    ProgressKeepsRoles(o, s.Value(), replicas);
    if listed {
      ReadMeansNothingMade(o, s.Value(), names, missing);
    }
    if !ok {
      return Failed;
    }
    AllThere(o, s.pods, names, missing, replicas);
    return Completed;
  }
}
