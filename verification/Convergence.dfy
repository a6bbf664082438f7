/**
 What any number of calls of the operator come to, failed ones included: initialisations, passes
 over the replicas and repairs of the roles, in any order.
 */
module Convergence {
  import opened Names
  import opened KubeStore
  import opened Replicas
  import opened Initialization

  // The pods the operator lists are pods of numbers 1 to `replicas`, and each pod with such a
  // name is listed.
  ghost predicate Tidy(o: Objects, replicas: int) {
    && MysqlPods(o.pods) <= Expected(replicas)
    && forall n :: n in Expected(replicas) && n in o.pods ==> n in MysqlPods(o.pods)
  }

  lemma SameSizeSubset<T>(a: set<T>, b: set<T>)
    requires a <= b && |a| == |b|
    ensures a == b
  {
    assert b == a + (b - a);
  }

  // The count test skips a pass; that is right exactly if no other pod is listed.
  lemma SkipIsRightExactly(pods: Pods, replicas: nat)
    requires |MysqlPods(pods)| == replicas
    ensures Expected(replicas) <= MysqlPods(pods) <==> MysqlPods(pods) <= Expected(replicas)
  {
    ExpectedSize(replicas);
    if Expected(replicas) <= MysqlPods(pods) {
      SameSizeSubset(Expected(replicas), MysqlPods(pods));
    }
    if MysqlPods(pods) <= Expected(replicas) {
      SameSizeSubset(MysqlPods(pods), Expected(replicas));
    }
  }

  // With tidy pods the test skips exactly when nothing is missing.
  lemma CountTestExact(pods: Pods, replicas: nat)
    requires MysqlPods(pods) <= Expected(replicas)
    ensures |MysqlPods(pods)| == replicas <==> Expected(replicas) <= MysqlPods(pods)
  {
    ExpectedSize(replicas);
    if |MysqlPods(pods)| == replicas {
      SameSizeSubset(MysqlPods(pods), Expected(replicas));
    }
    if Expected(replicas) <= MysqlPods(pods) {
      assert MysqlPods(pods) == Expected(replicas);
    }
  }

  // Scaling from three to two after losing pod 1: two pods are listed, two are wanted, the pass
  // is skipped, and pod 1 stays missing.
  lemma SurplusHidesMissing(p: Pod)
    requires HasLabel(p, "app", "mysql")
    ensures var pods := map[PodName(2) := p, PodName(3) := p];
            |MysqlPods(pods)| == 2 && PodName(1) in Expected(2) && PodName(1) !in pods
  {
    var pods := map[PodName(2) := p, PodName(3) := p];
    NamesDistinct(2, 3);
    NamesDistinct(1, 2);
    NamesDistinct(1, 3);
    assert MysqlPods(pods) == {PodName(2), PodName(3)};
  }

  // No work of the operator makes a cluster untidy.
  lemma TidyProgress(o: Objects, o': Objects, replicas: int)
    requires Tidy(o, replicas) && Progress(o, o', replicas)
    ensures Tidy(o', replicas)
  {
  }

  // A completed pass leaves exactly the expected pods listed.
  lemma TidyPass(o: Objects, o': Objects, replicas: int, result: PassResult)
    requires Tidy(o, replicas) && Pass(o, o', replicas, result)
    ensures Tidy(o', replicas)
    ensures MysqlPods(o.pods) <= MysqlPods(o'.pods)
    ensures result == Completed ==> MysqlPods(o'.pods) == Expected(replicas)
  {
    TidyProgress(o, o', replicas);
    if result == Completed {
      forall i: nat | 1 <= i <= replicas ensures PodName(i) in o'.pods {
        if ReadAs(o.pods, i) {
          var n :| n in MysqlPods(o.pods) && FindNumber(n) == Number(TwoDigits(i));
          assert n in Expected(replicas);
          var j: nat :| 1 <= j <= replicas && n == PodName(j);
          NumberRoundTrip(j);
          TwoDigitsDistinct(i, j);
        }
      }
    }
  }

  // Work on a cluster with all its pods makes nothing, whatever fails in it.
  lemma FurtherWorkIdle(o: Objects, o': Objects, replicas: int)
    requires Backed(o) && Expected(replicas) <= o.pods.Keys && Progress(o, o', replicas)
    ensures o' == o
  {
    forall i: nat | 1 <= i <= replicas
      ensures PodName(i) in o.pods && PodName(i) in o.pvcs && ConfigMapName(i) in o.configMaps
    {
      assert PodName(i) in Expected(replicas);
      assert PodBacked(o, i);
    }
    assert o'.pods == o.pods && o'.pvcs == o.pvcs && o'.configMaps == o.configMaps;
  }

  lemma FurtherPassIdle(o: Objects, o': Objects, replicas: int, result: PassResult)
    requires Backed(o) && Expected(replicas) <= o.pods.Keys && Pass(o, o', replicas, result)
    ensures o' == o
  {
    FurtherWorkIdle(o, o', replicas);
  }

  // ---- sequences of steps ----

  // Steps of the operator, and what passes are there for: pods that are lost.
  datatype Step = Initialisation | ReplicaPass(result: PassResult) | RolesSet | PodsLost

  // Some pods are gone; claims and ConfigMaps stay.
  ghost predicate Losing(o: Objects, o': Objects) {
    && o'.pvcs == o.pvcs && o'.configMaps == o.configMaps
    && forall n :: n in o'.pods ==> n in o.pods && o'.pods[n] == o.pods[n]
  }

  ghost predicate Next(o: Objects, o': Objects, replicas: int, step: Step) {
    match step
    case Initialisation => Initialised(o, o', replicas)
    case ReplicaPass(result) => Pass(o, o', replicas, result)
    case RolesSet => Relabelling(o, o')
    case PodsLost => Losing(o, o')
  }

  ghost predicate NextAt(states: seq<Objects>, steps: seq<Step>, replicas: int, k: nat) {
    k < |steps| && k + 1 < |states| ==> Next(states[k], states[k + 1], replicas, steps[k])
  }

  ghost predicate Steps(states: seq<Objects>, steps: seq<Step>, replicas: int) {
    |states| == |steps| + 1 && forall k: nat :: NextAt(states, steps, replicas, k)
  }

  // Only expected pods are made, no pod is ever without its objects, and these are never lost.
  ghost predicate Holds(o: Objects, o': Objects, replicas: int) {
    && (Backed(o) ==> Backed(o'))
    && (Tidy(o, replicas) ==> Tidy(o', replicas))
    && o'.pods.Keys <= o.pods.Keys + Expected(replicas)
    && o.pvcs <= o'.pvcs
    && forall n :: n in o.configMaps ==> n in o'.configMaps && o'.configMaps[n] == o.configMaps[n]
  }

  // And no pod is lost.
  ghost predicate Keeps(o: Objects, o': Objects, replicas: int) {
    Holds(o, o', replicas) && o.pods.Keys <= o'.pods.Keys && MysqlPods(o.pods) <= MysqlPods(o'.pods)
  }

  lemma ProgressKeeps(o: Objects, o': Objects, replicas: int)
    requires Progress(o, o', replicas)
    ensures Keeps(o, o', replicas)
  {
    NewPodsExpected(o, o', replicas);
    if Tidy(o, replicas) {
      TidyProgress(o, o', replicas);
    }
  }

  lemma RolesKeep(o: Objects, o': Objects, replicas: int)
    requires Relabelling(o, o')
    ensures Keeps(o, o', replicas)
  {
    RelabellingKeeps(o, o');
  }

  lemma LosingHolds(o: Objects, o': Objects, replicas: int)
    requires Losing(o, o')
    ensures Holds(o, o', replicas)
  {
    if Backed(o) {
      forall i: nat ensures PodBacked(o', i) {
        assert PodBacked(o, i);
      }
    }
  }

  lemma HoldsTwice(a: Objects, b: Objects, c: Objects, replicas: int)
    requires Holds(a, b, replicas) && Holds(b, c, replicas)
    ensures Holds(a, c, replicas)
  {
  }

  lemma KeepsTwice(a: Objects, b: Objects, c: Objects, replicas: int)
    requires Keeps(a, b, replicas) && Keeps(b, c, replicas)
    ensures Keeps(a, c, replicas)
  {
    HoldsTwice(a, b, c, replicas);
  }

  lemma NextKeeps(o: Objects, o': Objects, replicas: int, step: Step)
    requires Next(o, o', replicas, step)
    ensures Holds(o, o', replicas)
    ensures !step.PodsLost? ==> Keeps(o, o', replicas)
  {
    match step
    case Initialisation =>
      var made :| Progress(o, made, replicas) && Relabelling(made, o');
      ProgressKeeps(o, made, replicas);
      RolesKeep(made, o', replicas);
      KeepsTwice(o, made, o', replicas);
    case ReplicaPass(result) => ProgressKeeps(o, o', replicas);
    case RolesSet => RolesKeep(o, o', replicas);
    case PodsLost => LosingHolds(o, o', replicas);
  }

  // Along any steps, over any store.
  lemma {:induction false} StepsHold(states: seq<Objects>, steps: seq<Step>, replicas: int, i: nat, j: nat)
    requires Steps(states, steps, replicas) && i <= j < |states|
    ensures Holds(states[i], states[j], replicas)
  {
    if i < j {
      StepsHold(states, steps, replicas, i, j - 1);
      assert NextAt(states, steps, replicas, j - 1);
      NextKeeps(states[j - 1], states[j], replicas, steps[j - 1]);
      HoldsTwice(states[i], states[j - 1], states[j], replicas);
    }
  }

  ghost predicate NoneLost(steps: seq<Step>, i: nat, j: nat) {
    forall k :: i <= k < j && k < |steps| ==> !steps[k].PodsLost?
  }

  // Along any steps of the operator, over any store, while no pod is lost to others.
  lemma {:induction false} PassesKeep(states: seq<Objects>, steps: seq<Step>, replicas: int, i: nat, j: nat)
    requires Steps(states, steps, replicas) && i <= j < |states| && NoneLost(steps, i, j)
    ensures Keeps(states[i], states[j], replicas)
  {
    if i == j {
      StepsHold(states, steps, replicas, i, j);
    } else {
      PassesKeep(states, steps, replicas, i, j - 1);
      assert NextAt(states, steps, replicas, j - 1);
      NextKeeps(states[j - 1], states[j], replicas, steps[j - 1]);
      KeepsTwice(states[i], states[j - 1], states[j], replicas);
    }
  }

  // A pod that runs with its own claim, and whose ConfigMap carries its own number.
  ghost predicate OwnIdentity(o: Objects, a: nat) {
    && PodName(a) in o.pods && o.pods[PodName(a)].pvc == PodName(a) && PodName(a) in o.pvcs
    && o.pods[PodName(a)].configMap == ConfigMapName(a) && ConfigMapName(a) in o.configMaps
    && o.configMaps[ConfigMapName(a)] == a
  }

  // From a store without an object of the operator, whatever is called, whatever fails and whatever
  // pods are lost in between: each of its pods always has its claim and its ConfigMap, and no two of
  // them the same server-id. A pod that was lost and made again is the same as before.
  lemma AlwaysBacked(states: seq<Objects>, steps: seq<Step>, replicas: int, j: nat, a: nat, b: nat)
    requires Steps(states, steps, replicas) && Untouched(states[0]) && j < |states|
    ensures Backed(states[j])
    ensures PodName(a) in states[j].pods ==> OwnIdentity(states[j], a)
    ensures a != b && PodName(a) in states[j].pods && PodName(b) in states[j].pods ==>
              var o := states[j];
              && o.pods[PodName(a)].configMap in o.configMaps && o.pods[PodName(b)].configMap in o.configMaps
              && o.configMaps[o.pods[PodName(a)].configMap] == a && o.configMaps[o.pods[PodName(b)].configMap] == b
  {
    UntouchedIsBacked(states[0]);
    StepsHold(states, steps, replicas, 0, j);
    assert PodBacked(states[j], a) && PodBacked(states[j], b);
  }

  // A lost pod's claim and ConfigMap are still there, so that the pod made in its place runs on the
  // same data with the same server-id.
  lemma ObjectsOutlivePod(states: seq<Objects>, steps: seq<Step>, replicas: int, i: nat, j: nat, a: nat)
    requires Steps(states, steps, replicas) && Untouched(states[0]) && i <= j < |states| && PodName(a) in states[i].pods
    ensures PodName(a) in states[j].pvcs
    ensures ConfigMapName(a) in states[j].configMaps && states[j].configMaps[ConfigMapName(a)] == a
    ensures PodName(a) in states[j].pods ==>
              && states[j].pods[PodName(a)].pvc == states[i].pods[PodName(a)].pvc
              && states[j].pods[PodName(a)].configMap == states[i].pods[PodName(a)].configMap
  {
    AlwaysBacked(states, steps, replicas, i, a, a);
    AlwaysBacked(states, steps, replicas, j, a, a);
    StepsHold(states, steps, replicas, i, j);
  }

  // A step of the operator over a cluster with all its pods changes roles and nothing else.
  lemma FurtherStepIdle(o: Objects, o': Objects, replicas: int, step: Step)
    requires Backed(o) && Expected(replicas) <= o.pods.Keys && Next(o, o', replicas, step) && !step.PodsLost?
    ensures Relabelling(o, o')
  {
    match step
    case Initialisation =>
      var made :| Progress(o, made, replicas) && Relabelling(made, o');
      FurtherWorkIdle(o, made, replicas);
    case ReplicaPass(result) =>
      FurtherPassIdle(o, o', replicas, result);
      NoRelabelling(o);
    case RolesSet =>
  }

  // Nothing is missing and nothing is listed that is not expected.
  ghost predicate Complete(o: Objects, replicas: int) {
    Backed(o) && MysqlPods(o.pods) == Expected(replicas)
  }

  lemma CompleteStays(o: Objects, o': Objects, replicas: int, step: Step)
    requires Complete(o, replicas) && Next(o, o', replicas, step) && !step.PodsLost?
    ensures Complete(o', replicas) && Relabelling(o, o')
  {
    assert MysqlPods(o.pods) <= o.pods.Keys;
    FurtherStepIdle(o, o', replicas, step);
    RelabellingKeeps(o, o');
  }

  lemma {:induction false} CompleteAlong(states: seq<Objects>, steps: seq<Step>, replicas: int, i: nat, j: nat)
    requires Steps(states, steps, replicas) && i <= j < |states|
    requires Complete(states[i], replicas) && NoneLost(steps, i, j)
    ensures Complete(states[j], replicas) && Relabelling(states[i], states[j])
  {
    if i == j {
      NoRelabelling(states[i]);
    } else {
      CompleteAlong(states, steps, replicas, i, j - 1);
      assert NextAt(states, steps, replicas, j - 1);
      CompleteStays(states[j - 1], states[j], replicas, steps[j - 1]);
      RelabellingTwice(states[i], states[j - 1], states[j]);
    }
  }

  // Whatever pods were lost before, a completed pass makes the listed pods the expected ones.
  lemma Restored(states: seq<Objects>, steps: seq<Step>, replicas: int, k: nat)
    requires Steps(states, steps, replicas) && Backed(states[0]) && Tidy(states[0], replicas)
    requires k < |steps| && steps[k] == ReplicaPass(Completed)
    ensures Complete(states[k + 1], replicas)
  {
    StepsHold(states, steps, replicas, 0, k + 1);
    StepsHold(states, steps, replicas, 0, k);
    assert NextAt(states, steps, replicas, k);
    TidyPass(states[k], states[k + 1], replicas, Completed);
  }

  // And until the next pod is lost, no later step changes anything but roles.
  lemma Converged(states: seq<Objects>, steps: seq<Step>, replicas: int, k: nat, j: nat)
    requires Steps(states, steps, replicas) && Backed(states[0]) && Tidy(states[0], replicas)
    requires k < |steps| && steps[k] == ReplicaPass(Completed) && k < j < |states| && NoneLost(steps, k + 1, j)
    ensures MysqlPods(states[j].pods) == Expected(replicas) && Relabelling(states[k + 1], states[j])
  {
    Restored(states, steps, replicas, k);
    CompleteAlong(states, steps, replicas, k + 1, j);
  }
}
