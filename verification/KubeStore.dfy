/**
 The part of the Kubernetes API server the operator works on: pods, volume claims and
 ConfigMaps by name. Every call may fail; a failed write changes nothing. On a `reliable` store
 none does, so that a contract can also say when an operation must succeed.
 */
module KubeStore {

  // What asking the world about something yields.
  datatype Reading<T> = Unreadable | Value(v: T)

  // A pod, as far as the operator reads and writes it.
  datatype Pod = Pod(labels: map<string, string>, configMap: string, pvc: string)

  type Pods = map<string, Pod>

  predicate HasLabel(p: Pod, key: string, value: string) {
    key in p.labels && p.labels[key] == value
  }

  // The pods a list call with the selector app=mysql returns.
  function MysqlPods(pods: Pods): set<string> {
    set n | n in pods && HasLabel(pods[n], "app", "mysql")
  }

  function Masters(pods: Pods): set<string> {
    set n | n in pods && HasLabel(pods[n], "role", "master")
  }

  function Slaves(pods: Pods): set<string> {
    set n | n in pods && HasLabel(pods[n], "role", "slave")
  }

  // Two pods that differ in their role at most.
  predicate SameButRole(o: Pod, p: Pod) {
    && p.configMap == o.configMap && p.pvc == o.pvc
    && (forall key :: key in o.labels && key != "role" ==> key in p.labels && p.labels[key] == o.labels[key])
    && (forall key :: key in p.labels && key != "role" ==> key in o.labels)
  }

  function Labelled(p: Pod, role: string): Pod {
    p.(labels := p.labels["role" := role])
  }

  datatype Objects = Objects(pods: Pods, pvcs: set<string>, configMaps: map<string, int>)

  // What createPod writes.
  function NewPod(configMap: string, pvc: string): Pod {
    Pod(map["app" := "mysql"], configMap, pvc)
  }

  class Store {
    const reliable: bool
    var pods: Pods
    var pvcs: set<string>
    // the server-id each ConfigMap carries
    var configMaps: map<string, int>

    function Value(): Objects
      reads this
    {
      Objects(pods, pvcs, configMaps)
    }

    constructor (reliable: bool)
      ensures this.reliable == reliable && Value() == Objects(map[], {}, map[])
    {
      this.reliable := reliable;
      pods, pvcs, configMaps := map[], {}, map[];
    }

    // A call whose outcome is not up to the operator.
    method Try() returns (ok: bool)
      ensures reliable ==> ok
    {
      ok := *;
      ok := ok || reliable;
    }

    // A read of an object that may be there; any error reads as absence.
    method Get(present: bool) returns (found: bool)
      ensures found ==> present
      ensures reliable ==> found == present
    {
      var reached := Try();
      found := present && reached;
    }

    method LabelPod(name: string, role: string) returns (ok: bool)
      modifies this`pods
      ensures ok ==> name in old(pods) && pods == old(pods)[name := Labelled(old(pods)[name], role)]
      ensures !ok ==> pods == old(pods)
      ensures reliable && name in old(pods) ==> ok
      ensures ok ==> pods.Keys == old(pods).Keys && HasLabel(pods[name], "role", role)
      ensures ok ==> SameButRole(old(pods)[name], pods[name])
      ensures ok ==> forall n :: n in pods && n != name ==> pods[n] == old(pods)[n]
    {
      ok := Get(name in pods);
      if !ok {
        return;
      }
      ok := Try();
      if ok {
        pods := pods[name := Labelled(pods[name], role)];
      }
    }

    method CreateConfigMap(name: string, serverId: int) returns (ok: bool)
      modifies this`configMaps
      ensures configMaps == old(configMaps) ||
              (name !in old(configMaps) && configMaps == old(configMaps)[name := serverId])
      ensures ok ==> name in configMaps
      ensures reliable ==> ok
    {
      ok := Get(name in configMaps);
      if ok {
        return;
      }
      ok := Try();
      ok := ok && name !in configMaps;
      if ok {
        configMaps := configMaps[name := serverId];
      }
    }

    method CreatePVC(name: string) returns (ok: bool)
      modifies this`pvcs
      ensures pvcs == old(pvcs) || pvcs == old(pvcs) + {name}
      ensures ok ==> name in pvcs
      ensures reliable ==> ok
    {
      ok := Get(name in pvcs);
      if ok {
        return;
      }
      ok := Try();
      ok := ok && name !in pvcs;
      if ok {
        pvcs := pvcs + {name};
      }
    }

    method CreatePod(name: string, configMap: string, pvc: string) returns (ok: bool)
      modifies this`pods
      ensures pods == old(pods) || (name !in old(pods) && pods == old(pods)[name := NewPod(configMap, pvc)])
      ensures ok ==> name in pods
      ensures reliable ==> ok
      ensures Masters(pods) == Masters(old(pods)) && Slaves(pods) == Slaves(old(pods))
      ensures name !in old(pods) && name in pods ==>
                && pods[name].configMap == configMap && pods[name].pvc == pvc
                && MysqlPods(pods) == MysqlPods(old(pods)) + {name}
    {
      ok := Get(name in pods);
      if ok {
        return;
      }
      ok := Try();
      ok := ok && name !in pods;
      if ok {
        pods := pods[name := NewPod(configMap, pvc)];
      }
    }

    // getActualReplicaInfo: a list call that fails reads as no pods at all.
    method ListMysqlPods() returns (listed: bool, names: seq<string>)
      ensures !listed ==> names == []
      ensures reliable ==> listed
      ensures listed ==> (forall n :: n in names <==> n in MysqlPods(pods)) && |names| == |MysqlPods(pods)|
      ensures listed ==> forall n :: n in names <==>
                                       n in pods && "app" in pods[n].labels && pods[n].labels["app"] == "mysql"
    {
      names := [];
      listed := Try();
      if !listed {
        return;
      }
      var rest := MysqlPods(pods);
      while rest != {}
        invariant rest <= MysqlPods(pods)
        invariant forall n :: n in names <==> n in MysqlPods(pods) - rest
        invariant |names| + |rest| == |MysqlPods(pods)|
        decreases rest
      {
        var n :| n in rest;
        names := names + [n];
        rest := rest - {n};
      }
    }
  }
}
