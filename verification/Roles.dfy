/**
 Who is labelled master and who slave: the relabelling loops of the operator, each of which may
 stop early, and what holds wherever they stop.
 */
module Roles {
  import opened KubeStore
  import opened Members

  // The pods after giving `slaves` the slave role and, before that, `masters` the master role.
  function Assigned(pods: Pods, masters: set<string>, slaves: set<string>): (r: Pods)
    ensures r.Keys == pods.Keys
  {
    map n | n in pods ::
      if n in slaves then Labelled(pods[n], "slave")
      else if n in masters then Labelled(pods[n], "master")
      else pods[n]
  }

  // A relabelling writes roles and nothing else.
  lemma AssignedWritesRoles(pods: Pods, masters: set<string>, slaves: set<string>, n: string)
    requires n in pods
    ensures var o, p := pods[n], Assigned(pods, masters, slaves)[n];
            && p.configMap == o.configMap && p.pvc == o.pvc
            && (forall key :: key != "role" ==> (key in p.labels <==> key in o.labels))
            && (forall key :: key != "role" && key in o.labels ==> p.labels[key] == o.labels[key])
            && (n in slaves ==> HasLabel(p, "role", "slave"))
            && (n in masters && n !in slaves ==> HasLabel(p, "role", "master"))
            && (n !in masters && n !in slaves ==> p == o)
  {
  }

  // The masters at any point of a relabelling: the new one and the old ones not yet reached.
  lemma MastersOfAssigned(pods: Pods, masters: set<string>, slaves: set<string>)
    ensures Masters(Assigned(pods, masters, slaves)) == (Masters(pods) + masters * pods.Keys) - slaves
    ensures Slaves(Assigned(pods, masters, slaves)) == (Slaves(pods) - masters) + slaves * pods.Keys
  {
  }

  lemma AssignedOneMore(pods: Pods, masters: set<string>, slaves: set<string>, n: string)
    requires n in pods
    ensures var r := Assigned(pods, masters, slaves);
            Assigned(pods, masters, slaves + {n}) == r[n := Labelled(r[n], "slave")]
  {
    var r := Assigned(pods, masters, slaves);
    assert Labelled(r[n], "slave") == Labelled(pods[n], "slave") by {
      assert r[n].labels["role" := "slave"] == pods[n].labels["role" := "slave"];
    }
  }

  // How far a relabelling got: not even the master, or the master and the first `done` slaves.
  ghost predicate Relabelled(pods: Pods, pods': Pods, master: string, slaves: seq<string>, started: bool, done: nat) {
    if started then
      && done <= |slaves| && master in pods && Range(slaves[..done]) <= pods.Keys
      && pods' == Assigned(pods, {master}, Range(slaves[..done]))
    else pods' == pods
  }

  // setupMasterSlaveReplication of the reconciler: besides reads and writes, the commands run
  // on the pods may fail, the master's after its label is written.
  method SetupMasterSlaveReplication(s: Store, masterName: string, slaveNames: seq<string>)
    returns (ok: bool, ghost started: bool, ghost done: nat)
    modifies s`pods
    ensures Relabelled(old(s.pods), s.pods, masterName, slaveNames, started, done)
    ensures ok ==> started && done == |slaveNames|
    ensures s.reliable && masterName in old(s.pods) && Range(slaveNames) <= old(s.pods).Keys ==> ok
  {
    ghost var pods := s.pods;
    started, done := false, 0;
    ok := s.Get(masterName in s.pods);
    if !ok {
      return;
    }
    ok := s.LabelPod(masterName, "master");
    if !ok {
      return;
    }
    started := true;
    FirstLabel(pods, masterName, slaveNames);
    ok := s.Try();
    if !ok {
      return;
    }
    for k := 0 to |slaveNames|
      invariant done == k && Relabelled(pods, s.pods, masterName, slaveNames, true, done)
    {
      ok := s.Get(slaveNames[k] in s.pods);
      if !ok {
        return;
      }
      ok := s.Try();
      if !ok {
        return;
      }
      ok := s.LabelPod(slaveNames[k], "slave");
      if !ok {
        return;
      }
      RangeOneMore(slaveNames, k);
      AssignedOneMore(pods, {masterName}, Range(slaveNames[..k]), slaveNames[k]);
      done := k + 1;
    }
    assert slaveNames[..|slaveNames|] == slaveNames;
    ok := true;
  }

  // setupMySQLMasterSlaveReplication of the Raft integration, whose commands are a stub that
  // always succeeds.
  method SetupMySQLMasterSlaveReplication(s: Store, masterName: string, slaveNames: seq<string>)
    returns (ok: bool, ghost started: bool, ghost done: nat)
    modifies s`pods
    ensures Relabelled(old(s.pods), s.pods, masterName, slaveNames, started, done)
    ensures ok ==> started && done == |slaveNames|
    ensures s.reliable && masterName in old(s.pods) && Range(slaveNames) <= old(s.pods).Keys ==> ok
  {
    ghost var pods := s.pods;
    started, done := false, 0;
    ok := s.LabelPod(masterName, "master");
    if !ok {
      return;
    }
    started := true;
    FirstLabel(pods, masterName, slaveNames);
    for k := 0 to |slaveNames|
      invariant done == k && Relabelled(pods, s.pods, masterName, slaveNames, true, done)
    {
      ok := s.LabelPod(slaveNames[k], "slave");
      if !ok {
        return;
      }
      RangeOneMore(slaveNames, k);
      AssignedOneMore(pods, {masterName}, Range(slaveNames[..k]), slaveNames[k]);
      done := k + 1;
    }
    assert slaveNames[..|slaveNames|] == slaveNames;
    ok := true;
  }

  lemma FirstLabel(pods: Pods, master: string, slaves: seq<string>)
    requires master in pods
    ensures Relabelled(pods, pods[master := Labelled(pods[master], "master")], master, slaves, true, 0)
  {
    assert Range(slaves[..0]) == {};
  }

  // At whatever point the relabelling stops: the masters are the new one and the old ones the
  // loop has not reached.
  lemma MastersAfterStop(pods: Pods, pods': Pods, master: string, slaves: seq<string>, done: nat)
    requires Relabelled(pods, pods', master, slaves, true, done)
    ensures Masters(pods') == ({master} + Masters(pods)) - Range(slaves[..done])
    ensures Range(slaves[..done]) <= Slaves(pods')
  {
    MastersOfAssigned(pods, {master}, Range(slaves[..done]));
  }

  // After success over a whole cluster: one master, everyone else slave.
  lemma OneMasterAfterSuccess(pods: Pods, pods': Pods, members: set<string>, master: string, slaves: seq<string>)
    requires Relabelled(pods, pods', master, slaves, true, |slaves|)
    requires master in members && Range(slaves) == members - {master}
    ensures Masters(pods') * members == {master}
    ensures Slaves(pods') * members == members - {master}
  {
    assert slaves[..|slaves|] == slaves;
    MastersOfAssigned(pods, {master}, Range(slaves));
    assert members <= pods.Keys;
    assert forall n :: n in members - {master} ==> HasLabel(pods'[n], "role", "slave");
    assert HasLabel(pods'[master], "role", "master");
  }

  // ---- the repair done by a Raft leader whose master is alive ----

  // checkReplicaStatus: the master the endpoint names, and the pods other than it whose replication
  // threads do not both run. A list call that fails reads as no pods.
  method CheckReplicaStatus(s: Store, reading: Reading<string>, replicating: set<string>)
    returns (ok: bool, masterName: string, failed: seq<string>, ghost listed: bool)
    ensures ok ==> reading == Value(masterName)
    ensures ok && listed ==> forall n :: n in failed <==> n in MysqlPods(s.pods) && n != masterName && n !in replicating
    ensures ok && !listed ==> failed == []
    ensures ok ==> masterName !in failed
    ensures s.reliable && reading.Value? ==> ok && listed
  {
    masterName, failed, listed := "", [], false;
    if reading.Unreadable? {
      return false, masterName, failed, listed;
    }
    masterName := reading.v;
    var l, names := s.ListMysqlPods();
    listed := l;
    for i := 0 to |names|
      invariant forall n :: n in failed <==> n in names[..i] && n != masterName && n !in replicating
      invariant !listed ==> failed == []
    {
      if names[i] != masterName {
        // reading the pod and asking it for its status
        ok := s.Try();
        if !ok {
          return;
        }
        if names[i] !in replicating {
          failed := failed + [names[i]];
        }
      }
    }
    assert names[..|names|] == names;
    ok := true;
  }

  // ensureSlaveRoles: every mysql pod but the one the endpoint names becomes a slave, one write at
  // a time.
  method EnsureSlaveRoles(s: Store, reading: Reading<string>) returns (ok: bool, ghost done: set<string>)
    modifies s`pods
    ensures s.pods == Assigned(old(s.pods), {}, done) && done <= MysqlPods(old(s.pods))
    ensures reading.Value? ==> reading.v !in done
    ensures reading.Unreadable? ==> !ok && done == {}
    ensures ok ==> forall n :: n in MysqlPods(s.pods) && n != reading.v ==> HasLabel(s.pods[n], "role", "slave")
    ensures s.reliable && reading.Value? ==> ok
  {
    ghost var pods := s.pods;
    done := {};
    assert s.pods == Assigned(pods, {}, {});
    if reading.Unreadable? {
      return false, done;
    }
    var masterName := reading.v;
    var listed, names := s.ListMysqlPods();
    if !listed {
      return false, done;
    }
    for i := 0 to |names|
      invariant s.pods == Assigned(pods, {}, done) && done <= MysqlPods(pods) - {masterName}
      invariant forall n :: n in names[..i] && n != masterName ==> n in s.pods && HasLabel(s.pods[n], "role", "slave")
    {
      assert names[i] in names;
      if names[i] != masterName && !(names[i] in s.pods && HasLabel(s.pods[names[i]], "role", "slave")) {
        ok := s.LabelPod(names[i], "slave");
        if !ok {
          return;
        }
        AssignedOneMore(pods, {}, done, names[i]);
        done := done + {names[i]};
      }
    }
    assert names[..|names|] == names;
    ok := true;
  }

  // The first half of the repair: the replicas that do not replicate are set up again.
  method RepairReplicas(s: Store, reading: Reading<string>, replicating: set<string>)
    returns (ok: bool, ghost repaired: bool, ghost masters: set<string>, ghost slaves: set<string>)
    modifies s`pods
    ensures s.pods == Assigned(old(s.pods), masters, slaves)
    ensures reading.Unreadable? ==> !ok && s.pods == old(s.pods)
    ensures ok && repaired ==> reading.Value? && reading.v in Masters(s.pods)
    ensures ok && !repaired ==> s.pods == old(s.pods)
    ensures repaired ==> reading.Value? && MysqlPods(old(s.pods)) - {reading.v} - replicating != {}
    ensures s.reliable && reading.Value? && reading.v !in old(s.pods) ==>
              s.pods == old(s.pods) && (ok <==> MysqlPods(old(s.pods)) - {reading.v} - replicating == {})
    ensures s.reliable && reading.Value? && reading.v in old(s.pods) ==>
              ok && (repaired <==> MysqlPods(old(s.pods)) - {reading.v} - replicating != {})
  {
    ghost var pods := s.pods;
    var masterName, failed;
    ghost var listed;
    ok, masterName, failed, listed := CheckReplicaStatus(s, reading, replicating);
    repaired, masters, slaves := false, {}, {};
    assert s.pods == Assigned(pods, {}, {});
    if !ok || |failed| == 0 {
      return;
    }
    assert failed[0] in failed && (listed ==> failed[0] in MysqlPods(pods) - {masterName} - replicating);
    ghost var started, k;
    ok, started, k := SetupMasterSlaveReplication(s, masterName, failed);
    if started {
      masters, slaves := {masterName}, Range(failed[..k]);
      MastersAfterStop(pods, s.pods, masterName, failed, k);
    }
    repaired := ok;
  }

  // The leader's repair of a live cluster. The endpoint is read twice, before each half, and either
  // reading may fail; when both name the same pod, that pod is the only mysql pod that can still be
  // a master, and it is one exactly if it was before or some replica had to be set up again.
  method RepairRoles(s: Store, reading1: Reading<string>, reading2: Reading<string>, replicating: set<string>)
    returns (ok: bool, ghost repaired: bool)
    modifies s`pods
    ensures s.pods.Keys == old(s.pods).Keys && MysqlPods(s.pods) == MysqlPods(old(s.pods))
    ensures exists masters, slaves :: s.pods == Assigned(old(s.pods), masters, slaves)
    ensures reading1.Unreadable? ==> !ok && s.pods == old(s.pods)
    ensures reading2.Unreadable? ==> !ok
    ensures ok ==> Masters(s.pods) * MysqlPods(s.pods) <= {reading2.v}
    ensures ok && reading1 == reading2 ==>
              (reading1.v in Masters(s.pods) <==> reading1.v in Masters(old(s.pods)) || repaired)
    ensures repaired ==> reading1.Value? && MysqlPods(old(s.pods)) - {reading1.v} - replicating != {}
    ensures s.reliable && reading1.Value? && reading1.v !in old(s.pods) ==>
              MysqlPods(old(s.pods)) - {reading1.v} - replicating != {} ==> !ok && s.pods == old(s.pods)
    ensures s.reliable && reading1.Value? && reading1.v in old(s.pods) ==>
              && (ok <==> reading2.Value?)
              && (repaired <==> MysqlPods(old(s.pods)) - {reading1.v} - replicating != {})
  {
    ghost var pods := s.pods;
    ghost var masters, slaves;
    ok, repaired, masters, slaves := RepairReplicas(s, reading1, replicating);
    RelabelKeepsMysql(pods, masters, slaves);
    if !ok {
      return;
    }
    ghost var middle := s.pods;
    ghost var done;
    ok, done := EnsureSlaveRoles(s, reading2);
    RelabelKeepsMysql(middle, {}, done);
    MastersOfAssigned(middle, {}, done);
    AssignedThen(pods, masters, slaves, {}, done);
  }

  // One relabelling after another is a relabelling.
  lemma AssignedThen(pods: Pods, masters: set<string>, slaves: set<string>, masters': set<string>, slaves': set<string>)
    ensures Assigned(Assigned(pods, masters, slaves), masters', slaves') ==
            Assigned(pods, masters + masters', (slaves - masters') + slaves')
  {
    forall n | n in pods
      ensures Assigned(Assigned(pods, masters, slaves), masters', slaves')[n] ==
              Assigned(pods, masters + masters', (slaves - masters') + slaves')[n]
    {
      RelabelledTwice(pods[n]);
    }
  }

  // The last role written is the one that stays.
  lemma RelabelledTwice(p: Pod)
    ensures forall role, role' :: Labelled(Labelled(p, role), role') == Labelled(p, role')
  {
    forall role, role' ensures Labelled(Labelled(p, role), role') == Labelled(p, role') {
      assert p.labels["role" := role]["role" := role'] == p.labels["role" := role'];
    }
  }

  lemma RelabelKeepsMysql(pods: Pods, masters: set<string>, slaves: set<string>)
    ensures MysqlPods(Assigned(pods, masters, slaves)) == MysqlPods(pods)
  {
  }
}
