/**
 The choice of a new MySQL master by score, without Raft: how much of the master's GTID pieces a
 slave has, plus the size of its data. Scores are exact reals here.
 */
module MasterChoice {
  import opened KubeStore

  // A pod labelled slave, and what asking it would yield.
  datatype SlavePod = SlavePod(name: string, phase: string, ready: seq<bool>, gtidSet: Reading<string>,
                               size: Reading<int>)

  predicate IsPodHealthy(p: SlavePod) {
    p.phase == "Running" && |p.ready| > 0 && p.ready[0]
  }

  // ---- pieces of a GTID set ----

  // strings.Split with a comma.
  function Split(s: string): (r: seq<string>)
    ensures r != []
  {
    if s == [] then [""]
    else
      var rest := Split(s[1..]);
      if s[0] == ',' then [""] + rest else [[s[0]] + rest[0]] + rest[1..]
  }

  function Join(pieces: seq<string>): string
    requires pieces != []
  {
    if |pieces| == 1 then pieces[0] else pieces[0] + "," + Join(pieces[1..])
  }

  // Splitting loses nothing: joined again, the pieces are the set, and none holds a comma.
  lemma {:induction false} SplitJoin(s: string)
    ensures Join(Split(s)) == s
    ensures forall p :: p in Split(s) ==> ',' !in p
  {
    if s != [] {
      SplitJoin(s[1..]);
      var rest := Split(s[1..]);
      if s[0] == ',' {
        assert ([""] + rest)[1..] == rest;
        assert "" + "," + s[1..] == s;
      } else {
        var all := [[s[0]] + rest[0]] + rest[1..];
        assert all[1..] == rest[1..];
        assert [s[0]] + s[1..] == s;
        if |rest| > 1 {
          assert Join(all) == [s[0]] + (rest[0] + "," + Join(rest[1..]));
        }
      }
    }
  }

  function Pieces(s: string): set<string> {
    set p | p in Split(s)
  }

  // How many of the pieces are among those of the slave.
  function Covered(pieces: seq<string>, have: set<string>): nat {
    if pieces == [] then 0
    else Covered(pieces[..|pieces| - 1], have) + if pieces[|pieces| - 1] in have then 1 else 0
  }

  function GTIDScore(master: string, slave: string): real {
    if master == "" || slave == "" then 0.0
    else Covered(Split(master), Pieces(slave)) as real / |Split(master)| as real
  }

  // `Covered` is the number of places of the list whose piece the slave has, wherever they are.
  lemma {:induction false} CoveredCounts(pieces: seq<string>, have: set<string>)
    ensures Covered(pieces, have) == |set i | 0 <= i < |pieces| && pieces[i] in have|
  {
    if pieces != [] {
      var n := |pieces| - 1;
      var most := pieces[..n];
      CoveredCounts(most, have);
      var before := set i | 0 <= i < |most| && most[i] in have;
      var all := set i | 0 <= i < |pieces| && pieces[i] in have;
      assert all == before + (if pieces[n] in have then {n} else {}) by {
        forall i ensures i in all <==> i in before + (if pieces[n] in have then {n} else {}) {
        }
      }
    }
  }

  // The score is the share of the places of the master's list whose piece is in the slave's.
  lemma GTIDScoreIsShare(master: string, slave: string)
    requires master != "" && slave != ""
    ensures GTIDScore(master, slave) ==
            |set i | 0 <= i < |Split(master)| && Split(master)[i] in Split(slave)| as real / |Split(master)| as real
  {
    CoveredCounts(Split(master), Pieces(slave));
    SamePlaces(Split(master), slave);
  }

  lemma SamePlaces(pieces: seq<string>, slave: string)
    ensures (set i | 0 <= i < |pieces| && pieces[i] in Pieces(slave)) ==
            (set i | 0 <= i < |pieces| && pieces[i] in Split(slave))
  {
  }

  lemma EmptySetScoresNothing(master: string, slave: string)
    requires master == "" || slave == ""
    ensures GTIDScore(master, slave) == 0.0
  {
  }

  lemma {:induction false} CoveredBounds(pieces: seq<string>, have: set<string>)
    ensures Covered(pieces, have) <= |pieces|
    ensures Covered(pieces, have) == |pieces| <==> forall p :: p in pieces ==> p in have
  {
    if pieces != [] {
      var most := pieces[..|pieces| - 1];
      CoveredBounds(most, have);
      assert pieces == most + [pieces[|pieces| - 1]];
    }
  }

  lemma {:induction false} CoveredMonotone(pieces: seq<string>, have: set<string>, more: set<string>)
    requires have <= more
    ensures Covered(pieces, have) <= Covered(pieces, more)
  {
    if pieces != [] {
      CoveredMonotone(pieces[..|pieces| - 1], have, more);
    }
  }

  // The score is a fraction, full exactly when the slave has every piece of the master.
  lemma GTIDScoreBounds(master: string, slave: string)
    ensures 0.0 <= GTIDScore(master, slave) <= 1.0
    ensures GTIDScore(master, slave) == 1.0 <==> master != "" && slave != "" && Pieces(master) <= Pieces(slave)
  {
    if master != "" && slave != "" {
      CoveredBounds(Split(master), Pieces(slave));
      Fraction(Covered(Split(master), Pieces(slave)), |Split(master)|);
      assert Pieces(master) <= Pieces(slave) <==> forall p :: p in Split(master) ==> p in Pieces(slave);
    }
  }

  lemma Fraction(a: nat, n: nat)
    requires a <= n && 0 < n
    ensures 0.0 <= a as real / n as real <= 1.0
    ensures a as real / n as real == 1.0 <==> a == n
  {
    var q := a as real / n as real;
    assert q * n as real == a as real;
  }

  // More pieces never score less.
  lemma GTIDScoreMonotone(master: string, slave: string, slave': string)
    requires Pieces(slave) <= Pieces(slave') && slave' != ""
    ensures GTIDScore(master, slave) <= GTIDScore(master, slave')
  {
    if master != "" && slave != "" {
      CoveredMonotone(Split(master), Pieces(slave), Pieces(slave'));
      var n := |Split(master)| as real;
      DivideMonotone(Covered(Split(master), Pieces(slave)) as real, Covered(Split(master), Pieces(slave')) as real, n);
    } else {
      GTIDScoreBounds(master, slave');
    }
  }

  lemma DivideMonotone(a: real, b: real, n: real)
    requires a <= b && 0.0 < n
    ensures a / n <= b / n
  {
  }

  method CalculateGTIDScore(masterGTIDSet: string, slaveGTIDSet: string) returns (score: real)
    ensures score == GTIDScore(masterGTIDSet, slaveGTIDSet)
  {
    if masterGTIDSet == "" || slaveGTIDSet == "" {
      return 0.0;
    }
    var masterGTIDs := Split(masterGTIDSet);
    var slaveGTIDs := Split(slaveGTIDSet);
    var count := 0;
    for i := 0 to |masterGTIDs|
      invariant count == Covered(masterGTIDs[..i], Pieces(slaveGTIDSet))
    {
      assert masterGTIDs[..i + 1][..i] == masterGTIDs[..i];
      ghost var before := count;
      var j := 0;
      while j < |slaveGTIDs|
        invariant 0 <= j <= |slaveGTIDs| && count == before
        invariant masterGTIDs[i] !in slaveGTIDs[..j]
      {
        if masterGTIDs[i] == slaveGTIDs[j] {
          count := count + 1;
          break;
        }
        j := j + 1;
      }
      assert slaveGTIDs[..|slaveGTIDs|] == slaveGTIDs;
    }
    assert masterGTIDs[..|masterGTIDs|] == masterGTIDs;
    return count as real / |masterGTIDs| as real;
  }

  // ---- scores of pods ----

  function DataScore(p: SlavePod, snapshot: string): Reading<real> {
    if p.gtidSet.Unreadable? || p.size.Unreadable? then Unreadable
    else Value(GTIDScore(snapshot, p.gtidSet.v) + p.size.v as real)
  }

  method GetDataScore(p: SlavePod, snapshot: string) returns (score: Reading<real>)
    ensures score == DataScore(p, snapshot)
  {
    if p.gtidSet.Unreadable? {
      return Unreadable;
    }
    var gtidScore := CalculateGTIDScore(snapshot, p.gtidSet.v);
    if p.size.Unreadable? {
      return Unreadable;
    }
    return Value(gtidScore + p.size.v as real);
  }

  predicate Readable(p: SlavePod, snapshot: string) {
    DataScore(p, snapshot).Value?
  }

  // The order the scores really induce: data size first. The GTID coverage decides between equal
  // sizes, and can at most draw level with one more byte, fully covered against not at all.
  lemma ScoreOrderExactly(p: SlavePod, q: SlavePod, snapshot: string)
    requires Readable(p, snapshot) && Readable(q, snapshot)
    ensures var g, h := GTIDScore(snapshot, p.gtidSet.v), GTIDScore(snapshot, q.gtidSet.v);
            DataScore(p, snapshot).v > DataScore(q, snapshot).v <==>
              (p.size.v > q.size.v && !(p.size.v == q.size.v + 1 && g == 0.0 && h == 1.0)) ||
              (p.size.v == q.size.v && g > h)
  {
    GTIDScoreBounds(snapshot, p.gtidSet.v);
    GTIDScoreBounds(snapshot, q.gtidSet.v);
  }

  // ---- the choice ----

  datatype Choice = Failed | Elected(master: string, remaining: seq<string>)

  // The first healthy pod of the highest score, provided the score beats the starting -1.
  predicate IsWinner(pods: seq<SlavePod>, snapshot: string, b: nat) {
    && b < |pods| && IsPodHealthy(pods[b]) && Readable(pods[b], snapshot)
    && -1.0 < DataScore(pods[b], snapshot).v
    && (forall j :: 0 <= j < |pods| && IsPodHealthy(pods[j]) ==>
          && Readable(pods[j], snapshot)
          && DataScore(pods[j], snapshot).v <= DataScore(pods[b], snapshot).v
          && (j < b ==> DataScore(pods[j], snapshot).v < DataScore(pods[b], snapshot).v))
  }

  predicate NobodyScores(pods: seq<SlavePod>, snapshot: string) {
    forall j :: 0 <= j < |pods| && IsPodHealthy(pods[j]) ==>
      Readable(pods[j], snapshot) && DataScore(pods[j], snapshot).v <= -1.0
  }

  predicate SomeUnreadable(pods: seq<SlavePod>, snapshot: string) {
    exists j :: 0 <= j < |pods| && IsPodHealthy(pods[j]) && !Readable(pods[j], snapshot)
  }

  function NamesBut(pods: seq<SlavePod>, name: string): seq<string> {
    if pods == [] then []
    else NamesBut(pods[..|pods| - 1], name) + if pods[|pods| - 1].name != name then [pods[|pods| - 1].name] else []
  }

  method ElectNewMaster(pods: seq<SlavePod>, snapshot: string, listed: bool) returns (c: Choice)
    ensures c.Failed? <==> !listed || SomeUnreadable(pods, snapshot) || NobodyScores(pods, snapshot)
    ensures c.Elected? ==> exists b: nat ::
              IsWinner(pods, snapshot, b) && c == Elected(pods[b].name, NamesBut(pods, pods[b].name))
  {
    if !listed {
      return Failed;
    }
    var best, highest := -1, -1.0;
    for i := 0 to |pods|
      invariant -1 <= best < i && !SomeUnreadable(pods[..i], snapshot)
      invariant best == -1 ==> highest == -1.0 && NobodyScores(pods[..i], snapshot)
      invariant 0 <= best ==> IsWinner(pods[..i], snapshot, best) && highest == DataScore(pods[best], snapshot).v
    {
      assert pods[..i + 1] == pods[..i] + [pods[i]];
      if IsPodHealthy(pods[i]) {
        var score := GetDataScore(pods[i], snapshot);
        if score.Unreadable? {
          return Failed;
        }
        if score.v > highest {
          best, highest := i, score.v;
        }
      }
    }
    assert pods[..|pods|] == pods;
    if best < 0 {
      return Failed;
    }
    var newMasterName := pods[best].name;
    var remaining := [];
    for i := 0 to |pods|
      invariant remaining == NamesBut(pods[..i], newMasterName)
    {
      assert pods[..i + 1][..i] == pods[..i];
      if pods[i].name != newMasterName {
        remaining := remaining + [pods[i].name];
      }
    }
    assert IsWinner(pods, snapshot, best);
    return Elected(newMasterName, remaining);
  }

  // The winner is determined by the pods.
  lemma WinnerUnique(pods: seq<SlavePod>, snapshot: string, b: nat, b': nat)
    requires IsWinner(pods, snapshot, b) && IsWinner(pods, snapshot, b')
    ensures b == b'
  {
    assert IsPodHealthy(pods[b]) && IsPodHealthy(pods[b']);
  }

  // Nobody healthy has two bytes more than the winner; one byte more only with no coverage at all
  // against a full one; and among equals in size the winner's coverage is the best.
  lemma WinnerHasMostData(pods: seq<SlavePod>, snapshot: string, b: nat, j: nat)
    requires IsWinner(pods, snapshot, b) && j < |pods| && IsPodHealthy(pods[j])
    ensures pods[j].size.v <= pods[b].size.v + 1
    ensures pods[j].size.v == pods[b].size.v + 1 ==>
              GTIDScore(snapshot, pods[b].gtidSet.v) == 1.0 && GTIDScore(snapshot, pods[j].gtidSet.v) == 0.0
    ensures pods[j].size.v == pods[b].size.v ==>
              GTIDScore(snapshot, pods[j].gtidSet.v) <= GTIDScore(snapshot, pods[b].gtidSet.v)
  {
    ScoreOrderExactly(pods[j], pods[b], snapshot);
  }

  function Coverage(p: SlavePod, snapshot: string): real {
    if p.gtidSet.Value? then GTIDScore(snapshot, p.gtidSet.v) else 0.0
  }

  // No healthy pod covers more of the master's set.
  predicate BestCovered(pods: seq<SlavePod>, snapshot: string, j: nat) {
    && j < |pods| && IsPodHealthy(pods[j])
    && forall k :: 0 <= k < |pods| && IsPodHealthy(pods[k]) ==>
         Coverage(pods[k], snapshot) <= Coverage(pods[j], snapshot)
  }

  // The k-th pod has no more data than the j-th, or one byte more that full coverage against none
  // makes up for, and comes later.
  predicate NoBigger(pods: seq<SlavePod>, snapshot: string, k: nat, j: nat)
    requires k < |pods| && j < |pods| && pods[k].size.Value? && pods[j].size.Value?
  {
    || pods[k].size.v <= pods[j].size.v
    || (pods[k].size.v == pods[j].size.v + 1 && j < k
        && Coverage(pods[k], snapshot) == 0.0 && Coverage(pods[j], snapshot) == 1.0)
  }

  // The pod with the best coverage that no pod with less coverage outweighs.
  predicate CoverageHolds(pods: seq<SlavePod>, snapshot: string, j: nat) {
    && BestCovered(pods, snapshot, j) && pods[j].size.Value?
    && forall k :: 0 <= k < |pods| && IsPodHealthy(pods[k]) &&
                   Coverage(pods[k], snapshot) < Coverage(pods[j], snapshot) ==>
         pods[k].size.Value? && NoBigger(pods, snapshot, k, j)
  }

  // The documented promise, that the best coverage wins, is kept if and only if some best covered
  // pod is outweighed by no pod that covers less.
  lemma BestCoverageWinsExactly(pods: seq<SlavePod>, snapshot: string, b: nat)
    requires IsWinner(pods, snapshot, b)
    ensures BestCovered(pods, snapshot, b) <==> exists j: nat :: CoverageHolds(pods, snapshot, j)
  {
    if BestCovered(pods, snapshot, b) {
      WinnerOutweighed(pods, snapshot, b);
    }
    if j: nat :| CoverageHolds(pods, snapshot, j) {
      assert Readable(pods[j], snapshot);
      if Coverage(pods[b], snapshot) < Coverage(pods[j], snapshot) {
        ScoreOrderExactly(pods[j], pods[b], snapshot);
        ScoreOrderExactly(pods[b], pods[j], snapshot);
        assert false;
      }
    }
  }

  lemma WinnerOutweighed(pods: seq<SlavePod>, snapshot: string, b: nat)
    requires IsWinner(pods, snapshot, b) && BestCovered(pods, snapshot, b)
    ensures CoverageHolds(pods, snapshot, b)
  {
    forall k | 0 <= k < |pods| && IsPodHealthy(pods[k]) && Coverage(pods[k], snapshot) < Coverage(pods[b], snapshot)
      ensures pods[k].size.Value? && NoBigger(pods, snapshot, k, b)
    {
      assert Readable(pods[k], snapshot);
      ScoreOrderExactly(pods[k], pods[b], snapshot);
      ScoreOrderExactly(pods[b], pods[k], snapshot);
    }
  }

  // Only a running pod whose first container is ready is ever chosen; the other containers do not count.
  lemma WinnerIsReady(pods: seq<SlavePod>, snapshot: string, b: nat)
    requires IsWinner(pods, snapshot, b)
    ensures pods[b].phase == "Running" && pods[b].ready != [] && pods[b].ready[0]
    ensures pods[b].gtidSet.Value? && pods[b].size.Value?
  {
  }

  // Of pods that are equal in size and coverage the first is chosen.
  lemma FirstOfEquals(pods: seq<SlavePod>, snapshot: string, b: nat, j: nat)
    requires IsWinner(pods, snapshot, b) && j < |pods| && IsPodHealthy(pods[j])
    requires pods[j].size == pods[b].size && Coverage(pods[j], snapshot) == Coverage(pods[b], snapshot)
    ensures b <= j
  {
    ScoreOrderExactly(pods[b], pods[j], snapshot);
  }

  // Nobody is chosen for want of a score exactly if all that are ready have a size below zero, and none
  // makes up for a size of -1 by any coverage.
  lemma NobodyScoresExactly(pods: seq<SlavePod>, snapshot: string)
    ensures NobodyScores(pods, snapshot) <==>
            forall j :: 0 <= j < |pods| && pods[j].phase == "Running" && pods[j].ready != [] && pods[j].ready[0] ==>
              && pods[j].gtidSet.Value? && pods[j].size.Value?
              && (pods[j].size.v < -1 || (pods[j].size.v == -1 && Coverage(pods[j], snapshot) == 0.0))
  {
    forall j | 0 <= j < |pods| && Readable(pods[j], snapshot)
      ensures DataScore(pods[j], snapshot).v <= -1.0 <==>
              pods[j].size.v < -1 || (pods[j].size.v == -1 && Coverage(pods[j], snapshot) == 0.0)
    {
      ScoreBelow(pods[j], snapshot);
    }
  }

  lemma ScoreBelow(p: SlavePod, snapshot: string)
    requires Readable(p, snapshot)
    ensures DataScore(p, snapshot).v <= -1.0 <==>
            p.size.v < -1 || (p.size.v == -1 && Coverage(p, snapshot) == 0.0)
  {
    GTIDScoreBounds(snapshot, p.gtidSet.v);
    if p.size.v < -1 {
      assert p.size.v <= -2;
      assert p.size.v as real <= -2.0;
    } else if p.size.v > -1 {
      assert p.size.v as real >= 0.0;
    }
  }

  // With sizes that are not negative, someone is chosen as soon as someone is healthy.
  lemma HealthyIsEnough(pods: seq<SlavePod>, snapshot: string, j: nat)
    requires j < |pods| && pods[j].phase == "Running" && pods[j].ready != [] && pods[j].ready[0]
    requires pods[j].gtidSet.Value? && pods[j].size.Value? && 0 <= pods[j].size.v
    ensures !NobodyScores(pods, snapshot)
  {
    GTIDScoreBounds(snapshot, pods[j].gtidSet.v);
  }

  // The slave with the master's whole GTID set loses to one with none of it and two bytes more.
  lemma CoverageCanLose(name: string, name': string)
    ensures var full := SlavePod(name, "Running", [true], Value("g"), Value(0));
            var bare := SlavePod(name', "Running", [true], Value(""), Value(2));
            && GTIDScore("g", full.gtidSet.v) == 1.0 && GTIDScore("g", bare.gtidSet.v) == 0.0
            && IsWinner([full, bare], "g", 1)
  {
    GTIDScoreBounds("g", "g");
  }

  predicate Listed(pods: seq<SlavePod>, name: string) {
    exists i :: 0 <= i < |pods| && pods[i].name == name
  }

  predicate DistinctNames(pods: seq<SlavePod>) {
    forall i, j :: 0 <= i < j < |pods| ==> pods[i].name != pods[j].name
  }

  lemma ListedLast(pods: seq<SlavePod>, name: string)
    requires pods != []
    ensures Listed(pods, name)
       <==> Listed(pods[..|pods| - 1], name) || pods[|pods| - 1].name == name
  {
    var most := pods[..|pods| - 1];
    if Listed(most, name) {
      var i :| 0 <= i < |most| && most[i].name == name;
      assert pods[i].name == name;
    }
    if Listed(pods, name) {
      var i :| 0 <= i < |pods| && pods[i].name == name;
      assert i < |most| ==> most[i].name == name;
    }
  }

  // Winner and remaining slaves are a partition of the slaves, healthy or not.
  lemma {:induction false} NamesButExactly(pods: seq<SlavePod>, name: string, n: string)
    ensures n in NamesBut(pods, name) <==> Listed(pods, n) && n != name
  {
    if pods != [] {
      var most, last := pods[..|pods| - 1], pods[|pods| - 1];
      NamesButExactly(most, name, n);
      ListedLast(pods, n);
    }
  }

  // In the order they are listed.
  lemma {:induction false} NamesButAppend(a: seq<SlavePod>, b: seq<SlavePod>, name: string)
    ensures NamesBut(a + b, name) == NamesBut(a, name) + NamesBut(b, name)
  {
    if b == [] {
      assert a + b == a;
    } else {
      assert (a + b)[..|a + b| - 1] == a + b[..|b| - 1];
      NamesButAppend(a, b[..|b| - 1], name);
    }
  }

  // Pod names being distinct, exactly one pod is left out.
  lemma {:induction false} OneLeftOut(pods: seq<SlavePod>, name: string)
    requires DistinctNames(pods)
    ensures |NamesBut(pods, name)| == if Listed(pods, name) then |pods| - 1 else |pods|
  {
    if pods != [] {
      var most, last := pods[..|pods| - 1], pods[|pods| - 1];
      assert DistinctNames(most);
      OneLeftOut(most, name);
      ListedLast(pods, name);
      if last.name == name {
        assert !Listed(most, name);
      }
    }
  }
}
