/**
 The names the operator gives to pods, ConfigMaps and Raft nodes, and how it reads numbers back
 out of them.
 */
module Names {

  predicate IsDigit(c: char) {
    '0' <= c <= '9'
  }

  predicate AllDigits(s: string) {
    forall i :: 0 <= i < |s| ==> IsDigit(s[i])
  }

  // `%d` of a number that is not negative.
  function Decimal(n: nat): (s: string)
    ensures s != [] && AllDigits(s)
  {
    if n < 10 then [n as char + '0'] else Decimal(n / 10) + [(n % 10) as char + '0']
  }

  // `%02d`: at least two digits.
  function TwoDigits(n: nat): (s: string)
    ensures |s| >= 2 && AllDigits(s)
  {
    if n < 10 then "0" + Decimal(n) else Decimal(n)
  }

  // strconv.Atoi of a string of digits.
  function Atoi(s: string): nat
    requires AllDigits(s)
  {
    if s == [] then 0 else 10 * Atoi(s[..|s| - 1]) + (s[|s| - 1] - '0') as nat
  }

  lemma {:induction false} AtoiOfDecimal(n: nat)
    ensures Atoi(Decimal(n)) == n
  {
    if n >= 10 {
      AtoiOfDecimal(n / 10);
      var s := Decimal(n);
      assert s[..|s| - 1] == Decimal(n / 10);
    } else {
      assert Decimal(n)[..0] == [];
    }
  }

  // No shorter string of digits reads as the number: there are no zeros in front.
  lemma {:induction false} DecimalIsShortest(s: string)
    requires s != [] && AllDigits(s)
    ensures |Decimal(Atoi(s))| <= |s|
  {
    var most := s[..|s| - 1];
    var last := (s[|s| - 1] - '0') as nat;
    if most != [] && Atoi(s) >= 10 {
      DecimalIsShortest(most);
      assert Atoi(s) / 10 == Atoi(most);
    }
  }

  lemma TwoDigitsIsShortest(s: string)
    requires |s| >= 2 && AllDigits(s)
    ensures |TwoDigits(Atoi(s))| <= |s|
  {
    DecimalIsShortest(s);
  }

  lemma AtoiOfTwoDigits(n: nat)
    ensures Atoi(TwoDigits(n)) == n
  {
    AtoiOfDecimal(n);
    if n < 10 {
      assert TwoDigits(n)[..1] == "0";
      assert "0"[..0] == [];
    }
  }

  const PREFIX := "mysql-"

  function PodName(n: nat): string {
    PREFIX + TwoDigits(n)
  }

  function ConfigMapName(n: nat): string {
    "mysql-config-" + TwoDigits(n)
  }

  // The longest run of digits at the start of a string.
  function LeadingDigits(s: string): (d: string)
    ensures d <= s && AllDigits(d) && (|d| < |s| ==> !IsDigit(s[|d|]))
  {
    if s != [] && IsDigit(s[0]) then [s[0]] + LeadingDigits(s[1..]) else []
  }

  datatype Match = NoMatch | Number(digits: string)

  // FindStringSubmatch of `mysql-(\d+)`: the leftmost place where the pattern matches, digits
  // taken greedily; the pattern is not anchored.
  function FindNumber(name: string): Match {
    if PREFIX <= name && LeadingDigits(name[|PREFIX|..]) != [] then Number(LeadingDigits(name[|PREFIX|..]))
    else if name == [] then NoMatch
    else FindNumber(name[1..])
  }

  // The pattern matches at place i with these digits, taken greedily.
  predicate MatchesAt(name: string, i: nat, d: string) {
    && d != [] && AllDigits(d)
    && i + |PREFIX| + |d| <= |name|
    && name[i..i + |PREFIX|] == PREFIX
    && name[i + |PREFIX|..i + |PREFIX| + |d|] == d
    && (i + |PREFIX| + |d| < |name| ==> !IsDigit(name[i + |PREFIX| + |d|]))
  }

  // A number is found at the leftmost place where the pattern matches, with all the digits there.
  lemma {:induction false} FindsLeftmost(name: string) returns (i: nat)
    ensures match FindNumber(name)
            case Number(d) => MatchesAt(name, i, d) && forall j: nat, e :: j < i ==> !MatchesAt(name, j, e)
            case NoMatch => forall j: nat, e :: !MatchesAt(name, j, e)
  {
    i := 0;
    if PREFIX <= name && LeadingDigits(name[|PREFIX|..]) != [] {
      MatchHere(name);
    } else if name != [] {
      var k := FindsLeftmost(name[1..]);
      i := k + 1;
      NoMatchHere(name);
      forall j: nat, e ensures MatchesAt(name, j, e) <==> 0 < j && MatchesAt(name[1..], j - 1, e) {
        if 0 < j {
          MatchShifts(name, j, e);
        }
      }
    }
  }

  lemma MatchHere(name: string)
    requires PREFIX <= name && LeadingDigits(name[|PREFIX|..]) != []
    ensures MatchesAt(name, 0, LeadingDigits(name[|PREFIX|..]))
  {
    var d := LeadingDigits(name[|PREFIX|..]);
    assert name[0 + |PREFIX|..0 + |PREFIX| + |d|] == name[|PREFIX|..][..|d|];
    if |PREFIX| + |d| < |name| {
      assert name[|PREFIX|..][|d|] == name[|PREFIX| + |d|];
    }
  }

  lemma NoMatchHere(name: string)
    requires !(PREFIX <= name && LeadingDigits(name[|PREFIX|..]) != [])
    ensures forall e :: !MatchesAt(name, 0, e)
  {
    forall e ensures !MatchesAt(name, 0, e) {
      if PREFIX <= name {
        var rest := name[|PREFIX|..];
        assert LeadingDigits(rest) == [];
        assert rest != [] ==> rest[0] == name[|PREFIX|];
        FirstIs(name, e);
      }
    }
  }

  lemma FirstIs(name: string, e: string)
    ensures MatchesAt(name, 0, e) ==> PREFIX <= name && IsDigit(name[|PREFIX|])
  {
    if e != [] && |PREFIX| + |e| <= |name| {
      assert name[0 + |PREFIX|..0 + |PREFIX| + |e|][0] == name[|PREFIX|];
    }
  }

  lemma MatchShifts(name: string, j: nat, e: string)
    requires 0 < j && name != []
    ensures MatchesAt(name, j, e) <==> MatchesAt(name[1..], j - 1, e)
  {
    if j + |PREFIX| + |e| <= |name| {
      assert name[1..][j - 1..j - 1 + |PREFIX|] == name[j..j + |PREFIX|];
      assert name[1..][j - 1 + |PREFIX|..j - 1 + |PREFIX| + |e|] == name[j + |PREFIX|..j + |PREFIX| + |e|];
    }
  }

  lemma {:induction false} LeadingDigitsOfDigits(s: string)
    requires AllDigits(s)
    ensures LeadingDigits(s) == s
  {
    if s != [] {
      LeadingDigitsOfDigits(s[1..]);
    }
  }

  // Printing a pod number and reading it back gives the number again.
  lemma NumberRoundTrip(n: nat)
    ensures FindNumber(PodName(n)) == Number(TwoDigits(n))
    ensures Atoi(TwoDigits(n)) == n
  {
    assert PodName(n)[|PREFIX|..] == TwoDigits(n);
    LeadingDigitsOfDigits(TwoDigits(n));
    AtoiOfTwoDigits(n);
  }

  lemma TwoDigitsDistinct(m: nat, n: nat)
    ensures TwoDigits(m) == TwoDigits(n) <==> m == n
  {
    AtoiOfTwoDigits(m);
    AtoiOfTwoDigits(n);
  }

  // Different pods have different names, and so have their ConfigMaps.
  lemma NamesDistinct(m: nat, n: nat)
    ensures PodName(m) == PodName(n) <==> m == n
    ensures ConfigMapName(m) == ConfigMapName(n) <==> m == n
  {
    TwoDigitsDistinct(m, n);
    assert PodName(m)[|PREFIX|..] == TwoDigits(m) && PodName(n)[|PREFIX|..] == TwoDigits(n);
    assert ConfigMapName(m)[13..] == TwoDigits(m) && ConfigMapName(n)[13..] == TwoDigits(n);
  }

  lemma SomeNames()
    ensures PodName(1) == "mysql-01" && PodName(10) == "mysql-10" && PodName(100) == "mysql-100"
    ensures ConfigMapName(7) == "mysql-config-07"
  {
    assert Decimal(1) == "1" && Decimal(7) == "7";
    assert Decimal(10) == Decimal(1) + "0" == "10";
    assert Decimal(100) == Decimal(10) + "0" == "100";
  }

  // ---- Raft node names ----

  function NodeName(cluster: string, i: nat): string {
    cluster + "-" + Decimal(i)
  }

  lemma NodeNamesDistinct(cluster: string, i: nat, j: nat)
    ensures NodeName(cluster, i) == NodeName(cluster, j) <==> i == j
    ensures NodeName(cluster, i) != ""
  {
    assert NodeName(cluster, i)[|cluster| + 1..] == Decimal(i);
    assert NodeName(cluster, j)[|cluster| + 1..] == Decimal(j);
    AtoiOfDecimal(i);
    AtoiOfDecimal(j);
  }

  // The first Raft node has the name of no pod the operator makes.
  lemma FirstNodeIsNoPod(cluster: string, n: nat)
    ensures NodeName(cluster, 0) != PodName(n)
  {
    var node, pod := NodeName(cluster, 0), PodName(n);
    assert Decimal(0) == "0";
    assert node[|node| - 2] == '-';
    assert pod[|pod| - 2] == TwoDigits(n)[|TwoDigits(n)| - 2];
    assert IsDigit(TwoDigits(n)[|TwoDigits(n)| - 2]);
  }

  function NodeNames(cluster: string, count: nat): set<string> {
    set i: nat | i < count :: NodeName(cluster, i)
  }

  // getClusterNodes: as many names as replicas, all different and none empty, so that the length
  // the quorum is computed from is the size of the set of members.
  method GetClusterNodes(cluster: string, replicas: int) returns (nodes: seq<string>)
    ensures |nodes| == if replicas < 0 then 0 else replicas
    ensures forall i :: 0 <= i < |nodes| ==> nodes[i] == NodeName(cluster, i)
    ensures forall i, j :: 0 <= i < j < |nodes| ==> nodes[i] != nodes[j]
    ensures "" !in nodes && (set n | n in nodes) == NodeNames(cluster, |nodes|)
    ensures |NodeNames(cluster, |nodes|)| == |nodes|
  {
    nodes := [];
    var i := 0;
    assert NodeNames(cluster, 0) == {};
    while i < replicas
      invariant 0 <= i <= (if replicas < 0 then 0 else replicas) && |nodes| == i
      invariant forall k :: 0 <= k < i ==> nodes[k] == NodeName(cluster, k)
      invariant |NodeNames(cluster, i)| == i
    {
      nodes := nodes + [NodeName(cluster, i)];
      OneMoreName(cluster, i);
      i := i + 1;
    }
    forall k | 0 <= k < |nodes| ensures nodes[k] != "" {
      NodeNamesDistinct(cluster, k, k);
    }
    forall k, j | 0 <= k < j < |nodes| ensures nodes[k] != nodes[j] {
      NodeNamesDistinct(cluster, k, j);
    }
    assert forall n :: n in nodes <==> exists k :: 0 <= k < |nodes| && n == nodes[k];
  }

  lemma OneMoreName(cluster: string, i: nat)
    ensures NodeNames(cluster, i + 1) == NodeNames(cluster, i) + {NodeName(cluster, i)}
    ensures NodeName(cluster, i) !in NodeNames(cluster, i)
  {
    forall j: nat | j < i ensures NodeName(cluster, j) != NodeName(cluster, i) {
      NodeNamesDistinct(cluster, j, i);
    }
  }
}
