/** The members of a cluster as a list and as a set, and the members other than one. */
module Members {

  function Range(names: seq<string>): set<string> {
    set n | n in names
  }

  // The members other than `self`, in their order.
  function Others(members: seq<string>, self: string): (s: seq<string>)
    ensures Range(s) == Range(members) - {self}
  {
    if members == [] then []
    else
      var rest := Others(members[1..], self);
      assert Range(members) == {members[0]} + Range(members[1..]);
      if members[0] == self then rest
      else
        assert Range([members[0]] + rest) == {members[0]} + Range(rest);
        [members[0]] + rest
  }

  lemma {:induction false} OthersAppend(members: seq<string>, n: string, self: string)
    ensures Others(members + [n], self) == Others(members, self) + (if n == self then [] else [n])
  {
    if members == [] {
      assert members + [n] == [n] && [n][1..] == [];
    } else {
      assert (members + [n])[1..] == members[1..] + [n];
      OthersAppend(members[1..], n, self);
    }
  }

  lemma RangeOneMore(names: seq<string>, k: nat)
    requires k < |names|
    ensures Range(names[..k + 1]) == Range(names[..k]) + {names[k]}
  {
    assert names[..k + 1] == names[..k] + [names[k]];
  }
}
