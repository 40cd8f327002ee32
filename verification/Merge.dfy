/** Merging user-supplied containers, volumes and mounts over generated ones. */
module Merge {

  function NamesOf<T>(items: seq<T>, getName: T -> string): set<string> {
    if items == [] then {} else NamesOf(items[..|items| - 1], getName) + {getName(items[|items| - 1])}
  }

  /** The items whose name is not in `names`, in their order. */
  function Without<T>(items: seq<T>, names: set<string>, getName: T -> string): seq<T> {
    if items == [] then []
    else
      var last := items[|items| - 1];
      Without(items[..|items| - 1], names, getName) + if getName(last) in names then [] else [last]
  }

  function Merged<T>(base: seq<T>, override: seq<T>, getName: T -> string): seq<T> {
    override + Without(base, NamesOf(override, getName), getName)
  }

  method MergeNamedSlices<T>(base: seq<T>, override: seq<T>, getName: T -> string) returns (result: seq<T>)
    ensures result == Merged(base, override, getName)
  {
    var existing: set<string> := {};
    for i := 0 to |override|
      invariant existing == NamesOf(override[..i], getName)
    {
      assert override[..i + 1][..i] == override[..i];
      existing := existing + {getName(override[i])};
    }
    assert override[..|override|] == override;
    result := override;
    for i := 0 to |base|
      invariant result == override + Without(base[..i], existing, getName)
    {
      assert base[..i + 1][..i] == base[..i];
      if getName(base[i]) !in existing {
        result := result + [base[i]];
      }
    }
    assert base[..|base|] == base;
  }

  predicate UniqueNames<T>(items: seq<T>, getName: T -> string) {
    forall i, j | 0 <= i < j < |items| :: getName(items[i]) != getName(items[j])
  }

  // ---- Laws of the parts

  lemma {:induction false} NamesOfMeaning<T>(items: seq<T>, getName: T -> string, name: string)
    ensures name in NamesOf(items, getName) <==> exists x | x in items :: getName(x) == name
  {
    if items != [] {
      NamesOfMeaning(items[..|items| - 1], getName, name);
      assert items == items[..|items| - 1] + [items[|items| - 1]];
    }
  }

  lemma {:induction false} NamesOfAppend<T>(a: seq<T>, b: seq<T>, getName: T -> string)
    ensures NamesOf(a + b, getName) == NamesOf(a, getName) + NamesOf(b, getName)
  {
    if b == [] {
      assert a + b == a;
    } else {
      assert (a + b)[..|a + b| - 1] == a + b[..|b| - 1];
      NamesOfAppend(a, b[..|b| - 1], getName);
    }
  }

  lemma {:induction false} WithoutAppend<T>(a: seq<T>, b: seq<T>, names: set<string>, getName: T -> string)
    ensures Without(a + b, names, getName) == Without(a, names, getName) + Without(b, names, getName)
  {
    if b == [] {
      assert a + b == a;
    } else {
      assert (a + b)[..|a + b| - 1] == a + b[..|b| - 1];
      WithoutAppend(a, b[..|b| - 1], names, getName);
    }
  }

  lemma {:induction false} WithoutTwice<T>(items: seq<T>, m: set<string>, n: set<string>, getName: T -> string)
    ensures Without(Without(items, m, getName), n, getName) == Without(items, m + n, getName)
  {
    if items != [] {
      var front, last := items[..|items| - 1], items[|items| - 1];
      WithoutTwice(front, m, n, getName);
      var kept := Without(front, m, getName);
      if getName(last) !in m {
        assert (kept + [last])[..|kept|] == kept;
      } else {
        assert kept + [] == kept;
      }
    }
  }

  lemma {:induction false} WithoutNames<T>(items: seq<T>, names: set<string>, getName: T -> string)
    ensures NamesOf(Without(items, names, getName), getName) == NamesOf(items, getName) - names
  {
    if items != [] {
      var front, last := items[..|items| - 1], items[|items| - 1];
      WithoutNames(front, names, getName);
      var kept := Without(front, names, getName);
      if getName(last) !in names {
        assert (kept + [last])[..|kept|] == kept;
      } else {
        assert kept + [] == kept;
      }
    }
  }

  lemma {:induction false} WithoutOwn<T>(items: seq<T>, names: set<string>, getName: T -> string)
    requires NamesOf(items, getName) <= names
    ensures Without(items, names, getName) == []
  {
    if items != [] {
      WithoutOwn(items[..|items| - 1], names, getName);
    }
  }

  lemma {:induction false} WithoutMember<T>(items: seq<T>, names: set<string>, getName: T -> string, x: T)
    ensures x in Without(items, names, getName) <==> x in items && getName(x) !in names
  {
    if items != [] {
      var front, last := items[..|items| - 1], items[|items| - 1];
      WithoutMember(front, names, getName, x);
      assert items == front + [last];
    }
  }

  lemma {:induction false} WithoutUnique<T>(items: seq<T>, names: set<string>, getName: T -> string)
    requires UniqueNames(items, getName)
    ensures UniqueNames(Without(items, names, getName), getName)
  {
    if items != [] {
      var front, last := items[..|items| - 1], items[|items| - 1];
      WithoutUnique(front, names, getName);
      var kept := Without(front, names, getName);
      forall i | 0 <= i < |kept| ensures getName(kept[i]) != getName(last) {
        WithoutMember(front, names, getName, kept[i]);
      }
    }
  }

  // ---- Laws of merging

  /** The result holds the overriding items, and those base items that no
      overriding item is named like; it has the names of both. */
  lemma MergedMembers<T>(base: seq<T>, override: seq<T>, getName: T -> string, x: T)
    ensures override <= Merged(base, override, getName)
    ensures x in Merged(base, override, getName) <==>
              x in override || (x in base && forall y | y in override :: getName(y) != getName(x))
    ensures NamesOf(Merged(base, override, getName), getName) == NamesOf(base, getName) + NamesOf(override, getName)
  {
    var names := NamesOf(override, getName);
    WithoutMember(base, names, getName, x);
    NamesOfMeaning(override, getName, getName(x));
    NamesOfAppend(override, Without(base, names, getName), getName);
    WithoutNames(base, names, getName);
  }

  /** Two base items that both survive keep their order. */
  lemma {:induction false} WithoutOrder<T>(items: seq<T>, names: set<string>, getName: T -> string, i: nat, j: nat)
    returns (p: nat, q: nat)
    requires i < j < |items| && getName(items[i]) !in names && getName(items[j]) !in names
    ensures p < q < |Without(items, names, getName)|
    ensures Without(items, names, getName)[p] == items[i] && Without(items, names, getName)[q] == items[j]
  {
    var front, last := items[..|items| - 1], items[|items| - 1];
    if j < |front| {
      p, q := WithoutOrder(front, names, getName, i, j);
    } else {
      WithoutMember(front, names, getName, front[i]);
      assert front[i] in Without(front, names, getName);
      p :| 0 <= p < |Without(front, names, getName)| && Without(front, names, getName)[p] == front[i];
      q := |Without(front, names, getName)|;
    }
  }

  lemma MergedUnique<T>(base: seq<T>, override: seq<T>, getName: T -> string)
    requires UniqueNames(base, getName) && UniqueNames(override, getName)
    ensures UniqueNames(Merged(base, override, getName), getName)
  {
    var names, result := NamesOf(override, getName), Merged(base, override, getName);
    WithoutUnique(base, names, getName);
    forall i, j | 0 <= i < |override| <= j < |result| ensures getName(result[i]) != getName(result[j]) {
      assert result[i] == override[i] && result[j] == Without(base, names, getName)[j - |override|];
      WithoutMember(base, names, getName, result[j]);
      NamesOfMeaning(override, getName, getName(result[j]));
    }
  }

  lemma MergeIdempotent<T>(base: seq<T>, override: seq<T>, getName: T -> string)
    ensures Merged(Merged(base, override, getName), override, getName) == Merged(base, override, getName)
  {
    var names := NamesOf(override, getName);
    WithoutAppend(override, Without(base, names, getName), names, getName);
    WithoutOwn(override, names, getName);
    WithoutTwice(base, names, names, getName);
    assert names + names == names;
  }

  lemma MergeAssociative<T>(a: seq<T>, b: seq<T>, c: seq<T>, getName: T -> string)
    ensures Merged(a, Merged(b, c, getName), getName) == Merged(Merged(a, b, getName), c, getName)
  {
    var bs, cs := NamesOf(b, getName), NamesOf(c, getName);
    NamesOfAppend(c, Without(b, cs, getName), getName);
    WithoutNames(b, cs, getName);
    assert cs + (bs - cs) == bs + cs;
    var bRest, aRest := Without(b, cs, getName), Without(a, bs + cs, getName);
    assert (c + bRest) + aRest == c + (bRest + aRest);
    WithoutAppend(b, Without(a, bs, getName), cs, getName);
    WithoutTwice(a, bs, cs, getName);
  }
}
