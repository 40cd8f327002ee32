/** Pod names: the ordinal a StatefulSet appends to them, and their order. */
module Names {
  import opened Text
  import opened Wrappers

  /** Go's `math.MaxInt` on a 64-bit machine. */
  const MAX_INT := 0x7FFF_FFFF_FFFF_FFFF

  predicate IsDigit(c: char) {
    '0' <= c <= '9'
  }

  predicate AllDigits(s: string) {
    forall c | c in s :: IsDigit(c)
  }

  function DigitsValue(s: string): nat
    requires AllDigits(s)
  {
    if s == "" then 0
    else
      var last := s[|s| - 1];
      assert IsDigit(last);
      DigitsValue(s[..|s| - 1]) * 10 + (last as int - '0' as int)
  }

  /** `strconv.Atoi`: an optional sign, at least one digit, and a value that fits
      a 64-bit integer. */
  function Atoi(s: string): Option<int> {
    var signed := s != "" && (s[0] == '-' || s[0] == '+');
    var digits := if signed then s[1..] else s;
    if digits == "" || !AllDigits(digits) then None
    else
      var magnitude: int := DigitsValue(digits);
      var value := if signed && s[0] == '-' then -magnitude else magnitude;
      if -MAX_INT - 1 <= value <= MAX_INT then Some(value) else None
  }

  /** The number after the last dash, or `MAX_INT` when there is none. */
  function GetOrdinal(podName: string): int {
    var parts := Split(podName, '-');
    if |parts| < 2 then MAX_INT
    else
      match Atoi(parts[|parts| - 1])
      case None => MAX_INT
      case Some(ordinal) => ordinal
  }

  /** The decimal form of a number, as the StatefulSet controller writes it. */
  function Decimal(n: nat): string {
    var digit := ('0' as int + n % 10) as char;
    if n < 10 then [digit] else Decimal(n / 10) + [digit]
  }

  /** The name of the pod with the given ordinal. */
  function PodName(statefulSet: string, ordinal: nat): string {
    statefulSet + "-" + Decimal(ordinal)
  }

  /** Reading a decimal form back gives the number, with no sign in the way. */
  lemma {:induction false} DecimalValue(n: nat)
    ensures Decimal(n) != "" && AllDigits(Decimal(n))
    ensures DigitsValue(Decimal(n)) == n
  {
    var digit := ('0' as int + n % 10) as char;
    if n >= 10 {
      DecimalValue(n / 10);
      assert Decimal(n)[..|Decimal(n)| - 1] == Decimal(n / 10);
    } else {
      assert Decimal(n)[..0] == "";
    }
  }

  /** The ordinal of any StatefulSet's pod is read back exactly, whatever dashes
      and digits the StatefulSet's own name contains, if it is a machine
      integer; a larger one reads as the largest. */
  lemma OrdinalRoundTrip(statefulSet: string, n: nat)
    ensures GetOrdinal(PodName(statefulSet, n)) == if n <= MAX_INT then n else MAX_INT
  {
    DecimalValue(n);
    SplitAppend(statefulSet, Decimal(n), '-');
    SplitNone(Decimal(n), '-');
    assert PodName(statefulSet, n) == statefulSet + (['-'] + Decimal(n));
    assert IsDigit(Decimal(n)[0]);
  }

  /** A name without a dash, or with anything but a number after the last one,
      comes after all numbered ones. */
  lemma NoOrdinal(name: string, suffix: string)
    requires '-' !in suffix
    ensures GetOrdinal(suffix) == MAX_INT
    ensures || suffix == "" || (exists c | c in suffix[1..] :: !IsDigit(c))
            || (suffix[0] != '+' && !IsDigit(suffix[0])) ==>
              GetOrdinal(name + "-" + suffix) == MAX_INT
  {
    SplitNone(suffix, '-');
    SplitAppend(name, suffix, '-');
    assert name + "-" + suffix == name + (['-'] + suffix);
  }

  /** Two pods of one StatefulSet never share an ordinal. */
  lemma OrdinalsDistinct(statefulSet: string, m: nat, n: nat)
    requires m <= MAX_INT && n <= MAX_INT
    ensures PodName(statefulSet, m) == PodName(statefulSet, n) ==> m == n
    ensures GetOrdinal(PodName(statefulSet, m)) == GetOrdinal(PodName(statefulSet, n)) ==> m == n
  {
    OrdinalRoundTrip(statefulSet, m);
    OrdinalRoundTrip(statefulSet, n);
  }

  /** Go's `<` on strings. */
  predicate Precedes(a: string, b: string) {
    if b == "" then false
    else if a == "" then true
    else if a[0] != b[0] then a[0] < b[0]
    else Precedes(a[1..], b[1..])
  }

  /** The first character in which two names differ decides; if there is none the
      shorter name comes first. */
  lemma {:induction false} PrecedesFirstDifference(a: string, b: string)
    ensures Precedes(a, b) <==>
              a < b || exists i | 0 <= i < |a| && i < |b| :: a[..i] == b[..i] && a[i] < b[i]
  {
    if a != "" && b != "" && a[0] == b[0] {
      PrecedesFirstDifference(a[1..], b[1..]);
      DifferenceShifts(a, b);
    } else if a != "" && b != "" {
      assert a[0] < b[0] ==> a[..0] == b[..0] && a[0] < b[0];
      assert forall i | 0 < i < |a| && i < |b| :: a[..i][0] == a[0] && b[..i][0] == b[0];
    }
  }

  lemma DifferenceShifts(a: string, b: string)
    requires a != "" && b != "" && a[0] == b[0]
    ensures a < b <==> a[1..] < b[1..]
    ensures (exists i | 0 <= i < |a| && i < |b| :: a[..i] == b[..i] && a[i] < b[i]) <==>
              exists i | 0 <= i < |a| - 1 && i < |b| - 1 :: a[1..][..i] == b[1..][..i] && a[1..][i] < b[1..][i]
  {
    var x, y := a[1..], b[1..];
    assert a == [a[0]] + x && b == [b[0]] + y;
    forall i | 0 <= i < |x| && i < |y| ensures a[..i + 1] == b[..i + 1] <==> x[..i] == y[..i] {
      assert a[..i + 1] == [a[0]] + x[..i] && b[..i + 1] == [b[0]] + y[..i];
      assert x[..i] == a[..i + 1][1..] && y[..i] == b[..i + 1][1..];
    }
    if i :| 0 <= i < |a| && i < |b| && a[..i] == b[..i] && a[i] < b[i] {
      assert i > 0 && x[..i - 1] == y[..i - 1] && x[i - 1] < y[i - 1];
    }
    if i :| 0 <= i < |x| && i < |y| && x[..i] == y[..i] && x[i] < y[i] {
      assert a[..i + 1] == b[..i + 1] && a[i + 1] < b[i + 1];
    }
  }

  lemma {:induction false} PrecedesTotal(a: string, b: string)
    ensures Precedes(a, b) || a == b || Precedes(b, a)
    ensures !(Precedes(a, b) && Precedes(b, a)) && (a == b ==> !Precedes(a, b))
  {
    if a != "" && b != "" && a[0] == b[0] {
      PrecedesTotal(a[1..], b[1..]);
      assert a == [a[0]] + a[1..] && b == [b[0]] + b[1..];
    }
  }

  lemma {:induction false} PrecedesTransitive(a: string, b: string, c: string)
    requires Precedes(a, b) && Precedes(b, c)
    ensures Precedes(a, c)
  {
    if a != "" && b != "" && c != "" && a[0] == b[0] == c[0] {
      PrecedesTransitive(a[1..], b[1..], c[1..]);
    }
  }

  predicate Sorted(names: seq<string>) {
    forall i, j | 0 <= i < j < |names| :: Precedes(names[i], names[j])
  }

  predicate NoDuplicates<T(==)>(xs: seq<T>) {
    forall i, j | 0 <= i < j < |xs| :: xs[i] != xs[j]
  }

  function Insert(name: string, names: seq<string>): (r: seq<string>)
    ensures forall n :: n in r <==> n == name || n in names
  {
    if names == [] || Precedes(name, names[0]) then [name] + names
    else [names[0]] + Insert(name, names[1..])
  }

  /** `sort.Slice` by name: an ascending list of the same names. */
  function SortByName(names: seq<string>): (r: seq<string>)
    ensures forall n :: n in r <==> n in names
  {
    if names == [] then [] else Insert(names[0], SortByName(names[1..]))
  }

  lemma {:induction false} InsertSorted(name: string, names: seq<string>)
    requires Sorted(names) && name !in names
    ensures Sorted(Insert(name, names))
  {
    if names != [] {
      PrecedesTotal(name, names[0]);
      if Precedes(name, names[0]) {
        forall j | 1 <= j < |names| ensures Precedes(name, names[j]) {
          PrecedesTransitive(name, names[0], names[j]);
        }
      } else {
        InsertSorted(name, names[1..]);
        var tail := Insert(name, names[1..]);
        forall j | 0 <= j < |tail| ensures Precedes(names[0], tail[j]) {
          assert tail[j] in tail;
        }
      }
    }
  }

  lemma {:induction false} SortSorted(names: seq<string>)
    requires NoDuplicates(names)
    ensures Sorted(SortByName(names))
  {
    if names != [] {
      SortSorted(names[1..]);
      InsertSorted(names[0], SortByName(names[1..]));
    }
  }

  /** Two ascending lists of the same names are the same list. */
  lemma {:induction false} SortedUnique(a: seq<string>, b: seq<string>)
    requires Sorted(a) && Sorted(b)
    requires forall n :: n in a <==> n in b
    ensures a == b
  {
    assert b != [] ==> b[0] in b;
    if a != [] {
      assert a[0] in b;
      assert b != [] && b[0] in a;
      PrecedesTotal(a[0], b[0]);
      assert a[0] == b[0];
      forall n ensures n in a[1..] <==> n in b[1..] {
        PrecedesTotal(a[0], a[0]);
        if n in a[1..] { assert n in b && n != a[0]; }
        if n in b[1..] { assert n in a && n != b[0]; }
      }
      SortedUnique(a[1..], b[1..]);
    }
  }

  /** The order in which the operator visits pods does not depend on the order
      in which they were listed. */
  lemma SortOrderIndependent(a: seq<string>, b: seq<string>)
    requires NoDuplicates(a) && NoDuplicates(b)
    requires forall n :: n in a <==> n in b
    ensures SortByName(a) == SortByName(b)
  {
    SortSorted(a);
    SortSorted(b);
    SortedUnique(SortByName(a), SortByName(b));
  }
}
