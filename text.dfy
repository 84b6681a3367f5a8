/** The string operations orm.go uses from Go's `strings` package, and the
    searches the connection-string parser needs. */
module Text {
  import opened Wrappers

  /** strings.Join: the parts in order, with `sep` between neighbours. */
  function Join(parts: seq<string>, sep: string): string
  {
    if |parts| == 0 then ""
    else if |parts| == 1 then parts[0]
    else parts[0] + sep + Join(parts[1..], sep)
  }

  /** Number of occurrences of character `c` in `s`. */
  function Count(s: string, c: char): nat
  {
    if s == [] then 0 else (if s[0] == c then 1 else 0) + Count(s[1..], c)
  }

  lemma {:induction false} CountConcat(a: string, b: string, c: char)
    ensures Count(a + b, c) == Count(a, c) + Count(b, c)
  {
    if a == [] {
      assert a + b == b;
    } else {
      assert (a + b)[0] == a[0] && (a + b)[1..] == a[1..] + b;
      CountConcat(a[1..], b, c);
    }
  }

  lemma {:induction false} CountAbsent(s: string, c: char)
    requires c !in s
    ensures Count(s, c) == 0
  {
    if s != [] {
      CountAbsent(s[1..], c);
    }
  }

  /** Exactly one `c` between two stretches free of it. */
  lemma CountSingle(a: string, b: string, c: char)
    requires c !in a && c !in b
    ensures Count(a + [c] + b, c) == 1
  {
    CountAbsent(a, c);
    CountAbsent(b, c);
    CountConcat(a + [c], b, c);
    CountConcat(a, [c], c);
  }

  /** Occurrences of `c` over all the parts. */
  function CountAll(parts: seq<string>, c: char): nat
  {
    if parts == [] then 0 else Count(parts[0], c) + CountAll(parts[1..], c)
  }

  /** Appending one part to a non-empty join adds one separator and the part. */
  lemma {:induction false} JoinSnoc(parts: seq<string>, x: string, sep: string)
    requires |parts| >= 1
    ensures Join(parts + [x], sep) == Join(parts, sep) + sep + x
  {
    if |parts| == 1 {
      assert (parts + [x])[1..] == [x];
    } else {
      assert (parts + [x])[1..] == parts[1..] + [x];
      JoinSnoc(parts[1..], x, sep);
    }
  }

  /** A join of n >= 1 parts holds the parts' characters and n - 1 separators. */
  lemma {:induction false} CountJoin(parts: seq<string>, sep: string, c: char)
    requires |parts| >= 1
    ensures Count(Join(parts, sep), c) == CountAll(parts, c) + (|parts| - 1) * Count(sep, c)
  {
    if |parts| == 1 {
      assert parts[1..] == [];
    } else {
      CountJoin(parts[1..], sep, c);
      CountConcat(parts[0] + sep, Join(parts[1..], sep), c);
      CountConcat(parts[0], sep, c);
      calc {
        Count(Join(parts, sep), c);
        Count(parts[0], c) + Count(sep, c) + Count(Join(parts[1..], sep), c);
        Count(parts[0], c) + Count(sep, c) + CountAll(parts[1..], c) + (|parts| - 2) * Count(sep, c);
        CountAll(parts, c) + (|parts| - 1) * Count(sep, c);
      }
    }
  }

  /** Parts none of which contains `c` contribute no occurrence of it. */
  lemma {:induction false} CountAllAbsent(parts: seq<string>, c: char)
    requires forall i :: 0 <= i < |parts| ==> c !in parts[i]
    ensures CountAll(parts, c) == 0
  {
    if parts != [] {
      CountAbsent(parts[0], c);
      CountAllAbsent(parts[1..], c);
    }
  }

  /** Position of the first `c` in `s`, or |s| when there is none. */
  function IndexOf(s: string, c: char): (k: nat)
    ensures k <= |s|
    ensures k < |s| ==> s[k] == c
    ensures forall j :: 0 <= j < k ==> s[j] != c
  {
    if s == [] then 0
    else if s[0] == c then 0
    else 1 + IndexOf(s[1..], c)
  }

  /** The text before and after the first `c`, if `s` has one. */
  function SplitFirst(s: string, c: char): Option<(string, string)>
  {
    var k := IndexOf(s, c);
    if k == |s| then None else Some((s[..k], s[k + 1..]))
  }

  /** Splitting at the first `c` undoes gluing two strings with `c` when the
      first has no `c`. */
  lemma SplitFirstGlued(a: string, b: string, c: char)
    requires c !in a
    ensures SplitFirst(a + [c] + b, c) == Some((a, b))
  {
    var s := a + [c] + b;
    var k := IndexOf(s, c);
    assert s[|a|] == c;
    assert k == |a|;
    assert s[..k] == a;
    assert s[k + 1..] == b;
  }
}
