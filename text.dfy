/** Option and Result, for values that may be missing and operations that may fail. */
module Wrappers {
  datatype Option<T> = None | Some(value: T)

  datatype Result<T, E> = Ok(value: T) | Err(error: E)
}

/** The string operations the union engine relies on: Python's `sep.join`,
    `str.split` on one character, and the count of `%s` parameter
    placeholders in a query text (`%%` is an escaped percent sign). */
module Text {

  /** Python's `str.join`: the parts with `sep` between each neighbouring pair. */
  function Join(sep: string, parts: seq<string>): string
  {
    if |parts| == 0 then ""
    else if |parts| == 1 then parts[0]
    else parts[0] + sep + Join(sep, parts[1..])
  }

  /** Python's `str.split` on one character: the pieces between occurrences
      of `c`, of which there is always at least one. */
  function Split(s: string, c: char): (pieces: seq<string>)
    ensures |pieces| >= 1
    ensures forall i :: 0 <= i < |pieces| ==> c !in pieces[i]
  {
    if |s| == 0 then [""]
    else
      var rest := Split(s[1..], c);
      if s[0] == c then [""] + rest
      else [[s[0]] + rest[0]] + rest[1..]
  }

  /** Joining the pieces of a split with the separator gives back the input. */
  lemma {:induction false} JoinSplit(s: string, c: char)
    ensures Join([c], Split(s, c)) == s
  {
    if |s| > 0 {
      JoinSplit(s[1..], c);
      var rest := Split(s[1..], c);
      if s[0] == c {
        JoinCons([c], "", rest);
      } else {
        JoinGrowFirst([c], [s[0]], rest);
      }
      assert s == [s[0]] + s[1..];
    }
  }

  lemma JoinCons(sep: string, x: string, rest: seq<string>)
    requires |rest| >= 1
    ensures Join(sep, [x] + rest) == x + sep + Join(sep, rest)
  {
    assert ([x] + rest)[1..] == rest;
  }

  /** Growing the first part at its front grows the join at its front. */
  lemma JoinGrowFirst(sep: string, y: string, rest: seq<string>)
    requires |rest| >= 1
    ensures Join(sep, [y + rest[0]] + rest[1..]) == y + Join(sep, rest)
  {
    if |rest| > 1 {
      JoinCons(sep, y + rest[0], rest[1..]);
      JoinCons(sep, rest[0], rest[1..]);
      assert [rest[0]] + rest[1..] == rest;
    }
  }

  /** A string without the separator splits into itself. */
  lemma {:induction false} SplitWithout(a: string, c: char)
    requires c !in a
    ensures Split(a, c) == [a]
  {
    if |a| > 0 {
      SplitWithout(a[1..], c);
      assert a == [a[0]] + a[1..];
    }
  }

  /** Splitting at the first separator. */
  lemma {:induction false} SplitAtFirst(a: string, c: char, t: string)
    requires c !in a
    ensures Split(a + [c] + t, c) == [a] + Split(t, c)
  {
    if |a| > 0 {
      assert (a + [c] + t)[1..] == a[1..] + [c] + t;
      SplitAtFirst(a[1..], c, t);
      assert [a[0]] + a[1..] == a;
    } else {
      assert a + [c] + t == [c] + t;
      assert ([c] + t)[1..] == t;
    }
  }

  /** Splitting a join of separator-free parts gives the parts back. */
  lemma {:induction false} SplitJoin(parts: seq<string>, c: char)
    requires |parts| >= 1
    requires forall i :: 0 <= i < |parts| ==> c !in parts[i]
    ensures Split(Join([c], parts), c) == parts
  {
    if |parts| == 1 {
      SplitWithout(parts[0], c);
    } else {
      SplitJoin(parts[1..], c);
      SplitAtFirst(parts[0], c, Join([c], parts[1..]));
      assert [parts[0]] + parts[1..] == parts;
    }
  }

  /** A string that is two separator-free pieces around one separator
      splits into exactly those two pieces. */
  lemma SplitTwo(s: string, c: char, a: string, b: string)
    requires c !in a && c !in b && s == a + [c] + b
    ensures Split(s, c) == [a, b]
  {
    SplitJoin([a, b], c);
    assert Join([c], [a, b]) == a + [c] + b;
  }

  /** Joining splits at every part boundary: the text of the parts before
      position `i`, the separator, and the text of the parts from `i` on. */
  lemma {:induction false} JoinAt(sep: string, parts: seq<string>, i: nat)
    requires 0 < i < |parts|
    ensures Join(sep, parts) == Join(sep, parts[..i]) + sep + Join(sep, parts[i..])
  {
    if i > 1 {
      JoinAt(sep, parts[1..], i - 1);
      assert parts[1..][..i - 1] == parts[1..i];
      assert parts[1..][i - 1..] == parts[i..];
      assert parts[..i][1..] == parts[1..i];
    }
  }

  /** The number of `%s` placeholders, scanning left to right as a
      `format`-style driver does: `%%` is a literal percent sign. */
  function Placeholders(s: string): nat
  {
    if |s| < 2 then 0
    else if s[0] == '%' && s[1] == 's' then 1 + Placeholders(s[2..])
    else if s[0] == '%' && s[1] == '%' then Placeholders(s[2..])
    else Placeholders(s[1..])
  }

  /** Two texts whose boundary cannot form or split a `%` escape. */
  predicate Seamless(a: string, b: string)
  {
    |a| == 0 || |b| == 0 || a[|a| - 1] != '%' || (b[0] != '%' && b[0] != 's')
  }

  lemma {:induction false} PlaceholdersAppend(a: string, b: string)
    requires Seamless(a, b)
    ensures Placeholders(a + b) == Placeholders(a) + Placeholders(b)
  {
    if |a| == 1 && |b| > 0 {
      assert (a + b)[1..] == b;
    } else if |a| >= 2 {
      assert (a + b)[2..] == a[2..] + b;
      assert (a + b)[1..] == a[1..] + b;
      PlaceholdersAppend(a[2..], b);
      PlaceholdersAppend(a[1..], b);
    } else {
      assert a + b == a || a + b == b;
    }
  }

  /** A text without a percent sign holds no placeholder. */
  lemma {:induction false} NoPercentNoPlaceholder(s: string)
    requires '%' !in s
    ensures Placeholders(s) == 0
  {
    if |s| >= 2 {
      NoPercentNoPlaceholder(s[1..]);
    }
  }
}
