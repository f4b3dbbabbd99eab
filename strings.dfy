/** The string operations both ends of the MQTT contract rely on: Python's
    `str.split`, `str.join` and `str.strip` on the gateway side, and C#'s
    `String.Split(char, int)` on the Unity side. */
module Strings {
  import opened Sequences

  /** Python's `str.split(sep)` with an explicit separator: every separator cuts,
      so a string holding n separators gives n + 1 fields, empty ones included. */
  function Split(s: string, sep: char): (r: seq<string>)
    ensures |r| >= 1
    ensures forall i :: 0 <= i < |r| ==> sep !in r[i]
  {
    if s == [] then [""]
    else
      var rest := Split(s[1..], sep);
      if s[0] == sep then [""] + rest
      else [[s[0]] + rest[0]] + rest[1..]
  }

  /** Python's `sep.join(parts)`. */
  function Join(parts: seq<string>, sep: char): string
  {
    if parts == [] then ""
    else if |parts| == 1 then parts[0]
    else parts[0] + [sep] + Join(parts[1..], sep)
  }

  /** Joining the fields of a split gives back the string. */
  lemma {:induction false} JoinSplit(s: string, sep: char)
    ensures Join(Split(s, sep), sep) == s
  {
    if s != [] {
      JoinSplit(s[1..], sep);
      var rest := Split(s[1..], sep);
      if s[0] == sep {
        assert Split(s, sep)[1..] == rest;
      } else {
        var p := Split(s, sep);
        assert p[0] == [s[0]] + rest[0];
        if |rest| > 1 {
          assert p[1..] == rest[1..];
          assert Join(rest, sep) == rest[0] + [sep] + Join(rest[1..], sep);
        }
        assert s == [s[0]] + s[1..];
      }
    }
  }

  /** A string with no separator is a single field. */
  lemma {:induction false} SplitNoSeparator(s: string, sep: char)
    requires sep !in s
    ensures Split(s, sep) == [s]
  {
    if s != [] {
      SplitNoSeparator(s[1..], sep);
      assert s == [s[0]] + s[1..];
    }
  }

  /** The fields of `[c] + t` from those of `t`: a separator opens a new empty
      field, any other character joins the first one. */
  function ConsField(c: char, sep: char, rest: seq<string>): seq<string>
    requires |rest| >= 1
  {
    if c == sep then [""] + rest else [[c] + rest[0]] + rest[1..]
  }

  lemma SplitCons(s: string, sep: char)
    requires s != []
    ensures Split(s, sep) == ConsField(s[0], sep, Split(s[1..], sep))
  {
  }

  lemma ConsFieldAppend(c: char, sep: char, p: seq<string>, q: seq<string>)
    requires |p| >= 1
    ensures ConsField(c, sep, p + q) == ConsField(c, sep, p) + q
  {
    if c != sep {
      assert (p + q)[0] == p[0];
      assert (p + q)[1..] == p[1..] + q;
    }
  }

  /** A separator between two strings splits them apart, field by field. */
  lemma {:induction false} SplitAround(x: string, sep: char, y: string)
    ensures Split(x + [sep] + y, sep) == Split(x, sep) + Split(y, sep)
  {
    var s := x + [sep] + y;
    SplitCons(s, sep);
    if x == [] {
      assert s[0] == sep && s[1..] == y;
    } else {
      assert s[0] == x[0] && s[1..] == x[1..] + [sep] + y;
      SplitAround(x[1..], sep, y);
      SplitCons(x, sep);
      ConsFieldAppend(x[0], sep, Split(x[1..], sep), Split(y, sep));
    }
  }

  /** Splitting a join of separator-free fields gives back the fields. */
  lemma {:induction false} SplitJoin(parts: seq<string>, sep: char)
    requires |parts| >= 1
    requires forall i :: 0 <= i < |parts| ==> sep !in parts[i]
    ensures Split(Join(parts, sep), sep) == parts
  {
    if |parts| == 1 {
      SplitNoSeparator(parts[0], sep);
    } else {
      SplitJoin(parts[1..], sep);
      SplitNoSeparator(parts[0], sep);
      SplitAround(parts[0], sep, Join(parts[1..], sep));
      assert parts == [parts[0]] + parts[1..];
    }
  }

  /** Position of the first occurrence of `c` in `s`. */
  function IndexOf(s: string, c: char): (k: nat)
    requires c in s
    ensures k < |s| && s[k] == c && c !in s[..k]
  {
    if s[0] == c then 0 else 1 + IndexOf(s[1..], c)
  }

  /** C#'s `s.Split(sep, count)`: at most `count` substrings, the last one holding
      the remainder of the string, separators included. */
  function SplitLimit(s: string, sep: char, count: nat): (r: seq<string>)
    requires count >= 1
    ensures 1 <= |r| <= count
    decreases count
  {
    if count == 1 || sep !in s then [s]
    else
      var k := IndexOf(s, sep);
      [s[..k]] + SplitLimit(s[k + 1..], sep, count - 1)
  }

  /** The full split, cut at the first separator. */
  lemma SplitAtFirst(s: string, sep: char)
    requires sep in s
    ensures Split(s, sep) == [s[..IndexOf(s, sep)]] + Split(s[IndexOf(s, sep) + 1..], sep)
  {
    var k := IndexOf(s, sep);
    assert s == s[..k] + [sep] + s[k + 1..];
    SplitAround(s[..k], sep, s[k + 1..]);
    SplitNoSeparator(s[..k], sep);
  }

  /** The bounded split agrees with the full split: the same fields while the
      count lasts, then the remaining fields joined back into the last one. */
  lemma {:induction false} SplitLimitAgrees(s: string, sep: char, count: nat)
    requires count >= 1
    ensures |Split(s, sep)| <= count ==> SplitLimit(s, sep, count) == Split(s, sep)
    ensures |Split(s, sep)| > count ==>
      SplitLimit(s, sep, count) == Split(s, sep)[..count - 1] + [Join(Split(s, sep)[count - 1..], sep)]
    decreases count, 2
  {
    if sep !in s {
      SplitNoSeparator(s, sep);
    } else if count == 1 {
      SplitLimitOne(s, sep);
    } else if |Split(s, sep)| <= count {
      SplitLimitStepShort(s, sep, count);
    } else {
      SplitLimitStepLong(s, sep, count);
    }
  }

  lemma SplitLimitOne(s: string, sep: char)
    ensures |Split(s, sep)| <= 1 ==> SplitLimit(s, sep, 1) == Split(s, sep)
    ensures |Split(s, sep)| > 1 ==> SplitLimit(s, sep, 1) == Split(s, sep)[..0] + [Join(Split(s, sep)[0..], sep)]
  {
    var p := Split(s, sep);
    JoinSplit(s, sep);
    assert SplitLimit(s, sep, 1) == [s];
    assert p[0..] == p;
    if |p| <= 1 {
      assert p == [p[0]];
    }
  }

  lemma {:induction false} SplitLimitStepShort(s: string, sep: char, count: nat)
    requires count >= 2 && sep in s && |Split(s, sep)| <= count
    ensures SplitLimit(s, sep, count) == Split(s, sep)
    decreases count, 1
  {
    var k := IndexOf(s, sep);
    SplitLimitUnfold(s, sep, count);
    SplitAtFirst(s, sep);
    SplitLimitShort(s[k + 1..], sep, count - 1);
  }

  lemma {:induction false} SplitLimitStepLong(s: string, sep: char, count: nat)
    requires count >= 2 && sep in s && |Split(s, sep)| > count
    ensures SplitLimit(s, sep, count) == Split(s, sep)[..count - 1] + [Join(Split(s, sep)[count - 1..], sep)]
    decreases count, 1
  {
    var k := IndexOf(s, sep);
    var h, q := s[..k], Split(s[k + 1..], sep);
    assert Split(s, sep) == [h] + q by {
      SplitAtFirst(s, sep);
    }
    var front, last := q[..count - 2], Join(q[count - 2..], sep);
    assert SplitLimit(s, sep, count) == [h] + (front + [last]) by {
      SplitLimitUnfold(s, sep, count);
      SplitLimitLong(s[k + 1..], sep, count - 1);
    }
    ConsSlices(h, q, count - 1);
    assert [h] + (front + [last]) == ([h] + front) + [last];
  }

  lemma {:induction false} SplitLimitShort(s: string, sep: char, count: nat)
    requires count >= 1 && |Split(s, sep)| <= count
    ensures SplitLimit(s, sep, count) == Split(s, sep)
    decreases count, 3
  {
    SplitLimitAgrees(s, sep, count);
  }

  lemma {:induction false} SplitLimitLong(s: string, sep: char, count: nat)
    requires count >= 1 && |Split(s, sep)| > count
    ensures SplitLimit(s, sep, count) == Split(s, sep)[..count - 1] + [Join(Split(s, sep)[count - 1..], sep)]
    decreases count, 3
  {
    SplitLimitAgrees(s, sep, count);
  }

  lemma SplitLimitUnfold(s: string, sep: char, count: nat)
    requires count >= 2 && sep in s
    ensures SplitLimit(s, sep, count) == [s[..IndexOf(s, sep)]] + SplitLimit(s[IndexOf(s, sep) + 1..], sep, count - 1)
  {
  }

  lemma ConsSlices(h: string, q: seq<string>, n: nat)
    requires 1 <= n <= |q|
    ensures ([h] + q)[..n] == [h] + q[..n - 1]
    ensures ([h] + q)[n..] == q[n - 1..]
  {
  }

  /** The first separator after a separator-free prefix is the one right after it. */
  lemma {:induction false} IndexOfAfter(a: string, sep: char, t: string)
    requires sep !in a
    ensures IndexOf(a + [sep] + t, sep) == |a|
  {
    if a != [] {
      assert (a + [sep] + t)[1..] == a[1..] + [sep] + t;
      IndexOfAfter(a[1..], sep, t);
    }
  }

  /** A separator-free field followed by the separator comes off a split whole. */
  lemma SplitField(x: string, sep: char, t: string)
    requires sep !in x
    ensures Split(x + [sep] + t, sep) == [x] + Split(t, sep)
  {
    SplitAround(x, sep, t);
    SplitNoSeparator(x, sep);
  }

  /** Two leading separator-free fields come off a split one after the other. */
  lemma SplitTwoLeading(a: string, b: string, sep: char, rest: string)
    requires sep !in a && sep !in b
    ensures Split(a + [sep] + b + [sep] + rest, sep) == [a, b] + Split(rest, sep)
  {
    var tail := b + [sep] + rest;
    Reassociate(a, [sep], b, rest);
    SplitField(b, sep, rest);
    SplitField(a, sep, tail);
  }

  /** A string made of two separator-free fields and a rest splits, bounded by
      three, into exactly those three pieces. */
  lemma SplitLimitThree(a: string, b: string, sep: char, rest: string)
    requires sep !in a && sep !in b
    ensures SplitLimit(a + [sep] + b + [sep] + rest, sep, 3) == [a, b, rest]
  {
    var t := b + [sep] + rest;
    assert a + [sep] + b + [sep] + rest == a + [sep] + t;
    SplitLimitCons(a, sep, t, 3);
    SplitLimitCons(b, sep, rest, 2);
    assert SplitLimit(rest, sep, 1) == [rest];
  }

  /** A separator-free field and a separator come off the front as one part. */
  lemma SplitLimitCons(x: string, sep: char, t: string, count: nat)
    requires sep !in x && count >= 2
    ensures SplitLimit(x + [sep] + t, sep, count) == [x] + SplitLimit(t, sep, count - 1)
  {
    var s := x + [sep] + t;
    IndexOfAfter(x, sep, t);
    assert s[|x|] == sep;
    assert s[..|x|] == x && s[|x| + 1..] == t;
    SplitLimitUnfold(s, sep, count);
  }

  /** The characters Python's `str.isspace` accepts, which `str.strip()` removes. */
  predicate IsSpace(c: char)
  {
    || c == ' '
    || '\t' <= c <= '\r'
    || '\U{1c}' <= c <= '\U{1f}'
    || c == '\U{85}' || c == '\U{a0}' || c == '\U{1680}'
    || '\U{2000}' <= c <= '\U{200a}'
    || c == '\U{2028}' || c == '\U{2029}' || c == '\U{202f}' || c == '\U{205f}'
    || c == '\U{3000}'
  }

  /** `s` without its leading white space. */
  function TrimStart(s: string): (r: string)
    ensures |r| <= |s| && r == s[|s| - |r|..]
    ensures forall i :: 0 <= i < |s| - |r| ==> IsSpace(s[i])
    ensures r != [] ==> !IsSpace(r[0])
  {
    if s != [] && IsSpace(s[0]) then TrimStart(s[1..]) else s
  }

  /** `s` without its trailing white space. */
  function TrimEnd(s: string): (r: string)
    ensures |r| <= |s| && r == s[..|r|]
    ensures forall i :: |r| <= i < |s| ==> IsSpace(s[i])
    ensures r != [] ==> !IsSpace(r[|r| - 1])
  {
    if s != [] && IsSpace(s[|s| - 1]) then TrimEnd(s[..|s| - 1]) else s
  }

  /** How many white-space characters `s` starts with. */
  function LeadingSpaces(s: string): nat
  {
    |s| - |TrimStart(s)|
  }

  /** Python's `s.strip()`: the slice of `s` left once the white space on both
      ends is removed. Everything before it and after it is white space, and it
      neither starts nor ends with white space. */
  function Strip(s: string): (r: string)
    ensures LeadingSpaces(s) + |r| <= |s|
    ensures r == s[LeadingSpaces(s)..LeadingSpaces(s) + |r|]
    ensures forall i :: 0 <= i < LeadingSpaces(s) ==> IsSpace(s[i])
    ensures forall i :: LeadingSpaces(s) + |r| <= i < |s| ==> IsSpace(s[i])
    ensures r != [] ==> !IsSpace(r[0]) && !IsSpace(r[|r| - 1])
  {
    var t := TrimStart(s);
    var r := TrimEnd(t);
    TrimmedSlice(s, t, r);
    r
  }

  /** Cutting a prefix of a suffix of `s` leaves a slice of `s`; what the second
      cut removed from the suffix sits at the end of `s`. */
  lemma TrimmedSlice(s: string, t: string, r: string)
    requires |t| <= |s| && t == s[|s| - |t|..]
    requires |r| <= |t| && r == t[..|r|]
    requires forall i :: |r| <= i < |t| ==> IsSpace(t[i])
    ensures r == s[|s| - |t|..|s| - |t| + |r|]
    ensures forall i :: |s| - |t| + |r| <= i < |s| ==> IsSpace(s[i])
  {
    var a := |s| - |t|;
    forall i | a + |r| <= i < |s| ensures IsSpace(s[i]) {
      assert s[i] == t[i - a];
    }
  }
}
