/**
 * The Python `str` operations the backup code relies on, on `seq<char>`:
 * `startswith`, `endswith`, `in`, `find`, `split`, `join`, `replace`,
 * `lower`, `strip`, and the ordering `<` used by `max`, `sorted` and `>`.
 */
module Strings {
  import opened Base

  predicate StartsWith(s: string, p: string)
  {
    |p| <= |s| && s[..|p|] == p
  }

  predicate EndsWith(s: string, p: string)
  {
    |p| <= |s| && s[|s| - |p|..] == p
  }

  /** Python's `p in s` for strings. */
  predicate Contains(s: string, p: string)
    decreases |s|
  {
    StartsWith(s, p) || (|s| > 0 && Contains(s[1..], p))
  }

  lemma {:induction false} ContainsAt(s: string, p: string, i: nat)
    requires i + |p| <= |s| && s[i..i + |p|] == p
    ensures Contains(s, p)
    decreases i
  {
    if i > 0 {
      assert s[1..][i - 1..i - 1 + |p|] == s[i..i + |p|];
      ContainsAt(s[1..], p, i - 1);
    }
  }

  /** `Contains(b, p)` carries over to any string that ends with `b`. */
  lemma {:induction false} ContainsInSuffix(a: string, b: string, p: string)
    requires Contains(b, p)
    ensures Contains(a + b, p)
    decreases |a|
  {
    if |a| > 0 {
      assert (a + b)[1..] == a[1..] + b;
      ContainsInSuffix(a[1..], b, p);
    } else {
      assert a + b == b;
    }
  }

  /** Only a string at least as long as `p` holds `p`. */
  lemma {:induction false} ContainsShorter(s: string, p: string)
    ensures Contains(s, p) ==> |p| <= |s|
    decreases |s|
  {
    if |s| > 0 {
      ContainsShorter(s[1..], p);
    }
  }

  lemma {:induction false} ContainsInPrefix(a: string, b: string, p: string)
    requires Contains(a, p)
    ensures Contains(a + b, p)
    decreases |a|
  {
    if !StartsWith(a, p) {
      assert (a + b)[1..] == a[1..] + b;
      ContainsInPrefix(a[1..], b, p);
    } else {
      assert (a + b)[..|p|] == a[..|p|];
    }
  }

  /** A string holding `x` holds everything `x` holds. */
  lemma {:induction false} ContainsTransitive(s: string, x: string, p: string)
    requires Contains(s, x) && Contains(x, p)
    ensures Contains(s, p)
    decreases |s|
  {
    if StartsWith(s, x) {
      assert s == x + s[|x|..];
      ContainsInPrefix(x, s[|x|..], p);
    } else {
      ContainsTransitive(s[1..], x, p);
    }
  }

  /** `any(s.startswith(p) for p in prefixes)`. */
  function StartsWithAny(s: string, prefixes: seq<string>): (r: bool)
    ensures r <==> exists i :: 0 <= i < |prefixes| && StartsWith(s, prefixes[i])
    decreases |prefixes|
  {
    |prefixes| > 0 && (StartsWith(s, prefixes[0]) || StartsWithAny(s, prefixes[1..]))
  }

  /** `p in a + p + b`: a string contains every piece written into it. */
  lemma ContainsInfix(a: string, p: string, b: string)
    ensures Contains(a + p + b, p)
  {
    assert (a + p + b)[|a|..|a| + |p|] == p;
    ContainsAt(a + p + b, p, |a|);
  }

  /** Python's `s.find(p)`: the first index where `p` occurs, or None for -1. */
  function Find(s: string, p: string): (r: Option<nat>)
    ensures r.Some? <==> Contains(s, p)
    ensures r.Some? ==> r.value + |p| <= |s| && s[r.value..r.value + |p|] == p
    ensures r.Some? ==> forall j :: 0 <= j < r.value ==> !StartsWith(s[j..], p)
    decreases |s|
  {
    if StartsWith(s, p) then Some(0)
    else if |s| == 0 then None
    else match Find(s[1..], p)
      case None => None
      case Some(i) =>
        assert s[1..][i..i + |p|] == s[i + 1..i + 1 + |p|];
        NoEarlierStartShift(s, p, i);
        Some(i + 1)
  }

  /** Where `p` starts nowhere before `i` in the tail, it starts nowhere from 1 to `i` in the whole. */
  lemma NoEarlierStartShift(s: string, p: string, i: nat)
    requires |s| > 0 && i < |s|
    requires forall j :: 0 <= j < i ==> !StartsWith(s[1..][j..], p)
    ensures forall j :: 1 <= j < i + 1 ==> !StartsWith(s[j..], p)
  {
    forall j | 1 <= j < i + 1
      ensures !StartsWith(s[j..], p)
    {
      assert s[j..] == s[1..][j - 1..];
    }
  }

  /** Python's `c in s` for a single character. */
  function CharIndex(s: string, c: char): (r: Option<nat>)
    ensures r.Some? <==> c in s
    ensures r.Some? ==> r.value < |s| && s[r.value] == c && c !in s[..r.value]
  {
    if |s| == 0 then None
    else if s[0] == c then Some(0)
    else match CharIndex(s[1..], c)
      case None => None
      case Some(i) =>
        assert s[..i + 1] == [s[0]] + s[1..][..i];
        Some(i + 1)
  }

  // ---------------------------------------------------------------------
  // split / join on a single-character separator

  /** Python's `s.split(c)`: always at least one piece, none containing `c`. */
  function Split(s: string, c: char): (r: seq<string>)
    ensures |r| >= 1
    decreases |s|
  {
    if |s| == 0 then [""]
    else
      var rest := Split(s[1..], c);
      if s[0] == c then [""] + rest else [[s[0]] + rest[0]] + rest[1..]
  }

  /** Python's `c.join(parts)`. */
  function Join(parts: seq<string>, c: char): string
    decreases |parts|
  {
    if |parts| == 0 then ""
    else if |parts| == 1 then parts[0]
    else parts[0] + [c] + Join(parts[1..], c)
  }

  predicate NoSep(parts: seq<string>, c: char)
  {
    forall i :: 0 <= i < |parts| ==> c !in parts[i]
  }

  lemma {:induction false} SplitPiecesFree(s: string, c: char)
    ensures NoSep(Split(s, c), c)
    decreases |s|
  {
    if |s| > 0 {
      SplitPiecesFree(s[1..], c);
    }
  }

  /** Joining the pieces of a split gives the original string back. */
  lemma {:induction false} JoinSplit(s: string, c: char)
    ensures Join(Split(s, c), c) == s
    decreases |s|
  {
    if |s| > 0 {
      var rest := Split(s[1..], c);
      JoinSplit(s[1..], c);
      if s[0] == c {
        assert Split(s, c) == [""] + rest;
        assert Join([""] + rest, c) == "" + [c] + Join(rest, c);
        assert s == [s[0]] + s[1..];
      } else {
        var r := [[s[0]] + rest[0]] + rest[1..];
        assert Split(s, c) == r;
        if |rest| == 1 {
          assert Join(r, c) == [s[0]] + rest[0];
          assert Join(rest, c) == rest[0];
        } else {
          assert rest == [rest[0]] + rest[1..];
          assert Join(rest, c) == rest[0] + [c] + Join(rest[1..], c);
          assert Join(r, c) == ([s[0]] + rest[0]) + [c] + Join(r[1..], c);
          assert r[1..] == rest[1..];
        }
        assert s == [s[0]] + s[1..];
      }
    }
  }

  /** A string without the separator splits into itself. */
  lemma {:induction false} SplitNoSep(s: string, c: char)
    requires c !in s
    ensures Split(s, c) == [s]
    decreases |s|
  {
    if |s| > 0 {
      SplitNoSep(s[1..], c);
      assert [s[0]] + s[1..] == s;
    }
  }

  /** Splitting at a separator splits the two sides independently. */
  lemma {:induction false} SplitAround(a: string, b: string, c: char)
    ensures Split(a + [c] + b, c) == Split(a, c) + Split(b, c)
    decreases |a|
  {
    if |a| == 0 {
      assert a + [c] + b == [c] + b;
      assert ([c] + b)[1..] == b;
    } else {
      var t := a + [c] + b;
      assert t[0] == a[0] && t[1..] == a[1..] + [c] + b;
      SplitAround(a[1..], b, c);
      var x, y := Split(a[1..], c), Split(b, c);
      if a[0] == c {
        assert Split(t, c) == [""] + (x + y);
      } else {
        assert (x + y)[0] == x[0] && (x + y)[1..] == x[1..] + y;
        assert Split(t, c) == [[a[0]] + x[0]] + (x[1..] + y);
      }
    }
  }

  /** Splitting a join of separator-free pieces gives the pieces back. */
  lemma {:induction false} SplitJoin(parts: seq<string>, c: char)
    requires |parts| >= 1 && NoSep(parts, c)
    ensures Split(Join(parts, c), c) == parts
    decreases |parts|
  {
    if |parts| == 1 {
      SplitNoSep(parts[0], c);
    } else {
      SplitJoin(parts[1..], c);
      SplitNoSep(parts[0], c);
      SplitAround(parts[0], Join(parts[1..], c), c);
      assert parts == [parts[0]] + parts[1..];
    }
  }

  /** A string under the prefix `Join(parts) + c` splits into `parts` followed by more pieces. */
  lemma SplitUnderPrefix(s: string, parts: seq<string>, c: char)
    requires |parts| >= 1 && NoSep(parts, c) && StartsWith(s, Join(parts, c) + [c])
    ensures |Split(s, c)| > |parts| && Split(s, c)[..|parts|] == parts
  {
    var head := Join(parts, c);
    var rest := s[|head| + 1..];
    assert s == head + [c] + rest;
    SplitAround(head, rest, c);
    SplitJoin(parts, c);
  }

  /** Joining two non-empty runs of pieces puts one separator between them. */
  lemma {:induction false} JoinAppend(a: seq<string>, b: seq<string>, c: char)
    requires |a| >= 1 && |b| >= 1
    ensures Join(a + b, c) == Join(a, c) + [c] + Join(b, c)
    decreases |a|
  {
    if |a| == 1 {
      assert (a + b)[1..] == b;
    } else {
      assert (a + b)[1..] == a[1..] + b;
      JoinAppend(a[1..], b, c);
    }
  }

  /** Every piece of a join is a substring of it. */
  lemma {:induction false} JoinContainsPiece(parts: seq<string>, c: char, i: nat)
    requires i < |parts|
    ensures Contains(Join(parts, c), parts[i])
    decreases i
  {
    var j := Join(parts, c);
    if i == 0 {
      if |parts| > 1 {
        assert j == parts[0] + ([c] + Join(parts[1..], c));
      }
      assert j[..|parts[0]|] == parts[0];
      assert StartsWith(j, parts[0]);
    } else {
      JoinContainsPiece(parts[1..], c, i - 1);
      assert parts[1..][i - 1] == parts[i];
      ContainsInSuffix(parts[0] + [c], Join(parts[1..], c), parts[i]);
    }
  }

  // ---------------------------------------------------------------------
  // text after the last occurrence of a (multi-character) separator

  /** Python's `s.split(sep)[-1]` for a non-empty separator. */
  function AfterLast(s: string, sep: string): (r: string)
    requires |sep| > 0
    ensures |r| <= |s|
    ensures !Contains(s, sep) ==> r == s
    ensures EndsWith(s, r)
    decreases |s|
  {
    match Find(s, sep)
      case None => s
      case Some(i) =>
        var r := AfterLast(s[i + |sep|..], sep);
        assert s[|s| - |r|..] == s[i + |sep|..][|s[i + |sep|..]| - |r|..];
        r
  }

  // ---------------------------------------------------------------------
  // replace, case and whitespace

  /** Python's `s.replace(p, q)`: left-to-right, non-overlapping. */
  function ReplaceAll(s: string, p: string, q: string): (r: string)
    requires |p| > 0
    ensures !Contains(s, p) ==> r == s
    ensures |q| <= |p| ==> |r| <= |s|
    ensures |q| < |p| && Contains(s, p) ==> |r| < |s|
    decreases |s|
  {
    ContainsShorter(s, p);
    if |s| < |p| then s
    else if s[..|p|] == p then q + ReplaceAll(s[|p|..], p, q)
    else [s[0]] + ReplaceAll(s[1..], p, q)
  }

  function LowerChar(c: char): char
  {
    if 'A' <= c <= 'Z' then (c as int + 32) as char else c
  }

  /** Python's `s.lower()` on ASCII letters. */
  function Lower(s: string): (r: string)
    ensures |r| == |s|
    ensures forall i :: 0 <= i < |s| ==> r[i] == LowerChar(s[i])
  {
    seq(|s|, i requires 0 <= i < |s| => LowerChar(s[i]))
  }

  /** Python's `s.rstrip(chars)`: drop trailing characters of the set. */
  function RStrip(s: string, chars: set<char>): (r: string)
    ensures StartsWith(s, r)
    ensures |r| > 0 ==> r[|r| - 1] !in chars
    ensures forall i :: |r| <= i < |s| ==> s[i] in chars
    decreases |s|
  {
    if |s| > 0 && s[|s| - 1] in chars then
      var r := RStrip(s[..|s| - 1], chars);
      assert s[..|r|] == s[..|s| - 1][..|r|];
      r
    else s
  }

  /** Python's `s.lstrip(chars)`. */
  function LStrip(s: string, chars: set<char>): (r: string)
    ensures EndsWith(s, r)
    ensures |r| > 0 ==> r[0] !in chars
    ensures forall i :: 0 <= i < |s| - |r| ==> s[i] in chars
    decreases |s|
  {
    if |s| > 0 && s[0] in chars then
      var r := LStrip(s[1..], chars);
      assert s[|s| - |r|..] == s[1..][|s[1..]| - |r|..];
      r
    else s
  }

  /** Python's `s.strip(chars)`. */
  function StripChars(s: string, chars: set<char>): string
  {
    LStrip(RStrip(s, chars), chars)
  }

  const Whitespace: set<char> := {' ', '\t', '\n', '\r', 11 as char, 12 as char}

  /** Python's `s.strip()` (ASCII whitespace). */
  function Strip(s: string): string
  {
    StripChars(s, Whitespace)
  }

  /** `s.strip('"')`, used on S3 ETags. */
  function StripQuotes(s: string): (r: string)
    ensures |r| <= |s|
    ensures |r| > 0 ==> r[0] != '"' && r[|r| - 1] != '"'
  {
    var r := StripChars(s, {'"'});
    assert |r| > 0 ==> r[|r| - 1] == RStrip(s, {'"'})[|RStrip(s, {'"'})| - 1];
    r
  }

  // ---------------------------------------------------------------------
  // comma-separated lists

  /** Each piece with its surrounding whitespace removed. */
  function Trimmed(pieces: seq<string>): (r: seq<string>)
    ensures |r| == |pieces|
  {
    seq(|pieces|, i requires 0 <= i < |pieces| => Strip(pieces[i]))
  }

  /** The non-empty items, in order. */
  function NonEmpty(items: seq<string>): (r: seq<string>)
    ensures |r| <= |items|
    ensures forall x :: x in r <==> x in items && x != ""
  {
    if items == [] then []
    else
      var rest := NonEmpty(items[..|items| - 1]);
      var last := items[|items| - 1];
      assert items == items[..|items| - 1] + [last];
      if last != "" then rest + [last] else rest
  }

  /** The trimmed, non-empty items of a comma-separated list, in order. */
  function CsvItems(pieces: seq<string>): seq<string>
  {
    NonEmpty(Trimmed(pieces))
  }

  /** One piece more adds its trimmed text at the end, unless that is empty. */
  lemma CsvItemsStep(pieces: seq<string>, i: nat)
    requires i < |pieces|
    ensures CsvItems(pieces[..i + 1])
            == CsvItems(pieces[..i]) + (if Strip(pieces[i]) != "" then [Strip(pieces[i])] else [])
  {
    var t := Trimmed(pieces[..i + 1]);
    assert t[..i] == Trimmed(pieces[..i]);
    assert t[i] == Strip(pieces[i]);
  }

  /** An item is listed exactly when some piece trims to it. */
  lemma CsvItemsMembers(pieces: seq<string>, x: string)
    ensures x in CsvItems(pieces) <==> x != "" && exists i :: 0 <= i < |pieces| && Strip(pieces[i]) == x
  {
    var t := Trimmed(pieces);
    if exists i :: 0 <= i < |pieces| && Strip(pieces[i]) == x {
      var i :| 0 <= i < |pieces| && Strip(pieces[i]) == x;
      assert t[i] == x;
    }
    if x in t {
      var i :| 0 <= i < |t| && t[i] == x;
      assert Strip(pieces[i]) == x;
    }
  }

  // ---------------------------------------------------------------------
  // the ordering of Python strings (by code point, lexicographic)

  predicate Less(a: string, b: string)
    decreases |a|
  {
    if |a| == 0 then |b| > 0
    else if |b| == 0 then false
    else if a[0] != b[0] then a[0] < b[0]
    else Less(a[1..], b[1..])
  }

  lemma {:induction false} LessIrreflexive(a: string)
    ensures !Less(a, a)
    decreases |a|
  {
    if |a| > 0 { LessIrreflexive(a[1..]); }
  }

  lemma {:induction false} LessTransitive(a: string, b: string, c: string)
    requires Less(a, b) && Less(b, c)
    ensures Less(a, c)
    decreases |a|
  {
    if |a| > 0 && |b| > 0 && |c| > 0 && a[0] == b[0] && b[0] == c[0] {
      LessTransitive(a[1..], b[1..], c[1..]);
    }
  }

  lemma {:induction false} LessTotal(a: string, b: string)
    ensures a == b || Less(a, b) || Less(b, a)
    decreases |a|
  {
    if |a| > 0 && |b| > 0 && a[0] == b[0] {
      LessTotal(a[1..], b[1..]);
      if a[1..] == b[1..] {
        assert a == [a[0]] + a[1..] && b == [b[0]] + b[1..];
      }
    }
  }

  lemma {:induction false} LessAsymmetric(a: string, b: string)
    ensures !(Less(a, b) && Less(b, a))
  {
    if Less(a, b) && Less(b, a) {
      LessTransitive(a, b, a);
      LessIrreflexive(a);
    }
  }

  predicate IsMinimum(m: string, s: set<string>)
  {
    m in s && forall x :: x in s && x != m ==> Less(m, x)
  }

  lemma {:induction false} MinimumExists(s: set<string>)
    requires s != {}
    ensures exists m :: IsMinimum(m, s)
    decreases |s|
  {
    var y :| y in s;
    var t := s - {y};
    if t == {} {
      assert s == {y};
      assert IsMinimum(y, s);
    } else {
      MinimumExists(t);
      var m :| IsMinimum(m, t);
      LessTotal(m, y);
      if Less(y, m) {
        forall x | x in s && x != y ensures Less(y, x) {
          if x != m { LessTransitive(y, m, x); }
        }
        assert IsMinimum(y, s);
      } else {
        assert IsMinimum(m, s);
      }
    }
  }

  lemma MinimumUnique(s: set<string>)
    ensures forall m, n :: IsMinimum(m, s) && IsMinimum(n, s) ==> m == n
  {
    forall m, n | IsMinimum(m, s) && IsMinimum(n, s) ensures m == n {
      LessAsymmetric(m, n);
    }
  }

  predicate StrictlySorted(r: seq<string>)
  {
    forall i, j :: 0 <= i < j < |r| ==> Less(r[i], r[j])
  }

  /** Python's `sorted(s)` for a set of strings. */
  function SortSet(s: set<string>): (r: seq<string>)
    ensures |r| == |s|
    ensures forall x :: x in r <==> x in s
    ensures StrictlySorted(r)
    decreases |s|
  {
    if s == {} then []
    else
      MinimumExists(s);
      MinimumUnique(s);
      var m :| IsMinimum(m, s);
      var rest := SortSet(s - {m});
      MinimumFirst(m, s, rest);
      [m] + rest
  }

  /** The minimum of a set, put before the sorted rest of it, keeps the order strict. */
  lemma MinimumFirst(m: string, s: set<string>, rest: seq<string>)
    requires IsMinimum(m, s) && StrictlySorted(rest)
    requires forall x :: x in rest <==> x in s - {m}
    ensures StrictlySorted([m] + rest)
  {
    var r := [m] + rest;
    forall i, j | 0 <= i < j < |r|
      ensures Less(r[i], r[j])
    {
      if i > 0 {
        assert r[i] == rest[i - 1] && r[j] == rest[j - 1];
      } else {
        assert r[j] == rest[j - 1] && rest[j - 1] in s - {m};
      }
    }
  }
}
