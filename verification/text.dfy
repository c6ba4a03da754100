/**
 * The JavaScript string operations the application relies on:
 * `String.prototype.trim`, `String.prototype.split` with a one-character
 * separator, `Array.prototype.filter` and the UTF-16 `length` of a string.
 */
module Text {
  import opened Common

  /**
   * The code points JavaScript's `trim` removes: the WhiteSpace and
   * LineTerminator productions of ECMAScript (section 12.2 and 12.3 of
   * ECMA-262).
   */
  predicate IsSpace(c: char)
  {
    || c == ' ' || c == '\t' || c == '\n' || c == '\r'
    || c == '\U{000B}' || c == '\U{000C}' || c == '\U{00A0}' || c == '\U{1680}'
    || ('\U{2000}' <= c <= '\U{200A}')
    || c == '\U{2028}' || c == '\U{2029}' || c == '\U{202F}' || c == '\U{205F}'
    || c == '\U{3000}' || c == '\U{FEFF}'
  }

  /** Every character of `s` is white space (the empty string is blank). */
  predicate Blank(s: string)
  {
    forall i :: 0 <= i < |s| ==> IsSpace(s[i])
  }

  /** `s` neither starts nor ends with white space. */
  predicate Trimmed(s: string)
  {
    s == [] || (!IsSpace(s[0]) && !IsSpace(s[|s| - 1]))
  }

  /**
   * Scans forward from `from` over white space: the index of the first
   * character at or after `from` that is not white space, or `|s|`.
   */
  function SkipSpace(s: string, from: nat): (k: nat)
    requires from <= |s|
    ensures from <= k <= |s|
    ensures forall i :: from <= i < k ==> IsSpace(s[i])
    ensures k < |s| ==> !IsSpace(s[k])
    decreases |s| - from
  {
    if from < |s| && IsSpace(s[from]) then SkipSpace(s, from + 1) else from
  }

  /**
   * Scans backward from `to`, no further than `lo`, over white space: the
   * index just past the last character before `to` that is not white space,
   * or `lo`.
   */
  function SkipSpaceBack(s: string, lo: nat, to: nat): (k: nat)
    requires lo <= to <= |s|
    ensures lo <= k <= to
    ensures forall i :: k <= i < to ==> IsSpace(s[i])
    ensures k > lo ==> !IsSpace(s[k - 1])
  {
    if lo < to && IsSpace(s[to - 1]) then SkipSpaceBack(s, lo, to - 1) else to
  }

  /** Any index that stops a forward scan is where `SkipSpace` stops. */
  lemma SkipSpaceAt(s: string, from: nat, k: nat)
    requires from <= k <= |s|
    requires forall i :: from <= i < k ==> IsSpace(s[i])
    requires k < |s| ==> !IsSpace(s[k])
    ensures SkipSpace(s, from) == k
  {
  }

  /** Any index that stops a backward scan is where `SkipSpaceBack` stops. */
  lemma SkipSpaceBackAt(s: string, lo: nat, to: nat, k: nat)
    requires lo <= k <= to <= |s|
    requires forall i :: k <= i < to ==> IsSpace(s[i])
    requires k > lo ==> !IsSpace(s[k - 1])
    ensures SkipSpaceBack(s, lo, to) == k
  {
  }

  /**
   * JavaScript's `s.trim()`: the part of `s` between its leading and its
   * trailing white space.
   */
  function Trim(s: string): (r: string)
    ensures Trimmed(r)
    ensures r == [] <==> Blank(s)
    ensures |r| <= |s|
  {
    var start := SkipSpace(s, 0);
    var end := SkipSpaceBack(s, start, |s|);
    assert start == end ==> Blank(s) by {
      if start == end {
        forall i | 0 <= i < |s| ensures IsSpace(s[i]) {
          assert i < start;
        }
      }
    }
    s[start..end]
  }

  /**
   * `Trim` keeps one contiguous run of `s`: white space before it, white
   * space after it, and `s` is the three put together.
   */
  lemma TrimSpan(s: string)
    ensures var k, r := SkipSpace(s, 0), Trim(s);
      && k + |r| <= |s|
      && s == s[..k] + r + s[k + |r|..]
      && Blank(s[..k]) && Blank(s[k + |r|..])
  {
    var k := SkipSpace(s, 0);
    var end := SkipSpaceBack(s, k, |s|);
    var r := Trim(s);
    assert r == s[k..end] && k + |r| == end;
    assert Blank(s[..k]) by {
      forall i | 0 <= i < k ensures IsSpace(s[..k][i]) {
        assert s[..k][i] == s[i];
      }
    }
    assert Blank(s[end..]) by {
      forall i | 0 <= i < |s| - end ensures IsSpace(s[end..][i]) {
        assert s[end..][i] == s[end + i];
      }
    }
    ThreeSlices(s, k, end);
  }

  /**
   * The converse of `TrimSpan`: however `s` splits into white space, a
   * trimmed middle and white space, that middle is what `Trim` returns.
   */
  lemma TrimOfPadded(p: string, r: string, q: string)
    requires Blank(p) && Trimmed(r) && Blank(q)
    ensures Trim(p + r + q) == r
  {
    var s := p + r + q;
    var start := if r == [] then |s| else |p|;
    forall i | 0 <= i < start ensures IsSpace(s[i]) {
      if i < |p| {
        assert s[i] == p[i];
      } else {
        assert s[i] == q[i - |p| - |r|];
      }
    }
    if r != [] {
      assert s[|p|] == r[0];
    }
    SkipSpaceAt(s, 0, start);
    var end := start + |r|;
    if r != [] {
      forall i | end <= i < |s| ensures IsSpace(s[i]) {
        assert s[i] == q[i - end];
      }
      assert s[end - 1] == r[|r| - 1];
      SkipSpaceBackAt(s, start, |s|, end);
      assert s[start..end] == r;
    } else {
      SkipSpaceBackAt(s, start, |s|, start);
    }
  }

  /** Trimming leaves an already trimmed string alone, so `trim` is idempotent. */
  lemma TrimOfTrimmed(s: string)
    requires Trimmed(s)
    ensures Trim(s) == s
  {
    TrimOfPadded([], s, []);
    assert [] + s + [] == s;
  }

  lemma TrimIdempotent(s: string)
    ensures Trim(Trim(s)) == Trim(s)
  {
    TrimOfTrimmed(Trim(s));
  }

  /**
   * JavaScript's `s.split(d)` for a one-character separator: the maximal
   * separator-free runs of `s`, so one more piece than there are separators
   * (the empty string splits into one empty piece).
   */
  function Split(s: string, d: char): (parts: seq<string>)
    ensures |parts| == multiset(s)[d] + 1
    ensures forall i :: 0 <= i < |parts| ==> d !in parts[i]
  {
    if s == [] then [[]]
    else
      var rest := Split(s[1..], d);
      assert s == [s[0]] + s[1..];
      if s[0] == d then [[]] + rest
      else [[s[0]] + rest[0]] + rest[1..]
  }

  /** JavaScript's `parts.join(d)`: the inverse of `Split`. */
  function Join(parts: seq<string>, d: char): string
  {
    if |parts| == 0 then []
    else if |parts| == 1 then parts[0]
    else parts[0] + [d] + Join(parts[1..], d)
  }

  /** Joining a first piece onto at least one more piece puts a separator between them. */
  lemma JoinCons(p: string, rest: seq<string>, d: char)
    requires |rest| >= 1
    ensures Join([p] + rest, d) == p + [d] + Join(rest, d)
  {
    ConsParts(p, rest);
  }

  /** Splitting loses nothing: joining the pieces gives back the string. */
  lemma {:induction false} JoinSplit(s: string, d: char)
    ensures Join(Split(s, d), d) == s
  {
    if s != [] {
      var rest := Split(s[1..], d);
      JoinSplit(s[1..], d);
      HeadTail(s);
      if s[0] == d {
        JoinCons([], rest, d);
      } else if |rest| == 1 {
        assert Split(s, d) == [[s[0]] + rest[0]];
      } else {
        var head := [s[0]] + rest[0];
        assert Split(s, d) == [head] + rest[1..];
        JoinCons(head, rest[1..], d);
        HeadTail(rest);
        JoinCons(rest[0], rest[1..], d);
        ConcatAssoc([s[0]], rest[0], [d] + Join(rest[1..], d));
        ConcatAssoc(head, [d], Join(rest[1..], d));
        ConcatAssoc(rest[0], [d], Join(rest[1..], d));
      }
    }
  }

  /** Splitting the join of separator-free pieces gives back the pieces. */
  lemma {:induction false} SplitJoin(parts: seq<string>, d: char)
    requires |parts| >= 1
    requires forall i :: 0 <= i < |parts| ==> d !in parts[i]
    ensures Split(Join(parts, d), d) == parts
  {
    if |parts| == 1 {
      SplitOfSeparatorFree(parts[0], d);
    } else {
      var tail := Join(parts[1..], d);
      SplitJoin(parts[1..], d);
      SplitPrefix(parts[0], tail, d);
    }
  }

  /** A separator-free string splits into itself. */
  lemma {:induction false} SplitOfSeparatorFree(s: string, d: char)
    requires d !in s
    ensures Split(s, d) == [s]
  {
    if s != [] {
      SplitOfSeparatorFree(s[1..], d);
      assert [s[0]] + s[1..] == s;
    }
  }

  /** A separator-free piece followed by a separator splits off as one piece. */
  lemma {:induction false} SplitPrefix(p: string, tail: string, d: char)
    requires d !in p
    ensures Split(p + [d] + tail, d) == [p] + Split(tail, d)
  {
    var s := p + [d] + tail;
    if p == [] {
      assert s[1..] == tail;
    } else {
      assert s[1..] == p[1..] + [d] + tail;
      SplitPrefix(p[1..], tail, d);
      assert [p[0]] + p[1..] == p;
    }
  }

  /** Every character of a joined string is the separator or a character of some piece. */
  lemma {:induction false} JoinChars(parts: seq<string>, d: char, k: nat)
    requires k < |Join(parts, d)|
    ensures Join(parts, d)[k] == d || exists i, j :: 0 <= i < |parts| && 0 <= j < |parts[i]| && parts[i][j] == Join(parts, d)[k]
  {
    if |parts| > 1 {
      var s := Join(parts, d);
      if k < |parts[0]| {
        assert s[k] == parts[0][k];
      } else if k > |parts[0]| {
        var k' := k - |parts[0]| - 1;
        assert s[k] == Join(parts[1..], d)[k'];
        JoinChars(parts[1..], d, k');
        if Join(parts[1..], d)[k'] != d {
          var i, j :| 0 <= i < |parts[1..]| && 0 <= j < |parts[1..][i]| && parts[1..][i][j] == s[k];
          assert parts[i + 1][j] == s[k];
        }
      }
    }
  }

  /** Every character of every piece of a split is a character of the string. */
  lemma {:induction false} SplitPieceChars(s: string, d: char, i: nat, j: nat)
    requires i < |Split(s, d)| && j < |Split(s, d)[i]|
    ensures Split(s, d)[i][j] in s
  {
    if s != [] {
      var rest := Split(s[1..], d);
      HeadTail(s);
      if s[0] == d {
        SplitPieceChars(s[1..], d, i - 1, j);
      } else if i == 0 {
        if j > 0 {
          SplitPieceChars(s[1..], d, 0, j - 1);
        }
      } else {
        SplitPieceChars(s[1..], d, i, j);
      }
    }
  }

  /**
   * Every piece of a split is blank exactly when the string consists of
   * separators and white space only.
   */
  lemma BlankPieces(s: string, d: char)
    ensures (forall k :: 0 <= k < |Split(s, d)| ==> Blank(Split(s, d)[k]))
        <==> (forall i :: 0 <= i < |s| ==> s[i] == d || IsSpace(s[i]))
  {
    var parts := Split(s, d);
    if forall i :: 0 <= i < |s| ==> s[i] == d || IsSpace(s[i]) {
      forall k, j | 0 <= k < |parts| && 0 <= j < |parts[k]| ensures IsSpace(parts[k][j]) {
        SplitPieceChars(s, d, k, j);
        assert d !in parts[k];
      }
    }
    if forall k :: 0 <= k < |parts| ==> Blank(parts[k]) {
      JoinSplit(s, d);
      forall i | 0 <= i < |s| ensures s[i] == d || IsSpace(s[i]) {
        JoinChars(parts, d, i);
      }
    }
  }

  /** JavaScript's `Array.prototype.filter`: the elements that `keep` accepts, in order. */
  function Filter<T>(s: seq<T>, keep: T -> bool): (r: seq<T>)
    ensures |r| <= |s|
    ensures forall i :: 0 <= i < |r| ==> keep(r[i]) && r[i] in s
    ensures r == [] <==> forall i :: 0 <= i < |s| ==> !keep(s[i])
    ensures Subsequence(r, s)
  {
    if s == [] then []
    else
      var rest := Filter(s[1..], keep);
      if keep(s[0]) then [s[0]] + rest
      else rest
  }

  /**
   * `Filter` keeps every accepted element as often as it occurs and drops
   * every rejected one.
   */
  lemma {:induction false} FilterCounts<T>(s: seq<T>, keep: T -> bool)
    ensures forall x :: multiset(Filter(s, keep))[x] == if keep(x) then multiset(s)[x] else 0
  {
    if s != [] {
      var rest := Filter(s[1..], keep);
      FilterCounts(s[1..], keep);
      assert s == [s[0]] + s[1..];
      assert multiset(s) == multiset{s[0]} + multiset(s[1..]);
      assert multiset([s[0]] + rest) == multiset{s[0]} + multiset(rest);
    }
  }

  /** `a` is `b` with some elements left out, the rest in their original order. */
  predicate Subsequence<T(==)>(a: seq<T>, b: seq<T>)
  {
    if a == [] then true
    else if b == [] then false
    else if a[0] == b[0] then Subsequence(a[1..], b[1..])
    else Subsequence(a, b[1..])
  }

  /** The number of UTF-16 code units that encode `s`: JavaScript's `s.length`. */
  function Utf16Length(s: string): (n: nat)
    ensures |s| <= n <= 2 * |s|
    ensures (forall i :: 0 <= i < |s| ==> s[i] as int <= 0xFFFF) ==> n == |s|
  {
    if s == [] then 0
    else (if s[0] as int > 0xFFFF then 2 else 1) + Utf16Length(s[1..])
  }

  /** One character takes two code units outside the Basic Multilingual Plane, one inside it. */
  lemma Utf16Char(c: char)
    ensures Utf16Length([c]) == if c as int > 0xFFFF then 2 else 1
  {
    assert [c][1..] == [];
  }

  /** Code units add up over concatenation; with `Utf16Char` this fixes the length of every string. */
  lemma {:induction false} Utf16Append(a: string, b: string)
    ensures Utf16Length(a + b) == Utf16Length(a) + Utf16Length(b)
  {
    if a == [] {
      assert a + b == b;
    } else {
      Utf16Append(a[1..], b);
      assert (a + b)[0] == a[0];
      assert (a + b)[1..] == a[1..] + b;
    }
  }
}
