/** The JavaScript string operations the core relies on: `startsWith`,
    `endsWith`, `trim`, `split` on one character, `join`, and template literals. */
module Strings {

  predicate StartsWith(s: string, prefix: string) {
    |prefix| <= |s| && s[..|prefix|] == prefix
  }

  predicate EndsWith(s: string, suffix: string) {
    |suffix| <= |s| && s[|s| - |suffix|..] == suffix
  }

  /** The ECMAScript WhiteSpace and LineTerminator code points: what `trim` removes. */
  predicate IsJsWhitespace(c: char) {
    || c == '\t' || c == '\U{000B}' || c == '\U{000C}' || c == ' ' || c == '\U{00A0}' || c == '\U{FEFF}'
    || c == '\n' || c == '\r' || c == '\U{2028}' || c == '\U{2029}'
    || c == '\U{1680}' || ('\U{2000}' <= c <= '\U{200A}') || c == '\U{202F}' || c == '\U{205F}' || c == '\U{3000}'
  }

  /** Drops leading whitespace: the result is a suffix of `s` and only whitespace was dropped. */
  function TrimStart(s: string): (r: string)
    ensures |r| <= |s| && r == s[|s| - |r|..]
    ensures forall k :: 0 <= k < |s| - |r| ==> IsJsWhitespace(s[k])
    ensures r == [] || !IsJsWhitespace(r[0])
    decreases |s|
  {
    if s != [] && IsJsWhitespace(s[0]) then TrimStart(s[1..]) else s
  }

  /** Drops trailing whitespace: the result is a prefix of `s` and only whitespace was dropped. */
  function TrimEnd(s: string): (r: string)
    ensures |r| <= |s| && r == s[..|r|]
    ensures forall k :: |r| <= k < |s| ==> IsJsWhitespace(s[k])
    ensures r == [] || !IsJsWhitespace(r[|r| - 1])
    decreases |s|
  {
    if s != [] && IsJsWhitespace(s[|s| - 1]) then TrimEnd(s[..|s| - 1]) else s
  }

  /** `String.prototype.trim`: the slice of `s` between its leading and trailing
      whitespace, which itself neither starts nor ends with whitespace. */
  function Trim(s: string): (r: string)
    ensures |r| <= |s|
    ensures r == [] || (!IsJsWhitespace(r[0]) && !IsJsWhitespace(r[|r| - 1]))
    ensures var i := |s| - |TrimStart(s)|;
      && i + |r| <= |s|
      && r == s[i..i + |r|]
      && (forall k :: 0 <= k < i ==> IsJsWhitespace(s[k]))
      && (forall k :: i + |r| <= k < |s| ==> IsJsWhitespace(s[k]))
  {
    TrimEnd(TrimStart(s))
  }

  /** A string that neither starts nor ends with whitespace is its own trim. */
  lemma TrimUnchanged(s: string)
    requires s == [] || (!IsJsWhitespace(s[0]) && !IsJsWhitespace(s[|s| - 1]))
    ensures Trim(s) == s
  {
  }

  lemma TrimIdempotent(s: string)
    ensures Trim(Trim(s)) == Trim(s)
  {
    TrimUnchanged(Trim(s));
  }

  /** `parts.join(sep)`. */
  function JoinWith(parts: seq<string>, sep: string): string
    decreases |parts|
  {
    if |parts| == 0 then []
    else if |parts| == 1 then parts[0]
    else parts[0] + sep + JoinWith(parts[1..], sep)
  }

  /** `s.split(sep)` for a one-character separator: at least one piece, and no piece holds `sep`. */
  function Split(s: string, sep: char): (parts: seq<string>)
    ensures |parts| >= 1
    ensures |parts| == 1 <==> sep !in s
    ensures forall k :: 0 <= k < |parts| ==> sep !in parts[k]
    decreases |s|
  {
    if s == [] then [[]]
    else
      var rest := Split(s[1..], sep);
      if s[0] == sep then [[]] + rest
      else [[s[0]] + rest[0]] + rest[1..]
  }

  /** Joining the pieces of a split with the separator gives back the string. */
  lemma {:induction false} JoinSplit(s: string, sep: char)
    ensures JoinWith(Split(s, sep), [sep]) == s
    decreases |s|
  {
    if s != [] {
      var rest := Split(s[1..], sep);
      JoinSplit(s[1..], sep);
      if s[0] == sep {
        assert Split(s, sep) == [[]] + rest;
        assert s == [] + [sep] + s[1..];
      } else {
        var parts := [[s[0]] + rest[0]] + rest[1..];
        assert Split(s, sep) == parts;
        if |rest| == 1 {
          assert JoinWith(rest, [sep]) == rest[0];
        } else {
          assert JoinWith(rest, [sep]) == rest[0] + [sep] + JoinWith(rest[1..], [sep]);
          assert parts[1..] == rest[1..];
        }
      }
    }
  }

  lemma {:induction false} SplitWithoutSeparator(a: string, sep: char)
    requires sep !in a
    ensures Split(a, sep) == [a]
    decreases |a|
  {
    if a != [] {
      SplitWithoutSeparator(a[1..], sep);
      assert Split(a, sep) == [[a[0]] + a[1..]];
      assert [a[0]] + a[1..] == a;
    }
  }

  lemma {:induction false} SplitAtSeparator(a: string, b: string, sep: char)
    requires sep !in a
    ensures Split(a + [sep] + b, sep) == [a] + Split(b, sep)
    decreases |a|
  {
    var s := a + [sep] + b;
    if a == [] {
      assert s[1..] == b;
    } else {
      assert s[1..] == a[1..] + [sep] + b;
      SplitAtSeparator(a[1..], b, sep);
      var rest := Split(s[1..], sep);
      assert rest == [a[1..]] + Split(b, sep);
      assert Split(s, sep) == [[a[0]] + rest[0]] + rest[1..];
      assert [a[0]] + a[1..] == a;
    }
  }

  /** Splitting the join of separator-free pieces gives back the pieces. */
  lemma {:induction false} SplitJoin(parts: seq<string>, sep: char)
    requires |parts| >= 1
    requires forall k :: 0 <= k < |parts| ==> sep !in parts[k]
    ensures Split(JoinWith(parts, [sep]), sep) == parts
    decreases |parts|
  {
    if |parts| == 1 {
      SplitWithoutSeparator(parts[0], sep);
    } else {
      SplitAtSeparator(parts[0], JoinWith(parts[1..], [sep]), sep);
      SplitJoin(parts[1..], sep);
    }
  }

  /** A template literal: the literal chunks `lits` interleaved with the substituted `vals`. */
  function Fill(lits: seq<string>, vals: seq<string>): string
    requires |lits| == |vals| + 1
    decreases |vals|
  {
    if vals == [] then lits[0] else lits[0] + vals[0] + Fill(lits[1..], vals[1..])
  }

  /** Where the `k`-th substitution begins in `Fill(lits, vals)`. */
  function SlotStart(lits: seq<string>, vals: seq<string>, k: nat): nat
    requires |lits| == |vals| + 1 && k < |vals|
    decreases k
  {
    |lits[0]| + if k == 0 then 0 else |vals[0]| + SlotStart(lits[1..], vals[1..], k - 1)
  }

  lemma {:induction false} FillStartsWithFirstChunk(lits: seq<string>, vals: seq<string>)
    requires |lits| == |vals| + 1
    ensures |lits[0]| <= |Fill(lits, vals)| && Fill(lits, vals)[..|lits[0]|] == lits[0]
  {
  }

  /** A template literal ends with its last literal chunk. */
  lemma {:induction false} FillEndsWithLastChunk(lits: seq<string>, vals: seq<string>)
    requires |lits| == |vals| + 1
    ensures EndsWith(Fill(lits, vals), lits[|lits| - 1])
    decreases |vals|
  {
    if vals != [] {
      FillEndsWithLastChunk(lits[1..], vals[1..]);
      var q := Fill(lits[1..], vals[1..]);
      var last := lits[|lits| - 1];
      assert lits[1..][|lits[1..]| - 1] == last;
      var p := lits[0] + vals[0] + q;
      assert p[|p| - |last|..] == q[|q| - |last|..];
    }
  }

  lemma SliceAfterPrefix(a: string, q: string, x: nat, y: nat)
    requires x <= y <= |q|
    ensures (a + q)[|a| + x..|a| + y] == q[x..y]
  {
  }

  /** The `k`-th substitution appears verbatim at its slot, right after the `k`-th
      chunk and right before the next one. */
  lemma {:induction false} FillSlot(lits: seq<string>, vals: seq<string>, k: nat)
    requires |lits| == |vals| + 1 && k < |vals|
    ensures var p, i := Fill(lits, vals), SlotStart(lits, vals, k);
      && |lits[k]| <= i && i + |vals[k]| + |lits[k + 1]| <= |p|
      && p[i - |lits[k]|..i] == lits[k]
      && p[i..i + |vals[k]|] == vals[k]
      && p[i + |vals[k]|..i + |vals[k]| + |lits[k + 1]|] == lits[k + 1]
    decreases k
  {
    var q := Fill(lits[1..], vals[1..]);
    var a := lits[0] + vals[0];
    assert Fill(lits, vals) == a + q;
    if k == 0 {
      FillStartsWithFirstChunk(lits[1..], vals[1..]);
      SliceAfterPrefix(a, q, 0, |lits[1]|);
      assert (a + q)[..|lits[0]|] == lits[0];
      assert (a + q)[|lits[0]|..|a|] == vals[0];
    } else {
      var j := SlotStart(lits[1..], vals[1..], k - 1);
      FillSlot(lits[1..], vals[1..], k - 1);
      assert SlotStart(lits, vals, k) == |a| + j;
      SliceAfterPrefix(a, q, j - |lits[k]|, j);
      SliceAfterPrefix(a, q, j, j + |vals[k]|);
      SliceAfterPrefix(a, q, j + |vals[k]|, j + |vals[k]| + |lits[k + 1]|);
    }
  }

  /** Slots come in order: each one starts after the previous value and the chunk that follows it. */
  lemma {:induction false} SlotStartNext(lits: seq<string>, vals: seq<string>, k: nat)
    requires |lits| == |vals| + 1 && k + 1 < |vals|
    ensures SlotStart(lits, vals, k + 1) == SlotStart(lits, vals, k) + |vals[k]| + |lits[k + 1]|
    decreases k
  {
    if k > 0 {
      SlotStartNext(lits[1..], vals[1..], k - 1);
    }
  }

  /** Text whose slice `p[lo..hi]` is `chunk` holds the end of `chunk` just before `hi`. */
  lemma SliceEnd(p: string, lo: nat, hi: nat, chunk: string, tail: string)
    requires lo <= hi <= |p| && p[lo..hi] == chunk
    requires |tail| <= |chunk| && chunk[|chunk| - |tail|..] == tail
    ensures |tail| <= hi && p[hi - |tail|..hi] == tail
  {
    assert p[hi - |tail|..hi] == p[lo..hi][|chunk| - |tail|..];
  }

  /** Text whose slice `p[lo..hi]` is `chunk` holds the start of `chunk` from `lo` on. */
  lemma SliceStart(p: string, lo: nat, hi: nat, chunk: string, head: string)
    requires lo <= hi <= |p| && p[lo..hi] == chunk
    requires |head| <= |chunk| && chunk[..|head|] == head
    ensures lo + |head| <= |p| && p[lo..lo + |head|] == head
  {
    assert p[lo..lo + |head|] == p[lo..hi][..|head|];
  }

  /** When the chunk before a substitution ends with `before` and the chunk after
      it starts with `after`, the substituted value sits between the two. */
  lemma FillSlotFramed(lits: seq<string>, vals: seq<string>, k: nat, before: string, after: string)
    requires |lits| == |vals| + 1 && k < |vals|
    requires |before| <= |lits[k]| && lits[k][|lits[k]| - |before|..] == before
    requires |after| <= |lits[k + 1]| && lits[k + 1][..|after|] == after
    ensures var p, i := Fill(lits, vals), SlotStart(lits, vals, k);
      && |before| <= i && i + |vals[k]| + |after| <= |p|
      && p[i - |before|..i] == before
      && p[i..i + |vals[k]|] == vals[k]
      && p[i + |vals[k]|..i + |vals[k]| + |after|] == after
  {
    var p, i := Fill(lits, vals), SlotStart(lits, vals, k);
    FillSlot(lits, vals, k);
    SliceEnd(p, i - |lits[k]|, i, lits[k], before);
    SliceStart(p, i + |vals[k]|, i + |vals[k]| + |lits[k + 1]|, lits[k + 1], after);
  }
}
