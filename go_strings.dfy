/** The functions of Go's `strings` package that the bookstore uses, over ASCII.
    White space is Go's ASCII white space; case folding is ASCII case folding. */
module GoStrings {

  /** The six ASCII characters `strings.TrimSpace` removes. */
  predicate IsSpace(c: char) {
    c == ' ' || c == '\t' || c == '\n' || c == '\r' || c == '\U{0B}' || c == '\U{0C}'
  }

  predicate AllSpace(s: string) {
    forall i :: 0 <= i < |s| ==> IsSpace(s[i])
  }

  /** Neither end of `s` is white space. */
  predicate Trimmed(s: string) {
    |s| == 0 || (!IsSpace(s[0]) && !IsSpace(s[|s| - 1]))
  }

  /** Drops the leading white space of `s`. */
  function TrimLeft(s: string): (r: string)
    ensures |r| <= |s| && r == s[|s| - |r|..]
    ensures AllSpace(s[..|s| - |r|])
    ensures |r| > 0 ==> !IsSpace(r[0])
  {
    if |s| > 0 && IsSpace(s[0]) then TrimLeft(s[1..]) else s
  }

  /** Drops the trailing white space of `s`. */
  function TrimRight(s: string): (r: string)
    ensures |r| <= |s| && r == s[..|r|]
    ensures AllSpace(s[|r|..])
    ensures |r| > 0 ==> !IsSpace(r[|r| - 1])
  {
    if |s| > 0 && IsSpace(s[|s| - 1]) then TrimRight(s[..|s| - 1]) else s
  }

  /** `strings.TrimSpace`. */
  function TrimSpace(s: string): (r: string)
    ensures Trimmed(r)
  {
    var l := TrimLeft(s);
    var r := TrimRight(l);
    assert |r| > 0 ==> r[0] == l[0];
    r
  }

  lemma {:induction false} TrimLeftWrapped(a: string, t: string)
    requires AllSpace(a) && (|t| == 0 || !IsSpace(t[0]))
    ensures TrimLeft(a + t) == t
  {
    if |a| > 0 {
      assert (a + t)[1..] == a[1..] + t;
      TrimLeftWrapped(a[1..], t);
    } else {
      assert a + t == t;
    }
  }

  lemma {:induction false} TrimRightWrapped(t: string, c: string)
    requires AllSpace(c) && (|t| == 0 || !IsSpace(t[|t| - 1]))
    ensures TrimRight(t + c) == t
  {
    if |c| > 0 {
      assert (t + c)[..|t + c| - 1] == t + c[..|c| - 1];
      TrimRightWrapped(t, c[..|c| - 1]);
    } else {
      assert t + c == t;
    }
  }

  /** TrimSpace removes exactly the white space around a trimmed core: together with
      `Trimmed(TrimSpace(s))` this determines TrimSpace completely. */
  lemma TrimSpaceWrapped(a: string, b: string, c: string)
    requires AllSpace(a) && Trimmed(b) && AllSpace(c)
    ensures TrimSpace(a + b + c) == b
  {
    if |b| == 0 {
      assert a + b + c == (a + c) + [];
      TrimLeftWrapped(a + c, []);
    } else {
      assert a + b + c == a + (b + c);
      TrimLeftWrapped(a, b + c);
      TrimRightWrapped(b, c);
    }
  }

  lemma TrimSpaceOfTrimmed(s: string)
    requires Trimmed(s)
    ensures TrimSpace(s) == s
  {
    assert s == [] + s + [];
    TrimSpaceWrapped([], s, []);
  }

  predicate HasPrefix(s: string, prefix: string) {
    |prefix| <= |s| && s[..|prefix|] == prefix
  }

  predicate HasSuffix(s: string, suffix: string) {
    |suffix| <= |s| && s[|s| - |suffix|..] == suffix
  }

  /** `strings.TrimPrefix`: removes one leading `prefix` when present. */
  function TrimPrefix(s: string, prefix: string): (r: string)
    ensures HasPrefix(s, prefix) ==> s == prefix + r
    ensures !HasPrefix(s, prefix) ==> r == s
  {
    if HasPrefix(s, prefix) then s[|prefix|..] else s
  }

  /** `strings.TrimSuffix`: removes one trailing `suffix` when present. */
  function TrimSuffix(s: string, suffix: string): (r: string)
    ensures HasSuffix(s, suffix) ==> s == r + suffix
    ensures !HasSuffix(s, suffix) ==> r == s
  {
    if HasSuffix(s, suffix) then s[..|s| - |suffix|] else s
  }

  /** `strings.Contains`, written as a scan. */
  function Contains(s: string, sub: string): bool
    decreases |s|
  {
    if HasPrefix(s, sub) then true
    else if |s| == 0 then false
    else Contains(s[1..], sub)
  }

  /** `sub` occurs in `s` starting at position `i`. */
  predicate OccursAt(s: string, sub: string, i: int) {
    0 <= i <= |s| - |sub| && s[i..i + |sub|] == sub
  }

  /** The scan finds `sub` exactly when it occurs at some position of `s`. */
  lemma {:induction false} ContainsIffOccurs(s: string, sub: string)
    ensures Contains(s, sub) <==> exists i :: OccursAt(s, sub, i)
    decreases |s|
  {
    if HasPrefix(s, sub) {
      assert OccursAt(s, sub, 0);
    } else if |s| == 0 {
    } else {
      ContainsIffOccurs(s[1..], sub);
      if exists i :: OccursAt(s, sub, i) {
        var i :| OccursAt(s, sub, i);
        assert i != 0;
        assert OccursAt(s[1..], sub, i - 1);
      }
      if Contains(s[1..], sub) {
        var j :| OccursAt(s[1..], sub, j);
        assert OccursAt(s, sub, j + 1);
      }
    }
  }

  lemma ContainsMiddle(a: string, sub: string, c: string)
    ensures Contains(a + sub + c, sub)
  {
    var s := a + sub + c;
    assert OccursAt(s, sub, |a|);
    ContainsIffOccurs(s, sub);
  }

  /** An occurrence survives adding text on either side. */
  lemma ContainsExtend(a: string, s: string, b: string, sub: string)
    requires Contains(s, sub)
    ensures Contains(a + s + b, sub)
  {
    ContainsIffOccurs(s, sub);
    var i :| OccursAt(s, sub, i);
    assert (a + s + b)[|a| + i..|a| + i + |sub|] == s[i..i + |sub|];
    assert OccursAt(a + s + b, sub, |a| + i);
    ContainsIffOccurs(a + s + b, sub);
  }

  lemma ContainsTransitive(s: string, mid: string, sub: string)
    requires Contains(s, mid) && Contains(mid, sub)
    ensures Contains(s, sub)
  {
    ContainsIffOccurs(s, mid);
    var i :| OccursAt(s, mid, i);
    assert s == s[..i] + mid + s[i + |mid|..];
    ContainsExtend(s[..i], mid, s[i + |mid|..], sub);
  }

  /** `strings.Join(elems, sep)`. */
  function Join(elems: seq<string>, sep: string): string {
    if |elems| == 0 then ""
    else if |elems| == 1 then elems[0]
    else elems[0] + sep + Join(elems[1..], sep)
  }

  /** Every element occurs in the join. */
  lemma {:induction false} JoinContains(elems: seq<string>, sep: string, i: int)
    requires 0 <= i < |elems|
    ensures Contains(Join(elems, sep), elems[i])
  {
    if |elems| == 1 {
      assert Join(elems, sep) == [] + elems[0] + [];
      ContainsMiddle([], elems[0], []);
    } else if i == 0 {
      assert Join(elems, sep) == [] + elems[0] + (sep + Join(elems[1..], sep));
      ContainsMiddle([], elems[0], sep + Join(elems[1..], sep));
    } else {
      JoinContains(elems[1..], sep, i - 1);
      assert Join(elems, sep) == (elems[0] + sep) + Join(elems[1..], sep) + [];
      ContainsExtend(elems[0] + sep, Join(elems[1..], sep), [], elems[i]);
    }
  }

  /** `strings.Replace(s, old, new, 1)` for a non-empty `pattern`: replaces the first occurrence. */
  function ReplaceFirst(s: string, pattern: string, replacement: string): string
    requires |pattern| > 0
    decreases |s|
  {
    if HasPrefix(s, pattern) then replacement + s[|pattern|..]
    else if |s| == 0 then s
    else [s[0]] + ReplaceFirst(s[1..], pattern, replacement)
  }

  function ToLowerAscii(c: char): char {
    if 'A' <= c <= 'Z' then (c as int + 32) as char else c
  }

  /** `strings.EqualFold` over ASCII letters. */
  predicate EqualFoldAscii(a: string, b: string) {
    |a| == |b| && forall i :: 0 <= i < |a| ==> ToLowerAscii(a[i]) == ToLowerAscii(b[i])
  }

  /** A text spliced between a fixed head and tail can be read back at its position,
      and the splice determines the text. */
  lemma SpliceReadBack(head: string, x: string, tail: string, y: string)
    ensures (head + x + tail)[..|head|] == head
    ensures (head + x + tail)[|head|..|head| + |x|] == x
    ensures head + x + tail == head + y + tail ==> x == y
  {
    var s := head + x + tail;
    if s == head + y + tail {
      assert |x| == |y|;
      assert x == s[|head|..|head| + |x|];
      assert y == (head + y + tail)[|head|..|head| + |y|];
    }
  }

  /** `s` between double quotes, unescaped, as `"%s"` formats it. */
  function Quoted(s: string): (q: string)
    ensures |q| == |s| + 2 && q[0] == '"' && q[|q| - 1] == '"' && q[1..|q| - 1] == s
  {
    "\"" + s + "\""
  }

  lemma QuotedInjective(s: string, t: string)
    ensures Quoted(s) == Quoted(t) ==> s == t
  {
    if Quoted(s) == Quoted(t) {
      assert s == Quoted(s)[1..|s| + 1];
    }
  }
}
