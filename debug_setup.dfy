/** `test/test.go`: the masking helper and the JWT-shape check of the Supabase debug setup. */
module DebugSetup {
  import opened GoStrings

  /** `SafeSubstring`: `s` itself when it is no longer than `length`, else its first
      `length` bytes. A negative length would reach `s[:length]` and panic. */
  function SafeSubstring(s: string, length: int): (r: string)
    requires length >= 0
    ensures |r| == if |s| <= length then |s| else length
    ensures r == s[..|r|]
  {
    if |s| <= length then s else s[..length]
  }

  /** Two cuts are the shorter cut. */
  lemma {:induction false} SafeSubstringTwice(s: string, n: int, m: int)
    requires n >= 0 && m >= 0
    ensures SafeSubstring(SafeSubstring(s, n), m) == SafeSubstring(s, if n <= m then n else m)
  {
    var a := SafeSubstring(s, n);
    var b := SafeSubstring(a, m);
    var c := SafeSubstring(s, if n <= m then n else m);
    assert |b| == |c|;
    assert forall i :: 0 <= i < |b| ==> b[i] == a[i] == s[i] == c[i];
  }

  const JwtHead := "eyJ"

  /** The "starts with 'eyJ'" line: at least three bytes, and those are "eyJ". */
  predicate StartsWithEyJ(key: string) {
    |key| >= 3 && key[..3] == JwtHead
  }

  /** The check is `strings.HasPrefix`, and the 20-byte masked key shown next to it starts
      the same way. */
  lemma StartsWithEyJProperties(key: string)
    ensures StartsWithEyJ(key) <==> HasPrefix(key, JwtHead)
    ensures StartsWithEyJ(key) <==> StartsWithEyJ(SafeSubstring(key, 20))
  {
    var m := SafeSubstring(key, 20);
    if |m| >= 3 {
      assert m[..3] == key[..3];
    }
  }
}
