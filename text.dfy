/**
 * String helpers used by the storage reads and the explore filters:
 * the code-unit order that stands for `localeCompare` on fixed-format
 * timestamps and ids, ASCII lower-casing, `trim()` and `includes()`.
 */
module Text {

  /** `a <= b` in lexicographic code-unit order. */
  predicate StrLe(a: string, b: string)
    decreases |a|
  {
    |a| == 0 || (|b| > 0 && (a[0] < b[0] || (a[0] == b[0] && StrLe(a[1..], b[1..]))))
  }

  lemma {:induction false} StrLeRefl(a: string)
    ensures StrLe(a, a)
    decreases |a|
  {
    if |a| > 0 { StrLeRefl(a[1..]); }
  }

  lemma {:induction false} StrLeTotal(a: string, b: string)
    ensures StrLe(a, b) || StrLe(b, a)
    decreases |a|
  {
    if |a| > 0 && |b| > 0 && a[0] == b[0] { StrLeTotal(a[1..], b[1..]); }
  }

  lemma {:induction false} StrLeTrans(a: string, b: string, c: string)
    requires StrLe(a, b) && StrLe(b, c)
    ensures StrLe(a, c)
    decreases |a|
  {
    if |a| > 0 && a[0] == b[0] && b[0] == c[0] { StrLeTrans(a[1..], b[1..], c[1..]); }
  }

  lemma {:induction false} StrLeAntisym(a: string, b: string)
    requires StrLe(a, b) && StrLe(b, a)
    ensures a == b
    decreases |a|
  {
    if |a| > 0 {
      StrLeAntisym(a[1..], b[1..]);
      assert a == [a[0]] + a[1..] && b == [b[0]] + b[1..];
    }
  }

  /** `toLowerCase` on one character (ASCII letters only). */
  function LowerChar(c: char): (r: char)
    ensures 'A' <= c <= 'Z' ==> 'a' <= r <= 'z'
    ensures !('A' <= c <= 'Z') ==> r == c
  {
    if 'A' <= c <= 'Z' then (c as int + 32) as char else c
  }

  function Lower(s: string): (r: string)
    ensures |r| == |s|
    ensures forall i :: 0 <= i < |s| ==> r[i] == LowerChar(s[i])
    ensures forall i :: 0 <= i < |r| ==> !('A' <= r[i] <= 'Z')
  {
    if |s| == 0 then "" else [LowerChar(s[0])] + Lower(s[1..])
  }

  /** Lower-casing twice is lower-casing once. */
  lemma LowerIdempotent(s: string)
    ensures Lower(Lower(s)) == Lower(s)
  {
  }

  /**
   * The characters JavaScript's `trim()` removes: WhiteSpace
   * (including the Unicode space separators) and LineTerminator.
   */
  predicate IsWhite(c: char)
  {
    c == ' ' || c == '\t' || c == '\n' || c == '\r' || c == '\U{B}' || c == '\U{C}'
    || c == '\U{A0}' || c == '\U{1680}' || ('\U{2000}' <= c <= '\U{200A}')
    || c == '\U{2028}' || c == '\U{2029}' || c == '\U{202F}' || c == '\U{205F}'
    || c == '\U{3000}' || c == '\U{FEFF}'
  }

  function TrimStart(s: string): (r: string)
    ensures |r| <= |s| && r == s[|s| - |r|..]
    ensures |r| > 0 ==> !IsWhite(r[0])
    ensures forall i :: 0 <= i < |s| - |r| ==> IsWhite(s[i])
  {
    if |s| > 0 && IsWhite(s[0]) then TrimStart(s[1..]) else s
  }

  function TrimEnd(s: string): (r: string)
    ensures |r| <= |s| && r == s[..|r|]
    ensures |r| > 0 ==> !IsWhite(r[|r| - 1])
    ensures forall i :: |r| <= i < |s| ==> IsWhite(s[i])
  {
    if |s| > 0 && IsWhite(s[|s| - 1]) then TrimEnd(s[..|s| - 1]) else s
  }

  /** `s.trim()`. */
  function Trim(s: string): string
  {
    TrimEnd(TrimStart(s))
  }

  /** `s.trim()` is the empty (falsy) string exactly when every character is white space. */
  lemma TrimEmptyIff(s: string)
    ensures Trim(s) == "" <==> forall i :: 0 <= i < |s| ==> IsWhite(s[i])
  {
    var t := TrimStart(s);
    if Trim(s) == "" {
      assert |t| == 0;
    } else {
      var r := Trim(s);
      assert !IsWhite(r[0]);
      assert r[0] == t[0] == s[|s| - |t|];
    }
  }

  /** `s.includes(sub)`. */
  predicate Contains(s: string, sub: string)
    decreases |s|
  {
    |sub| <= |s| && (s[..|sub|] == sub || (|s| > 0 && Contains(s[1..], sub)))
  }

  /** `sub` occurs in `s` starting at index `i`. */
  predicate OccursAt(s: string, sub: string, i: int)
  {
    0 <= i <= |s| - |sub| && s[i..i + |sub|] == sub
  }

  /** `includes` agrees with "some window of `s` equals `sub`". */
  lemma {:induction false} ContainsIff(s: string, sub: string)
    ensures Contains(s, sub) <==> exists i :: OccursAt(s, sub, i)
    decreases |s|
  {
    if |sub| <= |s| && |s| > 0 {
      ContainsIff(s[1..], sub);
      if s[..|sub|] == sub {
        assert OccursAt(s, sub, 0);
      } else {
        if i :| OccursAt(s, sub, i) {
          assert i > 0;
          assert s[1..][i - 1..i - 1 + |sub|] == sub;
          assert OccursAt(s[1..], sub, i - 1);
        }
        if i :| OccursAt(s[1..], sub, i) {
          assert s[i + 1..i + 1 + |sub|] == sub;
          assert OccursAt(s, sub, i + 1);
        }
      }
    } else if |sub| <= |s| {
      assert s[0..0 + |sub|] == s[..|sub|];
      assert OccursAt(s, sub, 0);
    }
  }

  /** Every string contains the empty string. */
  lemma ContainsEmpty(s: string)
    ensures Contains(s, "")
  {
    assert s[..0] == "";
  }
}
