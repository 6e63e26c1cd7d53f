/**
 * The three JavaScript string operations the front end relies on:
 * `String.prototype.trim`, `toLowerCase` (restricted to ASCII letters) and `includes`.
 */
module Text {

  /** The code points `trim` removes: ECMAScript's WhiteSpace and LineTerminator characters. */
  predicate IsWhitespace(c: char) {
    c == '\t' || c == '\n' || c == '\U{B}' || c == '\U{C}' || c == '\r' || c == ' '
    || c == '\U{A0}' || c == '\U{1680}' || ('\U{2000}' <= c <= '\U{200A}')
    || c == '\U{2028}' || c == '\U{2029}' || c == '\U{202F}' || c == '\U{205F}'
    || c == '\U{3000}' || c == '\U{FEFF}'
  }

  predicate AllWhitespace(s: string) {
    forall i :: 0 <= i < |s| ==> IsWhitespace(s[i])
  }

  /** `s` neither starts nor ends with whitespace. */
  predicate Trimmed(s: string) {
    s == [] || (!IsWhitespace(s[0]) && !IsWhitespace(s[|s| - 1]))
  }

  /** `r` is what is left of `s` once the whitespace prefix `s[..a]` and suffix are cut off. */
  ghost predicate CutAt(r: string, s: string, a: int) {
    0 <= a <= |s| - |r| && r == s[a..a + |r|] && AllWhitespace(s[..a]) && AllWhitespace(s[a + |r|..])
  }

  /** `s` without its leading whitespace. */
  function TrimStart(s: string): (r: string)
    ensures |r| <= |s|
    ensures r == [] || !IsWhitespace(r[0])
    decreases |s|
  {
    if s != [] && IsWhitespace(s[0]) then TrimStart(s[1..]) else s
  }

  /** `s` without its trailing whitespace; a non-empty result starts where `s` does. */
  function TrimEnd(s: string): (r: string)
    ensures |r| <= |s|
    ensures r == [] || !IsWhitespace(r[|r| - 1])
    ensures r == [] || r[0] == s[0]
    decreases |s|
  {
    if s != [] && IsWhitespace(s[|s| - 1]) then TrimEnd(s[..|s| - 1]) else s
  }

  /** `TrimStart` removes a prefix of whitespace and keeps the rest. */
  lemma {:induction false} TrimStartCut(s: string)
    ensures s[|s| - |TrimStart(s)|..] == TrimStart(s)
    ensures AllWhitespace(s[..|s| - |TrimStart(s)|])
    decreases |s|
  {
    if s != [] && IsWhitespace(s[0]) {
      var u := s[1..];
      var r := TrimStart(u);
      var k := |u| - |r|;
      TrimStartCut(u);
      assert s[k + 1..] == u[k..];
      var pre := s[..k + 1];
      forall i | 0 <= i < |pre| ensures IsWhitespace(pre[i]) {
        if i > 0 {
          assert pre[i] == u[..k][i - 1];
        }
      }
    }
  }

  /** `TrimEnd` removes a suffix of whitespace and keeps the rest. */
  lemma {:induction false} TrimEndCut(s: string)
    ensures s[..|TrimEnd(s)|] == TrimEnd(s)
    ensures AllWhitespace(s[|TrimEnd(s)|..])
    decreases |s|
  {
    if s != [] && IsWhitespace(s[|s| - 1]) {
      var r := TrimEnd(s[..|s| - 1]);
      TrimEndCut(s[..|s| - 1]);
      assert s[..|r|] == s[..|s| - 1][..|r|];
      assert s[|r|..] == s[..|s| - 1][|r|..] + [s[|s| - 1]];
    }
  }

  /** JavaScript's `s.trim()`: `s` without its leading and trailing whitespace. */
  function Trim(s: string): (r: string)
    ensures Trimmed(r) && |r| <= |s|
  {
    TrimEnd(TrimStart(s))
  }

  /** What `trim` removes is whitespace: a prefix of it and a suffix of it, and nothing else. */
  lemma TrimCut(s: string)
    ensures CutAt(Trim(s), s, |s| - |TrimStart(s)|)
  {
    var t := TrimStart(s);
    var r := TrimEnd(t);
    var a := |s| - |t|;
    TrimStartCut(s);
    TrimEndCut(t);
    SuffixSlices(s, a, |r|);
    assert AllWhitespace(s[..a]);
    assert AllWhitespace(s[a + |r|..]) by {
      assert s[a + |r|..] == t[|r|..];
    }
  }

  lemma SuffixSlices(s: string, a: nat, n: nat)
    requires a + n <= |s|
    ensures s[a..][..n] == s[a..a + n] && s[a..][n..] == s[a + n..]
  {
  }

  /** Trimming keeps a string that has no whitespace at either end. */
  lemma TrimKeepsTrimmed(s: string)
    requires Trimmed(s)
    ensures Trim(s) == s
  {
  }

  /** `trim` is idempotent. */
  lemma TrimIdempotent(s: string)
    ensures Trim(Trim(s)) == Trim(s)
  {
    TrimKeepsTrimmed(Trim(s));
  }

  /** Whitespace followed by whitespace is whitespace. */
  lemma AllWhitespaceConcat(x: string, y: string)
    requires AllWhitespace(x) && AllWhitespace(y)
    ensures AllWhitespace(x + y)
  {
    forall i | 0 <= i < |x + y| ensures IsWhitespace((x + y)[i]) {
      if i < |x| {
        assert (x + y)[i] == x[i];
      } else {
        assert (x + y)[i] == y[i - |x|];
      }
    }
  }

  /** A string trims to `""` exactly when it consists of whitespace only. */
  lemma TrimBlank(s: string)
    ensures Trim(s) == [] <==> AllWhitespace(s)
  {
    var t := TrimStart(s);
    var a := |s| - |t|;
    TrimCut(s);
    TrimStartCut(s);
    if Trim(s) == [] {
      assert t[0..] == t;
      assert s == s[..a] + t;
      AllWhitespaceConcat(s[..a], t);
    } else {
      var r := Trim(s);
      assert r[0] == s[a];
    }
  }

  /** The test `s.trim() === ""`, computed with `trim`, stated as what it means. */
  method TrimsToEmpty(s: string) returns (blank: bool)
    ensures blank <==> AllWhitespace(s)
  {
    blank := Trim(s) == "";
    TrimBlank(s);
  }

  lemma {:induction false} TrimStartPadded(pre: string, b: string)
    requires AllWhitespace(pre)
    requires b == [] || !IsWhitespace(b[0])
    ensures TrimStart(pre + b) == b
    decreases |pre|
  {
    if pre != [] {
      assert (pre + b)[1..] == pre[1..] + b;
      TrimStartPadded(pre[1..], b);
    } else {
      assert pre + b == b;
    }
  }

  lemma {:induction false} TrimEndPadded(b: string, post: string)
    requires AllWhitespace(post)
    requires b == [] || !IsWhitespace(b[|b| - 1])
    ensures TrimEnd(b + post) == b
    decreases |post|
  {
    if post != [] {
      assert (b + post)[..|b + post| - 1] == b + post[..|post| - 1];
      TrimEndPadded(b, post[..|post| - 1]);
    } else {
      assert b + post == b;
    }
  }

  /** Trimming a whitespace-padded string that has no whitespace at its own ends gives it back. */
  lemma TrimPadded(pre: string, b: string, post: string)
    requires AllWhitespace(pre) && AllWhitespace(post) && Trimmed(b)
    ensures Trim(pre + b + post) == b
  {
    assert pre + b + post == pre + (b + post);
    if b == [] {
      assert b + post == post;
      TrimStartPadded(pre, []);
      assert TrimStart(pre + []) == [];
      assert pre + [] == pre;
      TrimStartPadded(pre + post, []);
      assert AllWhitespace(pre + post);
      assert pre + post + [] == pre + post;
    } else {
      TrimStartPadded(pre, b + post);
      TrimEndPadded(b, post);
    }
  }

  /** JavaScript's `toLowerCase`, restricted to the ASCII letters A-Z. */
  function LowerChar(c: char): char {
    if 'A' <= c <= 'Z' then (c as int + 32) as char else c
  }

  /** Each upper-case ASCII letter becomes its lower-case form; every other character is kept. */
  function Lower(s: string): (r: string)
    ensures |r| == |s|
    ensures forall i :: 0 <= i < |s| && 'A' <= s[i] <= 'Z' ==> r[i] as int == s[i] as int + 32
    ensures forall i :: 0 <= i < |s| && !('A' <= s[i] <= 'Z') ==> r[i] == s[i]
    ensures forall i :: 0 <= i < |r| ==> !('A' <= r[i] <= 'Z')
  {
    seq(|s|, i requires 0 <= i < |s| => LowerChar(s[i]))
  }

  predicate IsAsciiLetter(c: char) {
    'A' <= c <= 'Z' || 'a' <= c <= 'z'
  }

  /** `s` has no ASCII letter, as a Hangul-only text. */
  predicate NoAsciiLetter(s: string) {
    forall i :: 0 <= i < |s| ==> !IsAsciiLetter(s[i])
  }

  /** Lowering is idempotent. */
  lemma LowerIdempotent(s: string)
    ensures Lower(Lower(s)) == Lower(s)
  {
  }

  /** A lower-case character of `Lower(s)` was that character or its upper-case form in `s`. */
  lemma LowerMember(s: string, c: char)
    requires c in Lower(s)
    ensures c in s || ('a' <= c <= 'z' && (c as int - 32) as char in s)
  {
    var i :| 0 <= i < |s| && Lower(s)[i] == c;
    assert s[i] in s;
  }

  predicate StartsWith(s: string, p: string) {
    |p| <= |s| && s[..|p|] == p
  }

  /** JavaScript's `s.includes(sub)`. */
  predicate Contains(s: string, sub: string)
    decreases |s|
  {
    StartsWith(s, sub) || (s != [] && Contains(s[1..], sub))
  }

  /** `sub` occurs in `s` starting at position `i`. */
  predicate OccursAt(s: string, sub: string, i: int) {
    0 <= i <= |s| - |sub| && s[i..i + |sub|] == sub
  }

  /** `includes` holds exactly when `sub` occurs in `s` at some position. */
  lemma {:induction false} ContainsIff(s: string, sub: string)
    ensures Contains(s, sub) <==> exists i :: OccursAt(s, sub, i)
    decreases |s|
  {
    if s != [] {
      ContainsIff(s[1..], sub);
      if StartsWith(s, sub) {
        assert OccursAt(s, sub, 0);
      } else if Contains(s[1..], sub) {
        var i :| OccursAt(s[1..], sub, i);
        assert OccursAt(s, sub, i + 1);
      }
      if i :| OccursAt(s, sub, i) {
        if i > 0 {
          assert OccursAt(s[1..], sub, i - 1);
        } else {
          assert StartsWith(s, sub);
        }
      }
    } else if Contains(s, sub) {
      assert OccursAt(s, sub, 0);
    } else {
      if i :| OccursAt(s, sub, i) {
        assert StartsWith(s, sub);
      }
    }
  }

  /** A string includes every piece it is concatenated from. */
  lemma ContainsInfix(a: string, b: string, c: string)
    ensures Contains(a + b + c, b)
  {
    var s := a + b + c;
    assert OccursAt(s, b, |a|);
    ContainsIff(s, b);
  }

  /** A non-empty `sub` that `s` includes starts with a character of `s`. */
  lemma ContainsFirstChar(s: string, sub: string)
    requires Contains(s, sub) && sub != []
    ensures sub[0] in s
  {
    ContainsIff(s, sub);
    var i :| OccursAt(s, sub, i);
    assert s[i] == s[i..i + |sub|][0];
  }

  /** A text without ASCII letters includes no lowered string that starts with an ASCII letter. */
  lemma NoAsciiLetterMisses(s: string, sub: string)
    requires NoAsciiLetter(s) && sub != [] && IsAsciiLetter(sub[0])
    ensures !Contains(Lower(s), Lower(sub))
  {
    if Contains(Lower(s), Lower(sub)) {
      ContainsFirstChar(Lower(s), Lower(sub));
    }
  }

  /** Every string includes the empty string. */
  lemma ContainsEmpty(s: string)
    ensures Contains(s, "")
  {
  }
}
