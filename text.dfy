/** The Python string operations the tools rely on, written out on `seq<char>`:
    `lower`/`upper`, `in`, `startswith`/`endswith`, `strip`, `split('\n')`,
    `'\n'.join`, `replace('_env', '')`, slicing `s[:n]` and `str(int)`. */
module Text {

  function Min(a: int, b: int): int { if a <= b then a else b }
  function Max(a: int, b: int): int { if a <= b then b else a }

  // ---------------------------------------------------------------------------
  // Characters

  /** Exactly the characters for which Python's `str.isspace()` holds. */
  predicate IsSpace(c: char) {
    ('\t' <= c <= '\r') || ('\U{1C}' <= c <= '\U{1F}') || c == ' '
    || c == '\U{85}' || c == '\U{A0}' || c == '\U{1680}'
    || ('\U{2000}' <= c <= '\U{200A}') || c == '\U{2028}' || c == '\U{2029}'
    || c == '\U{202F}' || c == '\U{205F}' || c == '\U{3000}'
  }

  /** Lower case of an ASCII letter; every other character is kept. */
  function LowerChar(c: char): char {
    if 'A' <= c <= 'Z' then (c as int + 32) as char else c
  }

  /** Upper case of an ASCII letter; every other character is kept. */
  function UpperChar(c: char): char {
    if 'a' <= c <= 'z' then (c as int - 32) as char else c
  }

  function Lower(s: string): (r: string)
    ensures |r| == |s|
    ensures forall i :: 0 <= i < |s| ==> r[i] == LowerChar(s[i])
  {
    seq(|s|, i requires 0 <= i < |s| => LowerChar(s[i]))
  }

  function Upper(s: string): (r: string)
    ensures |r| == |s|
    ensures forall i :: 0 <= i < |s| ==> r[i] == UpperChar(s[i])
  {
    seq(|s|, i requires 0 <= i < |s| => UpperChar(s[i]))
  }

  /** `s` spells the lower-case word `w` with any of its letters capitalised. */
  predicate IsCasingOf(s: string, w: string) {
    |s| == |w| && forall i :: 0 <= i < |w| ==> s[i] == w[i] || s[i] == UpperChar(w[i])
  }

  predicate IsLowerWord(w: string) {
    forall i :: 0 <= i < |w| ==> 'a' <= w[i] <= 'z'
  }

  /** `s.lower() == w` for a lower-case word `w` exactly when `s` is `w` in
      some capitalisation. */
  lemma LowerIsCasing(s: string, w: string)
    requires IsLowerWord(w)
    ensures Lower(s) == w <==> IsCasingOf(s, w)
  {
    if IsCasingOf(s, w) {
      forall i | 0 <= i < |w| ensures Lower(s)[i] == w[i] {
        assert s[i] == w[i] || s[i] == UpperChar(w[i]);
      }
    }
    if Lower(s) == w {
      forall i | 0 <= i < |w| ensures s[i] == w[i] || s[i] == UpperChar(w[i]) {
        assert LowerChar(s[i]) == w[i];
      }
    }
  }

  function Repeat(c: char, n: nat): (r: string)
    ensures |r| == n && forall i :: 0 <= i < n ==> r[i] == c
  {
    seq(n, _ => c)
  }

  // ---------------------------------------------------------------------------
  // Substrings

  predicate StartsWith(s: string, p: string) {
    |p| <= |s| && s[..|p|] == p
  }

  predicate EndsWith(s: string, p: string) {
    |p| <= |s| && s[|s| - |p|..] == p
  }

  /** Python's `p in s`: `p` occurs in `s` at some position. */
  predicate Contains(s: string, p: string)
    decreases |s|
  {
    StartsWith(s, p) || (s != [] && Contains(s[1..], p))
  }

  /** Whoever contains `p` contains every prefix of `p`. */
  lemma {:induction false} ContainsPrefixOfPattern(s: string, p: string, q: string)
    requires Contains(s, p) && StartsWith(p, q)
    ensures Contains(s, q)
    decreases |s|
  {
    if StartsWith(s, p) {
      assert s[..|q|] == p[..|q|];
    } else {
      ContainsPrefixOfPattern(s[1..], p, q);
    }
  }

  // ---------------------------------------------------------------------------
  // strip()

  function TrimLeft(s: string): (r: string)
    decreases |s|
  {
    if s != [] && IsSpace(s[0]) then TrimLeft(s[1..]) else s
  }

  function TrimRight(s: string): (r: string)
    decreases |s|
  {
    if s != [] && IsSpace(s[|s| - 1]) then TrimRight(s[..|s| - 1]) else s
  }

  /** Python's `s.strip()`: drop white space at both ends. */
  function Strip(s: string): string {
    TrimRight(TrimLeft(s))
  }

  predicate AllSpace(s: string) {
    forall i :: 0 <= i < |s| ==> IsSpace(s[i])
  }

  lemma {:induction false} TrimLeftEmpty(s: string)
    ensures TrimLeft(s) == [] <==> AllSpace(s)
    ensures TrimLeft(s) != [] ==> !IsSpace(TrimLeft(s)[0])
    decreases |s|
  {
    if s != [] && IsSpace(s[0]) {
      TrimLeftEmpty(s[1..]);
      assert AllSpace(s) <==> AllSpace(s[1..]) by {
        if AllSpace(s[1..]) {
          forall i | 0 <= i < |s| ensures IsSpace(s[i]) {
            if i > 0 { assert s[i] == s[1..][i - 1]; }
          }
        }
      }
    }
  }

  lemma {:induction false} TrimRightEmpty(s: string)
    ensures TrimRight(s) == [] <==> AllSpace(s)
    decreases |s|
  {
    if s != [] && IsSpace(s[|s| - 1]) {
      TrimRightEmpty(s[..|s| - 1]);
      assert AllSpace(s) <==> AllSpace(s[..|s| - 1]) by {
        if AllSpace(s[..|s| - 1]) {
          forall i | 0 <= i < |s| ensures IsSpace(s[i]) {
            if i < |s| - 1 { assert s[i] == s[..|s| - 1][i]; }
          }
        }
      }
    }
  }

  /** `s.strip()` is falsy exactly when `s` is made of white space only. */
  lemma StripEmpty(s: string)
    ensures Strip(s) == [] <==> AllSpace(s)
  {
    TrimLeftEmpty(s);
    var t := TrimLeft(s);
    TrimRightEmpty(t);
    if t != [] {
      assert !AllSpace(t) by { assert !IsSpace(t[0]); }
    }
  }

  // ---------------------------------------------------------------------------
  // split('\n') and '\n'.join

  function CountChar(s: string, c: char): (n: nat)
    ensures n <= |s|
    decreases |s|
  {
    if s == [] then 0 else (if s[0] == c then 1 else 0) + CountChar(s[1..], c)
  }

  /** Python's `s.split('\n')`: one more piece than there are line feeds. */
  function SplitLines(s: string): (r: seq<string>)
    ensures |r| == CountChar(s, '\n') + 1
    decreases |s|
  {
    if s == [] then [""]
    else
      var rest := SplitLines(s[1..]);
      if s[0] == '\n' then [""] + rest
      else [[s[0]] + rest[0]] + rest[1..]
  }

  /** No piece of a split holds a line feed. */
  lemma {:induction false} SplitLinesLineFree(s: string)
    ensures forall i :: 0 <= i < |SplitLines(s)| ==> '\n' !in SplitLines(s)[i]
    decreases |s|
  {
    if s != [] {
      SplitLinesLineFree(s[1..]);
      var rest := SplitLines(s[1..]);
      if s[0] != '\n' {
        var r := SplitLines(s);
        assert r[0] == [s[0]] + rest[0];
        forall i | 0 < i < |r| ensures '\n' !in r[i] {
          assert r[i] == rest[i];
        }
      }
    }
  }

  /** Python's `sep.join(parts)`. */
  function Join(parts: seq<string>, sep: string): string
    decreases |parts|
  {
    if parts == [] then ""
    else if |parts| == 1 then parts[0]
    else parts[0] + sep + Join(parts[1..], sep)
  }

  /** Joining two non-empty lists is joining each and putting `sep` between. */
  lemma {:induction false} JoinAppend(a: seq<string>, b: seq<string>, sep: string)
    requires a != [] && b != []
    ensures Join(a + b, sep) == Join(a, sep) + sep + Join(b, sep)
    decreases |a|
  {
    if |a| == 1 {
      assert (a + b)[1..] == b;
    } else {
      assert (a + b)[1..] == a[1..] + b;
      JoinAppend(a[1..], b, sep);
    }
  }

  /** A join starts with its first piece. */
  lemma JoinStartsWith(parts: seq<string>, sep: string)
    requires parts != []
    ensures StartsWith(Join(parts, sep), parts[0])
  {
    if |parts| > 1 {
      assert Join(parts, sep) == parts[0] + (sep + Join(parts[1..], sep));
    }
  }

  /** Joining the pieces of a split gives the text back. */
  lemma {:induction false} JoinSplitLines(s: string)
    ensures Join(SplitLines(s), "\n") == s
    decreases |s|
  {
    if s != [] {
      var rest := SplitLines(s[1..]);
      JoinSplitLines(s[1..]);
      if s[0] == '\n' {
        assert SplitLines(s) == [""] + rest;
        assert s == "\n" + s[1..];
      } else {
        var r := SplitLines(s);
        assert r == [[s[0]] + rest[0]] + rest[1..];
        if |rest| == 1 {
          assert s == [s[0]] + s[1..];
        } else {
          assert r[1..] == rest[1..];
          assert Join(rest, "\n") == rest[0] + "\n" + Join(rest[1..], "\n");
          assert s == [s[0]] + s[1..];
        }
      }
    }
  }

  // ---------------------------------------------------------------------------
  // str(int)

  function DigitChar(d: nat): char
    requires d < 10
  {
    "0123456789"[d]
  }

  /** Decimal digits of `n`, most significant first, without leading zeros. */
  function NatToString(n: nat): (r: string)
    ensures r != [] && forall i :: 0 <= i < |r| ==> '0' <= r[i] <= '9'
    ensures r[0] == '0' ==> n == 0
    decreases n
  {
    if n < 10 then [DigitChar(n)] else NatToString(n / 10) + [DigitChar(n % 10)]
  }

  /** Python's `str(i)` for an `int`. */
  function IntToString(i: int): string {
    if i < 0 then "-" + NatToString(-i) else NatToString(i)
  }

  /** The value of a string of decimal digits. */
  function DigitsValue(s: string): int
    decreases |s|
  {
    if s == [] then 0 else DigitsValue(s[..|s| - 1]) * 10 + (s[|s| - 1] as int - '0' as int)
  }

  /** Reading back the digits printed for `n` gives `n`. */
  lemma {:induction false} NatToStringRoundTrip(n: nat)
    ensures DigitsValue(NatToString(n)) == n
    decreases n
  {
    if n >= 10 {
      var r := NatToString(n);
      NatToStringRoundTrip(n / 10);
      assert r[..|r| - 1] == NatToString(n / 10);
    }
  }

  // ---------------------------------------------------------------------------
  // replace('_env', '')

  const EnvToken: string := "_env"

  /** `s` starts with "_env", compared character by character. */
  predicate TokenAt(s: string) {
    |s| >= 4 && s[0] == '_' && s[1] == 'e' && s[2] == 'n' && s[3] == 'v'
  }

  lemma TokenAtIsStartsWith(s: string)
    ensures TokenAt(s) <==> StartsWith(s, EnvToken)
  {
    if |s| >= 4 && TokenAt(s) {
      assert s[..4] == EnvToken;
    }
  }

  /** Python's `s.replace('_env', '')`: every occurrence, scanned left to right
      without overlap, is removed, not only a trailing one. */
  function StripEnvTokens(s: string): (r: string)
    ensures |r| <= |s|
    decreases |s|
  {
    if |s| < 4 then s
    else if TokenAt(s) then StripEnvTokens(s[4..])
    else [s[0]] + StripEnvTokens(s[1..])
  }

  /** A text in which "_env" does not occur is left as it is. */
  lemma {:induction false} StripEnvTokensAbsent(s: string)
    requires !Contains(s, EnvToken)
    ensures StripEnvTokens(s) == s
    decreases |s|
  {
    if |s| >= 4 {
      TokenAtIsStartsWith(s);
      StripEnvTokensAbsent(s[1..]);
      assert [s[0]] + s[1..] == s;
    }
  }

  /** No proper prefix of "_env" is also a suffix of it, so a token between
      two texts is removed on its own and each side is stripped as if alone. */
  lemma {:induction false} StripEnvTokensAround(p: string, q: string)
    ensures StripEnvTokens(p + EnvToken + q) == StripEnvTokens(p) + StripEnvTokens(q)
    decreases |p|
  {
    if |p| == 0 {
      assert (p + EnvToken + q)[4..] == q;
    } else if |p| < 4 {
      StripEnvTokensAround(p[1..], q);
      AroundShortPrefix(p, q);
    } else if TokenAt(p) {
      StripEnvTokensAround(p[4..], q);
      AroundTokenPrefix(p, q);
    } else {
      StripEnvTokensAround(p[1..], q);
      AroundPlainPrefix(p, q);
    }
  }

  /** The steps of `StripEnvTokensAround`, one per way the text can start. */
  lemma AroundShortPrefix(p: string, q: string)
    requires 0 < |p| < 4
    requires StripEnvTokens(p[1..] + EnvToken + q) == StripEnvTokens(p[1..]) + StripEnvTokens(q)
    ensures StripEnvTokens(p + EnvToken + q) == StripEnvTokens(p) + StripEnvTokens(q)
  {
    var s := p + EnvToken + q;
    assert s[|p|] == '_';
    assert !TokenAt(s) by {
      if |p| == 1 { assert s[1] == '_'; }
      else if |p| == 2 { assert s[2] == '_'; }
      else { assert s[3] == '_'; }
    }
    assert StripEnvTokens(s) == [s[0]] + StripEnvTokens(s[1..]);
    assert s[1..] == p[1..] + EnvToken + q;
    assert StripEnvTokens(p[1..]) == p[1..];
    assert [p[0]] + p[1..] == p;
  }

  lemma AroundTokenPrefix(p: string, q: string)
    requires |p| >= 4 && TokenAt(p)
    requires StripEnvTokens(p[4..] + EnvToken + q) == StripEnvTokens(p[4..]) + StripEnvTokens(q)
    ensures StripEnvTokens(p + EnvToken + q) == StripEnvTokens(p) + StripEnvTokens(q)
  {
    var s := p + EnvToken + q;
    assert s[0] == p[0] && s[1] == p[1] && s[2] == p[2] && s[3] == p[3];
    assert StripEnvTokens(s) == StripEnvTokens(s[4..]);
    assert s[4..] == p[4..] + EnvToken + q;
  }

  lemma AroundPlainPrefix(p: string, q: string)
    requires |p| >= 4 && !TokenAt(p)
    requires StripEnvTokens(p[1..] + EnvToken + q) == StripEnvTokens(p[1..]) + StripEnvTokens(q)
    ensures StripEnvTokens(p + EnvToken + q) == StripEnvTokens(p) + StripEnvTokens(q)
  {
    var s := p + EnvToken + q;
    assert s[0] == p[0] && s[1] == p[1] && s[2] == p[2] && s[3] == p[3];
    assert s[1..] == p[1..] + EnvToken + q;
    var a, b := StripEnvTokens(p[1..]), StripEnvTokens(q);
    assert StripEnvTokens(s) == [p[0]] + (a + b);
    assert StripEnvTokens(p) == [p[0]] + a;
    assert [p[0]] + (a + b) == ([p[0]] + a) + b;
  }

  /** A trailing token is removed and the text before it stripped as if alone. */
  lemma StripEnvTokensOfSuffix(p: string)
    ensures StripEnvTokens(p + EnvToken) == StripEnvTokens(p)
  {
    StripEnvTokensAround(p, []);
    assert p + EnvToken + [] == p + EnvToken;
  }

  /** Text without an underscore holds no token and is kept. */
  lemma {:induction false} StripEnvTokensNoUnderscore(s: string)
    requires '_' !in s
    ensures StripEnvTokens(s) == s
    decreases |s|
  {
    if |s| >= 4 {
      assert s[0] != '_';
      assert '_' !in s[1..] by { assert forall c :: c in s[1..] ==> c in s; }
      StripEnvTokensNoUnderscore(s[1..]);
    }
  }

  // ---------------------------------------------------------------------------
  // s[:n]

  /** Python's `s[:n]` on strings and lists; a negative `n` counts from the end. */
  function PyPrefix<T>(s: seq<T>, n: int): (r: seq<T>)
    ensures |r| <= |s| && r == s[..|r|]
    ensures 0 <= n ==> |r| == Min(n, |s|)
    ensures n < 0 ==> |r| == Max(|s| + n, 0)
  {
    if n >= 0 then (if n >= |s| then s else s[..n])
    else if |s| + n <= 0 then []
    else s[..|s| + n]
  }
}
