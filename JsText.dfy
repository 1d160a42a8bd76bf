/**
  JavaScript's `String.prototype.trim`, which the chat form uses both to
  discard blank input and to clean the text it sends.

  `trim` removes, from both ends, every character of the ECMAScript
  WhiteSpace and LineTerminator productions.
*/
module JsText {

  /** The ECMAScript WhiteSpace and LineTerminator characters. */
  predicate IsJsSpace(c: char) {
    || c == '\t' || c == '\n' || c == '\U{0B}' || c == '\U{0C}' || c == '\r' || c == ' '
    || c == '\U{A0}' || c == '\U{1680}' || ('\U{2000}' <= c <= '\U{200A}')
    || c == '\U{2028}' || c == '\U{2029}' || c == '\U{202F}' || c == '\U{205F}'
    || c == '\U{3000}' || c == '\U{FEFF}'
  }

  /** The string without its leading whitespace: it is no longer and does not start with whitespace. */
  function TrimStart(s: string): (r: string)
    ensures |r| <= |s|
    ensures |r| > 0 ==> !IsJsSpace(r[0])
  {
    if |s| > 0 && IsJsSpace(s[0]) then TrimStart(s[1..]) else s
  }

  /** The string without its trailing whitespace: it is no longer and does not end with whitespace. */
  function TrimEnd(s: string): (r: string)
    ensures |r| <= |s|
    ensures |r| > 0 ==> !IsJsSpace(r[|r| - 1])
  {
    if |s| > 0 && IsJsSpace(s[|s| - 1]) then TrimEnd(s[..|s| - 1]) else s
  }

  /** `TrimStart` removes a prefix made only of whitespace. */
  lemma {:induction false} TrimStartSpaces(s: string)
    ensures forall k :: 0 <= k < |s| - |TrimStart(s)| ==> IsJsSpace(s[k])
  {
    if |s| > 0 && IsJsSpace(s[0]) {
      var t := s[1..];
      TrimStartSpaces(t);
      assert TrimStart(s) == TrimStart(t);
      forall k | 0 < k < |s| - |TrimStart(s)| ensures IsJsSpace(s[k]) {
        assert s[k] == t[k - 1];
      }
    }
  }

  /** `TrimStart` keeps the rest of the string as it is. */
  lemma {:induction false} TrimStartKeeps(s: string)
    ensures forall k :: 0 <= k < |TrimStart(s)| ==> TrimStart(s)[k] == s[|s| - |TrimStart(s)| + k]
  {
    if |s| > 0 && IsJsSpace(s[0]) {
      var t := s[1..];
      TrimStartKeeps(t);
      var r := TrimStart(s);
      assert r == TrimStart(t);
      var d := |s| - |r|;
      forall k | 0 <= k < |r| ensures r[k] == s[d + k] {
        assert s[d + k] == t[d - 1 + k];
      }
    }
  }

  /** `TrimEnd` removes a suffix made only of whitespace. */
  lemma {:induction false} TrimEndSpaces(s: string)
    ensures forall k :: |TrimEnd(s)| <= k < |s| ==> IsJsSpace(s[k])
  {
    if |s| > 0 && IsJsSpace(s[|s| - 1]) {
      var p := s[..|s| - 1];
      TrimEndSpaces(p);
      assert TrimEnd(s) == TrimEnd(p);
      forall k | |TrimEnd(s)| <= k < |s| - 1 ensures IsJsSpace(s[k]) {
        assert s[k] == p[k];
      }
    }
  }

  /** `TrimEnd` keeps the rest of the string as it is. */
  lemma {:induction false} TrimEndKeeps(s: string)
    ensures forall k :: 0 <= k < |TrimEnd(s)| ==> TrimEnd(s)[k] == s[k]
  {
    if |s| > 0 && IsJsSpace(s[|s| - 1]) {
      var p := s[..|s| - 1];
      TrimEndKeeps(p);
      assert TrimEnd(s) == TrimEnd(p);
      forall k | 0 <= k < |TrimEnd(s)| ensures TrimEnd(s)[k] == s[k] {
        assert s[k] == p[k];
      }
    }
  }

  /** `s.trim()`. */
  function Trim(s: string): string {
    TrimEnd(TrimStart(s))
  }

  /** `!s.trim()`: the trimmed string is empty, so JavaScript treats it as false. */
  predicate IsBlank(s: string) {
    Trim(s) == ""
  }

  /** The trimmed string is the infix of `s` that starts after the leading whitespace. */
  lemma TrimKeepsInfix(s: string)
    ensures var t := Trim(s); var i := |s| - |TrimStart(s)|;
      i + |t| <= |s| && forall k :: 0 <= k < |t| ==> t[k] == s[i + k]
  {
    var u := TrimStart(s);
    TrimStartKeeps(s);
    TrimEndKeeps(u);
    PrefixOfSuffix(s, u, TrimEnd(u), |s| - |u|);
  }

  /** A prefix `t` of the suffix `u` of `s` that starts at `i` is the infix of `s` that starts at `i`. */
  lemma PrefixOfSuffix(s: string, u: string, t: string, i: nat)
    requires i + |u| <= |s| && forall k :: 0 <= k < |u| ==> u[k] == s[i + k]
    requires |t| <= |u| && forall k :: 0 <= k < |t| ==> t[k] == u[k]
    ensures i + |t| <= |s| && forall k :: 0 <= k < |t| ==> t[k] == s[i + k]
  {
    forall k | 0 <= k < |t| ensures t[k] == s[i + k] {
      assert t[k] == u[k];
    }
  }

  /** What trimming removes after the infix is whitespace. */
  lemma TrimDropsTrailing(s: string)
    ensures forall k :: |s| - |TrimStart(s)| + |Trim(s)| <= k < |s| ==> IsJsSpace(s[k])
  {
    var u := TrimStart(s);
    TrimStartKeeps(s);
    TrimEndSpaces(u);
    SpacesCarryOver(s, u, |s| - |u|, |TrimEnd(u)|);
  }

  /** Neither end of a non-empty trimmed string is whitespace. */
  lemma TrimEnds(s: string)
    ensures var t := Trim(s); |t| > 0 ==> !IsJsSpace(t[0]) && !IsJsSpace(t[|t| - 1])
  {
    var u := TrimStart(s);
    TrimEndKeeps(u);
    if |TrimEnd(u)| > 0 {
      assert TrimEnd(u)[0] == u[0];
    }
  }

  /**
    The trimmed string is the infix of `s` that starts at `i`, between a
    whitespace prefix and a whitespace suffix, and neither of its ends is
    whitespace.
  */
  lemma TrimInfix(s: string)
    ensures var t := Trim(s); var i := |s| - |TrimStart(s)|;
      && i + |t| <= |s|
      && (forall k :: 0 <= k < |t| ==> t[k] == s[i + k])
      && (forall k :: 0 <= k < i ==> IsJsSpace(s[k]))
      && (forall k :: i + |t| <= k < |s| ==> IsJsSpace(s[k]))
      && (|t| > 0 ==> !IsJsSpace(t[0]) && !IsJsSpace(t[|t| - 1]))
  {
    TrimKeepsInfix(s);
    TrimStartSpaces(s);
    TrimDropsTrailing(s);
    TrimEnds(s);
  }

  /** Whitespace at the end of the suffix `u` of `s` that starts at `i` is whitespace at the end of `s`. */
  lemma SpacesCarryOver(s: string, u: string, i: nat, n: nat)
    requires i + |u| == |s| && n <= |u|
    requires forall k :: 0 <= k < |u| ==> u[k] == s[i + k]
    requires forall k :: n <= k < |u| ==> IsJsSpace(u[k])
    ensures forall k :: i + n <= k < |s| ==> IsJsSpace(s[k])
  {
    forall k | i + n <= k < |s| ensures IsJsSpace(s[k]) {
      assert u[k - i] == s[k];
    }
  }

  lemma {:induction false} AllSpaceTrimsAway(s: string)
    requires forall k :: 0 <= k < |s| ==> IsJsSpace(s[k])
    ensures TrimStart(s) == ""
  {
    if |s| > 0 {
      AllSpaceTrimsAway(s[1..]);
    }
  }

  lemma NonSpaceSurvives(s: string, k: nat)
    requires k < |s| && !IsJsSpace(s[k])
    ensures |Trim(s)| > 0
  {
    TrimInfix(s);
  }

  /** A string is blank exactly when every character of it is whitespace. */
  lemma BlankIffAllSpace(s: string)
    ensures IsBlank(s) <==> forall k :: 0 <= k < |s| ==> IsJsSpace(s[k])
  {
    if forall k :: 0 <= k < |s| ==> IsJsSpace(s[k]) {
      AllSpaceTrimsAway(s);
    } else {
      var k :| 0 <= k < |s| && !IsJsSpace(s[k]);
      NonSpaceSurvives(s, k);
    }
  }

  /** A non-empty string with whitespace at neither end: what `trim` returns for a non-blank string. */
  predicate IsTrimmed(t: string) {
    |t| > 0 && !IsJsSpace(t[0]) && !IsJsSpace(t[|t| - 1])
  }

  /** Trimming a non-blank string gives a trimmed string. */
  lemma TrimYieldsTrimmed(s: string)
    requires !IsBlank(s)
    ensures IsTrimmed(Trim(s))
  {
    TrimInfix(s);
  }

  /** The trimmed strings are exactly the non-empty strings that trimming leaves alone. */
  lemma TrimmedIffFixed(t: string)
    ensures IsTrimmed(t) <==> t != "" && Trim(t) == t
  {
    if t != "" && Trim(t) == t {
      TrimInfix(t);
    }
  }

  /** Trimming twice gives the same result as trimming once. */
  lemma TrimIdempotent(s: string)
    ensures Trim(Trim(s)) == Trim(s)
  {
    var t := Trim(s);
    TrimInfix(s);
    if |t| > 0 {
      assert TrimStart(t) == t;
      assert TrimEnd(t) == t;
    }
  }
}
