/**
 * The handful of JavaScript string operations the front end relies on:
 * `toLowerCase`, `includes`, `trim`, `replace(/_/g, ' ')` and the truthiness of a string.
 * Lower-casing is modelled for ASCII letters only.
 */
module JsText {

  /** A string is truthy in JavaScript exactly when it is not empty. */
  predicate Truthy(s: string) {
    s != ""
  }

  predicate IsAsciiUpper(c: char) {
    'A' <= c <= 'Z'
  }

  /** `toLowerCase` on one character (ASCII letters only). */
  function LowerChar(c: char): char {
    if IsAsciiUpper(c) then (c as int + 32) as char else c
  }

  /** `s.toLowerCase()`: lowers every character in place. */
  function ToLowerCase(s: string): (r: string)
    ensures |r| == |s|
    ensures forall i :: 0 <= i < |s| ==> r[i] == LowerChar(s[i])
  {
    seq(|s|, i requires 0 <= i < |s| => LowerChar(s[i]))
  }

  /** `sub` sits in `s` starting at offset `i`. */
  predicate PieceAt(s: string, sub: string, i: int) {
    0 <= i <= |s| - |sub| && s[i..i + |sub|] == sub
  }

  /** `s.includes(sub)`: `sub` occurs as a contiguous piece of `s`. */
  predicate Includes(s: string, sub: string) {
    exists i :: 0 <= i <= |s| - |sub| && PieceAt(s, sub, i)
  }

  /** `t` matches `s` at offset `i` when letter case is disregarded. */
  predicate MatchesAtIgnoringCase(s: string, t: string, i: int)
    requires 0 <= i <= |s| - |t|
  {
    forall j :: 0 <= j < |t| ==> LowerChar(s[i + j]) == LowerChar(t[j])
  }

  /** Independent statement of a case-insensitive substring test. */
  predicate OccursIgnoringCase(s: string, t: string) {
    exists i :: 0 <= i <= |s| - |t| && MatchesAtIgnoringCase(s, t, i)
  }

  /** Two strings that differ at most in the case of their letters. */
  predicate SameIgnoringCase(a: string, b: string) {
    |a| == |b| && forall i :: 0 <= i < |a| ==> LowerChar(a[i]) == LowerChar(b[i])
  }

  lemma IncludesEmpty(s: string)
    ensures Includes(s, "")
  {
    assert PieceAt(s, "", 0);
  }

  /** Lower-casing both sides and then testing `includes` is exactly a
      case-insensitive substring test. */
  lemma IncludesLowerIff(s: string, t: string)
    ensures Includes(ToLowerCase(s), ToLowerCase(t)) <==> OccursIgnoringCase(s, t)
  {
    var ls, lt := ToLowerCase(s), ToLowerCase(t);
    if Includes(ls, lt) {
      var i :| 0 <= i <= |ls| - |lt| && PieceAt(ls, lt, i);
      forall j | 0 <= j < |t|
        ensures LowerChar(s[i + j]) == LowerChar(t[j])
      {
        assert ls[i..i + |lt|][j] == lt[j];
      }
      assert MatchesAtIgnoringCase(s, t, i);
    }
    if OccursIgnoringCase(s, t) {
      var i :| 0 <= i <= |s| - |t| && MatchesAtIgnoringCase(s, t, i);
      assert ls[i..i + |lt|] == lt;
      assert PieceAt(ls, lt, i);
    }
  }

  /** Terms that differ only in letter case lower to the same string. */
  lemma SameIgnoringCaseLowersEqual(a: string, b: string)
    requires SameIgnoringCase(a, b)
    ensures ToLowerCase(a) == ToLowerCase(b)
  {
  }

  /** For a target already in lower case, lower-casing `s` yields the target
      exactly when `s` spells it in any mix of letter case. */
  lemma LowersToIffSameIgnoringCase(s: string, target: string)
    requires ToLowerCase(target) == target
    ensures ToLowerCase(s) == target <==> SameIgnoringCase(s, target)
  {
    if SameIgnoringCase(s, target) {
      forall i | 0 <= i < |s| ensures ToLowerCase(s)[i] == target[i] {
        assert ToLowerCase(target)[i] == LowerChar(target[i]);
      }
    }
    if ToLowerCase(s) == target {
      forall i | 0 <= i < |s| ensures LowerChar(s[i]) == LowerChar(target[i]) {
        assert ToLowerCase(target)[i] == LowerChar(target[i]);
      }
    }
  }

  /** The characters JavaScript's `trim` removes: WhiteSpace and LineTerminator
      of ECMAScript (section 12.2 and 12.3 of ECMA-262). */
  predicate IsJsWhitespace(c: char) {
    || c == '\t' || c == '\n' || c == '\U{000B}' || c == '\U{000C}' || c == '\r'
    || c == ' ' || c == '\U{00A0}' || c == '\U{1680}' || ('\U{2000}' <= c <= '\U{200A}')
    || c == '\U{2028}' || c == '\U{2029}' || c == '\U{202F}' || c == '\U{205F}'
    || c == '\U{3000}' || c == '\U{FEFF}'
  }

  predicate AllWhitespace(s: string) {
    forall i :: 0 <= i < |s| ==> IsJsWhitespace(s[i])
  }

  function TrimStart(s: string): (r: string)
    ensures |r| <= |s| && r == s[|s| - |r|..]
    ensures AllWhitespace(s[..|s| - |r|])
    ensures r != "" ==> !IsJsWhitespace(r[0])
  {
    if s != "" && IsJsWhitespace(s[0]) then TrimStart(s[1..]) else s
  }

  function TrimEnd(s: string): (r: string)
    ensures |r| <= |s| && r == s[..|r|]
    ensures AllWhitespace(s[|r|..])
    ensures r != "" ==> !IsJsWhitespace(r[|r| - 1])
  {
    if s != "" && IsJsWhitespace(s[|s| - 1]) then TrimEnd(s[..|s| - 1]) else s
  }

  /** `s.trim()`. */
  function Trim(s: string): string {
    TrimEnd(TrimStart(s))
  }

  /** `!s.trim()`: the string is empty after trimming. */
  predicate IsBlank(s: string) {
    Trim(s) == ""
  }

  /** `s[a..b]` is what is left after cutting whitespace from both ends of `s`. */
  predicate TrimmedSlice(s: string, a: int, b: int) {
    && 0 <= a <= b <= |s|
    && AllWhitespace(s[..a]) && AllWhitespace(s[b..])
    && (a < b ==> !IsJsWhitespace(s[a]) && !IsJsWhitespace(s[b - 1]))
  }

  /** Cutting leading whitespace and then trailing whitespace leaves a slice with
      whitespace only outside it. Stated on plain slices, away from the recursive
      definitions. */
  lemma TwoCutsMakeTrimmedSlice(s: string, a: nat, st: string, r: string)
    requires a <= |s| && st == s[a..]
    requires |r| <= |st| && r == st[..|r|]
    requires AllWhitespace(s[..a]) && AllWhitespace(st[|r|..])
    requires st != "" ==> !IsJsWhitespace(st[0])
    requires r != "" ==> !IsJsWhitespace(r[|r| - 1])
    ensures r == s[a..a + |r|] && TrimmedSlice(s, a, a + |r|)
  {
    var b := a + |r|;
    assert st[|r|..] == s[b..];
    if a < b {
      assert s[a] == st[0] && s[b - 1] == r[|r| - 1];
    }
  }

  /** `trim` leaves a slice of the input whose ends are not whitespace and cuts
      away only whitespace. */
  lemma TrimIsSlice(s: string)
    ensures exists a, b :: TrimmedSlice(s, a, b) && Trim(s) == s[a..b]
  {
    var st := TrimStart(s);
    var r := TrimEnd(st);
    var a := |s| - |st|;
    TwoCutsMakeTrimmedSlice(s, a, st, r);
    assert TrimmedSlice(s, a, a + |r|) && Trim(s) == s[a..a + |r|];
  }

  /** The send guard and the button's enable condition: a string is blank exactly
      when every character in it is whitespace. */
  lemma {:induction false} BlankIffAllWhitespace(s: string)
    ensures IsBlank(s) <==> AllWhitespace(s)
  {
    var st := TrimStart(s);
    var a := |s| - |st|;
    var r := TrimEnd(st);
    if IsBlank(s) {
      assert r == "";
      assert AllWhitespace(st[0..]);
      forall i | 0 <= i < |s| ensures IsJsWhitespace(s[i]) {
        if i < a {
          assert s[..a][i] == s[i];
        } else {
          assert st[i - a] == s[i];
        }
      }
    }
  }

  /** `s.replace(/_/g, ' ')`: every underscore becomes a space. */
  function ReplaceUnderscores(s: string): (r: string)
    ensures |r| == |s|
    ensures forall i :: 0 <= i < |s| ==> r[i] == (if s[i] == '_' then ' ' else s[i])
  {
    seq(|s|, i requires 0 <= i < |s| => if s[i] == '_' then ' ' else s[i])
  }
}
