/**
 * The string operations the core applies to user input, restricted to ASCII:
 * `toUpperCase`, `trim` and the regular expression `/^[A-Z]{3}$/`.
 */
module Text {

  /** The characters `String.prototype.trim` removes, within ASCII. */
  predicate IsSpace(c: char) {
    c == ' ' || c == '\t' || c == '\n' || c == '\r' || c == '\U{0B}' || c == '\U{0C}'
  }

  predicate IsUpperLetter(c: char) {
    'A' <= c <= 'Z'
  }

  predicate IsLowerLetter(c: char) {
    'a' <= c <= 'z'
  }

  /** `toUpperCase` on one ASCII character: `a`..`z` become `A`..`Z`, all else is kept. */
  function ToUpper(c: char): (u: char)
    ensures IsLowerLetter(c) ==> IsUpperLetter(u) && u as int == c as int - 32
    ensures !IsLowerLetter(c) ==> u == c
  {
    if IsLowerLetter(c) then (c as int - 32) as char else c
  }

  /** `s.toUpperCase()`: the same length, every character upper-cased in place. */
  function Upper(s: string): (r: string)
    ensures |r| == |s|
    ensures forall i :: 0 <= i < |s| ==> r[i] == ToUpper(s[i])
  {
    if s == [] then [] else [ToUpper(s[0])] + Upper(s[1..])
  }

  /** Leading whitespace removed: a suffix of `s` whose dropped part is all whitespace. */
  function TrimStart(s: string): (r: string)
    ensures |r| <= |s| && r == s[|s| - |r|..]
    ensures forall k :: 0 <= k < |s| - |r| ==> IsSpace(s[k])
    ensures r == [] || !IsSpace(r[0])
  {
    if s != [] && IsSpace(s[0]) then TrimStart(s[1..]) else s
  }

  /** Trailing whitespace removed: a prefix of `s` whose dropped part is all whitespace. */
  function TrimEnd(s: string): (r: string)
    ensures |r| <= |s| && r == s[..|r|]
    ensures forall k :: |r| <= k < |s| ==> IsSpace(s[k])
    ensures r == [] || !IsSpace(r[|r| - 1])
  {
    if s != [] && IsSpace(s[|s| - 1]) then TrimEnd(s[..|s| - 1]) else s
  }

  /** `s.trim()`: leading and then trailing whitespace removed. */
  function Trim(s: string): (r: string)
    ensures |r| <= |s|
    ensures r == [] || (!IsSpace(r[0]) && !IsSpace(r[|r| - 1]))
  {
    TrimEnd(TrimStart(s))
  }

  /** The trimmed text is a contiguous slice of `s`, and everything cut off around it is whitespace. */
  lemma TrimSlice(s: string)
    ensures var r := Trim(s);
            exists i :: 0 <= i <= |s| - |r| && r == s[i..][..|r|] && AllSpace(s[..i]) && AllSpace(s[i..][|r|..])
  {
    var t := TrimStart(s);
    var r := TrimEnd(t);
    var i := |s| - |t|;
    assert t == s[i..];
    assert AllSpace(s[..i]) && AllSpace(s[i..][|r|..]);
  }

  predicate AllSpace(s: string) {
    forall k :: 0 <= k < |s| ==> IsSpace(s[k])
  }

  /** Text without white space is its own trimmed form. */
  lemma TrimWord(s: string)
    requires forall k :: 0 <= k < |s| ==> !IsSpace(s[k])
    ensures Trim(s) == s
  {
    assert TrimStart(s) == s;
    assert TrimEnd(s) == s;
  }

  /** The test `/^[A-Z]{3}$/.test(s)`. */
  predicate IsThreeLetterCode(s: string) {
    |s| == 3 && forall i :: 0 <= i < 3 ==> IsUpperLetter(s[i])
  }

  /** `s.trim().toUpperCase()`, the normalisation the currency pickers apply on submit. */
  function CanonicalCode(s: string): string {
    Upper(Trim(s))
  }

  /** Upper-casing keeps white space and non-white space apart. */
  lemma ToUpperKeepsSpace(c: char)
    ensures IsSpace(ToUpper(c)) <==> IsSpace(c)
  {
  }

  lemma {:induction false} TrimStartUpper(s: string)
    ensures TrimStart(Upper(s)) == Upper(TrimStart(s))
    decreases |s|
  {
    if s != [] {
      var u := Upper(s);
      assert u == [ToUpper(s[0])] + Upper(s[1..]);
      ToUpperKeepsSpace(s[0]);
      if IsSpace(s[0]) {
        assert u[1..] == Upper(s[1..]);
        TrimStartUpper(s[1..]);
      }
    }
  }

  lemma {:induction false} TrimEndUpper(s: string)
    ensures TrimEnd(Upper(s)) == Upper(TrimEnd(s))
    decreases |s|
  {
    if s != [] {
      var init := s[..|s| - 1];
      var u := Upper(s);
      UpperSnoc(init, s[|s| - 1]);
      assert s == init + [s[|s| - 1]];
      ToUpperKeepsSpace(s[|s| - 1]);
      if IsSpace(s[|s| - 1]) {
        assert u[..|s| - 1] == Upper(init);
        TrimEndUpper(init);
      }
    }
  }

  /** Upper-casing a text with one more character at the end. */
  lemma {:induction false} UpperSnoc(s: string, c: char)
    ensures Upper(s + [c]) == Upper(s) + [ToUpper(c)]
  {
    var l := Upper(s + [c]);
    var r := Upper(s) + [ToUpper(c)];
    assert |l| == |r|;
    forall i | 0 <= i < |l| ensures l[i] == r[i] {
      if i < |s| {
        assert (s + [c])[i] == s[i];
      }
    }
  }

  /**
   * Upper-casing and trimming commute: `code.toUpperCase().trim()` (the mock API) and
   * `value.trim().toUpperCase()` (the pickers) normalise every ASCII input identically.
   */
  lemma UpperTrimCommute(s: string)
    ensures Trim(Upper(s)) == CanonicalCode(s)
  {
    TrimStartUpper(s);
    TrimEndUpper(TrimStart(s));
  }

  lemma {:induction false} UpperIdempotent(s: string)
    ensures Upper(Upper(s)) == Upper(s)
  {
    var u := Upper(s);
    assert forall i :: 0 <= i < |s| ==> Upper(u)[i] == u[i];
  }

  lemma TrimIdempotent(s: string)
    ensures Trim(Trim(s)) == Trim(s)
  {
    var t := Trim(s);
    assert TrimStart(t) == t;
    assert TrimEnd(t) == t;
  }

  /** Submitting twice normalises no further: the canonical code is a fixed point. */
  lemma CanonicalCodeIdempotent(s: string)
    ensures CanonicalCode(CanonicalCode(s)) == CanonicalCode(s)
  {
    var t := Trim(s);
    TrimIdempotent(s);
    UpperTrimCommute(t);
    UpperIdempotent(t);
  }
}
