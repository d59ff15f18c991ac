/**
 * The mock currency-validation API: `suggestFrom` and `validateCurrency` (src/api/currency.js).
 * The simulated 400 ms latency is not modelled; a reply is computed from the code alone.
 */
module CurrencyApi {
  import opened Text
  import opened Wrappers

  /** The codes the API recognises, in declaration order. */
  const Known: seq<string> :=
    ["USD", "EUR", "GBP", "JPY", "AUD", "CAD", "CHF", "CNY", "NZD", "SEK", "NOK", "DKK"]

  /** `slice(0, 5)`: at most this many suggestions are returned. */
  const MaxSuggestions: nat := 5

  const FormatMessage: string := "Code must be 3 letters"

  /** What `validateCurrency` resolves to; `suggestions` is absent on an accepted code. */
  datatype Reply = Reply(ok: bool, message: string, suggestions: Option<seq<string>>)

  predicate StartsWith(s: string, prefix: string) {
    |prefix| <= |s| && s[..|prefix|] == prefix
  }

  predicate NoDuplicates(s: seq<string>) {
    forall i, j :: 0 <= i < j < |s| ==> s[i] != s[j]
  }

  /** `up[0] || ""`: the first character of `up` as a string, or the empty string. */
  function Lead(up: string): (r: string)
    ensures |r| <= 1 && StartsWith(up, r)
    ensures r == [] <==> up == []
  {
    if up == [] then [] else [up[0]]
  }

  /** The codes of `codes` that start with `prefix`, kept in order (the `for` loop's `if`). */
  function Matching(codes: seq<string>, prefix: string): (r: seq<string>)
    ensures forall c :: c in r <==> c in codes && StartsWith(c, prefix)
    ensures NoDuplicates(codes) ==> NoDuplicates(r)
  {
    if codes == [] then []
    else
      var rest := Matching(codes[..|codes| - 1], prefix);
      var last := codes[|codes| - 1];
      assert forall c :: c in codes <==> c in codes[..|codes| - 1] || c == last;
      if StartsWith(last, prefix) then rest + [last] else rest
  }

  /** The suggestion list: matches in `Known` order, then USD if missing, cut to five. */
  function Suggestions(input: string): (r: seq<string>)
    ensures |r| <= MaxSuggestions
    ensures "USD" in r
  {
    var lead := Lead(Upper(input));
    var picks := Matching(Known, lead);
    var withUsd := if "USD" in picks then picks else picks + ["USD"];
    PicksShape(lead);
    if |withUsd| <= MaxSuggestions then withUsd else withUsd[..MaxSuggestions]
  }

  /**
   * The suggestions are distinct known codes; besides USD, each shares the input's first
   * letter (upper-cased); an empty input gets the first five known codes, and any other input
   * gets every known code with its first letter.
   */
  lemma SuggestionsShape(input: string)
    ensures var r := Suggestions(input);
            NoDuplicates(r) &&
            (forall c :: c in r ==> c in Known) &&
            (forall c :: c in r && c != "USD" ==> StartsWith(c, Lead(Upper(input)))) &&
            (Upper(input) == [] ==> r == Known[..MaxSuggestions]) &&
            (Upper(input) != [] ==> forall c :: c in Known && StartsWith(c, Lead(Upper(input))) ==> c in r)
  {
    var lead := Lead(Upper(input));
    var picks := Matching(Known, lead);
    PicksShape(lead);
    if lead == [] {
      assert picks == Known;
    } else {
      assert |picks + ["USD"]| <= 4;
    }
  }

  /** `suggestFrom(input)`: fills an insertion-ordered set in a loop over `Known`, adds USD, slices. */
  method SuggestFrom(input: string) returns (r: seq<string>)
    ensures r == Suggestions(input)
  {
    var up := Upper(input);
    var lead := Lead(up);
    var picks: seq<string> := [];
    KnownDistinct();
    for i := 0 to |Known|
      invariant picks == Matching(Known[..i], lead)
      invariant NoDuplicates(picks)
    {
      assert Known[..i + 1][..i] == Known[..i];
      var code := Known[i];
      assert Known[..i + 1][i] == code;
      if StartsWith(code, lead) && code !in picks {
        picks := picks + [code];
      }
    }
    assert Known[..|Known|] == Known;
    if "USD" !in picks {
      picks := picks + ["USD"];
    }
    r := if |picks| <= MaxSuggestions then picks else picks[..MaxSuggestions];
  }

  /**
   * `validateCurrency(code)`: normalise by upper-casing then trimming; reject a code that is
   * not three letters, then one not in `Known`; accept otherwise.
   */
  function ValidateCurrency(code: string): (r: Reply)
    ensures r.ok <==> Trim(Upper(code)) in Known
    ensures r.ok ==> r.message == Trim(Upper(code)) + " accepted" && r.suggestions == None
    ensures !IsThreeLetterCode(Trim(Upper(code))) ==>
              r == Reply(false, FormatMessage, Some(Suggestions(Trim(Upper(code)))))
    ensures IsThreeLetterCode(Trim(Upper(code))) && Trim(Upper(code)) !in Known ==>
              r == Reply(false, Trim(Upper(code)) + " not recognized", Some(Suggestions(Trim(Upper(code)))))
  {
    var up := Trim(Upper(code));
    KnownAreCodes();
    if !IsThreeLetterCode(up) then Reply(false, FormatMessage, Some(Suggestions(up)))
    else if up !in Known then Reply(false, up + " not recognized", Some(Suggestions(up)))
    else Reply(true, up + " accepted", None)
  }

  /** The API and the pickers normalise alike: acceptance depends only on the canonical code. */
  lemma ValidateUsesCanonicalCode(code: string)
    ensures ValidateCurrency(code).ok <==> CanonicalCode(code) in Known
    ensures ValidateCurrency(code) == ValidateCurrency(CanonicalCode(code))
  {
    UpperTrimCommute(code);
    CanonicalCodeIdempotent(code);
    UpperTrimCommute(CanonicalCode(code));
  }

  /** Every reply that rejects a code offers a non-empty list that includes USD. */
  lemma RejectionsOfferUsd(code: string)
    ensures !ValidateCurrency(code).ok ==>
              ValidateCurrency(code).suggestions.Some? && "USD" in ValidateCurrency(code).suggestions.value
  {
  }

  // ---- facts about the constant and the helpers ----

  /** What the matches look like: everything for no lead, USD alone for `U`, at most 3 otherwise. */
  lemma PicksShape(lead: string)
    requires |lead| <= 1
    ensures NoDuplicates(Matching(Known, lead))
    ensures lead == [] ==> Matching(Known, lead) == Known
    ensures lead == "U" ==> Matching(Known, lead) == ["USD"]
    ensures |lead| == 1 && lead != "U" ==> |Matching(Known, lead)| <= 3 && "USD" !in Matching(Known, lead)
  {
    var picks := Matching(Known, lead);
    KnownDistinct();
    if lead == [] {
      MatchingEmptyPrefix(Known);
    } else {
      assert lead == [lead[0]];
      LeadGroupCovers(lead[0]);
      DistinctBound(picks, LeadGroup(lead[0]));
      if lead[0] == 'U' {
        assert "USD" in Known && StartsWith("USD", lead);
        assert |picks| == 1 && picks[0] == "USD";
      }
    }
  }

  lemma KnownDistinct()
    ensures NoDuplicates(Known)
  {
  }

  lemma KnownAreCodes()
    ensures forall c :: c in Known ==> IsThreeLetterCode(c)
  {
  }

  lemma {:induction false} MatchingEmptyPrefix(codes: seq<string>)
    ensures Matching(codes, []) == codes
  {
    if codes != [] {
      var init := codes[..|codes| - 1];
      MatchingEmptyPrefix(init);
      assert StartsWith(codes[|codes| - 1], []);
      assert codes == init + [codes[|codes| - 1]];
    }
  }

  /** The known codes that share a first letter; no letter other than `U` leads to USD. */
  function LeadGroup(ch: char): (g: set<string>)
    ensures |g| <= 3 && (ch != 'U' ==> "USD" !in g) && (ch == 'U' ==> g == {"USD"})
  {
    if ch == 'U' then {"USD"}
    else if ch == 'E' then {"EUR"}
    else if ch == 'G' then {"GBP"}
    else if ch == 'J' then {"JPY"}
    else if ch == 'A' then {"AUD"}
    else if ch == 'C' then {"CAD", "CHF", "CNY"}
    else if ch == 'N' then {"NZD", "NOK"}
    else if ch == 'S' then {"SEK"}
    else if ch == 'D' then {"DKK"}
    else {}
  }

  lemma LeadGroupCovers(ch: char)
    ensures forall c :: c in Known && StartsWith(c, [ch]) ==> c in LeadGroup(ch)
  {
    forall c | c in Known && StartsWith(c, [ch]) ensures c in LeadGroup(ch) {
      KnownInOwnGroup(c);
      assert c[0] == c[..1][0] == ch;
    }
  }

  /** Every known code belongs to the group of its own first letter. */
  lemma KnownInOwnGroup(c: string)
    requires c in Known
    ensures |c| > 0 && c in LeadGroup(c[0])
  {
    var k :| 0 <= k < |Known| && Known[k] == c;
    if k < 6 {
      assert k == 0 || k == 1 || k == 2 || k == 3 || k == 4 || k == 5;
    } else {
      assert k == 6 || k == 7 || k == 8 || k == 9 || k == 10 || k == 11;
    }
  }

  /** A duplicate-free list drawn from `s` is no longer than `s` has elements. */
  lemma {:induction false} DistinctBound(r: seq<string>, s: set<string>)
    requires NoDuplicates(r)
    requires forall c :: c in r ==> c in s
    ensures |r| <= |s|
  {
    if r != [] {
      var rest := r[1..];
      assert forall c :: c in rest ==> c in s - {r[0]} by {
        forall c | c in rest ensures c in s - {r[0]} {
          var k :| 0 <= k < |rest| && rest[k] == c;
          assert r[k + 1] == c;
        }
      }
      DistinctBound(rest, s - {r[0]});
    }
  }
}
