/**
 * The currency drop-down of src/components/CurrencySelect.jsx: the option list it builds from
 * the current value, the asset and home currencies and the popular codes; the label shown on
 * its button; and its `open` flag.
 */
module CurrencySelect {
  import opened Wrappers

  datatype CurrencyOption = CurrencyOption(code: string, labelText: string)

  const AssetTag: string := " (Asset)"
  const HomeTag: string := " (Home)"

  /** `userCurrency && …`: a user currency that is present and not the empty string. */
  predicate IsTruthy(user: Option<string>) {
    user.Some? && user.value != ""
  }

  /** `code == userCurrency`: never true of an absent user currency. */
  predicate IsUser(code: string, user: Option<string>) {
    user.Some? && user.value == code
  }

  /** The suffix of the first label: the asset tag wins over the home tag. */
  function Suffix(value: string, asset: string, user: Option<string>): (s: string)
    ensures value == asset ==> s == AssetTag
    ensures value != asset && IsUser(value, user) ==> s == HomeTag
    ensures value != asset && !IsUser(value, user) ==> s == ""
  {
    if value == asset then AssetTag else if IsUser(value, user) then HomeTag else ""
  }

  /** The codes the popular list skips: the value, the asset and the user currency. */
  predicate Skipped(code: string, value: string, asset: string, user: Option<string>) {
    code == value || code == asset || IsUser(code, user)
  }

  /** The options placed before the popular ones. */
  function Leading(value: string, asset: string, user: Option<string>): (r: seq<CurrencyOption>)
    ensures |r| == 1 + (if value != asset then 1 else 0) + (if IsTruthy(user) && user.value != value then 1 else 0)
    ensures r[0] == CurrencyOption(value, value + Suffix(value, asset, user))
    ensures value != asset ==> r[1] == CurrencyOption(asset, asset + AssetTag)
    ensures IsTruthy(user) && user.value != value ==> r[|r| - 1] == CurrencyOption(user.value, user.value + HomeTag)
  {
    var first := [CurrencyOption(value, value + Suffix(value, asset, user))];
    var withAsset := if value != asset then first + [CurrencyOption(asset, asset + AssetTag)] else first;
    if IsTruthy(user) && user.value != value then withAsset + [CurrencyOption(user.value, user.value + HomeTag)]
    else withAsset
  }

  /** The popular codes that are not skipped, in their given order, each labelled by itself. */
  function PopularOptions(popular: seq<string>, value: string, asset: string, user: Option<string>): (r: seq<CurrencyOption>)
    ensures |r| <= |popular|
  {
    if popular == [] then []
    else
      var rest := PopularOptions(popular[..|popular| - 1], value, asset, user);
      var c := popular[|popular| - 1];
      if Skipped(c, value, asset, user) then rest else rest + [CurrencyOption(c, c)]
  }

  /** Every popular option is a popular code that is not skipped, labelled by itself, and every
      such code has its option. */
  lemma {:induction false} PopularOptionsMembers(popular: seq<string>, value: string, asset: string, user: Option<string>)
    ensures var r := PopularOptions(popular, value, asset, user);
            (forall o :: o in r ==> o.labelText == o.code && o.code in popular && !Skipped(o.code, value, asset, user)) &&
            (forall c :: c in popular && !Skipped(c, value, asset, user) ==> CurrencyOption(c, c) in r)
    decreases |popular|
  {
    if popular != [] {
      var init := popular[..|popular| - 1];
      var c := popular[|popular| - 1];
      PopularOptionsMembers(init, value, asset, user);
      assert popular == init + [c];
      assert forall x :: x in popular <==> x in init || x == c;
    }
  }

  lemma PopularOptionsStep(popular: seq<string>, i: nat, value: string, asset: string, user: Option<string>)
    requires i < |popular|
    ensures PopularOptions(popular[..i + 1], value, asset, user)
            == PopularOptions(popular[..i], value, asset, user)
               + (if Skipped(popular[i], value, asset, user) then [] else [CurrencyOption(popular[i], popular[i])])
  {
    assert popular[..i + 1][..i] == popular[..i];
  }

  /** The first three pushes of the `options` memo. */
  method PushLeading(value: string, asset: string, user: Option<string>) returns (options: seq<CurrencyOption>)
    ensures options == Leading(value, asset, user)
  {
    options := [CurrencyOption(value, value + Suffix(value, asset, user))];
    if value != asset {
      options := options + [CurrencyOption(asset, asset + AssetTag)];
    }
    if IsTruthy(user) && value != user.value {
      options := options + [CurrencyOption(user.value, user.value + HomeTag)];
    }
  }

  /** The `options` memo: built by pushing onto a list, the popular codes in a `forEach` loop. */
  method BuildOptions(value: string, asset: string, user: Option<string>, popular: seq<string>)
    returns (options: seq<CurrencyOption>)
    ensures options == Leading(value, asset, user) + PopularOptions(popular, value, asset, user)
  {
    options := PushLeading(value, asset, user);
    ghost var lead := options;
    for i := 0 to |popular|
      invariant options == lead + PopularOptions(popular[..i], value, asset, user)
    {
      var code := popular[i];
      PopularOptionsStep(popular, i, value, asset, user);
      if !Skipped(code, value, asset, user) {
        options := options + [CurrencyOption(code, code)];
      }
    }
    assert popular[..|popular|] == popular;
  }

  /** `options.find(o => o.code === code)`, as the position of the first option with that code, or -1. */
  function FindCode(options: seq<CurrencyOption>, code: string): (k: int)
    ensures -1 <= k < |options|
    ensures k == -1 <==> forall o :: o in options ==> o.code != code
    ensures k >= 0 ==> options[k].code == code && forall j :: 0 <= j < k ==> options[j].code != code
  {
    if options == [] then -1
    else if options[0].code == code then 0
    else
      var k := FindCode(options[1..], code);
      assert forall o :: o in options <==> o == options[0] || o in options[1..];
      if k == -1 then -1 else k + 1
  }

  /** The button text: the found option's label, or the value itself when none is found or it is empty. */
  function DisplayedLabel(options: seq<CurrencyOption>, value: string): string {
    var k := FindCode(options, value);
    if k >= 0 && options[k].labelText != "" then options[k].labelText else value
  }
  /** The button always shows the value with the suffix of the first option. */
  lemma ButtonShowsFirstLabel(value: string, asset: string, user: Option<string>, popular: seq<string>)
    ensures DisplayedLabel(Leading(value, asset, user) + PopularOptions(popular, value, asset, user), value)
            == value + Suffix(value, asset, user)
  {
    var options := Leading(value, asset, user) + PopularOptions(popular, value, asset, user);
    assert options[0] == CurrencyOption(value, value + Suffix(value, asset, user));
  }

  /** The home option is not compared with the asset currency, so a code can be offered twice. */
  lemma HomeMayRepeatAsset()
    ensures var options := Leading("EUR", "USD", Some("USD"));
            |options| == 3 && options[1].code == options[2].code == "USD"
  {
  }

  /** The open/closed state of one drop-down; its props are fixed for the object's lifetime. */
  class CurrencyDropdown {
    const assetCurrency: string
    const userCurrency: Option<string>
    const popular: seq<string>
    var value: string
    var open: bool

    constructor (assetCurrency: string, userCurrency: Option<string>, value: string, popular: seq<string>)
      ensures this.assetCurrency == assetCurrency && this.userCurrency == userCurrency
      ensures this.value == value && this.popular == popular && !open
    {
      this.assetCurrency := assetCurrency;
      this.userCurrency := userCurrency;
      this.value := value;
      this.popular := popular;
      open := false;
    }

    /** The button's `onClick`: flips the list open or closed. */
    method Toggle()
      modifies this`open
      ensures open == !old(open)
    {
      open := !open;
    }

    /** A mousedown outside the component closes the list. */
    method ClickOutside()
      modifies this`open
      ensures !open
    {
      open := false;
    }

    /**
     * Clicking an option: `onChangeValue` is called once, with that option's code (returned
     * here), and the list closes. The parent passes the new code back as `value`.
     */
    method Pick(option: CurrencyOption) returns (changedTo: string)
      requires open
      modifies this`open
      ensures changedTo == option.code && !open
    {
      changedTo := option.code;
      open := false;
    }

    /** The text on the button for the current props. */
    method ButtonLabel() returns (text: string)
      ensures text == value + Suffix(value, assetCurrency, userCurrency)
    {
      var options := BuildOptions(value, assetCurrency, userCurrency, popular);
      text := DisplayedLabel(options, value);
      ButtonShowsFirstLabel(value, assetCurrency, userCurrency, popular);
    }
  }
}
