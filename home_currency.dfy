/**
 * The home-currency picker of src/components/HomeCurrencyPicker.jsx: an upper-cased text field
 * and a submit status machine idle -> saving -> success | error (success returns to idle on a
 * timer). The server is an abstract answer; the 1200 ms timer is an explicit event.
 */
module HomeCurrency {
  import opened Text
  import opened Wrappers

  datatype Status = Idle | Saving | Success | Error

  /** The picker's state; `idleTimers` counts success timers scheduled and not yet fired. */
  datatype PickerState = PickerState(
    value: string, status: Status, suggestions: seq<string>, message: string, idleTimers: nat)

  /** What the request to the home-currency endpoint produced, as the code sees it. */
  datatype Answer =
    | HttpFailure  // non-OK status, network error or unparsable body: the `catch` branch
    | Body(ok: bool, message: Option<string>, suggestions: Option<seq<string>>)
      // `suggestions` is None when the field is missing or not an array

  const FailureMessage: string := "Something went wrong"

  datatype FallbackReply = FallbackReply(ok: bool, message: string)

  /** `(initial || "USD").toUpperCase()`: an absent or empty initial value defaults to USD. */
  function InitialValue(initial: Option<string>): (v: string)
    ensures v != "" && Upper(v) == v
    ensures initial.Some? && initial.value != "" ==> v == Upper(initial.value)
  {
    UpperIdempotent(initial.GetOr(""));
    if initial.Some? && initial.value != "" then Upper(initial.value) else "USD"
  }

  /** The client-side check: accepted exactly when the code is three letters A-Z. */
  function FallbackValidate(code: string): (r: FallbackReply)
    ensures r.ok <==> |code| == 3 && forall i :: 0 <= i < |code| ==> 'A' <= code[i] <= 'Z'
    ensures r.message == (if r.ok then "Saved" else "Invalid currency code")
  {
    var ok := IsThreeLetterCode(code);
    FallbackReply(ok, if ok then "Saved" else "Invalid currency code")
  }

  function Initial(initial: Option<string>): PickerState {
    PickerState(InitialValue(initial), Idle, [], "", 0)
  }

  /**
   * The synchronous part of `submit`: write back the trimmed, upper-cased code; if it is empty
   * stop; otherwise enter `saving` with suggestions and message cleared.
   */
  function SubmitStart(s: PickerState): (r: PickerState)
    ensures r.value == CanonicalCode(s.value) && r.idleTimers == s.idleTimers
    ensures r.value == "" ==> r == s.(value := "")
    ensures r.value != "" ==> r.status == Saving && r.suggestions == [] && r.message == ""
  {
    var code := CanonicalCode(s.value);
    if code == "" then s.(value := code)
    else s.(value := code, status := Saving, suggestions := [], message := "")
  }

  /** Whether `submit` sends a request, and with which code. */
  function Request(s: PickerState): (r: Option<string>)
    ensures r.Some? <==> CanonicalCode(s.value) != ""
    ensures r.Some? ==> r.value == SubmitStart(s).value && SubmitStart(s).status == Saving
  {
    var code := CanonicalCode(s.value);
    if code == "" then None else Some(code)
  }

  /** The asynchronous part of `submit`: apply the server's answer. */
  function Resolve(s: PickerState, answer: Answer): (r: PickerState)
    ensures r.value == s.value
    ensures r.status == Success <==> answer.Body? && answer.ok
    ensures r.status != Success ==> r.status == Error
    ensures r.status == Success ==> r.idleTimers == s.idleTimers + 1 && r.suggestions == s.suggestions
    ensures r.status == Error ==> r.idleTimers == s.idleTimers
    ensures answer.HttpFailure? ==> r.message == FailureMessage && r.suggestions == s.suggestions
    ensures answer.Body? ==> r.message == answer.message.GetOr("")
    ensures answer.Body? && !answer.ok ==> r.suggestions == answer.suggestions.GetOr([])
  {
    match answer
    case HttpFailure => s.(status := Error, message := FailureMessage)
    case Body(ok, message, suggestions) =>
      var withMessage := s.(message := message.GetOr(""));
      if ok then withMessage.(status := Success, idleTimers := s.idleTimers + 1)
      else withMessage.(status := Error, suggestions := suggestions.GetOr([]))
  }

  /** A success timer fires: the status returns to idle whatever it is by then. */
  function IdleTimerFired(s: PickerState): (r: PickerState)
    requires s.idleTimers > 0
    ensures r == s.(status := Idle, idleTimers := s.idleTimers - 1)
  {
    s.(status := Idle, idleTimers := s.idleTimers - 1)
  }

  /** A failed request leaves the suggestions that `submit` cleared empty. */
  lemma FailureShowsNoSuggestions(s: PickerState)
    requires Request(s).Some?
    ensures var r := Resolve(SubmitStart(s), HttpFailure);
            r.status == Error && r.message == FailureMessage && r.suggestions == [] && r.value == Request(s).value
  {
  }

  /** A second submit of the same field sends the same code: normalising is idempotent. */
  lemma ResubmitSendsSameCode(s: PickerState)
    ensures Request(SubmitStart(s)) == Request(s)
    ensures SubmitStart(SubmitStart(s)).value == SubmitStart(s).value
  {
    CanonicalCodeIdempotent(s.value);
  }

  /** The component: its fields are the four state hooks plus the scheduled idle timers. */
  class HomeCurrencyPicker {
    var value: string
    var status: Status
    var suggestions: seq<string>
    var serverMessage: string
    var idleTimers: nat

    function View(): PickerState
      reads this
    {
      PickerState(value, status, suggestions, serverMessage, idleTimers)
    }

    constructor (initial: Option<string>)
      ensures View() == Initial(initial)
    {
      value := InitialValue(initial);
      status := Idle;
      suggestions := [];
      serverMessage := "";
      idleTimers := 0;
    }

    /** The button is disabled while saving; Enter in the field submits regardless. */
    function SubmitDisabled(): bool
      reads this
    {
      status == Saving
    }

    /** Typing stores the text upper-cased. */
    method InputChanged(text: string)
      modifies this`value
      ensures value == Upper(text)
    {
      value := Upper(text);
    }

    /** Clicking a suggestion stores it upper-cased. */
    method SuggestionPicked(suggestion: string)
      modifies this`value
      ensures value == Upper(suggestion)
    {
      value := Upper(suggestion);
    }

    /** `submit` up to the request; returns the code sent, or None when nothing is sent. */
    method Submit() returns (request: Option<string>)
      modifies this
      ensures View() == SubmitStart(old(View()))
      ensures request == Request(old(View()))
    {
      var code := Upper(Trim(value));
      value := code;
      if code == "" {
        return None;
      }
      status := Saving;
      suggestions := [];
      serverMessage := "";
      request := Some(code);
    }

    /** The request completes with `answer`. */
    method Answered(answer: Answer)
      modifies this
      ensures View() == Resolve(old(View()), answer)
    {
      match answer {
        case HttpFailure =>
          status := Error;
          serverMessage := FailureMessage;
        case Body(ok, message, received) =>
          serverMessage := message.GetOr("");
          if ok {
            status := Success;
            idleTimers := idleTimers + 1;
          } else {
            status := Error;
            suggestions := received.GetOr([]);
          }
      }
    }

    /** The 1200 ms timer scheduled by a success fires. */
    method IdleTimerElapsed()
      requires idleTimers > 0
      modifies this
      ensures View() == IdleTimerFired(old(View()))
    {
      status := Idle;
      idleTimers := idleTimers - 1;
    }
  }
}
