/**
 * `DemoHomeCurrencyPicker` of src/pages/CurrencyPickerDemo.jsx: the same field and status
 * machine as the home-currency picker, with the server replaced by an 800 ms mock that
 * classifies the submitted code. Both timers are explicit events; timers of one delay fire in
 * the order they were scheduled, so the pending mock replies form a queue.
 */
module CurrencyDemo {
  import opened Text
  import opened Wrappers
  import HomeCurrency

  type Status = HomeCurrency.Status

  /** What the mock decides for a submitted code. */
  datatype MockReply = MockReply(status: Status, message: string, suggestions: seq<string>)

  /** The mock's classification: XXX first, then the three-letter test, else success. */
  function MockOutcome(code: string): (r: MockReply)
    ensures r.status == HomeCurrency.Success <==> IsThreeLetterCode(code) && code != "XXX"
    ensures r.status != HomeCurrency.Success ==> r.status == HomeCurrency.Error && "USD" in r.suggestions
    ensures code == "XXX" ==> r == MockReply(HomeCurrency.Error, "Currency not recognized", ["USD", "EUR", "GBP", "JPY"])
    ensures code != "XXX" && !IsThreeLetterCode(code) ==>
              r == MockReply(HomeCurrency.Error, "Code must be 3 letters", ["USD", "EUR", "GBP"])
    ensures r.status == HomeCurrency.Success ==> r.message == "Currency set to " + code && r.suggestions == []
  {
    if code == "XXX" then MockReply(HomeCurrency.Error, "Currency not recognized", ["USD", "EUR", "GBP", "JPY"])
    else if !IsThreeLetterCode(code) then MockReply(HomeCurrency.Error, "Code must be 3 letters", ["USD", "EUR", "GBP"])
    else MockReply(HomeCurrency.Success, "Currency set to " + code, [])
  }

  /** "XXX" is three letters, so only the order of the tests makes it "not recognized". */
  lemma XxxCheckedBeforeFormat()
    ensures IsThreeLetterCode("XXX") && MockOutcome("XXX").message == "Currency not recognized"
  {
  }

  /** The code the mock classifies is already trimmed and upper-cased. */
  lemma SubmittedCodesAreCanonical(s: HomeCurrency.PickerState)
    requires HomeCurrency.Request(s).Some?
    ensures var code := HomeCurrency.Request(s).value;
            code == Upper(code) && code == Trim(code)
  {
    var t := Trim(s.value);
    UpperIdempotent(t);
    UpperTrimCommute(t);
    TrimIdempotent(s.value);
  }

  /** Three ASCII letters in any case, padded with any white space, are normalised before the
      mock sees them and accepted, unless they spell the reserved "XXX". */
  lemma LettersInAnyCaseAccepted(s: HomeCurrency.PickerState)
    requires var t := Trim(s.value);
             |t| == 3 && forall i :: 0 <= i < 3 ==> IsUpperLetter(t[i]) || IsLowerLetter(t[i])
    requires CanonicalCode(s.value) != "XXX"
    ensures HomeCurrency.Request(s) == Some(CanonicalCode(s.value))
    ensures MockOutcome(CanonicalCode(s.value)).status == HomeCurrency.Success
  {
    var t := Trim(s.value);
    var code := CanonicalCode(s.value);
    assert forall i :: 0 <= i < 3 ==> code[i] == ToUpper(t[i]);
    assert IsThreeLetterCode(code);
  }

  class DemoHomeCurrencyPicker {
    var value: string
    var status: Status
    var suggestions: seq<string>
    var serverMessage: string
    var pendingReplies: seq<string>  // codes of the mock timers not yet fired, oldest first
    var idleTimers: nat

    constructor (initial: Option<string>)
      ensures value == HomeCurrency.InitialValue(initial) && status == HomeCurrency.Idle
      ensures suggestions == [] && serverMessage == "" && pendingReplies == [] && idleTimers == 0
    {
      value := HomeCurrency.InitialValue(initial);
      status := HomeCurrency.Idle;
      suggestions := [];
      serverMessage := "";
      pendingReplies := [];
      idleTimers := 0;
    }

    function SubmitDisabled(): bool
      reads this
    {
      status == HomeCurrency.Saving
    }

    method InputChanged(text: string)
      modifies this`value
      ensures value == Upper(text)
    {
      value := Upper(text);
    }

    method SuggestionPicked(suggestion: string)
      modifies this`value
      ensures value == Upper(suggestion)
    {
      value := Upper(suggestion);
    }

    /** `submit`: normalise, stop on an empty code, else enter `saving` and schedule the mock. */
    method Submit()
      modifies this
      ensures value == CanonicalCode(old(value)) && idleTimers == old(idleTimers)
      ensures value == "" ==> status == old(status) && suggestions == old(suggestions)
                              && serverMessage == old(serverMessage) && pendingReplies == old(pendingReplies)
      ensures value != "" ==> status == HomeCurrency.Saving && suggestions == [] && serverMessage == ""
                              && pendingReplies == old(pendingReplies) + [value]
    {
      var code := Upper(Trim(value));
      value := code;
      if code == "" {
        return;
      }
      status := HomeCurrency.Saving;
      suggestions := [];
      serverMessage := "";
      pendingReplies := pendingReplies + [code];
    }

    /** The oldest 800 ms mock timer fires and applies its verdict on the code it captured. */
    method MockTimerElapsed()
      requires pendingReplies != []
      modifies this
      ensures var reply := MockOutcome(old(pendingReplies)[0]);
              status == reply.status && serverMessage == reply.message
              && suggestions == (if reply.status == HomeCurrency.Error then reply.suggestions else old(suggestions))
              && idleTimers == old(idleTimers) + (if reply.status == HomeCurrency.Success then 1 else 0)
      ensures pendingReplies == old(pendingReplies)[1..] && value == old(value)
    {
      var code := pendingReplies[0];
      pendingReplies := pendingReplies[1..];
      if code == "XXX" {
        status := HomeCurrency.Error;
        suggestions := ["USD", "EUR", "GBP", "JPY"];
        serverMessage := "Currency not recognized";
      } else if !IsThreeLetterCode(code) {
        status := HomeCurrency.Error;
        serverMessage := "Code must be 3 letters";
        suggestions := ["USD", "EUR", "GBP"];
      } else {
        status := HomeCurrency.Success;
        serverMessage := "Currency set to " + code;
        idleTimers := idleTimers + 1;
      }
    }

    /** The 1200 ms timer scheduled by a success fires. */
    method IdleTimerElapsed()
      requires idleTimers > 0
      modifies this
      ensures status == HomeCurrency.Idle && idleTimers == old(idleTimers) - 1
      ensures value == old(value) && suggestions == old(suggestions)
      ensures serverMessage == old(serverMessage) && pendingReplies == old(pendingReplies)
    {
      status := HomeCurrency.Idle;
      idleTimers := idleTimers - 1;
    }
  }
}
