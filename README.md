# Portfolio UI logic, modelled in Dafny

A model of the deterministic logic under the React front end of a small portfolio tracker:

- the ticker-search autocomplete (`TickerSearchDropdown`): a query box with a debounced lookup,
  a result list, a highlighted row driven by the arrow keys, and selection by Enter or click;
- the portfolio page (`Portfolio`): the list of held positions with its three updates (append
  on add, replace-by-ticker on update, filter-by-ticker on delete), the add form's ticker and
  quantity guards, and the edit and delete modes;
- the registration form (`Register`): the username validator and the order of checks on submit;
- the mock currency API (`api/currency.js`): code normalisation, validation and suggestions;
- the currency drop-down (`CurrencySelect`): its ordered, partly de-duplicated option list,
  its button label and its open flag;
- the home-currency picker (`HomeCurrencyPicker`) and its mock twin in `CurrencyPickerDemo`:
  an upper-cased field and an idle / saving / success / error status machine.

Layout, one module per file:

| file | module | models |
|---|---|---|
| wrappers.dfy | `Wrappers` | `Option`, for JavaScript's `null` / `undefined` |
| text.dfy | `Text` | ASCII `toUpperCase`, `trim` and the test `/^[A-Z]{3}$/` |
| ticker_search.dfy | `TickerSearch` | src/components/TickerSearchDropdown.jsx |
| portfolio.dfy | `Portfolio` | src/pages/Portfolio.jsx |
| register.dfy | `Register` | src/pages/Register.jsx |
| currency_api.dfy | `CurrencyApi` | src/api/currency.js |
| currency_select.dfy | `CurrencySelect` | src/components/CurrencySelect.jsx |
| home_currency.dfy | `HomeCurrency` | src/components/HomeCurrencyPicker.jsx |
| currency_demo.dfy | `CurrencyDemo` | src/pages/CurrencyPickerDemo.jsx |

How React is modelled. Each event handler's `set…` calls are batched, so a handler is one
transition of the component state. An effect that depends on a state value runs after a render
in which that value changed; the ticker dropdown's close effect (index back to -1) therefore
runs only when the dropdown goes from shown to hidden, which `TickerSearch.Show` captures. The
ticker dropdown is given twice: as pure transition functions over a `Panel` value (the
properties are proved about these, and about runs of events), and as the class
`TickerSearchDropdown` whose fields are the state hooks and whose methods make the same updates
step by step, each proved equal to its transition function. The pages and pickers are classes
whose methods state their whole new state, next to pure functions for the logic they share.

Timers and the network are events. The ticker lookup's 500 ms debounce is a single pending slot
plus a `TimerFired` event, and the lookup answer is `LookupOk(hits)` or `LookupFailed`. The
home-currency endpoint's answer is the abstract `HomeCurrency.Answer`. The pickers' 1200 ms
"back to idle" timers are counted and fired by an explicit method. The demo's 800 ms mock
timers form a first-in first-out queue of captured codes, since timers of one delay fire in the
order they were set.

Three behaviours of the ticker dropdown that the model keeps as the code writes them:

- a keystroke whose trimmed text is empty cancels the pending lookup but leaves the results and
  the dropdown's visibility as they were (TickerSearchDropdown.jsx lines 125-138 only store the
  query and manage the timer);
- Escape leaves the highlighted index at -1 whether it opens or closes the dropdown (line 86
  sets 0 when closing, then the close effect sets -1; when opening, line 86 sets -1);
- focus highlights the position of the host's current ticker, which is -1 when it is not among
  the results (`findIndex` on lines 74-76).

One behaviour is corrected rather than kept: a failed lookup ends with no row highlighted in
the event machine (`TickerSearch.Step`) and the class, whereas the code as written can leave a
stale index; `TickerSearch.OnLookupFailedAsWritten` models the code, see "## Findings".

## Model

| member | source | states |
|---|---|---|
| Text.Upper | src/api/currency.js:17 | `toUpperCase` on ASCII text keeps the length and upper-cases each character in place, `a`-`z` to `A`-`Z`, others unchanged |
| Text.Trim | src/api/currency.js:17 | `trim` never lengthens the text, and its result neither starts nor ends with whitespace |
| Text.TrimSlice | src/api/currency.js:17 | the trimmed text is a contiguous slice of the input, and everything cut off before and after it is whitespace |
| Text.TrimWord | src/components/TickerSearchDropdown.jsx:134 | text with no whitespace is its own trimmed form, so it counts as non-blank when non-empty |
| TickerSearch.TypedWordIsLookedUp | src/components/TickerSearchDropdown.jsx:128-137 | typing a non-empty symbol without whitespace and letting the timer fire looks it up exactly as typed, once |
| Text.UpperTrimCommute | src/api/currency.js:17 | upper-casing then trimming (the API) equals trimming then upper-casing (the pickers, HomeCurrencyPicker.jsx:21) on every input |
| Text.UpperIdempotent | src/components/HomeCurrencyPicker.jsx:90 | upper-casing an already upper-cased value changes nothing |
| Text.TrimIdempotent | src/components/HomeCurrencyPicker.jsx:21 | trimming a trimmed value changes nothing |
| Text.CanonicalCodeIdempotent | src/components/HomeCurrencyPicker.jsx:21-22 | the code written back on submit is a fixed point of the normalisation |
| CurrencyApi.Lead | src/api/currency.js:9 | `up[0] \|\| ""` is the first character as a one-character prefix, empty exactly for empty input |
| CurrencyApi.Matching | src/api/currency.js:8-10 | the codes kept by the loop's test are exactly the listed codes starting with the prefix, without duplicates when the list has none |
| CurrencyApi.Suggestions | src/api/currency.js:5-14 | at most 5 codes, and USD is always among them |
| CurrencyApi.SuggestionsShape | src/api/currency.js:5-14 | the suggestions have no duplicates and are all recognised; every code other than USD starts with the input's upper-cased first character; empty input gives the first five codes in order; otherwise every matching code is offered |
| CurrencyApi.SuggestFrom | src/api/currency.js:5-14 | the loop filling the insertion-ordered set, adding USD and slicing returns exactly `Suggestions(input)` |
| CurrencyApi.ValidateCurrency | src/api/currency.js:16-38 | `ok` holds iff the upper-cased, trimmed code is recognised, with "<CODE> accepted" and no suggestions; a code that is not three letters A-Z gets "Code must be 3 letters", a three-letter unknown code "<CODE> not recognized", both with the suggestions for the normalised code |
| CurrencyApi.ValidateUsesCanonicalCode | src/api/currency.js:17 | the reply depends only on the code as the pickers normalise it, and is accepted iff that code is recognised |
| CurrencyApi.RejectionsOfferUsd | src/api/currency.js:11-12 | every rejection carries a suggestion list that contains USD |
| CurrencyApi.PicksShape | src/api/currency.js:8-10 | the loop keeps all twelve codes for an empty prefix, only USD for `U`, and at most three codes, never USD, for any other letter |
| CurrencyApi.KnownDistinct | src/api/currency.js:3 | the recognised codes are pairwise distinct |
| CurrencyApi.KnownAreCodes | src/api/currency.js:3 | every recognised code passes the three-letter test, so the format check never rejects a recognised code |
| CurrencyApi.LeadGroup | src/api/currency.js:3 | the recognised codes sharing a first letter number at most three, and only `U` leads to USD |
| CurrencyApi.LeadGroupCovers | src/api/currency.js:3 | every recognised code starting with a letter lies in that letter's group |
| CurrencyApi.KnownInOwnGroup | src/api/currency.js:3 | every recognised code lies in the group of its own first letter |
| CurrencyApi.MatchingEmptyPrefix | src/api/currency.js:9 | every code starts with the empty prefix, so empty input keeps the whole list in order |
| CurrencyApi.DistinctBound | src/api/currency.js:7 | a duplicate-free list drawn from a set is no longer than the set |
| CurrencySelect.Suffix | src/components/CurrencySelect.jsx:19-25 | the first label's suffix is " (Asset)" when the value is the asset currency, else " (Home)" when it is the user currency, else empty |
| CurrencySelect.Leading | src/components/CurrencySelect.jsx:16-35 | the first option is the value with its suffix; the asset option follows iff the asset differs from the value; the home option comes last iff the user currency is truthy and differs from the value |
| CurrencySelect.PopularOptions | src/components/CurrencySelect.jsx:37-41 | the loop adds at most one option per popular code |
| CurrencySelect.PopularOptionsMembers | src/components/CurrencySelect.jsx:37-41 | the popular options are exactly the popular codes that are not the value, the asset or the user currency, each labelled by itself |
| CurrencySelect.PopularOptionsStep | src/components/CurrencySelect.jsx:37-41 | one more popular code appends its option exactly when it is not skipped |
| CurrencySelect.PushLeading | src/components/CurrencySelect.jsx:16-35 | the first pushes build exactly `Leading` |
| CurrencySelect.BuildOptions | src/components/CurrencySelect.jsx:15-44 | the pushes and the `forEach` loop build exactly `Leading` followed by `PopularOptions` |
| CurrencySelect.FindCode | src/components/CurrencySelect.jsx:79 | `find` returns the first option with the code, or none when no option has it |
| CurrencySelect.ButtonShowsFirstLabel | src/components/CurrencySelect.jsx:79 | the button shows the value with the first option's suffix |
| CurrencySelect.HomeMayRepeatAsset | src/components/CurrencySelect.jsx:29-35 | with value EUR, asset USD and user USD, USD is offered twice |
| CurrencySelect.CurrencyDropdown.constructor | src/components/CurrencySelect.jsx:4-13 | a new drop-down holds its props and is closed |
| CurrencySelect.CurrencyDropdown.Toggle | src/components/CurrencySelect.jsx:75 | the button flips `open` |
| CurrencySelect.CurrencyDropdown.ClickOutside | src/components/CurrencySelect.jsx:47-52 | an outside mousedown closes the list |
| CurrencySelect.CurrencyDropdown.Pick | src/components/CurrencySelect.jsx:115-118 | picking an option reports its code once and closes the list |
| CurrencySelect.CurrencyDropdown.ButtonLabel | src/components/CurrencySelect.jsx:79 | the button text computed from the built options is the value with its suffix |
| HomeCurrency.InitialValue | src/components/HomeCurrencyPicker.jsx:9 | the initial field is the upper-cased initial value, or USD when it is absent or empty; never empty, already upper-cased |
| HomeCurrency.FallbackValidate | src/components/HomeCurrencyPicker.jsx:14-18 | ok iff the code is exactly three letters A-Z, with "Saved" or "Invalid currency code" |
| HomeCurrency.SubmitStart | src/components/HomeCurrencyPicker.jsx:21-27 | submit writes back the trimmed, upper-cased code; an empty code changes nothing else; otherwise status is saving with suggestions and message cleared |
| HomeCurrency.Request | src/components/HomeCurrencyPicker.jsx:23-34 | a request is sent iff the normalised code is non-empty, with that code, and only from the saving state |
| HomeCurrency.Resolve | src/components/HomeCurrencyPicker.jsx:42-58 | success iff the body says ok, else error; the message is the body's or ""; a rejection takes the suggestions only if they are an array, else []; an HTTP failure gives "Something went wrong" and leaves the suggestions; only a success schedules the idle timer |
| HomeCurrency.IdleTimerFired | src/components/HomeCurrencyPicker.jsx:50 | the success timer sets the status back to idle, whatever it is by then |
| HomeCurrency.FailureShowsNoSuggestions | src/components/HomeCurrencyPicker.jsx:25-27 | after a failed request the suggestions that submit cleared stay empty and the message is the failure message |
| HomeCurrency.ResubmitSendsSameCode | src/components/HomeCurrencyPicker.jsx:21-22 | submitting again sends the same code |
| HomeCurrency.HomeCurrencyPicker.constructor | src/components/HomeCurrencyPicker.jsx:9-12 | the picker starts idle with the initial value and nothing shown |
| HomeCurrency.HomeCurrencyPicker.InputChanged | src/components/HomeCurrencyPicker.jsx:90 | typing stores the text upper-cased |
| HomeCurrency.HomeCurrencyPicker.SuggestionPicked | src/components/HomeCurrencyPicker.jsx:129 | a clicked suggestion is stored upper-cased |
| HomeCurrency.HomeCurrencyPicker.Submit | src/components/HomeCurrencyPicker.jsx:20-34 | the fields become `SubmitStart` of the old state and the request sent is `Request` of it |
| HomeCurrency.HomeCurrencyPicker.Answered | src/components/HomeCurrencyPicker.jsx:42-58 | the fields become `Resolve` of the old state and the answer |
| HomeCurrency.HomeCurrencyPicker.IdleTimerElapsed | src/components/HomeCurrencyPicker.jsx:50 | the fields become `IdleTimerFired` of the old state |
| CurrencyDemo.MockOutcome | src/pages/CurrencyPickerDemo.jsx:20-34 | XXX is refused first with "Currency not recognized" and four suggestions; any other code that is not three letters A-Z gets "Code must be 3 letters" and three suggestions; every other code succeeds with "Currency set to <CODE>"; every refusal offers USD |
| CurrencyDemo.XxxCheckedBeforeFormat | src/pages/CurrencyPickerDemo.jsx:21-25 | XXX passes the format test, so only the order of the tests makes it unrecognised |
| CurrencyDemo.SubmittedCodesAreCanonical | src/pages/CurrencyPickerDemo.jsx:11-13 | the code the mock classifies is already trimmed and upper-cased |
| CurrencyDemo.LettersInAnyCaseAccepted | src/pages/CurrencyPickerDemo.jsx:11-31 | three ASCII letters in any case, with any padding, are sent upper-cased and trimmed and accepted, unless they spell XXX |
| CurrencyDemo.DemoHomeCurrencyPicker.constructor | src/pages/CurrencyPickerDemo.jsx:4-8 | the demo starts idle with the initial value, defaulting to USD |
| CurrencyDemo.DemoHomeCurrencyPicker.InputChanged | src/pages/CurrencyPickerDemo.jsx:66 | typing stores the text upper-cased |
| CurrencyDemo.DemoHomeCurrencyPicker.SuggestionPicked | src/pages/CurrencyPickerDemo.jsx:100 | a clicked suggestion is stored upper-cased |
| CurrencyDemo.DemoHomeCurrencyPicker.Submit | src/pages/CurrencyPickerDemo.jsx:10-20 | submit writes back the normalised code; an empty code changes nothing else; otherwise status is saving, suggestions and message are cleared and a mock reply for that code is queued |
| CurrencyDemo.DemoHomeCurrencyPicker.MockTimerElapsed | src/pages/CurrencyPickerDemo.jsx:20-34 | the oldest queued reply applies `MockOutcome` of its code: status and message, suggestions on an error, an idle timer on a success |
| CurrencyDemo.DemoHomeCurrencyPicker.IdleTimerElapsed | src/pages/CurrencyPickerDemo.jsx:32 | the success timer sets the status back to idle and changes nothing else |
| Register.MatchesCharsetMeaning | src/pages/Register.jsx:14-15 | `/^[a-zA-Z0-9]+$/` matches exactly the non-empty strings of ASCII letters and digits |
| Register.ValidateUsername | src/pages/Register.jsx:12-30 | no message iff the name is 3 to 15 ASCII letters and digits; the charset message iff it is empty or has another character; too short iff valid characters and under 3; too long iff valid characters and over 15 |
| Register.CheckSubmit | src/pages/Register.jsx:56-72 | submit proceeds iff the name is valid, the passwords match and the password has at least 6 characters; a name error comes first, then a mismatch, then the length |
| Register.EmptyUsernameIsCharsetError | src/pages/Register.jsx:14-22 | the empty name gets the charset message, not the too-short one |
| Register.MismatchBeforeLength | src/pages/Register.jsx:62-70 | a mismatch is reported even when both passwords are also too short |
| Register.RegisterForm.constructor | src/pages/Register.jsx:33-38 | the form starts with every field empty and not loading |
| Register.RegisterForm.UsernameChanged | src/pages/Register.jsx:43-50 | the name is stored and its error is the validator's message, empty exactly when the name is valid |
| Register.RegisterForm.PasswordChanged | src/pages/Register.jsx:136 | the password field is stored |
| Register.RegisterForm.ConfirmChanged | src/pages/Register.jsx:152 | the confirmation field is stored |
| Register.RegisterForm.Submit | src/pages/Register.jsx:52-75 | `register` is called, with the name and password and loading set, iff `CheckSubmit` proceeds; a name error goes to the name's error and leaves `error` cleared; a password error goes to `error` |
| Register.RegisterForm.Registered | src/pages/Register.jsx:77-83 | a success navigates to "/", a failure shows the result's message; loading ends either way |
| Portfolio.ErrorMessage | src/pages/Portfolio.jsx:104-109 | a rejection shows the server's `detail` when it is non-empty, else the operation's fallback; a thrown error shows its own message |
| Portfolio.Replaced | src/pages/Portfolio.jsx:173 | the update keeps the length and order and replaces exactly the positions with that ticker |
| Portfolio.Without | src/pages/Portfolio.jsx:201-203 | the delete never lengthens the list |
| Portfolio.WithoutMembers | src/pages/Portfolio.jsx:201-203 | the delete keeps exactly the positions with another ticker, leaves none with that ticker, and shrinks iff one was held |
| Portfolio.WithoutCons | src/pages/Portfolio.jsx:201-203 | the filter drops or keeps the first position by its ticker and filters the rest alike |
| Portfolio.WithoutConcat | src/pages/Portfolio.jsx:201-203 | filtering works piecewise, so the kept positions keep their relative order |
| Portfolio.WithoutUnheld | src/pages/Portfolio.jsx:201-203 | deleting a ticker that is not held leaves the list unchanged |
| Portfolio.DeleteUndoesAdd | src/pages/Portfolio.jsx:115 | deleting the ticker of a position just added, when it was not held before, gives back the list before the add |
| Portfolio.Tickers | src/pages/Portfolio.jsx:173 | the tickers of a list, one per position, in order; the helper that states `UpdateKeepsTickers` and `HoldsIffListed` |
| Portfolio.HoldsIffListed | src/pages/Portfolio.jsx:214 | the duplicate test `positions.some(...)` holds exactly when the symbol is among the list's tickers |
| Portfolio.UpdateKeepsTickers | src/pages/Portfolio.jsx:173 | an update whose answer carries the same ticker leaves the tickers as they were |
| Portfolio.AddKeepsTickersUnique | src/pages/Portfolio.jsx:213-223 | adding a ticker that `selectTicker` admitted keeps the tickers unique |
| Portfolio.EnabledSubmitIsAllowed | src/pages/Portfolio.jsx:322-328 | whenever the add button is enabled, the handler's own guard on line 86 passes |
| Portfolio.PortfolioPage.constructor | src/pages/Portfolio.jsx:38-54 | the page after the fetch holds the fetched positions with every form field empty |
| Portfolio.PortfolioPage.SelectTicker | src/pages/Portfolio.jsx:213-223 | a held symbol sets the duplicate message and leaves the new ticker; any other becomes the new ticker and clears the error |
| Portfolio.PortfolioPage.QuantityChanged | src/pages/Portfolio.jsx:128-146 | the text is stored; empty text clears the error; otherwise the error is set iff the number is missing, at most 0 or above 1,000,000 |
| Portfolio.PortfolioPage.SubmitAdd | src/pages/Portfolio.jsx:84-102 | a request with the trimmed ticker is sent iff the ticker is not blank and the quantity is not empty, marking the add in progress and clearing the error; otherwise nothing changes |
| Portfolio.PortfolioPage.AddSucceeded | src/pages/Portfolio.jsx:113-124 | the returned position is appended after the old list and both inputs are cleared |
| Portfolio.PortfolioPage.AddFailed | src/pages/Portfolio.jsx:104-124 | the list and inputs stay and the error message is shown |
| Portfolio.PortfolioPage.StartEdit | src/pages/Portfolio.jsx:226-229 | edit mode is entered for the position's ticker with its quantity as text |
| Portfolio.PortfolioPage.EditQuantityChanged | src/components/PortfolioTable.jsx:70 | the edited quantity is stored |
| Portfolio.PortfolioPage.SaveEdit | src/pages/Portfolio.jsx:232-236 | an update is sent iff a ticker is being edited and the quantity is not empty, clearing the error |
| Portfolio.PortfolioPage.CancelEdit | src/pages/Portfolio.jsx:239-242 | edit mode ends and the edited quantity is cleared |
| Portfolio.PortfolioPage.UpdateSucceeded | src/pages/Portfolio.jsx:171-175 | the list becomes `Replaced` of the old list and edit mode ends |
| Portfolio.PortfolioPage.UpdateFailed | src/pages/Portfolio.jsx:162-179 | the list stays and the error message is shown |
| Portfolio.PortfolioPage.AskDelete | src/components/PortfolioTable.jsx:120 | the row's delete button asks to confirm that ticker |
| Portfolio.PortfolioPage.DismissDelete | src/pages/Portfolio.jsx:373 | the modal's cancel button closes it |
| Portfolio.PortfolioPage.ConfirmDelete | src/pages/Portfolio.jsx:183-186 | confirming sends a delete for the ticker asked about and clears the error |
| Portfolio.PortfolioPage.DeleteSucceeded | src/pages/Portfolio.jsx:201-205 | the list becomes `Without` of the old list and the confirmation closes |
| Portfolio.PortfolioPage.DeleteFailed | src/pages/Portfolio.jsx:193-209 | the list stays and the error message is shown |
| TickerSearch.FindIndex | src/components/TickerSearchDropdown.jsx:74-76 | the position of the first result with the ticker, or -1 iff no result has it |
| TickerSearch.OnSearchChange | src/components/TickerSearchDropdown.jsx:125-138 | the query is stored and any pending lookup cancelled; a lookup of the raw text is scheduled iff its trimmed form is non-empty; results, visibility and index are untouched |
| TickerSearch.OnTimerFired | src/components/TickerSearchDropdown.jsx:44-45 | the pending text, if any, is sent and the loading flag raised; nothing stays pending |
| TickerSearch.OnLookupOk | src/components/TickerSearchDropdown.jsx:51-57 | the results are replaced, the dropdown opens even for no hits, the index is 0 with hits and -1 without, loading ends |
| TickerSearch.OnLookupFailedAsWritten | src/components/TickerSearchDropdown.jsx:58-68 | the results are emptied, the dropdown hidden and loading ends; the index is reset only if the dropdown was shown |
| TickerSearch.OnLookupFailed | src/components/TickerSearchDropdown.jsx:58-68 | as written but with the index always -1; it agrees with the code whenever the dropdown was shown |
| TickerSearch.OnFocus | src/components/TickerSearchDropdown.jsx:71-80 | with results the dropdown opens at the position of the host's ticker (-1 if absent); without results it stays hidden with index -1 |
| TickerSearch.Commit | src/components/TickerSearchDropdown.jsx:102-107 | a selection is reported once, the dropdown hides and the query becomes its symbol only when it mirrors the ticker |
| TickerSearch.OnKeyDown | src/components/TickerSearchDropdown.jsx:82-109 | the index stays in -1..len-1; Escape toggles visibility, ends at -1 and suppresses the default; Tab hides without suppressing; ArrowDown and ArrowUp move one step only inside the list; Enter selects the highlighted result iff one is highlighted; other keys change nothing |
| TickerSearch.OnRowClick | src/components/TickerSearchDropdown.jsx:196-210 | a click on a shown row selects that result once and hides the dropdown with index -1 |
| TickerSearch.OnOutsideClick | src/components/TickerSearchDropdown.jsx:112-123 | an outside mousedown hides the dropdown and keeps query and results |
| TickerSearch.OnTickerChanged | src/components/TickerSearchDropdown.jsx:37-41 | a new host ticker becomes the query only when the query mirrors the ticker |
| TickerSearch.Step | src/components/TickerSearchDropdown.jsx:44-155 | every event keeps the index in range and the pending text non-blank; a selection is one of the held results |
| TickerSearch.StepSchedule | src/components/TickerSearchDropdown.jsx:125-138 | only the timer sends a lookup, of the pending text, never blank; a keystroke schedules its text iff it is non-blank; other events keep or cancel what is pending |
| TickerSearch.Run | src/components/TickerSearchDropdown.jsx:44-155 | any run of events keeps the invariant |
| TickerSearch.LookupsNonBlank | src/components/TickerSearchDropdown.jsx:125-138 | no run of events ever sends blank text to the search endpoint |
| TickerSearch.BlankTypingNeverLooksUp | src/components/TickerSearchDropdown.jsx:134-137 | with nothing pending, a run whose keystrokes are all blank sends no lookup |
| TickerSearch.RunCons | src/components/TickerSearchDropdown.jsx:44-155 | a run is its first event's outcome in front of the run of the rest |
| TickerSearch.RunAppend | src/components/TickerSearchDropdown.jsx:44-155 | running two lists of events one after the other ends where the run of their concatenation ends, with the selections and lookups of both in order |
| TickerSearch.TypeAndWait | src/components/TickerSearchDropdown.jsx:128-137 | typing a non-blank text and letting the debounce timer fire looks up exactly that text once and raises the loading flag, and changes nothing else |
| TickerSearch.AnswerThenEnter | src/components/TickerSearchDropdown.jsx:51-57 | an answer with hits followed by Enter selects the first hit once, hides the dropdown with index -1 and, when the query mirrors the ticker, shows its symbol |
| TickerSearch.HideThenHighlight | src/components/TickerSearchDropdown.jsx:84-96 | Escape hides a single answered hit and ArrowDown then highlights it while hidden |
| TickerSearch.EnterSelectsFirstHit | src/components/TickerSearchDropdown.jsx:51-57 | from the initial state, typing any non-blank query, waiting, the lookup answering with hits and Enter select the first hit once, look the query up once, and hide the dropdown with index -1 |
| TickerSearch.NoHitsSelectNothing | src/components/TickerSearchDropdown.jsx:56-57 | from any state, a lookup with no hits opens the dropdown at -1, and ArrowDown and Enter then select nothing and change nothing |
| TickerSearch.OnlyLatestTextIsLookedUp | src/components/TickerSearchDropdown.jsx:128-137 | typing one text and then another before the timer fires looks up only the second, once, even if the timer event repeats |
| TickerSearch.ArrowsActWhileHidden | src/components/TickerSearchDropdown.jsx:91-103 | with the dropdown hidden and nothing highlighted, ArrowDown then Enter select the first held result |
| TickerSearch.StaleIndexAfterFailedLookup | src/components/TickerSearchDropdown.jsx:58-61 | for any two non-blank queries, after one hit is answered, Escape hides it, ArrowDown highlights it and the second query is sent, a failed lookup as written leaves index 0 over no results; the corrected failure resets to -1 and Enter then selects nothing |
| TickerSearch.TickerSearchDropdown.constructor | src/components/TickerSearchDropdown.jsx:27-41 | mounting gives the initial state (empty query, no results, hidden, index -1, nothing pending) followed by the ticker effect, so a mirroring query starts as the host's ticker |
| TickerSearch.TickerSearchDropdown.SetShowDropdown | src/components/TickerSearchDropdown.jsx:140-145 | setting visibility runs the close effect only on a change from shown to hidden |
| TickerSearch.TickerSearchDropdown.SearchChanged | src/components/TickerSearchDropdown.jsx:125-138 | the fields become `OnSearchChange` of the old state |
| TickerSearch.TickerSearchDropdown.TimerElapsed | src/components/TickerSearchDropdown.jsx:135-137 | the fields become `OnTimerFired` of the old state and the text sent is the pending one, never blank |
| TickerSearch.TickerSearchDropdown.SearchSucceeded | src/components/TickerSearchDropdown.jsx:51-57 | the fields become `OnLookupOk` of the old state |
| TickerSearch.TickerSearchDropdown.SearchFailed | src/components/TickerSearchDropdown.jsx:58-68 | the fields become `OnLookupFailed` of the old state |
| TickerSearch.TickerSearchDropdown.Focused | src/components/TickerSearchDropdown.jsx:71-80 | the fields become `OnFocus` of the old state |
| TickerSearch.TickerSearchDropdown.KeyPressed | src/components/TickerSearchDropdown.jsx:82-109 | the fields, the selection and the suppressed default are those of `OnKeyDown` |
| TickerSearch.TickerSearchDropdown.RowClicked | src/components/TickerSearchDropdown.jsx:204-210 | the fields and the selection are those of `OnRowClick` |
| TickerSearch.TickerSearchDropdown.ClickOutside | src/components/TickerSearchDropdown.jsx:112-123 | the fields become `OnOutsideClick` of the old state |
| TickerSearch.TickerSearchDropdown.TickerChanged | src/components/TickerSearchDropdown.jsx:37-41 | the fields become `OnTickerChanged` of the old state |
| TickerSearch.TickerSearchDropdown.Unmount | src/components/TickerSearchDropdown.jsx:148-155 | unmounting cancels the pending lookup and changes nothing else |

## Left out

- HTTP, tokens and `localStorage`: every `fetch`, the `Authorization` header, the 401 handling through `handleTokenExpired`, and `AuthContext.jsx`. Server answers are abstract inputs (`LookupOk`/`LookupFailed`, `HomeCurrency.Answer`, `Portfolio.Failure`, `Register.AuthResult`).
- Wall-clock time: the 500 ms debounce, the 400 ms simulated API latency, the 800 ms and 1200 ms picker timers are events; the 5 s auto-clear of the portfolio error is not modelled.
- Fetching the portfolio on mount and its loading flag: `Portfolio.PortfolioPage.constructor` takes the fetched list.
- Out-of-order lookup answers: the dropdown has no request-id guard, so the last answer to arrive wins; the model applies answers in the order given and does not tie an answer to the text it was for.
- `TickerSearch.TickerSearchDropdown.SearchFailed`: uses the corrected failure (index always -1), not the code as written; the as-written behaviour is `TickerSearch.OnLookupFailedAsWritten`.
- `TickerSearch.Step`, `TickerSearch.Run` and the run lemmas (`StepSchedule`, `LookupsNonBlank`, `BlankTypingNeverLooksUp`, `RunCons`, `RunAppend` and the scenarios built on them): use the corrected failure `OnLookupFailed`; as written the invariant fails, because a failed lookup while hidden can leave index 0 over no results (see "## Findings").
- Unicode: `toUpperCase`, `trim` and string lengths are modelled on ASCII; non-ASCII letters are not upper-cased, non-ASCII whitespace is not trimmed, and lengths count characters rather than UTF-16 units.
- `(input || "")` on `undefined` or `null` input to the currency API: inputs are strings.
- Number parsing and display: `parseFloat`, `isNaN` coercion, `toString`, `toFixed`. `Portfolio.PortfolioPage.QuantityChanged` takes the parsed number (None for NaN) as a parameter; `Portfolio.PortfolioPage.StartEdit` takes the quantity already rendered as text; requests carry the quantity text.
- `Portfolio.QuantityMessage` says "between 1 and 1,000,000" while the check rejects only values at most 0 or above 1,000,000; the model keeps both as written.
- `POPULAR_CURRENCIES` comes from a constants module that is not part of this model; it is a parameter.
- `Register.RegisterForm.Submit`, `Portfolio.PortfolioPage.SubmitAdd`: the browser's own form validation, which blocks a submit before the handler runs, is not modelled: the `required` inputs (Register.jsx lines 111, 132 and 148; Portfolio.jsx line 307) and the quantity's `min="0.01" max="1000000" step="0.01"` (Portfolio.jsx lines 298-305). The model lets these handlers run on inputs the browser refuses, such as an empty username or the quantity 1.005, so it allows more submits than the program.
- The `maxLength={3}` attribute of the currency inputs is a browser limit on typing and is not modelled: `InputChanged` accepts any text.
- Fields of search results and positions that the logic never reads (exchange, prices, names) are not modelled.
- The mismatch between `AuthContext.register`'s `{error}` result and the page's `result.message`, and a `register` call that throws, are not modelled.
- Toast notifications, the spinner and markup of the presentational components (`PortfolioTable.jsx` apart from its three callbacks, `PriceChart.jsx`, `MainContentWrapper.jsx`, `App.jsx`, `Home.jsx`, `ProtectedRoute.jsx`, `navbar.jsx`, `Dashboard.jsx`, `Users.jsx`, `TickerMetrics.jsx`).

## Findings

| source | as written | input that shows it | evidently intended | confidence | as-written member | corrected member |
|---|---|---|---|---|---|---|
| src/components/TickerSearchDropdown.jsx:58-61 | a failed lookup empties the results and hides the dropdown; when the dropdown was already hidden the visibility does not change, so the close effect (lines 140-145) does not run and the index is kept; ArrowDown (lines 91-96) moves the index while hidden, so it can be 0 | type A, lookup answers one hit, Escape, ArrowDown, type AB, lookup fails: index 0 with no results; Enter (lines 100-103) then passes `searchResults[0]`, which is `undefined`, to `onSelect`, and `Portfolio.selectTicker` reads `.symbol` of it (lemma `TickerSearch.StaleIndexAfterFailedLookup`) | a failed lookup leaves no row highlighted (index -1), keeping the index inside -1..len-1 | medium, not executed | TickerSearch.OnLookupFailedAsWritten | TickerSearch.OnLookupFailed |
