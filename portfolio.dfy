/**
 * The portfolio page of src/pages/Portfolio.jsx: the list of held positions with its three
 * updates (append on add, replace-by-ticker on update, filter-by-ticker on delete), the
 * add form's ticker and quantity fields with their guards, and edit and delete modes.
 * Server calls are split into the request the page issues and the answer it receives.
 */
module Portfolio {
  import opened Text
  import opened Wrappers

  /** A held position as the server returns it; only its ticker matters to the list logic. */
  datatype Position = Position(ticker: string, quantity: real)

  /** How a server call failed: a non-OK reply with an optional `detail`, or a thrown error. */
  datatype Failure = Rejected(detail: Option<string>) | Thrown(message: string)

  const AddFallback: string := "Failed to add position"
  const UpdateFallback: string := "Failed to update position"
  const DeleteFallback: string := "Failed to delete position"
  const QuantityMessage: string := "Quantity must be a positive number between 1 and 1,000,000."
  const MaxQuantity: real := 1000000.0

  /** `errorData.detail || fallback` for a rejection, the error's own message otherwise. */
  function ErrorMessage(f: Failure, fallback: string): (m: string)
    ensures f.Rejected? && f.detail.Some? && f.detail.value != "" ==> m == f.detail.value
    ensures f.Rejected? && (f.detail.None? || f.detail.value == "") ==> m == fallback
    ensures f.Thrown? ==> m == f.message
  {
    match f
    case Rejected(detail) => if detail.Some? && detail.value != "" then detail.value else fallback
    case Thrown(message) => message
  }

  /** `positions.some(p => p.ticker === symbol)`. */
  predicate Holds(ps: seq<Position>, symbol: string) {
    exists i :: 0 <= i < |ps| && ps[i].ticker == symbol
  }

  /** `prev.map(p => p.ticker === symbol ? data : p)`. */
  function Replaced(ps: seq<Position>, symbol: string, data: Position): (r: seq<Position>)
    ensures |r| == |ps|
    ensures forall i :: 0 <= i < |ps| ==> r[i] == if ps[i].ticker == symbol then data else ps[i]
  {
    if ps == [] then [] else [if ps[0].ticker == symbol then data else ps[0]] + Replaced(ps[1..], symbol, data)
  }

  /** `prev.filter(position => position.ticker !== symbol)`. */
  function Without(ps: seq<Position>, symbol: string): (r: seq<Position>)
    ensures |r| <= |ps|
  {
    if ps == [] then []
    else if ps[0].ticker == symbol then Without(ps[1..], symbol)
    else [ps[0]] + Without(ps[1..], symbol)
  }

  /** The delete keeps exactly the positions with another ticker, and shrinks the list iff it held the ticker. */
  lemma {:induction false} WithoutMembers(ps: seq<Position>, symbol: string)
    ensures forall p :: p in Without(ps, symbol) <==> p in ps && p.ticker != symbol
    ensures !Holds(Without(ps, symbol), symbol)
    ensures Holds(ps, symbol) <==> |Without(ps, symbol)| < |ps|
  {
    if ps != [] {
      var rest := Without(ps[1..], symbol);
      WithoutMembers(ps[1..], symbol);
      assert forall p :: p in ps <==> p == ps[0] || p in ps[1..];
      assert Holds(ps, symbol) <==> ps[0].ticker == symbol || Holds(ps[1..], symbol) by {
        if Holds(ps, symbol) && ps[0].ticker != symbol {
          var i :| 0 <= i < |ps| && ps[i].ticker == symbol;
          assert ps[1..][i - 1].ticker == symbol;
        }
        if Holds(ps[1..], symbol) {
          var i :| 0 <= i < |ps[1..]| && ps[1..][i].ticker == symbol;
          assert ps[i + 1].ticker == symbol;
        }
      }
      if ps[0].ticker != symbol {
        var r := [ps[0]] + rest;
        assert forall p :: p in r <==> p == ps[0] || p in rest;
      }
    }
  }

  /** Filtering works piecewise, so the positions that stay keep their relative order. */
  lemma {:induction false} WithoutConcat(a: seq<Position>, b: seq<Position>, symbol: string)
    ensures Without(a + b, symbol) == Without(a, symbol) + Without(b, symbol)
  {
    if a == [] {
      assert a + b == b;
    } else {
      assert a + b == [a[0]] + (a[1..] + b);
      WithoutCons(a[0], a[1..] + b, symbol);
      WithoutCons(a[0], a[1..], symbol);
      assert [a[0]] + a[1..] == a;
      WithoutConcat(a[1..], b, symbol);
    }
  }

  lemma WithoutCons(p: Position, rest: seq<Position>, symbol: string)
    ensures Without([p] + rest, symbol) == (if p.ticker == symbol then [] else [p]) + Without(rest, symbol)
  {
    assert ([p] + rest)[0] == p && ([p] + rest)[1..] == rest;
  }

  /** Deleting a ticker the list did not hold before an add undoes that add. */
  lemma DeleteUndoesAdd(ps: seq<Position>, p: Position)
    requires !Holds(ps, p.ticker)
    ensures Without(ps + [p], p.ticker) == ps
  {
    WithoutConcat(ps, [p], p.ticker);
    WithoutUnheld(ps, p.ticker);
  }

  lemma {:induction false} WithoutUnheld(ps: seq<Position>, symbol: string)
    requires !Holds(ps, symbol)
    ensures Without(ps, symbol) == ps
  {
    if ps != [] {
      assert ps[0].ticker != symbol;
      assert forall i :: 0 <= i < |ps[1..]| ==> ps[1..][i] == ps[i + 1];
      WithoutUnheld(ps[1..], symbol);
    }
  }

  /** The tickers of a list, in order. */
  function Tickers(ps: seq<Position>): (ts: seq<string>)
    ensures |ts| == |ps| && forall i :: 0 <= i < |ps| ==> ts[i] == ps[i].ticker
  {
    if ps == [] then [] else [ps[0].ticker] + Tickers(ps[1..])
  }

  /** `positions.some(p => p.ticker === symbol)` holds exactly when the symbol is among the tickers. */
  lemma HoldsIffListed(ps: seq<Position>, symbol: string)
    ensures Holds(ps, symbol) <==> symbol in Tickers(ps)
  {
    var ts := Tickers(ps);
    if symbol in ts {
      var i :| 0 <= i < |ts| && ts[i] == symbol;
      assert ps[i].ticker == symbol;
    }
    if Holds(ps, symbol) {
      var i :| 0 <= i < |ps| && ps[i].ticker == symbol;
      assert ts[i] == symbol;
    }
  }

  predicate UniqueTickers(ps: seq<Position>) {
    forall i, j :: 0 <= i < j < |ps| ==> ps[i].ticker != ps[j].ticker
  }

  /** An update whose answer carries the same ticker changes quantities only, never the tickers. */
  lemma UpdateKeepsTickers(ps: seq<Position>, data: Position)
    ensures Tickers(Replaced(ps, data.ticker, data)) == Tickers(ps)
  {
  }

  /** Adding a ticker the list does not hold, which is what `selectTicker` admits, keeps tickers unique. */
  lemma AddKeepsTickersUnique(ps: seq<Position>, p: Position)
    requires UniqueTickers(ps) && !Holds(ps, p.ticker)
    ensures UniqueTickers(ps + [p])
  {
  }

  /** `isNaN(value) || value <= 0 || value > 1000000` on the parsed input (None is NaN). */
  predicate QuantityRejected(parsed: Option<real>) {
    parsed.None? || parsed.value <= 0.0 || parsed.value > MaxQuantity
  }

  /** The early return of `addPosition`: a blank ticker or an empty quantity sends nothing. */
  predicate AddAllowed(ticker: string, quantity: string) {
    Trim(ticker) != "" && quantity != ""
  }

  /** The submit button's `disabled` expression. */
  predicate SubmitDisabled(adding: bool, ticker: string, quantity: string,
                           tickerError: Option<string>, quantityError: Option<string>) {
    adding || Trim(ticker) == "" || quantity == "" || tickerError.Some? || quantityError.Some?
  }

  /** An enabled button always passes the handler's own guard. */
  lemma EnabledSubmitIsAllowed(adding: bool, ticker: string, quantity: string,
                               tickerError: Option<string>, quantityError: Option<string>)
    ensures !SubmitDisabled(adding, ticker, quantity, tickerError, quantityError) ==> AddAllowed(ticker, quantity)
  {
  }

  function DuplicateMessage(symbol: string): string {
    "Ticker " + symbol + " is already in your portfolio. Use the edit option to change the quantity."
  }

  datatype AddRequest = AddRequest(ticker: string, quantity: string)
  datatype UpdateRequest = UpdateRequest(symbol: string, quantity: string)

  class PortfolioPage {
    var positions: seq<Position>
    var error: Option<string>
    var newTicker: string
    var tickerError: Option<string>
    var newQuantity: string
    var quantityError: Option<string>
    var addingPosition: bool
    var editingPosition: Option<string>
    var editQuantity: string
    var deleteConfirm: Option<string>

    /** The page after the positions have been fetched. */
    constructor (fetched: seq<Position>)
      ensures positions == fetched && error == None && newTicker == "" && tickerError == None
      ensures newQuantity == "" && quantityError == None && !addingPosition
      ensures editingPosition == None && editQuantity == "" && deleteConfirm == None
    {
      positions := fetched;
      error := None;
      newTicker, tickerError := "", None;
      newQuantity, quantityError := "", None;
      addingPosition := false;
      editingPosition, editQuantity := None, "";
      deleteConfirm := None;
    }

    function AddButtonDisabled(): bool
      reads this
    {
      SubmitDisabled(addingPosition, newTicker, newQuantity, tickerError, quantityError)
    }

    /** `selectTicker`: a held symbol is refused with a message; any other becomes the new ticker. */
    method SelectTicker(symbol: string)
      modifies this`newTicker, this`tickerError
      ensures Holds(positions, symbol) ==> tickerError == Some(DuplicateMessage(symbol)) && newTicker == old(newTicker)
      ensures !Holds(positions, symbol) ==> newTicker == symbol && tickerError == None
    {
      var held := Holds(positions, symbol);
      if held {
        tickerError := Some(DuplicateMessage(symbol));
        return;
      }
      newTicker := symbol;
      tickerError := None;
    }

    /** `handleQuantityChange` with the input's text and its numeric reading (None for NaN). */
    method QuantityChanged(text: string, parsed: Option<real>)
      modifies this`newQuantity, this`quantityError
      ensures newQuantity == text
      ensures text == "" ==> quantityError == None
      ensures text != "" ==> (quantityError.Some? <==> QuantityRejected(parsed))
      ensures quantityError.Some? ==> quantityError.value == QuantityMessage
    {
      if text == "" {
        newQuantity := "";
        quantityError := None;
        return;
      }
      newQuantity := text;
      if parsed.None? || parsed.value <= 0.0 || parsed.value > MaxQuantity {
        quantityError := Some(QuantityMessage);
      } else {
        quantityError := None;
      }
    }

    /** `addPosition` up to the request: nothing when the guard fails, else mark adding and clear the error. */
    method SubmitAdd() returns (request: Option<AddRequest>)
      modifies this`addingPosition, this`error
      ensures request.Some? <==> AddAllowed(newTicker, newQuantity)
      ensures request.Some? ==> request.value == AddRequest(Trim(newTicker), newQuantity) && addingPosition && error == None
      ensures request.None? ==> addingPosition == old(addingPosition) && error == old(error)
    {
      var ticker := Trim(newTicker);
      if ticker == "" || newQuantity == "" {
        request := None;
      } else {
        addingPosition := true;
        error := None;
        request := Some(AddRequest(ticker, newQuantity));
      }
    }

    /** The add request succeeded with the server's position: append it and clear both inputs. */
    method AddSucceeded(data: Position)
      modifies this`positions, this`newTicker, this`newQuantity, this`addingPosition
      ensures positions == old(positions) + [data]
      ensures newTicker == "" && newQuantity == "" && !addingPosition
    {
      positions := positions + [data];
      newTicker := "";
      newQuantity := "";
      addingPosition := false;
    }

    /** The add request failed: the list and the inputs stay, the error is shown. */
    method AddFailed(failure: Failure)
      modifies this`error, this`addingPosition
      ensures error == Some(ErrorMessage(failure, AddFallback)) && !addingPosition
    {
      error := Some(ErrorMessage(failure, AddFallback));
      addingPosition := false;
    }

    /** `startEdit`, given the position's ticker and its quantity as the page prints it. */
    method StartEdit(ticker: string, quantityText: string)
      modifies this`editingPosition, this`editQuantity
      ensures editingPosition == Some(ticker) && editQuantity == quantityText
    {
      editingPosition := Some(ticker);
      editQuantity := quantityText;
    }

    method EditQuantityChanged(text: string)
      modifies this`editQuantity
      ensures editQuantity == text
    {
      editQuantity := text;
    }

    /** `saveEdit`: an update is issued only while editing a (non-empty) ticker with a non-empty quantity. */
    method SaveEdit() returns (request: Option<UpdateRequest>)
      modifies this`error
      ensures request.Some? <==> editingPosition.Some? && editingPosition.value != "" && editQuantity != ""
      ensures request.Some? ==> request.value == UpdateRequest(editingPosition.value, editQuantity) && error == None
      ensures request.None? ==> error == old(error)
    {
      if editingPosition.Some? && editingPosition.value != "" && editQuantity != "" {
        error := None;
        request := Some(UpdateRequest(editingPosition.value, editQuantity));
      } else {
        request := None;
      }
    }

    /** `cancelEdit`: leave edit mode and clear the edited quantity. */
    method CancelEdit()
      modifies this`editingPosition, this`editQuantity
      ensures editingPosition == None && editQuantity == ""
    {
      editingPosition := None;
      editQuantity := "";
    }

    /** The update of `symbol` succeeded: every position with that ticker becomes `data`; edit mode ends. */
    method UpdateSucceeded(symbol: string, data: Position)
      modifies this`positions, this`editingPosition
      ensures positions == Replaced(old(positions), symbol, data) && editingPosition == None
    {
      positions := Replaced(positions, symbol, data);
      editingPosition := None;
    }

    method UpdateFailed(failure: Failure)
      modifies this`error
      ensures error == Some(ErrorMessage(failure, UpdateFallback))
    {
      error := Some(ErrorMessage(failure, UpdateFallback));
    }

    /** The delete button of a row asks for confirmation; the modal's Cancel dismisses it. */
    method AskDelete(ticker: string)
      modifies this`deleteConfirm
      ensures deleteConfirm == Some(ticker)
    {
      deleteConfirm := Some(ticker);
    }

    method DismissDelete()
      modifies this`deleteConfirm
      ensures deleteConfirm == None
    {
      deleteConfirm := None;
    }

    /** The modal's Delete button: `deletePosition(deleteConfirm)` clears the error and sends the request. */
    method ConfirmDelete() returns (symbol: string)
      requires deleteConfirm.Some? && deleteConfirm.value != ""
      modifies this`error
      ensures symbol == deleteConfirm.value && error == None
    {
      error := None;
      symbol := deleteConfirm.value;
    }

    /** The delete of `symbol` succeeded: drop its positions, keep the rest in order, close the modal. */
    method DeleteSucceeded(symbol: string)
      modifies this`positions, this`deleteConfirm
      ensures positions == Without(old(positions), symbol) && deleteConfirm == None
    {
      positions := Without(positions, symbol);
      deleteConfirm := None;
    }

    method DeleteFailed(failure: Failure)
      modifies this`error
      ensures error == Some(ErrorMessage(failure, DeleteFallback))
    {
      error := Some(ErrorMessage(failure, DeleteFallback));
    }
  }
}
