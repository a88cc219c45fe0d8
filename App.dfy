/**
 * The `App` component as an object: its three state hooks are fields, each
 * setter call is an assignment to one of them, and each handler is a method
 * that takes the way its awaited call settles as a parameter and returns the
 * requests it issued. An awaited call that is rejected ends the handler at
 * that point, so the assignments after it do not happen. Every handler
 * method is proved to do exactly what the matching function of ViewModel
 * describes; FetchTransaction, which only issues the list request, has no
 * such function.
 */
module AppComponent {
  import opened Ledger
  import opened ViewModel

  class App {
    var transactions: seq<Transaction>
    var formData: Draft
    var editingId: Option<int>

    /** The component's state as a value. */
    function Snapshot(): State
      reads this
    {
      State(transactions, formData, editingId)
    }

    /** The three `useState` initialisers. */
    constructor ()
      ensures Snapshot() == Initial
    {
      transactions := [];
      formData := EmptyDraft;
      editingId := None;
    }

    /** `fetchTransaction` up to its `await`: it issues one list fetch. What
        happens when that fetch settles is `FetchSettled`. */
    method FetchTransaction() returns (issued: seq<Request>)
      ensures issued == [Get]
    {
      issued := [Get];
    }

    /** The rest of `fetchTransaction`, once the fetch settles: the payload
        replaces the rows; a rejection ends it before the setter. */
    method FetchSettled(listing: Listing)
      modifies this`transactions
      ensures Snapshot() == TransactionsLoaded(old(Snapshot()), listing)
    {
      if listing.FetchFailed? {
        return;
      }
      transactions := listing.data;
    }

    /** The mount effect: one call of `fetchTransaction`. */
    method OnMount() returns (issued: seq<Request>)
      ensures Transition(Snapshot(), issued) == Mount(Snapshot())
    {
      issued := FetchTransaction();
    }

    method HandleInputChange(target: Target)
      modifies this`formData
      ensures Snapshot() == InputChange(old(Snapshot()), target)
    {
      formData := WithField(formData, target.name, InputValue(target));
    }

    method HandleFormSubmit(outcome: Outcome) returns (issued: seq<Request>)
      modifies this`formData, this`editingId
      ensures Transition(Snapshot(), issued) == FormSubmit(old(Snapshot()), outcome)
    {
      if Truthy(editingId) {
        issued := [Put(editingId.value, formData)];
        if outcome.Failed? {
          return;
        }
        editingId := None;
      } else {
        issued := [Post(formData)];
        if outcome.Failed? {
          return;
        }
      }
      var refresh := FetchTransaction();
      issued := issued + refresh;
      formData := EmptyDraft;
    }

    method HandleEdit(t: Transaction)
      modifies this`formData, this`editingId
      ensures Snapshot() == Edit(old(Snapshot()), t)
    {
      editingId := Some(t.id);
      formData := DraftOf(t);
    }

    method HandleDelete(id: int, outcome: Outcome) returns (issued: seq<Request>)
      ensures Transition(Snapshot(), issued) == DeleteRow(Snapshot(), id, outcome)
    {
      issued := [Delete(id)];
      if outcome.Failed? {
        return;
      }
      var refresh := FetchTransaction();
      issued := issued + refresh;
    }
  }

  /** A session driven through the object: mount, a fetch that returns no
      rows, typing a category, a create that is rejected and then retried.
      The retry sends the very draft the rejected attempt sent. */
  method RetryAfterRejectedCreate(category: string) returns (app: App, issued: seq<Request>)
    ensures app.formData == EmptyDraft && app.editingId == None && app.transactions == []
    ensures |issued| == 4 && issued[0] == Get && issued[3] == Get
    ensures issued[1] == issued[2] == Post(EmptyDraft.(category := Text(category)))
  {
    app := new App();
    issued := app.OnMount();
    app.FetchSettled(Fetched([]));
    app.HandleInputChange(Target(Category, TextInput, category, false));
    var first := app.HandleFormSubmit(Failed);
    var second := app.HandleFormSubmit(Done);
    issued := issued + first + second;
  }
}
