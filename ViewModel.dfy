/**
 * The transaction form's view-model as a state machine. The component's
 * three pieces of state form a `State`; each handler is a function of the
 * state before it and, where it awaits a call, the way that call settled.
 * Handlers that issue requests return a `Transition`: the next state and the
 * requests in issue order. The others return the next state, and `Step`
 * pairs it with no requests. The class in App.dfy runs the same handlers
 * step by step and is proved to agree with these functions.
 */
module ViewModel {
  import opened Ledger

  /** `transactions`, `formData` and `editingId`. */
  datatype State = State(transactions: seq<Transaction>, formData: Draft, editingId: Option<int>)

  /** The state after a handler and the requests it issued, in order. */
  datatype Transition = Transition(next: State, issued: seq<Request>)

  /** The state the component mounts with: no rows, the empty draft, create
      mode. */
  const Initial := State([], EmptyDraft, None)

  /** JavaScript truthiness of `editingId`: `null` and the id 0 are falsy. */
  predicate Truthy(id: Option<int>)
    ensures Truthy(id) <==> !(id == None || id == Some(0))
  {
    id.Some? && id.value != 0
  }

  /** The `type` attribute of the input an event comes from. */
  datatype InputType = NumberInput | TextInput | DateInput | Checkbox

  /** The event target of an input change: the input's `name`, its `type`,
      its raw `value` and its `checked` state. */
  datatype Target = Target(name: FieldName, kind: InputType, value: string, checked: bool)

  /** The value an input change stores: `checked` for a checkbox, the raw
      `value` for every other input. */
  function InputValue(target: Target): (v: Value)
    ensures target.kind == Checkbox ==> v == Flag(target.checked)
    ensures target.kind != Checkbox ==> v == Text(target.value)
  {
    if target.kind == Checkbox then Flag(target.checked) else Text(target.value)
  }

  /** Mounting issues one list fetch and changes no state. */
  function Mount(s: State): (r: Transition)
    ensures r.next == s && r.issued == [Get]
  {
    Transition(s, [Get])
  }

  /** A list fetch that settles replaces the rows with the payload; a
      rejected fetch stops before the setter and changes nothing. */
  function TransactionsLoaded(s: State, listing: Listing): (r: State)
    ensures listing.Fetched? ==> r.transactions == listing.data
    ensures listing.FetchFailed? ==> r == s
    ensures r.formData == s.formData && r.editingId == s.editingId
  {
    match listing
    case Fetched(data) => s.(transactions := data)
    case FetchFailed => s
  }

  /** An input change sets the named field, and only that field, to the
      input's value. */
  function InputChange(s: State, target: Target): (r: State)
    ensures Field(r.formData, target.name) == InputValue(target)
    ensures forall g :: g != target.name ==> Field(r.formData, g) == Field(s.formData, g)
    ensures r.transactions == s.transactions && r.editingId == s.editingId
  {
    s.(formData := WithField(s.formData, target.name, InputValue(target)))
  }

  /** Submitting the form: update the row being edited when `editingId` is
      truthy, otherwise create one. If the awaited write is rejected nothing
      after it runs. If it succeeds, a list refresh is issued (not awaited),
      the draft is reset and the form is no longer in a truthy edit mode;
      only the update path clears the id, so an id of 0 stays. */
  function FormSubmit(s: State, outcome: Outcome): (r: Transition)
    ensures |r.issued| == (if outcome == Done then 2 else 1)
    ensures Truthy(s.editingId) ==> r.issued[0] == Put(s.editingId.value, s.formData)
    ensures !Truthy(s.editingId) ==> r.issued[0] == Post(s.formData)
    ensures outcome == Failed ==> r.next == s
    ensures outcome == Done ==> r.issued[1] == Get
    ensures outcome == Done ==> r.next.formData == EmptyDraft && !Truthy(r.next.editingId)
    ensures outcome == Done ==> r.next.editingId == (if s.editingId == Some(0) then Some(0) else None)
    ensures r.next.transactions == s.transactions
  {
    var write := if Truthy(s.editingId) then Put(s.editingId.value, s.formData) else Post(s.formData);
    match outcome
    case Failed =>
      Transition(s, [write])
    case Done =>
      var mode := if Truthy(s.editingId) then None else s.editingId;
      Transition(State(s.transactions, EmptyDraft, mode), [write, Get])
  }

  /** Editing a row enters update mode for its id and loads all five of its
      field values into the draft, whatever the draft held before. */
  function Edit(s: State, t: Transaction): (r: State)
    ensures r.editingId == Some(t.id)
    ensures RecordOf(t.id, r.formData) == Some(t)
    ensures r.transactions == s.transactions
  {
    DraftOfRoundTrip(t);
    State(s.transactions, DraftOf(t), Some(t.id))
  }

  /** Deleting a row issues the delete and, once it succeeds, a refresh. The
      draft and `editingId` are never touched, even when the deleted row is
      the one being edited. */
  function DeleteRow(s: State, id: int, outcome: Outcome): (r: Transition)
    ensures r.next == s
    ensures r.issued == if outcome == Done then [Delete(id), Get] else [Delete(id)]
  {
    if outcome == Done then Transition(s, [Delete(id), Get]) else Transition(s, [Delete(id)])
  }

  /** The events the component reacts to. A list fetch issued by mount,
      submit or delete settles later as a separate `ListLoaded` event. */
  datatype Event =
    | Mounted
    | Input(target: Target)
    | SubmitForm(outcome: Outcome)
    | EditRow(row: Transaction)
    | DeleteClicked(id: int, outcome: Outcome)
    | ListLoaded(listing: Listing)

  function Step(s: State, e: Event): Transition {
    match e
    case Mounted => Mount(s)
    case Input(target) => Transition(InputChange(s, target), [])
    case SubmitForm(outcome) => FormSubmit(s, outcome)
    case EditRow(row) => Transition(Edit(s, row), [])
    case DeleteClicked(id, outcome) => DeleteRow(s, id, outcome)
    case ListLoaded(listing) => Transition(TransactionsLoaded(s, listing), [])
  }

  /** Runs the events in order, collecting every request issued. */
  function Run(s: State, es: seq<Event>): Transition
    decreases |es|
  {
    if es == [] then Transition(s, [])
    else
      var first := Step(s, es[0]);
      var rest := Run(first.next, es[1..]);
      Transition(rest.next, first.issued + rest.issued)
  }

  /** The title of the form card. */
  function HeaderTitle(s: State): (r: string)
    ensures r == "Edit Transaction" <==> Truthy(s.editingId)
    ensures r == "Add New Transaction" <==> !Truthy(s.editingId)
  {
    if Truthy(s.editingId) then "Edit Transaction" else "Add New Transaction"
  }

  /** The caption of the submit button. */
  function SubmitCaption(s: State): (r: string)
    ensures r == "Update" <==> Truthy(s.editingId)
    ensures r == "Submit" <==> !Truthy(s.editingId)
  {
    if Truthy(s.editingId) then "Update" else "Submit"
  }

  /** A body row of the history table. */
  datatype Row = Placeholder | Entry(t: Transaction)

  /** The table body: the "No transactions yet." placeholder alone when the
      list is empty, otherwise one row per transaction in list order. */
  function Rows(s: State): (r: seq<Row>)
    ensures s.transactions == [] <==> r == [Placeholder]
    ensures s.transactions != [] ==> |r| == |s.transactions|
    ensures s.transactions != [] ==> forall i :: 0 <= i < |r| ==> r[i] == Entry(s.transactions[i])
  {
    if |s.transactions| == 0 then [Placeholder]
    else
      var rows := seq(|s.transactions|, i requires 0 <= i < |s.transactions| => Entry(s.transactions[i]));
      assert rows[0] != Placeholder;
      rows
  }
}
