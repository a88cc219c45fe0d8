/**
 * Properties of whole sessions: sequences of events run through the
 * view-model's handlers one after another.
 */
module Properties {
  import opened Ledger
  import opened ViewModel

  /** Running one more event extends a session by that event's step. */
  lemma {:induction false} RunSnoc(s: State, es: seq<Event>, e: Event)
    ensures Run(s, es + [e]).next == Step(Run(s, es).next, e).next
    ensures Run(s, es + [e]).issued == Run(s, es).issued + Step(Run(s, es).next, e).issued
    decreases |es|
  {
    if es == [] {
      assert es + [e] == [e];
    } else {
      assert (es + [e])[1..] == es[1..] + [e];
      RunSnoc(Step(s, es[0]).next, es[1..], e);
    }
  }

  // ---------------------------------------------------------------------
  // The list is a snapshot: the last payload that arrived, never a merge.

  /** The payload of the last list fetch that settled successfully in `es`,
      or `before` when none did. */
  function LastPayload(before: seq<Transaction>, es: seq<Event>): seq<Transaction>
    decreases |es|
  {
    if es == [] then before
    else
      var e := es[|es| - 1];
      if e.ListLoaded? && e.listing.Fetched? then e.listing.data
      else LastPayload(before, es[..|es| - 1])
  }

  lemma {:induction false} ListIsLastPayload(s: State, es: seq<Event>)
    ensures Run(s, es).next.transactions == LastPayload(s.transactions, es)
    decreases |es|
  {
    if es != [] {
      var init, e := es[..|es| - 1], es[|es| - 1];
      assert es == init + [e];
      RunSnoc(s, init, e);
      ListIsLastPayload(s, init);
    }
  }

  // ---------------------------------------------------------------------
  // Typing into the form: each field holds what was last typed into it.

  function Inputs(ts: seq<Target>): (es: seq<Event>)
    ensures |es| == |ts| && forall i :: 0 <= i < |ts| ==> es[i] == Input(ts[i])
  {
    seq(|ts|, i requires 0 <= i < |ts| => Input(ts[i]))
  }

  /** The value of field `f` after the input events `ts`: the value of the
      last of them that names `f`, or the field's value before them. */
  function LastWritten(d: Draft, ts: seq<Target>, f: FieldName): Value
    decreases |ts|
  {
    if ts == [] then Field(d, f)
    else if ts[|ts| - 1].name == f then InputValue(ts[|ts| - 1])
    else LastWritten(d, ts[..|ts| - 1], f)
  }

  lemma {:induction false} InputsLastWins(s: State, ts: seq<Target>, f: FieldName)
    ensures Field(Run(s, Inputs(ts)).next.formData, f) == LastWritten(s.formData, ts, f)
    ensures Run(s, Inputs(ts)).issued == []
    ensures Run(s, Inputs(ts)).next.transactions == s.transactions
    ensures Run(s, Inputs(ts)).next.editingId == s.editingId
    decreases |ts|
  {
    if ts != [] {
      var init, t := ts[..|ts| - 1], ts[|ts| - 1];
      assert Inputs(ts) == Inputs(init) + [Input(t)];
      RunSnoc(s, Inputs(init), Input(t));
      InputsLastWins(s, init, f);
    }
  }

  // ---------------------------------------------------------------------
  // Only the edit button enters update mode.

  /** Without an edit event, `editingId` either stays as it was or, from a
      truthy id, is cleared by a successful update. A falsy id never moves. */
  lemma {:induction false} ModeOnlyEnteredByEdit(s: State, es: seq<Event>)
    requires forall i :: 0 <= i < |es| ==> !es[i].EditRow?
    ensures Run(s, es).next.editingId == s.editingId
         || (Run(s, es).next.editingId == None && Truthy(s.editingId))
    decreases |es|
  {
    if es != [] {
      ModeOnlyEnteredByEdit(Step(s, es[0]).next, es[1..]);
    }
  }

  /** The ids the session could be updating: the truthy id it starts with
      and the ids of the rows it opens for editing. */
  function EditableIds(s: State, es: seq<Event>): set<int> {
    (if Truthy(s.editingId) then {s.editingId.value} else {})
      + set j | 0 <= j < |es| && es[j].EditRow? :: es[j].row.id
  }

  lemma EditableIdsOfRest(s: State, es: seq<Event>)
    requires es != []
    ensures EditableIds(Step(s, es[0]).next, es[1..]) <= EditableIds(s, es)
  {
  }

  /** Every update the session sends goes to a nonzero id that was being
      edited at the start or that the session opened for editing. */
  lemma {:induction false} UpdatesTargetEditedRows(s: State, es: seq<Event>)
    ensures forall i :: 0 <= i < |Run(s, es).issued| && Run(s, es).issued[i].Put? ==>
      Run(s, es).issued[i].id != 0 && Run(s, es).issued[i].id in EditableIds(s, es)
    decreases |es|
  {
    if es != [] {
      var first := Step(s, es[0]);
      var rest := Run(first.next, es[1..]);
      UpdatesTargetEditedRows(first.next, es[1..]);
      EditableIdsOfRest(s, es);
      assert Run(s, es).issued == first.issued + rest.issued;
      forall i | 0 <= i < |first.issued| && first.issued[i].Put?
        ensures first.issued[i].id != 0 && first.issued[i].id in EditableIds(s, es)
      {
        assert es[0].SubmitForm? && i == 0 && Truthy(s.editingId);
      }
    }
  }

  // ---------------------------------------------------------------------
  // The draft keeps the shape of a record as long as inputs come from the
  // rendered form.

  /** The `type` of the input the form renders for each field. */
  function RenderedType(f: FieldName): InputType {
    match f
    case Amount => NumberInput
    case Category => TextInput
    case Description => TextInput
    case IsIncome => Checkbox
    case Date => DateInput
  }

  /** An input event that the rendered form can produce. */
  predicate FromForm(e: Event) {
    e.Input? ==> e.target.kind == RenderedType(e.target.name)
  }

  /** The income field holds a boolean, the amount a number or text, the
      other fields text. */
  predicate WellShaped(d: Draft) {
    d.isIncome.Flag? && !d.amount.Flag?
    && d.category.Text? && d.description.Text? && d.date.Text?
  }

  lemma {:induction false} SessionKeepsDraftShape(s: State, es: seq<Event>)
    requires WellShaped(s.formData)
    requires forall i :: 0 <= i < |es| ==> FromForm(es[i])
    ensures WellShaped(Run(s, es).next.formData)
    decreases |es|
  {
    if es != [] {
      var s' := Step(s, es[0]).next;
      assert FromForm(es[0]);
      assert WellShaped(s'.formData);
      SessionKeepsDraftShape(s', es[1..]);
    }
  }

  // ---------------------------------------------------------------------
  // Scenarios.

  /** A session of one event is that event's step. */
  lemma RunOne(s: State, e: Event)
    ensures Run(s, [e]) == Step(s, e)
  {
  }

  /** A session of two events is the first step followed by the second. */
  lemma RunTwo(s: State, e1: Event, e2: Event)
    ensures Run(s, [e1, e2]).next == Step(Step(s, e1).next, e2).next
    ensures Run(s, [e1, e2]).issued == Step(s, e1).issued + Step(Step(s, e1).next, e2).issued
  {
    assert [e1, e2][1..] == [e2];
    RunOne(Step(s, e1).next, e2);
  }

  /** Mount against an empty store: one fetch, no rows, only the
      placeholder row, create-mode labels. */
  lemma MountOnEmptyStore()
    ensures Run(Initial, [Mounted, ListLoaded(Fetched([]))]).issued == [Get]
    ensures Run(Initial, [Mounted, ListLoaded(Fetched([]))]).next == Initial
    ensures Rows(Initial) == [Placeholder]
    ensures HeaderTitle(Initial) == "Add New Transaction" && SubmitCaption(Initial) == "Submit"
  {
  }

  /** Opening a row and submitting it untouched sends the row's own fields
      back to its id, then returns to create mode with an empty draft. A row
      whose id is 0 is posted as a new record instead. */
  lemma EditThenSubmitUnchanged(s: State, t: Transaction)
    ensures var r := Run(s, [EditRow(t), SubmitForm(Done)]);
      && |r.issued| == 2 && r.issued[1] == Get
      && r.next.formData == EmptyDraft
      && (t.id != 0 ==> r.issued[0] == Put(t.id, DraftOf(t)) && r.next.editingId == None)
      && (t.id == 0 ==> r.issued[0] == Post(DraftOf(t)) && r.next.editingId == Some(0))
      && RecordOf(t.id, r.issued[0].body) == Some(t)
  {
    RunTwo(s, EditRow(t), SubmitForm(Done));
    DraftOfRoundTrip(t);
  }

  /** A rejected submit keeps the draft and the mode, so submitting again
      sends the same request. */
  lemma RejectedSubmitCanBeRetried(s: State, outcome: Outcome)
    ensures var r := Run(s, [SubmitForm(Failed), SubmitForm(outcome)]);
      |r.issued| >= 2 && r.issued[0] == r.issued[1]
      && r.next == FormSubmit(s, outcome).next
  {
    RunTwo(s, SubmitForm(Failed), SubmitForm(outcome));
  }

  /** Deleting the row being edited leaves the form in update mode for an id
      the refreshed list no longer holds; submitting then sends an update to
      that deleted id. */
  lemma DeletingEditedRowDangles(s: State, t: Transaction, remaining: seq<Transaction>)
    requires t.id != 0
    requires forall i :: 0 <= i < |remaining| ==> remaining[i].id != t.id
    ensures var r := Run(s, [EditRow(t), DeleteClicked(t.id, Done), ListLoaded(Fetched(remaining))]);
      && r.issued == [Delete(t.id), Get]
      && r.next.editingId == Some(t.id)
      && (forall i :: 0 <= i < |r.next.transactions| ==> r.next.transactions[i].id != t.id)
      && HeaderTitle(r.next) == "Edit Transaction"
      && FormSubmit(r.next, Done).issued[0] == Put(t.id, DraftOf(t))
  {
    var es := [EditRow(t), DeleteClicked(t.id, Done), ListLoaded(Fetched(remaining))];
    assert es[1..] == [DeleteClicked(t.id, Done), ListLoaded(Fetched(remaining))];
    RunTwo(Edit(s, t), DeleteClicked(t.id, Done), ListLoaded(Fetched(remaining)));
  }
}
