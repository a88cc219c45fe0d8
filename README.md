# Finance app transaction form, modelled in Dafny

This project models the client-side logic of the finance app's single React
component (`App` in `React/finance-app/src/App.js`): a form for creating and
editing transactions above a table that lists them, kept in step with a
remote transaction collection.

The component holds three pieces of state:

- `transactions`: the last list fetched from the server;
- `formData`: the five-field draft behind the form (`amount`, `category`,
  `description`, `is_income`, `date`);
- `editingId`: `null` for create mode, the id of the row being edited
  otherwise. The mode is chosen by JavaScript truthiness, so an id of `0`
  counts as create mode.

Files:

- `Ledger.dfy` (module `Ledger`): transactions, field values, the draft, the
  one-field update, the requests sent to the server (`Get`, `Post(draft)`,
  `Put(id, draft)`, `Delete(id)`) and the ways an awaited request settles.
- `ViewModel.dfy` (module `ViewModel`): the component as a state machine. Each
  handler is a function of the state before it and, where it awaits a call,
  how that call settled. `Mount`, `FormSubmit` and `DeleteRow` return the
  next state together with the requests they issued. `InputChange`, `Edit`
  and `TransactionsLoaded` issue no request and return only the next state;
  `Step` pairs them with an empty request list. The module also holds the two
  mode-driven labels and the table body.
- `App.dfy` (module `AppComponent`): the component as an object. Its fields
  are the three state hooks. Its methods are the handlers, written step by
  step with an early return where an awaited call is rejected. Each handler
  method is proved equal to the matching `ViewModel` function.
  `FetchTransaction`, the part of `fetchTransaction` before its `await`, has
  no such function: its contract says it issues one `Get`.
- `Properties.dfy` (module `Properties`): properties of whole sessions,
  meaning event sequences run through the handlers.

The server is an oracle. Each handler method takes, as a parameter, whether
its awaited write succeeded. A list fetch that a handler starts without
awaiting it settles later as its own event (`ListLoaded`), carrying either
the payload or a rejection.

Three behaviours of the code are worth stating outright, because a reader
might expect otherwise:

- After a successful submit, `editingId` is *set to* `null` only on the
  update path (`React/finance-app/src/App.js:36`). The create path leaves it
  as it was: `null` stays `null`, and `Some(0)` survives. What always holds
  is that `editingId` is no longer truthy.
- A failed submit keeps the draft and the mode only because the setters come
  after the awaited call: a rejection skips them.
- Deleting the row being edited does not clear `editingId`.

## Model

| member | source | states |
|---|---|---|
| Ledger.WithField | React/finance-app/src/App.js:26-29 | the spread-and-assign update sets the named field to the value and leaves the other four fields unchanged |
| Ledger.RecordOf | FastAPI/main.py:22-30 | a draft read back as a record keeps the given id, and the record's draft is the draft read; None when a field holds the wrong kind of value |
| Ledger.DraftOfRoundTrip | React/finance-app/src/App.js:52-58 | the draft loaded from a row, read back with the row's id, is the row: all five fields are copied and only the id is left out |
| Ledger.DraftOfInjective | React/finance-app/src/App.js:52-58 | two rows load the same draft exactly when they agree on all five fields, whatever their ids |
| ViewModel.Truthy | React/finance-app/src/App.js:34 | `editingId` is falsy exactly for `null` and for the id 0, as JavaScript's `if (editingId)` tests it; the same test picks the labels at lines 77 and 153 |
| Ledger.DraftOf | React/finance-app/src/App.js:52-58 | the draft loaded from a row holds the row's amount, category, description, income flag and date, field by field, and no id |
| ViewModel.InputValue | React/finance-app/src/App.js:25 | a checkbox stores `checked` as a flag; every other input stores its raw `value` as text |
| ViewModel.Mount | React/finance-app/src/App.js:20-22 | mounting issues exactly one list fetch and changes no state |
| ViewModel.TransactionsLoaded | React/finance-app/src/App.js:15-18 | a settled fetch replaces the list with the payload, whatever the list held before; a rejected fetch changes nothing; the draft and the mode are never touched |
| ViewModel.InputChange | React/finance-app/src/App.js:24-30 | the named field gets the input's value, every other field keeps its value, and the list and mode are unchanged |
| ViewModel.FormSubmit | React/finance-app/src/App.js:32-48 | a truthy id sends `Put(id, draft)` and any other id sends `Post(draft)`. On rejection only that request is issued and the state is unchanged. On success a `Get` follows, the draft is the empty draft, and the mode is not truthy: `None`, or `Some(0)` if it was `Some(0)`. The list is untouched |
| ViewModel.Edit | React/finance-app/src/App.js:50-59 | editing sets `editingId` to the row's id and replaces the draft with one that reads back as exactly that row, whatever the draft was before; the list is untouched |
| ViewModel.DeleteRow | React/finance-app/src/App.js:61-64 | deleting issues `Delete(id)`, then a `Get` only if the delete succeeded; the draft, the mode and the list are unchanged even when the deleted row is the one being edited |
| ViewModel.HeaderTitle | React/finance-app/src/App.js:77 | the card title is "Edit Transaction" exactly when `editingId` is truthy, "Add New Transaction" exactly when it is not |
| ViewModel.SubmitCaption | React/finance-app/src/App.js:153 | the button reads "Update" exactly when `editingId` is truthy, "Submit" exactly when it is not |
| ViewModel.Rows | React/finance-app/src/App.js:176-199 | the body is the placeholder row alone exactly when the list is empty; otherwise it has one entry per transaction, in list order |
| AppComponent.App.constructor | React/finance-app/src/App.js:5-13 | the component starts with an empty list, the empty draft and `editingId` null |
| AppComponent.App.FetchTransaction | React/finance-app/src/App.js:15-16 | fetching issues one list request |
| AppComponent.App.FetchSettled | React/finance-app/src/App.js:16-17 | the state after the fetch settles is the one `ViewModel.TransactionsLoaded` describes |
| AppComponent.App.OnMount | React/finance-app/src/App.js:20-22 | the mount effect changes nothing and issues what `ViewModel.Mount` describes, a single `Get` |
| AppComponent.App.HandleInputChange | React/finance-app/src/App.js:24-30 | the new state is the one `ViewModel.InputChange` describes; only `formData` may change |
| AppComponent.App.HandleFormSubmit | React/finance-app/src/App.js:32-48 | the new state and the issued requests are the ones `ViewModel.FormSubmit` describes; the list is not assigned |
| AppComponent.App.HandleEdit | React/finance-app/src/App.js:50-59 | the new state is the one `ViewModel.Edit` describes |
| AppComponent.App.HandleDelete | React/finance-app/src/App.js:61-64 | the issued requests are the ones `ViewModel.DeleteRow` describes, and no state changes |
| AppComponent.RetryAfterRejectedCreate | React/finance-app/src/App.js:32-47 | after mounting, typing a category and a rejected create, the retried create sends the same draft; the form is then reset and in create mode |
| Properties.ListIsLastPayload | React/finance-app/src/App.js:15-18 | over any session the list is the payload of the last fetch that succeeded, or the starting list if none did; lists are never merged |
| Properties.InputsLastWins | React/finance-app/src/App.js:24-30 | after any sequence of input changes, each field holds the value of the last input naming it, or its earlier value; no request is issued and the list and mode are unchanged |
| Properties.ModeOnlyEnteredByEdit | React/finance-app/src/App.js:34-36 | in a session without an edit event, `editingId` stays as it was, or goes from a truthy id to `None`; a falsy id never changes |
| Properties.UpdatesTargetEditedRows | React/finance-app/src/App.js:34-35 | every `Put` a session sends goes to a nonzero id that was being edited at the start or that the session opened for editing |
| Properties.SessionKeepsDraftShape | React/finance-app/src/App.js:24-59 | while input events come from the inputs the form renders, the draft keeps a record's shape: a boolean income flag, text in category, description and date, and a number or text amount |
| Properties.MountOnEmptyStore | React/finance-app/src/App.js:5-22 | mounting against an empty store issues one `Get` and leaves the initial state; the table shows only the placeholder, with create-mode labels |
| Properties.EditThenSubmitUnchanged | React/finance-app/src/App.js:32-59 | editing a row and submitting it unchanged sends the row's own fields, which read back as the row. With a nonzero id this is an update to that id, leaving `editingId` null. With id 0 it is a create, leaving `Some(0)`. Either way the draft is reset |
| Properties.RejectedSubmitCanBeRetried | React/finance-app/src/App.js:32-47 | a rejected submit followed by another submit sends the same request twice and ends as the second submit alone would |
| Properties.DeletingEditedRowDangles | React/finance-app/src/App.js:50-64 | after editing a row, deleting it and loading a list without it, `editingId` still names the deleted id and the title still says "Edit Transaction"; a submit then sends an update to that id |

## Left out

- The JSX markup, Bootstrap classes and table cells (`React/finance-app/src/App.js:66-208`) are presentation. Only the two mode labels and the empty-list branch are modelled.
- Formatting amounts with `toFixed(2)` (line 183) is left out because it is floating-point formatting. Amounts are `real` values that are only copied, never computed on.
- The `api` HTTP client is not part of this model. It appears only as the `Request` values the handlers issue and as oracle parameters: `Outcome` says whether a write succeeded, and `Listing` carries a fetch's payload or its rejection. Response bodies of writes are never read by the component, so they are not modelled.
- Asynchronous interleaving is not modelled. Refreshes that are not awaited (lines 40 and 63) may settle in any order, and user events may arrive while a request is in flight. Because each handler runs as one step, stale-closure effects of React's batched state updates are not modelled either.
- `event.preventDefault()` (line 33) is not modelled: the browser's default form submission, which it suppresses, is outside this model.
- Rejected promises are modelled only as "the handler stops at the failed `await`". The unhandled rejection that reaches the browser is not modelled.
- Input names other than the five the form renders are not modelled. `FieldName` has only those five, so the computed key in `{...formData, [name]: value}` cannot add a sixth key.
- Ledger.RecordOf: the server's type coercion is not modelled. Pydantic would parse a numeric string amount as a float, but `RecordOf` accepts only a `Number` amount. It serves as the inverse of loading a row into the draft, not as a model of the server's validation.
- The FastAPI server (`FastAPI/main.py`) is not modelled beyond the record's field types. It holds only CORS settings and Pydantic field declarations; it declares no routes, and the `database` and `models` modules it imports are not part of this model. For that reason, server-side properties are not modelled: that a created record shows up in the next list, and that a deleted id is absent from it.
