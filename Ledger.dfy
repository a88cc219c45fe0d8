/**
 * The values the finance form works on: transaction records as the server
 * returns them, the five-field draft behind the form, and the requests the
 * form sends to the transaction collection endpoint.
 */
module Ledger {

  datatype Option<T> = None | Some(value: T)

  /** A value held by one draft field. Form inputs deliver text (the raw
      `value` of a number, text or date input) or a flag (the `checked` state
      of a checkbox); editing a row copies the record's number, strings and
      boolean. Numbers stand for JavaScript numbers and are never computed on. */
  datatype Value = Text(s: string) | Flag(b: bool) | Number(n: real)

  /** A transaction as the list endpoint returns it: the server-assigned id
      and the five fields of the record. */
  datatype Transaction = Transaction(
    id: int,
    amount: real,
    category: string,
    description: string,
    isIncome: bool,
    date: string)

  /** The names of the five draft fields, which are the `name`s of the five
      inputs the form renders. */
  datatype FieldName = Amount | Category | Description | IsIncome | Date

  /** The form draft (`formData`): one value per field, and no id. */
  datatype Draft = Draft(
    amount: Value,
    category: Value,
    description: Value,
    isIncome: Value,
    date: Value)

  /** The draft the form starts with and returns to after a submit. */
  const EmptyDraft := Draft(Text(""), Text(""), Text(""), Flag(false), Text(""))

  /** `formData[name]` */
  function Field(d: Draft, f: FieldName): Value {
    match f
    case Amount => d.amount
    case Category => d.category
    case Description => d.description
    case IsIncome => d.isIncome
    case Date => d.date
  }

  /** `{...formData, [name]: v}`: the draft with one field replaced. */
  function WithField(d: Draft, f: FieldName, v: Value): (r: Draft)
    ensures Field(r, f) == v
    ensures forall g :: g != f ==> Field(r, g) == Field(d, g)
  {
    match f
    case Amount => d.(amount := v)
    case Category => d.(category := v)
    case Description => d.(description := v)
    case IsIncome => d.(isIncome := v)
    case Date => d.(date := v)
  }

  /** The draft that editing a row loads: the record's five field values,
      without its id. */
  function DraftOf(t: Transaction): (d: Draft)
    ensures Field(d, Amount) == Number(t.amount) && Field(d, Category) == Text(t.category)
    ensures Field(d, Description) == Text(t.description) && Field(d, IsIncome) == Flag(t.isIncome)
    ensures Field(d, Date) == Text(t.date)
  {
    Draft(Number(t.amount), Text(t.category), Text(t.description), Flag(t.isIncome), Text(t.date))
  }

  /** Reads a draft back as a record with the given id, when every field
      holds the kind of value a record field has (a number amount, a boolean
      income flag, strings elsewhere); None otherwise. */
  function RecordOf(id: int, d: Draft): (r: Option<Transaction>)
    ensures r.Some? ==> r.value.id == id && DraftOf(r.value) == d
  {
    match (d.amount, d.category, d.description, d.isIncome, d.date)
    case (Number(a), Text(c), Text(s), Flag(b), Text(day)) =>
      Some(Transaction(id, a, c, s, b, day))
    case _ => None
  }

  /** Loading a row into the draft loses only the id: reading the draft back
      with that id gives the row again. */
  lemma DraftOfRoundTrip(t: Transaction)
    ensures RecordOf(t.id, DraftOf(t)) == Some(t)
  {
  }

  /** Two rows load the same draft exactly when they agree on all five
      fields, whatever their ids. */
  lemma DraftOfInjective(t: Transaction, u: Transaction)
    ensures DraftOf(t) == DraftOf(u) <==> t.(id := u.id) == u
  {
  }

  /** The remote calls the form makes (the `api` client's get, post, put and
      delete on the transaction collection); the body of a create or update
      is the draft. */
  datatype Request =
    | Get
    | Post(body: Draft)
    | Put(id: int, body: Draft)
    | Delete(id: int)

  /** How an awaited post, put or delete settled. The response body of a
      write is never read, so success carries nothing. */
  datatype Outcome = Done | Failed

  /** How an awaited list fetch settled: the response payload, or a
      rejection. */
  datatype Listing = Fetched(data: seq<Transaction>) | FetchFailed
}
