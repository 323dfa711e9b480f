/**
 The submit handler: validation, then exactly one store attempt (a mock one
 when no store client is configured), then the outcome banner.
 */
module Submission {
  import opened Text
  import opened Form

  /** What the remote insert reports. A thrown exception and a returned
      `error` both end in the same catch block, so both are `InsertFailed`. */
  datatype InsertOutcome = Inserted | InsertFailed

  /** The store client: absent when either configuration value is missing,
      otherwise a client whose one insert ends with the given outcome. */
  datatype Store = Unavailable | Available(outcome: InsertOutcome)

  /** One row of the remote table, in its own column names. */
  datatype Row = Row(
    name: string,
    phone: string,
    zonecode: string,
    address: string,
    detail_address: string,
    agreed: bool)

  /** The table every submission is inserted into. */
  const ConsentsTable: string := "consents"

  /** The store traffic of one submit: none, the simulated delay of the
      unconfigured fallback, or one insert request of rows into a table. */
  datatype Attempt = NoAttempt | MockAttempt | Insert(table: string, rows: seq<Row>)

  /** Reads a row back as a draft and consent flag. */
  function FromRow(row: Row): (Draft, bool) {
    (Draft(row.name, row.phone, row.zonecode, row.address, row.detail_address), row.agreed)
  }

  /** The row sent for a draft: each draft field under its column name,
      `detailAddress` under `detail_address`, plus the consent flag. Reading
      the row back gives the draft and flag it was made from. */
  function ToRow(d: Draft, agreed: bool): (row: Row)
    ensures FromRow(row) == (d, agreed)
  {
    Row(d.name, d.phone, d.zonecode, d.address, d.detailAddress, agreed)
  }

  /** The column mapping loses nothing: every draft field and the consent
      flag can be read back from the row, and distinct drafts give distinct
      rows. */
  lemma RowMappingRoundTrip(d: Draft, agreed: bool)
    ensures FromRow(ToRow(d, agreed)) == (d, agreed)
    ensures forall d', a' :: ToRow(d', a') == ToRow(d, agreed) ==> d' == d && a' == agreed
  {
  }

  /** Entering the in-flight phase: the submit button disables and any
      previous outcome banner is cleared. */
  function BeginSubmit(s: State): (p: State)
    ensures p.isSubmitting && p.status == Unset
    ensures p.draft == s.draft && p.agreed == s.agreed && p.errors == s.errors && p.showLookup == s.showLookup
  {
    s.(isSubmitting := true, status := Unset)
  }

  /** The `finally` of the handler: the outcome is recorded and the submit
      button enables again. */
  function FinishSubmit(p: State, outcome: Status): (s': State)
    ensures !s'.isSubmitting && s'.status == outcome
    ensures s'.draft == p.draft && s'.agreed == p.agreed && s'.errors == p.errors && s'.showLookup == p.showLookup
  {
    p.(isSubmitting := false, status := outcome)
  }

  /** The status a completed attempt leaves behind. */
  function OutcomeStatus(store: Store): (st: Status)
    ensures st == Success <==> store.Unavailable? || store.outcome == Inserted
    ensures st != Unset
  {
    match store
    case Unavailable => Success
    case Available(outcome) => if outcome == Inserted then Success else Error
  }

  datatype SubmitResult = SubmitResult(state: State, attempt: Attempt)

  /** The `try`/`finally` part of the handler, on an already validated
      state: exactly one attempt, a mock one exactly when no store is
      configured and otherwise one insert of the draft's row into
      `consents`; its outcome becomes the status and the submit button is
      enabled again, with draft, consent and errors untouched. */
  function AttemptStore(s: State, store: Store): (r: SubmitResult)
    ensures r.state.draft == s.draft && r.state.agreed == s.agreed
    ensures r.state.errors == s.errors && r.state.showLookup == s.showLookup
    ensures !r.state.isSubmitting
    ensures r.attempt != NoAttempt
    ensures r.attempt == MockAttempt <==> store.Unavailable?
    ensures store.Available? ==> r.attempt == Insert(ConsentsTable, [ToRow(s.draft, s.agreed)])
    ensures r.state.status == Success <==> store.Unavailable? || store.outcome == Inserted
    ensures r.state.status == Error <==> store.Available? && store.outcome == InsertFailed
  {
    var pending := BeginSubmit(s);
    match store
    case Unavailable =>
      SubmitResult(FinishSubmit(pending, OutcomeStatus(store)), MockAttempt)
    case Available(_) =>
      var request := Insert(ConsentsTable, [ToRow(pending.draft, pending.agreed)]);
      SubmitResult(FinishSubmit(pending, OutcomeStatus(store)), request)
  }

  /** Submitting the form against `store`.
      A draft that fails validation makes no store attempt; only the
      displayed errors change. A sendable draft makes exactly one attempt
      (the mock one when no store is configured), whose outcome becomes
      the status; the submit button is enabled again and the draft kept. */
  function Submit(s: State, store: Store): (r: SubmitResult)
    ensures forall c :: c in r.state.errors <==> c in FailingChecks(s.draft, s.agreed)
    ensures r.state.draft == s.draft && r.state.agreed == s.agreed && r.state.showLookup == s.showLookup
    ensures r.attempt == NoAttempt <==> !Sendable(s.draft, s.agreed)
    ensures !Sendable(s.draft, s.agreed) ==> r.state.isSubmitting == s.isSubmitting && r.state.status == s.status
    ensures Sendable(s.draft, s.agreed) ==> r == AttemptStore(s.(errors := {}), store)
  {
    var v := Validate(s);
    if !v.ok then
      SubmitResult(v.state, NoAttempt)
    else
      assert v.state.errors == {};
      AttemptStore(v.state, store)
  }

  /** Every row that reaches the store satisfies the form's validity rule:
      name, phone and address are not blank and consent is recorded as
      given. */
  lemma InsertedRowsAreValid(s: State, store: Store)
    requires Submit(s, store).attempt.Insert?
    ensures forall row :: row in Submit(s, store).attempt.rows ==>
      !Blank(row.name) && !Blank(row.phone) && !Blank(row.address) && row.agreed
  {
  }

  /** A submission whose insert failed at the store can be retried as it
      stands: submitting again re-sends the very same row as a new insert. */
  lemma RetryAfterErrorResendsSameRow(s: State, first: Store, second: Store)
    requires Submit(s, first).attempt.Insert? && Submit(s, first).state.status == Error
    requires second.Available?
    ensures Submit(Submit(s, first).state, second).attempt == Submit(s, first).attempt
  {
  }
}
