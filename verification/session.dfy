/**
 The form as a whole over a browser session: each user action is one
 atomic transition of the component state, and the success screen, once
 shown, replaces the form so that no further action reaches it.
 */
module Session {
  import opened Text
  import opened PostcodeAddress
  import opened Form
  import opened Submission

  /** The user actions the form handles. A lookup completion carries the
      widget's payload; a submit carries the store it will meet. */
  datatype Event =
    | Edit(field: Field, value: string)
    | OpenLookup
    | CloseLookup
    | LookupCompleted(result: LookupResult)
    | ClickConsent
    | SubmitForm(store: Store)

  /** One action. On the success screen nothing of the form is rendered,
      so every action is inert; a lookup completion only arrives while the
      overlay shows the widget; submit is inert while the button is
      disabled. */
  function Step(s: State, e: Event): (s': State)
    ensures s.status == Success ==> s' == s
    ensures s'.draft != s.draft ==> e.Edit? || e.LookupCompleted?
    ensures s'.status != s.status ==> e.SubmitForm?
  {
    if s.status == Success then s
    else
      match e
      case Edit(f, v) => UpdateField(s, f, v)
      case OpenLookup => s.(showLookup := true)
      case CloseLookup => s.(showLookup := false)
      case LookupCompleted(r) => if s.showLookup then ApplyAddress(s, r) else s
      case ClickConsent => ToggleConsent(s)
      case SubmitForm(store) => if s.isSubmitting then s else Submit(s, store).state
  }

  /** The state after a sequence of actions. */
  function Run(s: State, events: seq<Event>): State
    decreases |events|
  {
    if |events| == 0 then s else Run(Step(s, events[0]), events[1..])
  }

  /** Success is terminal: no sequence of actions leaves the success screen. */
  lemma {:induction false} SuccessIsTerminal(s: State, events: seq<Event>)
    requires s.status == Success
    ensures Run(s, events) == s
    decreases |events|
  {
    if |events| > 0 {
      SuccessIsTerminal(Step(s, events[0]), events[1..]);
    }
  }

  /** The success screen is only ever reached by submitting a sendable
      draft, and the draft that was submitted is the one left in state. */
  lemma SuccessOnlyBySendableSubmit(s: State, e: Event)
    requires s.status != Success && Step(s, e).status == Success
    ensures e.SubmitForm? && Sendable(s.draft, s.agreed)
    ensures Step(s, e).draft == s.draft
  {
  }

  /** Whatever the user does, a session that starts away from success and
      ends on it contains a submit. */
  lemma {:induction false} SuccessNeedsSubmit(s: State, events: seq<Event>)
    requires s.status != Success && Run(s, events).status == Success
    ensures exists i :: 0 <= i < |events| && events[i].SubmitForm?
    decreases |events|
  {
    if |events| > 0 {
      var s1 := Step(s, events[0]);
      if s1.status == Success {
        assert events[0].SubmitForm?;
      } else {
        SuccessNeedsSubmit(s1, events[1..]);
        var i :| 0 <= i < |events[1..]| && events[1..][i].SubmitForm?;
        assert events[i + 1].SubmitForm?;
      }
    }
  }

  /** Between actions no submission is ever in flight: every submit both
      starts and finishes its attempt. */
  lemma {:induction false} NeverLeftSubmitting(s: State, events: seq<Event>)
    requires !s.isSubmitting
    ensures !Run(s, events).isSubmitting
    decreases |events|
  {
    if |events| > 0 {
      var s1 := Step(s, events[0]);
      assert !s1.isSubmitting;
      NeverLeftSubmitting(s1, events[1..]);
    }
  }

  /** Every displayed error belongs to a check that currently fails: an
      error is only ever added by validation and is cleared, or stays
      accurate, through every edit, lookup and consent click. */
  predicate ErrorsAreCurrent(s: State) {
    && (NameCheck in s.errors ==> Blank(s.draft.name))
    && (PhoneCheck in s.errors ==> Blank(s.draft.phone))
    && (AddressCheck in s.errors ==> Blank(s.draft.address))
    && (ConsentCheck in s.errors ==> !s.agreed)
  }

  /** The invariant says the displayed errors are among the checks that
      validation would report right now. */
  lemma ErrorsAreCurrentIsSubsetOfFailing(s: State)
    ensures ErrorsAreCurrent(s) <==> s.errors <= FailingChecks(s.draft, s.agreed)
  {
    var failing := FailingChecks(s.draft, s.agreed);
    if ErrorsAreCurrent(s) {
      forall c | c in s.errors
        ensures c in failing
      {
        match c
        case NameCheck =>
        case PhoneCheck =>
        case AddressCheck =>
        case ConsentCheck =>
      }
    }
  }

  lemma EditKeepsErrorsCurrent(s: State, f: Field, v: string)
    requires ErrorsAreCurrent(s)
    ensures ErrorsAreCurrent(UpdateField(s, f, v))
  {
  }

  lemma LookupKeepsErrorsCurrent(s: State, r: LookupResult)
    requires ErrorsAreCurrent(s)
    ensures ErrorsAreCurrent(ApplyAddress(s, r))
  {
  }

  lemma ConsentKeepsErrorsCurrent(s: State)
    requires ErrorsAreCurrent(s)
    ensures ErrorsAreCurrent(ToggleConsent(s))
  {
  }

  lemma StepKeepsErrorsCurrent(s: State, e: Event)
    requires ErrorsAreCurrent(s)
    ensures ErrorsAreCurrent(Step(s, e))
  {
  }

  lemma {:induction false} RunKeepsErrorsCurrent(s: State, events: seq<Event>)
    requires ErrorsAreCurrent(s)
    ensures ErrorsAreCurrent(Run(s, events))
    decreases |events|
  {
    if |events| > 0 {
      StepKeepsErrorsCurrent(s, events[0]);
      RunKeepsErrorsCurrent(Step(s, events[0]), events[1..]);
    }
  }

  /** The freshly loaded form: empty draft, no consent, no errors, nothing
      in flight and no banner; it satisfies both session invariants. */
  lemma InitialStateInvariants()
    ensures Initial.draft == EmptyDraft && !Initial.agreed && !Initial.showLookup
    ensures Initial.errors == {} && !Initial.isSubmitting && Initial.status == Unset
    ensures ErrorsAreCurrent(Initial)
  {
  }
}
