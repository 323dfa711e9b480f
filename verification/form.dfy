/**
 The state of the consent form and its editing handlers: typing into a
 field, applying an address-lookup result, toggling consent, and the
 validation run before every submission.
 */
module Form {
  import opened Text
  import opened PostcodeAddress

  /** The draft submission. The postal code and address are only ever
      written by an address lookup; the rest is typed by the user. */
  datatype Draft = Draft(
    name: string,
    phone: string,
    zonecode: string,
    address: string,
    detailAddress: string)

  const EmptyDraft: Draft := Draft("", "", "", "", "")

  /** The inputs that carry a `name` attribute and so reach the change
      handler; the postal code and address inputs are read-only. */
  datatype Field = Name | Phone | DetailAddress

  function Value(d: Draft, f: Field): string {
    match f
    case Name => d.name
    case Phone => d.phone
    case DetailAddress => d.detailAddress
  }

  /** The validation checks, one per key of the form's error map. An error
      message is only ever shown for one of these; its text is immaterial. */
  datatype Check = NameCheck | PhoneCheck | AddressCheck | ConsentCheck

  /** The error keys sharing a field's input name: the detail address has
      no error entry of its own. */
  function ErrorKeys(f: Field): set<Check> {
    match f
    case Name => {NameCheck}
    case Phone => {PhoneCheck}
    case DetailAddress => {}
  }

  /** `errors[name]` is truthy: an error is displayed under the field's
      input name. */
  predicate HasError(errors: set<Check>, f: Field) {
    match f
    case Name => NameCheck in errors
    case Phone => PhoneCheck in errors
    case DetailAddress => false
  }

  /** The outcome banner: none yet, the terminal success screen, or the
      error banner above the submit button. */
  datatype Status = Unset | Success | Error

  /** Everything the component keeps: the draft, the consent flag, whether
      the lookup overlay is open, the checks whose error is displayed,
      whether a submission is in flight, and the outcome banner. */
  datatype State = State(
    draft: Draft,
    agreed: bool,
    showLookup: bool,
    errors: set<Check>,
    isSubmitting: bool,
    status: Status)

  const Initial: State := State(EmptyDraft, false, false, {}, false, Unset)

  /** Typing `v` into input `f`: that field of the draft becomes `v`, its
      error (if it has one) disappears, and nothing else changes. */
  function UpdateField(s: State, f: Field, v: string): (s': State)
    ensures Value(s'.draft, f) == v
    ensures forall g :: g != f ==> Value(s'.draft, g) == Value(s.draft, g)
    ensures s'.draft.zonecode == s.draft.zonecode && s'.draft.address == s.draft.address
    ensures forall c :: c in s'.errors <==> c in s.errors && c !in ErrorKeys(f)
    ensures s'.agreed == s.agreed && s'.showLookup == s.showLookup
    ensures s'.isSubmitting == s.isSubmitting && s'.status == s.status
  {
    var edited := match f
      case Name => s.draft.(name := v)
      case Phone => s.draft.(phone := v)
      case DetailAddress => s.draft.(detailAddress := v);
    var s1 := s.(draft := edited);
    if HasError(s.errors, f) then s1.(errors := s.errors - ErrorKeys(f)) else s1
  }

  /** Applying a lookup result: the postal code and composed address are
      written, the address error is cleared, the overlay closes, and the
      typed fields, consent and other errors are left alone. */
  function ApplyAddress(s: State, r: LookupResult): (s': State)
    ensures s'.draft.zonecode == r.zonecode
    ensures s'.draft.address == ComposeAddress(r)
    ensures forall f :: Value(s'.draft, f) == Value(s.draft, f)
    ensures s'.errors == s.errors - {AddressCheck}
    ensures !s'.showLookup
    ensures s'.agreed == s.agreed && s'.isSubmitting == s.isSubmitting && s'.status == s.status
  {
    var full := ComposeAddress(r);
    s.(draft := s.draft.(zonecode := r.zonecode, address := full),
       errors := s.errors - {AddressCheck},
       showLookup := false)
  }

  /** A lookup whose base address line holds a non-whitespace character
      leaves a draft that passes the address check: the composed address
      starts with that line. */
  lemma LookupSatisfiesAddressCheck(s: State, r: LookupResult)
    requires !Blank(r.address)
    ensures AddressCheck !in FailingChecks(ApplyAddress(s, r).draft, ApplyAddress(s, r).agreed)
  {
  }

  /** Clicking the consent box: consent flips, the consent error (if any)
      disappears, and the draft and other errors are unchanged. */
  function ToggleConsent(s: State): (s': State)
    ensures s'.agreed != s.agreed
    ensures forall c :: c in s'.errors <==> c in s.errors && c != ConsentCheck
    ensures s'.draft == s.draft && s'.showLookup == s.showLookup
    ensures s'.isSubmitting == s.isSubmitting && s'.status == s.status
  {
    var s1 := s.(agreed := !s.agreed);
    if ConsentCheck in s.errors then s1.(errors := s.errors - {ConsentCheck}) else s1
  }

  /** The error map validation builds, one entry per failing check, added
      in the form's order: name, phone, address, consent. */
  function CollectErrors(nameMissing: bool, phoneMissing: bool, addressMissing: bool, agreed: bool): (errs: set<Check>)
    ensures NameCheck in errs <==> nameMissing
    ensures PhoneCheck in errs <==> phoneMissing
    ensures AddressCheck in errs <==> addressMissing
    ensures ConsentCheck in errs <==> !agreed
  {
    var e1: set<Check> := if nameMissing then {NameCheck} else {};
    var e2 := if phoneMissing then e1 + {PhoneCheck} else e1;
    var e3 := if addressMissing then e2 + {AddressCheck} else e2;
    if !agreed then e3 + {ConsentCheck} else e3
  }

  /** The failing checks: name, phone and address must each trim to
      something non-empty, and consent must be given. Whitespace-only text
      fails. */
  function FailingChecks(d: Draft, agreed: bool): (errs: set<Check>)
    ensures NameCheck in errs <==> Blank(d.name)
    ensures PhoneCheck in errs <==> Blank(d.phone)
    ensures AddressCheck in errs <==> Blank(d.address)
    ensures ConsentCheck in errs <==> !agreed
  {
    CollectErrors(TrimsToNothing(d.name), TrimsToNothing(d.phone), TrimsToNothing(d.address), agreed)
  }

  /** A draft that may be sent: name, phone and address each hold a
      non-whitespace character and consent is given. */
  predicate Sendable(d: Draft, agreed: bool) {
    !Blank(d.name) && !Blank(d.phone) && !Blank(d.address) && agreed
  }

  datatype Validation = Validation(state: State, ok: bool)

  /** Running validation: the displayed errors are replaced by exactly the
      failing checks, and the run succeeds exactly when none fails. */
  function Validate(s: State): (v: Validation)
    ensures v.ok <==> Sendable(s.draft, s.agreed)
    ensures forall c :: c in v.state.errors <==> c in FailingChecks(s.draft, s.agreed)
    ensures v.state.draft == s.draft && v.state.agreed == s.agreed && v.state.showLookup == s.showLookup
    ensures v.state.isSubmitting == s.isSubmitting && v.state.status == s.status
  {
    var errs := FailingChecks(s.draft, s.agreed);
    assert Sendable(s.draft, s.agreed) ==> errs == {};
    assert !Sendable(s.draft, s.agreed) ==> exists c :: c in errs;
    Validation(s.(errors := errs), |errs| == 0)
  }
}
