/**
 * The contact page's form: four controlled text fields, a submission that is
 * handed to an external mail relay, and the heading, message and card that
 * the page shows for each state.
 *
 * The relay call is an external event with two outcomes (`RelayOutcome`).
 * The browser's own submit gate (disabled button, `required` fields, the
 * email input's format check) is modelled by `SubmitAllowed`, with the
 * email format verdict passed in as a boolean.
 */
module Contact {

  // ---------------------------------------------------------------------------
  // Form data
  // ---------------------------------------------------------------------------

  /** The `name` attribute of an input, which selects the field an edit updates. */
  datatype Field = Name | Email | Subject | Message

  datatype FormData = FormData(name: string, email: string, subject: string, message: string)

  function EmptyForm(): FormData {
    FormData("", "", "", "")
  }

  function Get(f: FormData, field: Field): string {
    match field
    case Name => f.name
    case Email => f.email
    case Subject => f.subject
    case Message => f.message
  }

  /** `{ ...prev, [name]: value }`: the edited field takes the value, the other three keep theirs. */
  function Set(f: FormData, field: Field, value: string): (r: FormData)
    ensures Get(r, field) == value
    ensures forall g :: g != field ==> Get(r, g) == Get(f, g)
  {
    match field
    case Name => f.(name := value)
    case Email => f.(email := value)
    case Subject => f.(subject := value)
    case Message => f.(message := value)
  }

  /** Every `required` field is non-empty. */
  predicate Complete(f: FormData) {
    forall field :: Get(f, field) != ""
  }

  // ---------------------------------------------------------------------------
  // The page's texts
  // ---------------------------------------------------------------------------

  const FailureText: string := "Oops! Something went wrong. Please try again later."
  const SentHeading: string := "Message Sent!"
  const IdleHeading: string := "Get In Touch"
  const ThankYouText: string := "Thank you for reaching out! I'll get back to you soon."
  const InvitationText: string := "Have a project in mind or want to collaborate? Feel free to reach out!"

  // ---------------------------------------------------------------------------
  // State and transitions
  // ---------------------------------------------------------------------------

  datatype ContactState = ContactState(form: FormData, isSubmitted: bool, isLoading: bool, errorMessage: string)

  /** How the relay request resolves. */
  datatype RelayOutcome = Delivered | Rejected

  /** The submission status that the three flags encode. */
  datatype Status = Idle | Submitting | Submitted | Failed(message: string)

  /** The state on mount. */
  function Initial(): (s: ContactState)
    ensures s.form == EmptyForm() && !s.isSubmitted && !s.isLoading && s.errorMessage == ""
  {
    ContactState(EmptyForm(), false, false, "")
  }

  /**
   * The states the transitions can reach: never submitted and loading at
   * once, no error shown while a request is in flight or after a success, and
   * the only error text is the fixed failure message.
   */
  predicate Valid(s: ContactState) {
    !(s.isSubmitted && s.isLoading) &&
    (s.isLoading ==> s.errorMessage == "") &&
    (s.isSubmitted ==> s.errorMessage == "") &&
    (s.errorMessage == "" || s.errorMessage == FailureText)
  }

  function StatusOf(s: ContactState): (st: Status)
    ensures st == Submitted <==> s.isSubmitted
    ensures st == Submitting <==> !s.isSubmitted && s.isLoading
    ensures st.Failed? <==> !s.isSubmitted && !s.isLoading && s.errorMessage != ""
    ensures st.Failed? ==> st.message == s.errorMessage
  {
    if s.isSubmitted then Submitted
    else if s.isLoading then Submitting
    else if s.errorMessage != "" then Failed(s.errorMessage)
    else Idle
  }

  /** An edit: exactly one field changes; the flags and the error stay. */
  function Change(s: ContactState, field: Field, value: string): (r: ContactState)
    ensures Get(r.form, field) == value
    ensures forall g :: g != field ==> Get(r.form, g) == Get(s.form, g)
    ensures r.isSubmitted == s.isSubmitted && r.isLoading == s.isLoading && r.errorMessage == s.errorMessage
  {
    s.(form := Set(s.form, field, value))
  }

  /**
   * The browser lets a submit through only while the form is shown (not
   * submitted), its button is enabled (not loading), every required field is
   * filled and the email input accepts its value.
   */
  function SubmitAllowed(s: ContactState, emailAccepted: bool): (ok: bool)
    ensures ok ==> StatusOf(s) == Idle || StatusOf(s).Failed?
    ensures ok ==> forall field :: Get(s.form, field) != ""
    ensures !emailAccepted ==> !ok
    ensures (StatusOf(s) == Idle || StatusOf(s).Failed?) && Complete(s.form) && emailAccepted ==> ok
  {
    !s.isSubmitted && !s.isLoading && Complete(s.form) && emailAccepted
  }

  /** A submit event: when allowed, the request starts and the error is cleared; otherwise nothing happens. */
  function Submit(s: ContactState, emailAccepted: bool): (r: ContactState)
    ensures SubmitAllowed(s, emailAccepted) ==>
      r.isLoading && r.errorMessage == "" && r.form == s.form && r.isSubmitted == s.isSubmitted
    ensures !SubmitAllowed(s, emailAccepted) ==> r == s
  {
    if SubmitAllowed(s, emailAccepted) then s.(isLoading := true, errorMessage := "") else s
  }

  /**
   * The relay's resolution. Delivered: submitted, no longer loading, every
   * field cleared, error left as it is. Rejected: the fixed failure text, no
   * longer loading, fields and the submitted flag kept.
   */
  function Resolve(s: ContactState, outcome: RelayOutcome): (r: ContactState)
    ensures outcome == Delivered ==>
      r.isSubmitted && !r.isLoading && r.form == EmptyForm() && r.errorMessage == s.errorMessage
    ensures outcome == Rejected ==>
      r.errorMessage == FailureText && !r.isLoading && r.form == s.form && r.isSubmitted == s.isSubmitted
  {
    match outcome
    case Delivered => s.(isSubmitted := true, isLoading := false, form := EmptyForm())
    case Rejected => s.(errorMessage := FailureText, isLoading := false)
  }

  /** "Send another message": only the submitted flag goes back to false. */
  function SendAnother(s: ContactState): (r: ContactState)
    ensures !r.isSubmitted
    ensures r.form == s.form && r.isLoading == s.isLoading && r.errorMessage == s.errorMessage
  {
    s.(isSubmitted := false)
  }

  // ---------------------------------------------------------------------------
  // Invariant and traces
  // ---------------------------------------------------------------------------

  /** Every transition keeps `Valid`; a resolution arrives only for the request in flight. */
  lemma TransitionsPreserveValid(s: ContactState, field: Field, value: string, emailAccepted: bool, outcome: RelayOutcome)
    requires Valid(s)
    ensures Valid(Initial())
    ensures Valid(Change(s, field, value))
    ensures Valid(Submit(s, emailAccepted))
    ensures s.isLoading ==> Valid(Resolve(s, outcome))
    ensures Valid(SendAnother(s))
  {
  }

  /** A submit with an empty required field, a rejected email or a request in flight never reaches the relay. */
  lemma SubmitGated(s: ContactState, emailAccepted: bool)
    requires !Complete(s.form) || !emailAccepted || s.isLoading
    ensures !SubmitAllowed(s, emailAccepted)
    ensures Submit(s, emailAccepted) == s
  {
  }

  /** Once a request is in flight, no further submit is let through until it resolves. */
  lemma SingleRequestInFlight(s: ContactState, emailAccepted: bool, again: bool)
    requires SubmitAllowed(s, emailAccepted)
    ensures StatusOf(Submit(s, emailAccepted)) == Submitting
    ensures !SubmitAllowed(Submit(s, emailAccepted), again)
    ensures Submit(Submit(s, emailAccepted), again) == Submit(s, emailAccepted)
  {
  }

  /** A delivered request ends submitted with every field empty and no error. */
  lemma SuccessClearsFields(s: ContactState, emailAccepted: bool)
    requires SubmitAllowed(s, emailAccepted)
    ensures var r := Resolve(Submit(s, emailAccepted), Delivered);
      StatusOf(r) == Submitted && r.form == EmptyForm() && r.errorMessage == ""
  {
  }

  /** A rejected request ends failed with the fixed text and the fields exactly as they were. */
  lemma FailurePreservesInput(s: ContactState, emailAccepted: bool)
    requires SubmitAllowed(s, emailAccepted)
    ensures var r := Resolve(Submit(s, emailAccepted), Rejected);
      StatusOf(r) == Failed(FailureText) && r.form == s.form
  {
  }

  /** After a rejection the same input can be sent again, and that attempt clears the error. */
  lemma RetryAfterFailure(s: ContactState, emailAccepted: bool)
    requires SubmitAllowed(s, emailAccepted)
    ensures var failed := Resolve(Submit(s, emailAccepted), Rejected);
      SubmitAllowed(failed, emailAccepted) && Submit(failed, emailAccepted) == Submit(s, emailAccepted)
  {
  }

  /** Delivered, then "send another message": the page is back to its initial, empty form. */
  lemma SendAnotherAfterSuccess(s: ContactState, emailAccepted: bool)
    requires SubmitAllowed(s, emailAccepted)
    ensures SendAnother(Resolve(Submit(s, emailAccepted), Delivered)) == Initial()
  {
  }

  // ---------------------------------------------------------------------------
  // What the page shows
  // ---------------------------------------------------------------------------

  function Heading(s: ContactState): (r: string)
    ensures s.isSubmitted ==> r == SentHeading
    ensures !s.isSubmitted ==> r == IdleHeading
  {
    if s.isSubmitted then SentHeading else IdleHeading
  }

  /** `isSubmitted ? thanks : errorMessage || invitation`. */
  function Paragraph(s: ContactState): (r: string)
    ensures r != ""
    ensures s.isSubmitted ==> r == ThankYouText
    ensures !s.isSubmitted && s.errorMessage != "" ==> r == s.errorMessage
    ensures !s.isSubmitted && s.errorMessage == "" ==> r == InvitationText
  {
    if s.isSubmitted then ThankYouText
    else if s.errorMessage != "" then s.errorMessage
    else InvitationText
  }

  /** The success card replaces the form exactly when submitted. */
  function ShowsSuccessCard(s: ContactState): (r: bool)
    ensures r <==> StatusOf(s) == Submitted
  {
    s.isSubmitted
  }

  /** The red error line inside the form. */
  function ShowsErrorBanner(s: ContactState): (r: bool)
    ensures r ==> !ShowsSuccessCard(s) && Paragraph(s) == s.errorMessage
    ensures Valid(s) ==> (r <==> StatusOf(s).Failed?)
  {
    !ShowsSuccessCard(s) && s.errorMessage != ""
  }

  /** The submit button's `disabled` attribute. */
  function SubmitDisabled(s: ContactState): (r: bool)
    ensures r ==> forall emailAccepted :: !SubmitAllowed(s, emailAccepted)
    ensures !ShowsSuccessCard(s) ==> (r <==> StatusOf(s) == Submitting)
  {
    s.isLoading
  }

  /** In every reachable state the page's texts and controls are determined by the submission status. */
  lemma ViewFollowsStatus(s: ContactState)
    requires Valid(s)
    ensures Heading(s) == SentHeading <==> StatusOf(s) == Submitted
    ensures Heading(s) == IdleHeading <==> StatusOf(s) != Submitted
    ensures Paragraph(s) == ThankYouText <==> StatusOf(s) == Submitted
    ensures Paragraph(s) == FailureText <==> StatusOf(s).Failed?
    ensures Paragraph(s) == InvitationText <==> StatusOf(s) == Idle || StatusOf(s) == Submitting
    ensures ShowsSuccessCard(s) <==> StatusOf(s) == Submitted
    ensures ShowsErrorBanner(s) <==> StatusOf(s).Failed?
    ensures !ShowsSuccessCard(s) ==> (SubmitDisabled(s) <==> StatusOf(s) == Submitting)
  {
  }

  // ---------------------------------------------------------------------------
  // The component
  // ---------------------------------------------------------------------------

  /** The contact page's form state and its event handlers. */
  class ContactForm {
    var formData: FormData
    var isSubmitted: bool
    var isLoading: bool
    var errorMessage: string

    function State(): ContactState
      reads this
    {
      ContactState(formData, isSubmitted, isLoading, errorMessage)
    }

    constructor ()
      ensures State() == Initial()
      ensures Valid(State())
    {
      formData := EmptyForm();
      isSubmitted := false;
      isLoading := false;
      errorMessage := "";
    }

    /** An input's change event. */
    method HandleChange(field: Field, value: string)
      requires Valid(State())
      modifies this
      ensures State() == Change(old(State()), field, value)
      ensures Valid(State())
    {
      formData := Set(formData, field, value);
    }

    /** A submit event; `sent` says whether the relay is called. */
    method SendEmail(emailAccepted: bool) returns (sent: bool)
      requires Valid(State())
      modifies this
      ensures sent == SubmitAllowed(old(State()), emailAccepted)
      ensures State() == Submit(old(State()), emailAccepted)
      ensures Valid(State())
    {
      sent := SubmitAllowed(State(), emailAccepted);
      if !sent {
        return;
      }
      isLoading := true;
      errorMessage := "";
    }

    /** The relay's callback for the request in flight. */
    method OnRelayResult(outcome: RelayOutcome)
      requires Valid(State()) && isLoading
      modifies this
      ensures State() == Resolve(old(State()), outcome)
      ensures Valid(State())
    {
      match outcome
      case Delivered =>
        isSubmitted := true;
        isLoading := false;
        formData := EmptyForm();
      case Rejected =>
        errorMessage := FailureText;
        isLoading := false;
    }

    /** The success card's "Send another message" button. */
    method SendAnotherMessage()
      requires Valid(State())
      modifies this
      ensures State() == SendAnother(old(State()))
      ensures Valid(State())
    {
      isSubmitted := false;
    }
  }
}
