/** The waitlist form of the bold-animated template: an email field and a
    submitting flag, with no format validation. The hero form and the
    call-to-action form share one handler and one state, so a single machine
    covers both; they differ only in the idle button label. */
module BoldAnimated {
  import MinimalModern

  /** The component state (`email`, `isSubmitting`) together with `pending`,
      the number of submissions whose one-second timer has been started and
      has not yet fired. */
  datatype FormState = FormState(email: string, isSubmitting: bool, pending: nat)

  const Initial := FormState("", false, 0)

  /** A change of either input's value, a submit of either form, the
      continuation after the timer. */
  datatype Event = Type(value: string) | Submit | Complete

  /** The runtime delivers a completion only for a started timer. */
  predicate CanOccur(s: FormState, e: Event)
  {
    e.Complete? ==> s.pending > 0
  }

  /** What the handlers do: `onChange` sets the email; `handleSubmit` returns
      at once on an empty email and otherwise starts submitting; the
      continuation ends submitting and clears the email. */
  function Next(s: FormState, e: Event): (r: FormState)
    requires CanOccur(s, e)
    ensures r.isSubmitting != s.isSubmitting ==>
      (e.Submit? && r.isSubmitting) || (e.Complete? && !r.isSubmitting)
    ensures r.email != s.email ==> e.Type? || (e.Complete? && r.email == "")
    ensures e.Submit? ==> r.email == s.email
    ensures e.Submit? ==> r.pending == if s.email != "" then s.pending + 1 else s.pending
    ensures e.Type? ==> r.pending == s.pending
    ensures e.Type? ==> r.email == e.value
    ensures e.Complete? ==> !r.isSubmitting && r.email == "" && r.pending == s.pending - 1
  {
    match e
    case Type(v) => s.(email := v)
    case Submit =>
      if s.email == "" then s
      else s.(isSubmitting := true, pending := s.pending + 1)
    case Complete => s.(isSubmitting := false, email := "", pending := s.pending - 1)
  }

  /** `disabled={isSubmitting || !email}` on both buttons. */
  predicate SubmitDisabled(s: FormState)
  {
    s.isSubmitting || s.email == ""
  }

  /** `disabled={isSubmitting}` on both inputs. */
  predicate InputDisabled(s: FormState)
  {
    s.isSubmitting
  }

  function HeroSubmitLabel(s: FormState): string
  {
    if s.isSubmitting then "Joining..." else "Join Waitlist"
  }

  function CtaSubmitLabel(s: FormState): string
  {
    if s.isSubmitting then "Joining..." else "Join Now"
  }

  /** An event the page lets through: a disabled input fires no change and a
      disabled button no submit. The handlers themselves do not check this. */
  predicate UiAllows(s: FormState, e: Event)
  {
    match e
    case Type(_) => !InputDisabled(s)
    case Submit => !SubmitDisabled(s)
    case Complete => s.pending > 0
  }

  predicate Trace(s: FormState, evs: seq<Event>)
    decreases |evs|
  {
    evs == [] || (CanOccur(s, evs[0]) && Trace(Next(s, evs[0]), evs[1..]))
  }

  predicate UiTrace(s: FormState, evs: seq<Event>)
    decreases |evs|
  {
    evs == [] || (UiAllows(s, evs[0]) && UiTrace(Next(s, evs[0]), evs[1..]))
  }

  function Run(s: FormState, evs: seq<Event>): FormState
    requires Trace(s, evs)
    decreases |evs|
  {
    if evs == [] then s else Run(Next(s, evs[0]), evs[1..])
  }

  /** What the disabled attributes keep true: submitting exactly while one
      timer runs, and never with an empty email. */
  predicate Consistent(s: FormState)
  {
    && (s.isSubmitting <==> s.pending > 0)
    && s.pending <= 1
    && (s.isSubmitting ==> s.email != "")
  }

  /** Submitting an empty email changes nothing. */
  lemma SubmitEmpty(s: FormState)
    requires s.email == ""
    ensures Next(s, Submit) == s
  {
  }

  /** Submitting any non-empty email, well-formed or not, starts submitting
      and one timer, and keeps the email until the timer fires. */
  lemma SubmitNonEmpty(s: FormState)
    requires s.email != ""
    ensures Next(s, Submit) == FormState(s.email, true, s.pending + 1)
  {
  }

  /** The continuation ends submitting and empties the field. */
  lemma CompleteResets(s: FormState)
    requires s.pending > 0
    ensures Next(s, Complete) == FormState("", false, s.pending - 1)
  {
  }

  /** Typing sets the email to the input's value. */
  lemma TypeSetsEmail(s: FormState, v: string)
    ensures Next(s, Type(v)) == FormState(v, s.isSubmitting, s.pending)
  {
  }

  /** Both buttons read "Joining..." exactly while submitting, and are
      disabled then; otherwise the hero reads "Join Waitlist" and the
      call-to-action "Join Now". */
  lemma LabelsFollowSubmitting(s: FormState)
    ensures HeroSubmitLabel(s) == "Joining..." <==> s.isSubmitting
    ensures CtaSubmitLabel(s) == "Joining..." <==> s.isSubmitting
    ensures !s.isSubmitting ==>
      HeroSubmitLabel(s) == "Join Waitlist" && CtaSubmitLabel(s) == "Join Now"
    ensures s.isSubmitting ==> SubmitDisabled(s) && InputDisabled(s)
  {
  }

  lemma UiStepKeepsConsistent(s: FormState, e: Event)
    requires Consistent(s) && UiAllows(s, e)
    ensures CanOccur(s, e) && Consistent(Next(s, e))
  {
  }

  /** Any sequence of allowed events from a consistent state is a possible
      trace and ends in a consistent state. */
  lemma {:induction false} UiTraceKeepsConsistent(s: FormState, evs: seq<Event>)
    requires Consistent(s) && UiTrace(s, evs)
    ensures Trace(s, evs) && Consistent(Run(s, evs))
    decreases |evs|
  {
    if evs != [] {
      UiStepKeepsConsistent(s, evs[0]);
      UiTraceKeepsConsistent(Next(s, evs[0]), evs[1..]);
    }
  }

  /** From a fresh form, whatever the user does through the page, it never
      submits an empty email and never runs two timers at once. */
  lemma FromInitialStaysConsistent(evs: seq<Event>)
    requires UiTrace(Initial, evs)
    ensures Trace(Initial, evs)
    ensures Run(Initial, evs).isSubmitting ==> Run(Initial, evs).email != ""
    ensures Run(Initial, evs).pending <= 1
  {
    UiTraceKeepsConsistent(Initial, evs);
  }

  /** Typing a non-empty value, submitting and letting the timer fire
      returns the form to its initial state. */
  lemma SignUpRoundTrip(v: string)
    requires v != ""
    ensures UiTrace(Initial, [Type(v), Submit, Complete])
    ensures Trace(Initial, [Type(v), Submit, Complete])
    ensures Run(Initial, [Type(v), Submit, Complete]) == Initial
  {
    assert [Type(v), Submit, Complete][1..] == [Submit, Complete];
    assert [Submit, Complete][1..] == [Complete];
  }

  /** The guard against re-entry lives only in the disabled attribute: the
      handler itself, called while submitting, starts a second timer. */
  lemma HandlerDoesNotGuardReentry()
    ensures var s := FormState("x", true, 1);
      Consistent(s) && !UiAllows(s, Submit) && Next(s, Submit).pending == 2
  {
  }

  /** This form's state and events read as minimal-modern's. */
  function AsMinimalModern(s: FormState): MinimalModern.FormState
  {
    MinimalModern.FormState(s.email, s.isSubmitting, s.pending)
  }

  function EventAsMinimalModern(e: Event): MinimalModern.Event
  {
    match e
    case Type(v) => MinimalModern.Type(v)
    case Submit => MinimalModern.Submit
    case Complete => MinimalModern.Complete
  }

  /** The handlers, the disabled attributes and the hero label behave exactly
      as minimal-modern's; only the call-to-action label differs. */
  lemma SameHandlersAsMinimalModern(s: FormState, e: Event)
    requires CanOccur(s, e)
    ensures MinimalModern.CanOccur(AsMinimalModern(s), EventAsMinimalModern(e))
    ensures AsMinimalModern(Next(s, e)) == MinimalModern.Next(AsMinimalModern(s), EventAsMinimalModern(e))
    ensures SubmitDisabled(s) == MinimalModern.SubmitDisabled(AsMinimalModern(s))
    ensures InputDisabled(s) == MinimalModern.InputDisabled(AsMinimalModern(s))
    ensures HeroSubmitLabel(s) == MinimalModern.SubmitLabel(AsMinimalModern(s))
    ensures !s.isSubmitting ==> CtaSubmitLabel(s) != MinimalModern.SubmitLabel(AsMinimalModern(s))
  {
  }

  /** The form component: the two state variables plus the started timers. */
  class Form {
    var email: string
    var isSubmitting: bool
    var pending: nat

    function State(): FormState
      reads this
    {
      FormState(email, isSubmitting, pending)
    }

    constructor ()
      ensures State() == Initial
    {
      email, isSubmitting, pending := "", false, 0;
    }

    /** Either input's `onChange`. */
    method OnChange(value: string)
      modifies this
      ensures State() == Next(old(State()), Type(value))
    {
      email := value;
    }

    /** `handleSubmit` up to its `await`. */
    method HandleSubmit()
      modifies this
      ensures State() == Next(old(State()), Submit)
    {
      if email == "" {
        return;
      }
      isSubmitting := true;
      pending := pending + 1;
    }

    /** `handleSubmit` after its `await`, when the timer fires. */
    method CompleteSubmit()
      requires pending > 0
      modifies this
      ensures State() == Next(old(State()), Complete)
    {
      isSubmitting := false;
      email := "";
      pending := pending - 1;
    }
  }
}
