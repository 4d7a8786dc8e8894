/** The waitlist form of the elegant-gradient template: an email field, a
    submitting flag and an error message, with format validation on submit.
    The hero form and the closing call-to-action form share one handler and
    one state, so a single machine covers both. */
module ElegantGradient {
  import opened Regex

  /** `[^\s@]` */
  const NotSpaceNorAt := NotSpaceNor('@')

  /** `/^[^\s@]+@[^\s@]+\.[^\s@]+$/` */
  const EmailPattern: seq<Piece> := [
    OneOrMore(NotSpaceNorAt), Once(Literal('@')),
    OneOrMore(NotSpaceNorAt), Once(Literal('.')),
    OneOrMore(NotSpaceNorAt)]

  /** The same condition in plain words: no whitespace; exactly one `@`, not
      first; and after it a `.` that is neither the first nor the last
      character of the part after the `@`. */
  predicate WellFormedEmail(s: string)
  {
    && (forall i | 0 <= i < |s| :: !IsWhitespace(s[i]))
    && exists at | 0 < at < |s| ::
         && s[at] == '@'
         && (forall i | 0 <= i < |s| && i != at :: s[i] != '@')
         && (exists dot | at + 1 < dot < |s| - 1 :: s[dot] == '.')
  }

  /** Every string the pattern matches is well-formed. */
  lemma ValidIsWellFormed(s: string)
    requires FullMatch(EmailPattern, s)
    ensures WellFormedEmail(s)
  {
    var p := EmailPattern;
    var j1 := OneOrMoreSplit(p, s);
    var s1 := s[j1..];
    assert p[1..][1..] == p[2..];
    var s2 := s1[1..];
    var j2 := OneOrMoreSplit(p[2..], s2);
    var s3 := s2[j2..];
    assert p[2..][1..] == p[3..];
    assert p[3..][1..] == p[4..];
    var s4 := s3[1..];
    var j4 := OneOrMoreSplit(p[4..], s4);
    assert p[4..][1..] == [];
    assert j4 == |s4|;
    var at, dot := j1, j1 + 1 + j2;
    assert s[at] == '@' && s[dot] == '.';
    forall i | 0 <= i < |s|
      ensures !IsWhitespace(s[i]) && (i != at ==> s[i] != '@')
    {
      if i < at {
        assert s[i] == s[..j1][i];
      } else if at < i < dot {
        assert s[i] == s2[..j2][i - at - 1];
      } else if i > dot {
        assert s[i] == s4[..j4][i - dot - 1];
      }
    }
    assert at + 1 < dot < |s| - 1;
  }

  /** `\.[^\s@]+$` matches from a dot followed by at least one character,
      none of them whitespace or `@`. */
  lemma DotTailMatches(s: string, dot: nat)
    requires dot < |s| - 1 && s[dot] == '.'
    requires forall i | dot < i < |s| :: AtomMatches(NotSpaceNorAt, s[i])
    ensures FullMatch(EmailPattern[3..], s[dot..])
  {
    var p := EmailPattern;
    var s4 := s[dot + 1..];
    forall i | 0 <= i < |s4| ensures AtomMatches(NotSpaceNorAt, s4[i]) {
      assert s4[i] == s[dot + 1 + i];
    }
    assert s4[..|s4|] == s4;
    assert p[4..][1..] == [];
    OneOrMoreJoin(p[4..], s4, |s4|);
    assert s[dot..][1..] == s4;
    assert p[3..][1..] == p[4..];
  }

  /** The whole pattern matches when `@` is at `at`, a dot at `dot`, and
      every other character is neither whitespace nor `@`. */
  lemma MatchAround(s: string, at: nat, dot: nat)
    requires 0 < at && at + 1 < dot < |s| - 1
    requires s[at] == '@' && s[dot] == '.'
    requires forall i | 0 <= i < |s| && i != at :: AtomMatches(NotSpaceNorAt, s[i])
    ensures FullMatch(EmailPattern, s)
  {
    var p := EmailPattern;
    DotTailMatches(s, dot);
    // the domain part before the dot
    var s2 := s[at + 1..];
    var k := dot - at - 1;
    forall i | 0 <= i < k ensures AtomMatches(NotSpaceNorAt, s2[..k][i]) {
      assert s2[..k][i] == s[at + 1 + i];
    }
    assert s2[k..] == s[dot..];
    assert p[2..][1..] == p[3..];
    OneOrMoreJoin(p[2..], s2, k);
    // the `@`
    assert s[at..][1..] == s2;
    assert p[1..][1..] == p[2..];
    assert FullMatch(p[1..], s[at..]);
    // the local part
    forall i | 0 <= i < at ensures AtomMatches(NotSpaceNorAt, s[..at][i]) {
      assert s[..at][i] == s[i];
    }
    OneOrMoreJoin(p, s, at);
  }

  /** Every well-formed string is matched by the pattern. */
  lemma WellFormedIsValid(s: string)
    requires WellFormedEmail(s)
    ensures FullMatch(EmailPattern, s)
  {
    var at :| 0 < at < |s| && s[at] == '@' && (forall i | 0 <= i < |s| && i != at :: s[i] != '@') &&
      (exists dot | at + 1 < dot < |s| - 1 :: s[dot] == '.');
    var dot :| at + 1 < dot < |s| - 1 && s[dot] == '.';
    MatchAround(s, at, dot);
  }

  /** The pattern matches exactly the well-formed addresses. */
  lemma EmailPatternExactly(s: string)
    ensures FullMatch(EmailPattern, s) <==> WellFormedEmail(s)
  {
    if FullMatch(EmailPattern, s) { ValidIsWellFormed(s); }
    if WellFormedEmail(s) { WellFormedIsValid(s); }
  }

  /** `validateEmail`: the regular expression's `test`, which accepts exactly
      the well-formed addresses. */
  function ValidateEmail(email: string): (ok: bool)
    ensures ok <==> WellFormedEmail(email)
  {
    EmailPatternExactly(email);
    FullMatch(EmailPattern, email)
  }

  /** A plain address is accepted. */
  lemma AcceptsPlainAddress()
    ensures ValidateEmail("a@b.c")
  {
    var e := "a@b.c";
    assert e[1] == '@' && e[3] == '.';
    assert forall i | 0 <= i < |e| :: e[i] in {'a', '@', 'b', '.', 'c'};
  }

  /** A second `@` is rejected. */
  lemma RejectsTwoAts()
    ensures !ValidateEmail("a@b@c.d")
  {
    var e := "a@b@c.d";
    assert e[1] == '@' && e[3] == '@';
  }

  /** A space is rejected. */
  lemma RejectsSpace()
    ensures !ValidateEmail("a @b.c")
  {
    var e := "a @b.c";
    assert IsWhitespace(e[1]);
  }

  /** A domain without a dot is rejected. */
  lemma RejectsDomainWithoutDot()
    ensures !ValidateEmail("a@bc")
  {
    var e := "a@bc";
    assert forall i | 0 <= i < |e| :: e[i] in {'a', '@', 'b', 'c'};
  }

  // ---------------------------------------------------------------------
  // The form state machine

  const EmptyEmailError := "Please enter your email address"
  const InvalidEmailError := "Please enter a valid email address"

  /** The component state (`email`, `isSubmitting`, `error`) together with
      `pending`, the number of submissions whose one-second timer has been
      started and has not yet fired. */
  datatype FormState = FormState(email: string, isSubmitting: bool, error: string, pending: nat)

  const Initial := FormState("", false, "", 0)

  /** The inputs the form reacts to: a change of either input's value, a
      submit of either form, and the continuation after the timer. */
  datatype Event = Type(value: string) | Submit | Complete

  /** The runtime delivers a completion only for a started timer. */
  predicate CanOccur(s: FormState, e: Event)
  {
    e.Complete? ==> s.pending > 0
  }

  /** What the handlers do: `onChange` sets the email and clears the error;
      `handleSubmit` clears the error, then stops with a message on an empty
      or malformed email, or else starts submitting; the continuation ends
      submitting and clears the email. */
  function Next(s: FormState, e: Event): (r: FormState)
    requires CanOccur(s, e)
    ensures r.isSubmitting != s.isSubmitting ==>
      (e.Submit? && r.isSubmitting) || (e.Complete? && !r.isSubmitting)
    ensures r.email != s.email ==> e.Type? || (e.Complete? && r.email == "")
    ensures e.Submit? ==> r.email == s.email && (r.error == "" <==> WellFormedEmail(s.email))
    ensures e.Submit? ==> r.pending == if WellFormedEmail(s.email) then s.pending + 1 else s.pending
    ensures e.Type? ==> r.error == "" && r.pending == s.pending
    ensures e.Type? ==> r.email == e.value
    ensures e.Complete? ==> !r.isSubmitting && r.email == "" && r.pending == s.pending - 1 && r.error == s.error
  {
    match e
    case Type(v) => s.(email := v, error := "")
    case Submit =>
      if s.email == "" then s.(error := EmptyEmailError)
      else if !ValidateEmail(s.email) then s.(error := InvalidEmailError)
      else s.(error := "", isSubmitting := true, pending := s.pending + 1)
    case Complete => s.(isSubmitting := false, email := "", pending := s.pending - 1)
  }

  /** `disabled={isSubmitting || !email}` on both submit buttons. */
  predicate SubmitDisabled(s: FormState)
  {
    s.isSubmitting || s.email == ""
  }

  /** `disabled={isSubmitting}` on both inputs. */
  predicate InputDisabled(s: FormState)
  {
    s.isSubmitting
  }

  /** The error paragraph and red border appear when `error` is non-empty. */
  predicate ShowsError(s: FormState)
  {
    s.error != ""
  }

  function HeroSubmitLabel(s: FormState): string
  {
    if s.isSubmitting then "Joining..." else "Join Waitlist"
  }

  function CtaSubmitLabel(s: FormState): string
  {
    if s.isSubmitting then "Joining..." else "Join Waitlist Now"
  }

  /** An event the page lets through: a disabled input fires no change and a
      disabled button no submit. The handlers themselves do not check this. */
  predicate UiAllows(s: FormState, e: Event)
  {
    match e
    case Type(_) => !InputDisabled(s)
    case Submit => !SubmitDisabled(s)
    case Complete => s.pending > 0
  }

  /** A sequence of events each of which can occur in the state it meets. */
  predicate Trace(s: FormState, evs: seq<Event>)
    decreases |evs|
  {
    evs == [] || (CanOccur(s, evs[0]) && Trace(Next(s, evs[0]), evs[1..]))
  }

  /** A sequence of events each of which the page lets through. */
  predicate UiTrace(s: FormState, evs: seq<Event>)
    decreases |evs|
  {
    evs == [] || (UiAllows(s, evs[0]) && UiTrace(Next(s, evs[0]), evs[1..]))
  }

  function Run(s: FormState, evs: seq<Event>): FormState
    requires Trace(s, evs)
    decreases |evs|
  {
    if evs == [] then s else Run(Next(s, evs[0]), evs[1..])
  }

  /** What the disabled attributes keep true: submitting exactly while one
      timer runs, and only for a valid email with no error shown. */
  predicate Consistent(s: FormState)
  {
    && (s.isSubmitting <==> s.pending > 0)
    && s.pending <= 1
    && (s.isSubmitting ==> ValidateEmail(s.email) && s.error == "")
  }

  /** Submitting an empty email only sets the "enter your email" message. */
  lemma SubmitEmpty(s: FormState)
    requires s.email == ""
    ensures Next(s, Submit) == s.(error := EmptyEmailError)
  {
  }

  /** Submitting a malformed email only sets the "valid email" message. */
  lemma SubmitMalformed(s: FormState)
    requires s.email != "" && !WellFormedEmail(s.email)
    ensures Next(s, Submit) == s.(error := InvalidEmailError)
  {
  }

  /** Submitting a well-formed email clears the error, starts submitting and
      starts one timer; the email is kept until the timer fires. */
  lemma SubmitWellFormed(s: FormState)
    requires WellFormedEmail(s.email)
    ensures Next(s, Submit) == FormState(s.email, true, "", s.pending + 1)
  {
  }

  /** Every submit leaves an error message exactly when it did not start
      submitting: the message of the last check that failed, never a stale one. */
  lemma SubmitErrorIsFresh(s: FormState)
    ensures Next(s, Submit).error in {"", EmptyEmailError, InvalidEmailError}
    ensures Next(s, Submit).error == "" <==> WellFormedEmail(s.email)
    ensures ShowsError(Next(s, Submit)) <==> !WellFormedEmail(s.email)
    ensures Next(s, Submit).email == s.email
  {
    assert "" != EmptyEmailError && "" != InvalidEmailError;
  }

  /** The continuation ends submitting and empties the field; the error is
      left as it is. */
  lemma CompleteResets(s: FormState)
    requires s.pending > 0
    ensures Next(s, Complete) == FormState("", false, s.error, s.pending - 1)
  {
  }

  /** Typing sets the email to the input's value and clears the error. */
  lemma TypeSetsEmail(s: FormState, v: string)
    ensures Next(s, Type(v)) == FormState(v, s.isSubmitting, "", s.pending)
    ensures !ShowsError(Next(s, Type(v)))
  {
  }

  /** The labels of both buttons read "Joining..." exactly while submitting;
      otherwise the hero reads "Join Waitlist" and the closing form
      "Join Waitlist Now". */
  lemma LabelsFollowSubmitting(s: FormState)
    ensures HeroSubmitLabel(s) == "Joining..." <==> s.isSubmitting
    ensures CtaSubmitLabel(s) == "Joining..." <==> s.isSubmitting
    ensures !s.isSubmitting ==>
      HeroSubmitLabel(s) == "Join Waitlist" && CtaSubmitLabel(s) == "Join Waitlist Now"
  {
  }

  /** One allowed step keeps the form consistent. */
  lemma UiStepKeepsConsistent(s: FormState, e: Event)
    requires Consistent(s) && UiAllows(s, e)
    ensures CanOccur(s, e) && Consistent(Next(s, e))
  {
  }

  /** Any sequence of allowed events from a consistent state is a possible
      trace and ends in a consistent state. */
  lemma {:induction false} UiTraceKeepsConsistent(s: FormState, evs: seq<Event>)
    requires Consistent(s) && UiTrace(s, evs)
    ensures Trace(s, evs) && Consistent(Run(s, evs))
    decreases |evs|
  {
    if evs != [] {
      UiStepKeepsConsistent(s, evs[0]);
      UiTraceKeepsConsistent(Next(s, evs[0]), evs[1..]);
    }
  }

  /** From a fresh form, whatever the user does through the page, the form
      never submits a malformed email and never runs two timers at once. */
  lemma FromInitialStaysConsistent(evs: seq<Event>)
    requires UiTrace(Initial, evs)
    ensures Trace(Initial, evs)
    ensures Run(Initial, evs).isSubmitting ==> WellFormedEmail(Run(Initial, evs).email)
    ensures Run(Initial, evs).pending <= 1
  {
    UiTraceKeepsConsistent(Initial, evs);
  }

  /** Typing a well-formed address, submitting and letting the timer fire
      returns the form to its initial state. */
  lemma SignUpRoundTrip(v: string)
    requires WellFormedEmail(v)
    ensures UiTrace(Initial, [Type(v), Submit, Complete])
    ensures Trace(Initial, [Type(v), Submit, Complete])
    ensures Run(Initial, [Type(v), Submit, Complete]) == Initial
  {
    var s1 := Next(Initial, Type(v));
    assert s1 == FormState(v, false, "", 0);
    var s2 := Next(s1, Submit);
    assert s2 == FormState(v, true, "", 1);
    assert [Type(v), Submit, Complete][1..] == [Submit, Complete];
    assert [Submit, Complete][1..] == [Complete];
  }

  /** The guard against re-entry lives only in the disabled attributes: the
      handler itself, called while submitting, starts a second timer. */
  lemma HandlerDoesNotGuardReentry()
    ensures var s := FormState("a@b.c", true, "", 1);
      Consistent(s) && !UiAllows(s, Submit) && Next(s, Submit).pending == 2
  {
    AcceptsPlainAddress();
  }

  /** The form component: the three state variables plus the started timers,
      updated by the handlers in the order the code runs its setters. */
  class Form {
    var email: string
    var isSubmitting: bool
    var error: string
    var pending: nat

    function State(): FormState
      reads this
    {
      FormState(email, isSubmitting, error, pending)
    }

    constructor ()
      ensures State() == Initial
    {
      email, isSubmitting, error, pending := "", false, "", 0;
    }

    /** Either input's `onChange`. */
    method OnChange(value: string)
      modifies this
      ensures State() == Next(old(State()), Type(value))
    {
      email := value;
      error := "";
    }

    /** `handleSubmit` up to its `await`. */
    method HandleSubmit()
      modifies this
      ensures State() == Next(old(State()), Submit)
    {
      error := "";
      if email == "" {
        error := EmptyEmailError;
        return;
      }
      if !ValidateEmail(email) {
        error := InvalidEmailError;
        return;
      }
      isSubmitting := true;
      pending := pending + 1;
    }

    /** `handleSubmit` after its `await`, when the timer fires. */
    method CompleteSubmit()
      requires pending > 0
      modifies this
      ensures State() == Next(old(State()), Complete)
    {
      isSubmitting := false;
      email := "";
      pending := pending - 1;
    }
  }
}
