/**
 * The e-mail form of the closing call to action (src/components/sections/FinalCTA.tsx).
 *
 * The submission is simulated: `handleSubmit` checks the address, then a 1.5 s timer marks
 * it submitted and clears the field, and a 5 s timer set at that moment resets the form.
 * The timers not yet fired are fields; they fire as events.
 */
module FinalCTA {

  const InvalidEmailMessage := "Please enter a valid email address"

  /** `s.includes(c)` for a single character. */
  function Includes(s: string, c: char): (b: bool)
    decreases |s|
  {
    if s == [] then false else s[0] == c || Includes(s[1..], c)
  }

  /** `includes` finds the character exactly when it occurs at some position. */
  lemma {:induction false} IncludesIffOccurs(s: string, c: char)
    ensures Includes(s, c) <==> exists i :: 0 <= i < |s| && s[i] == c
    decreases |s|
  {
    if s != [] {
      IncludesIffOccurs(s[1..], c);
      if Includes(s[1..], c) {
        var i :| 0 <= i < |s[1..]| && s[1..][i] == c;
        assert s[i + 1] == c;
      }
      if exists i :: 0 <= i < |s| && s[i] == c {
        var i :| 0 <= i < |s| && s[i] == c;
        if i > 0 {
          assert s[1..][i - 1] == c;
        }
      }
    }
  }

  /** The form's check: a non-empty address containing '@'. */
  function AcceptsEmail(email: string): (ok: bool)
    ensures ok ==> email != []
  {
    email != [] && Includes(email, '@')
  }

  /** Exactly the addresses with an '@' somewhere pass; nothing else is checked. */
  lemma AcceptsEmailIffAt(email: string)
    ensures AcceptsEmail(email) <==> exists i :: 0 <= i < |email| && email[i] == '@'
  {
    IncludesIffOccurs(email, '@');
  }

  class CtaForm {
    var email: string
    var isSubmitting: bool
    var isSubmitted: bool
    var error: string
    /** The 1.5 s timers of simulated submissions not yet fired. */
    var submitTimers: nat
    /** The 5 s reset timers not yet fired. */
    var resetTimers: nat

    /** Whether the input and the button are disabled. */
    function Disabled(): bool
      reads this
    {
      isSubmitting || isSubmitted
    }

    /**
     * One submission at a time: while submitting, its timer is the only one pending; once
     * submitted, its reset timer is; otherwise none is.
     */
    ghost predicate Valid()
      reads this
    {
      && !(isSubmitting && isSubmitted)
      && submitTimers == (if isSubmitting then 1 else 0)
      && resetTimers == (if isSubmitted then 1 else 0)
    }

    constructor ()
      ensures Valid() && email == "" && error == "" && !Disabled()
    {
      email := "";
      isSubmitting := false;
      isSubmitted := false;
      error := "";
      submitTimers := 0;
      resetTimers := 0;
    }

    /** Typing into the input, possible only while it is enabled. */
    method Type(value: string)
      requires Valid() && !Disabled()
      modifies this
      ensures Valid() && email == value && !Disabled()
      ensures error == old(error) && submitTimers == old(submitTimers) && resetTimers == old(resetTimers)
    {
      email := value;
    }

    /**
     * `handleSubmit`: an address without '@' (the empty one included) only sets the error;
     * any other clears the error and starts the simulated submission.
     */
    method Submit()
      requires Valid() && !Disabled()
      modifies this
      ensures Valid() && email == old(email)
      ensures !AcceptsEmail(old(email)) ==>
        error == InvalidEmailMessage && !isSubmitting && !isSubmitted && submitTimers == old(submitTimers)
      ensures AcceptsEmail(old(email)) ==>
        error == "" && isSubmitting && !isSubmitted && submitTimers == old(submitTimers) + 1
      ensures resetTimers == old(resetTimers)
      ensures Disabled() <==> AcceptsEmail(old(email))
    {
      if !AcceptsEmail(email) {
        error := InvalidEmailMessage;
        return;
      }
      error := "";
      isSubmitting := true;
      submitTimers := submitTimers + 1;
    }

    /** The 1.5 s timer fires: submitted, the field cleared, and the 5 s reset timer set. */
    method SubmitTimerFires()
      requires Valid() && submitTimers > 0
      modifies this
      ensures Valid() && Disabled()
      ensures !isSubmitting && isSubmitted && email == "" && error == old(error)
      ensures submitTimers == old(submitTimers) - 1 && resetTimers == old(resetTimers) + 1
    {
      submitTimers := submitTimers - 1;
      isSubmitting := false;
      isSubmitted := true;
      email := "";
      resetTimers := resetTimers + 1;
    }

    /** The 5 s timer fires: the form is usable again. */
    method ResetTimerFires()
      requires Valid() && resetTimers > 0
      modifies this
      ensures Valid() && !Disabled()
      ensures !isSubmitted && email == old(email) && error == old(error)
      ensures resetTimers == old(resetTimers) - 1 && submitTimers == old(submitTimers)
    {
      resetTimers := resetTimers - 1;
      isSubmitted := false;
    }
  }
}
