/** The signup form's submit handler: it clears the error, checks that the
    two passwords agree and are long enough, and only then shows the
    loading state around the call to the signup service. The service call
    is a parameter: `None` when it resolves, `Some(message)` when it
    rejects with that message. */
module SignupPage {
  import opened Wrappers

  /** The observable steps of one submit, in order. */
  datatype Effect =
    | SetError(text: string)
    | SetLoading(on: bool)
    | CallSignup(name: string, email: string, password: string)
    | Navigate(path: string, replace: bool)

  /** The form state the steps act on. */
  datatype FormState = FormState(error: string, loading: bool)

  /** The state after a run of steps. */
  function Apply(effects: seq<Effect>, s: FormState): FormState
  {
    if effects == [] then s
    else
      var s' := Apply(effects[..|effects| - 1], s);
      match effects[|effects| - 1]
      case SetError(t) => s'.(error := t)
      case SetLoading(b) => s'.(loading := b)
      case _ => s'
  }

  const MismatchText := "Passwords do not match"
  const TooShortText := "Password must be at least 6 characters"

  /** The steps of `handleSubmit` for these inputs and this service answer. */
  function SubmitEffects(name: string, email: string, password: string, confirmPassword: string,
                         failure: Option<string>): seq<Effect>
  {
    if password != confirmPassword then [SetError(""), SetError(MismatchText)]
    else if |password| < 6 then [SetError(""), SetError(TooShortText)]
    else
      [SetError(""), SetLoading(true), CallSignup(name, email, password)] +
      (match failure
       case None => [Navigate("/dashboard", true)]
       case Some(m) => [SetError(m)]) +
      [SetLoading(false)]
  }

  class SignupForm {
    var error: string
    var loading: bool
    /** Everything the handler has done so far. */
    var effects: seq<Effect>

    constructor ()
      ensures error == "" && !loading && effects == []
    {
      error, loading, effects := "", false, [];
    }

    /** `handleSubmit`. */
    method HandleSubmit(name: string, email: string, password: string, confirmPassword: string,
                        failure: Option<string>)
      modifies this
      ensures effects == old(effects) + SubmitEffects(name, email, password, confirmPassword, failure)
      ensures FormState(error, loading) ==
              Apply(SubmitEffects(name, email, password, confirmPassword, failure), FormState(old(error), old(loading)))
    {
      error := "";
      effects := effects + [SetError("")];
      if password != confirmPassword {
        error := MismatchText;
        effects := effects + [SetError(MismatchText)];
        ApplyFinal(name, email, password, confirmPassword, failure, FormState(old(error), old(loading)));
        return;
      }
      if |password| < 6 {
        error := TooShortText;
        effects := effects + [SetError(TooShortText)];
        ApplyFinal(name, email, password, confirmPassword, failure, FormState(old(error), old(loading)));
        return;
      }
      loading := true;
      effects := effects + [SetLoading(true), CallSignup(name, email, password)];
      match failure {
        case None =>
          effects := effects + [Navigate("/dashboard", true)];
        case Some(m) =>
          error := m;
          effects := effects + [SetError(m)];
      }
      loading := false;
      effects := effects + [SetLoading(false)];
      ApplyFinal(name, email, password, confirmPassword, failure, FormState(old(error), old(loading)));
    }
  }

  /** The state a submit leaves behind: the validation message, or the
      service's message verbatim, or no error; loading is off again after
      an attempt and untouched by a validation failure. */
  lemma ApplyFinal(name: string, email: string, password: string, confirmPassword: string,
                   failure: Option<string>, s: FormState)
    ensures var after := Apply(SubmitEffects(name, email, password, confirmPassword, failure), s);
            && (password != confirmPassword ==> after == FormState(MismatchText, s.loading))
            && (password == confirmPassword && |password| < 6 ==> after == FormState(TooShortText, s.loading))
            && (password == confirmPassword && |password| >= 6 ==>
                  after == FormState(if failure.Some? then failure.value else "", false))
  {
    var es := SubmitEffects(name, email, password, confirmPassword, failure);
    var cleared := s.(error := "");
    assert Apply(es[..1], s) == cleared by {
      assert es[..1][..0] == [];
    }
    if password == confirmPassword && |password| >= 6 {
      var last: Effect := if failure.Some? then SetError(failure.value) else Navigate("/dashboard", true);
      assert es == [SetError(""), SetLoading(true), CallSignup(name, email, password), last, SetLoading(false)];
      assert es[..2][..1] == es[..1] && es[..3][..2] == es[..2] && es[..4][..3] == es[..3] && es[..5][..4] == es[..4];
      assert Apply(es[..2], s) == cleared.(loading := true);
      assert Apply(es[..3], s) == cleared.(loading := true);
      assert Apply(es[..4], s) == FormState(if failure.Some? then failure.value else "", true);
      assert es[..5] == es;
    } else {
      assert es[..2][..1] == es[..1] && es[..2] == es;
    }
  }

  /** A failed validation never calls the service and never shows loading,
      and a mismatch is reported even when the password is also short. */
  lemma ValidationFailureStops(name: string, email: string, password: string, confirmPassword: string,
                               failure: Option<string>)
    requires password != confirmPassword || |password| < 6
    ensures var es := SubmitEffects(name, email, password, confirmPassword, failure);
            && |es| == 2 && es[0] == SetError("")
            && es[1] == SetError(if password != confirmPassword then MismatchText else TooShortText)
            && forall k :: 0 <= k < |es| ==> !es[k].CallSignup? && !es[k].SetLoading?
  {
  }

  /** A valid submit clears the error, turns loading on before calling the
      service exactly once, and ends by turning loading off, whatever the
      service answers; only a resolved call navigates. */
  lemma AttemptBracketedByLoading(name: string, email: string, password: string, failure: Option<string>)
    requires |password| >= 6
    ensures var es := SubmitEffects(name, email, password, password, failure);
            && es[0] == SetError("") && es[1] == SetLoading(true) && es[2] == CallSignup(name, email, password)
            && es[|es| - 1] == SetLoading(false)
            && (forall k :: 0 <= k < |es| && es[k].CallSignup? ==> k == 2)
            && (Navigate("/dashboard", true) in es <==> failure.None?)
  {
  }

  /** Exactly six characters pass the length check. */
  lemma SixCharactersPass(name: string, email: string, password: string, failure: Option<string>)
    requires |password| == 6
    ensures CallSignup(name, email, password) in SubmitEffects(name, email, password, password, failure)
  {
    assert SubmitEffects(name, email, password, password, failure)[2] == CallSignup(name, email, password);
  }
}
