/**
 * The flag-submission form: five text fields, a submit button that is
 * enabled once a name is entered, and the status banner that reports the
 * outcome of the last submission. The form posts its fields as they are;
 * it validates nothing itself.
 */
module SubmitFlagsForm {
  import opened JsValues
  import Route = SubmitFlagsRoute

  /** The `name` attributes of the five inputs. */
  datatype Field = Name | Flag1 | Flag2 | Flag3 | Flag4

  /** `FlagFormData` */
  datatype FormData = FormData(name: string, flag1: string, flag2: string, flag3: string, flag4: string)
  {
    function Get(f: Field): string {
      match f
      case Name => name
      case Flag1 => flag1
      case Flag2 => flag2
      case Flag3 => flag3
      case Flag4 => flag4
    }

    /** `{ ...prev, [name]: value }`: one field replaced, the others kept. */
    function With(f: Field, value: string): (r: FormData)
      ensures r.Get(f) == value
      ensures forall g :: g != f ==> r.Get(g) == Get(g)
    {
      match f
      case Name => this.(name := value)
      case Flag1 => this.(flag1 := value)
      case Flag2 => this.(flag2 := value)
      case Flag3 => this.(flag3 := value)
      case Flag4 => this.(flag4 := value)
    }
  }

  const EmptyForm := FormData("", "", "", "", "")

  /** Two forms that agree on every field are the same form. */
  lemma SameFieldsSameForm(a: FormData, b: FormData)
    requires forall f :: a.Get(f) == b.Get(f)
    ensures a == b
  {
    assert a.Get(Name) == b.Get(Name) && a.Get(Flag1) == b.Get(Flag1) && a.Get(Flag2) == b.Get(Flag2);
    assert a.Get(Flag3) == b.Get(Flag3) && a.Get(Flag4) == b.Get(Flag4);
  }

  /** Typing the value a field already holds changes nothing. */
  lemma WithSameValue(d: FormData, f: Field)
    ensures d.With(f, d.Get(f)) == d
  {
    var r := d.With(f, d.Get(f));
    forall g ensures r.Get(g) == d.Get(g) {
    }
    SameFieldsSameForm(r, d);
  }

  /** Only the last value typed into a field counts. */
  lemma WithOverwrites(d: FormData, f: Field, u: string, v: string)
    ensures d.With(f, u).With(f, v) == d.With(f, v)
  {
    var a := d.With(f, u).With(f, v);
    var b := d.With(f, v);
    forall g ensures a.Get(g) == b.Get(g) {
      if g != f {
        assert d.With(f, u).Get(g) == d.Get(g);
      }
    }
    SameFieldsSameForm(a, b);
  }

  /** `'idle' | 'success' | 'error'` */
  datatype Status = Idle | Success | Error

  /** How the `fetch` of the submission ended. */
  datatype FetchOutcome = ResponseOk | ResponseNotOk | FetchThrew

  /** The JSON the form sends, as the server reads it back. */
  function AsSubmission(d: FormData): Route.Submission {
    Route.Submission(d.name, d.flag1, d.flag2, d.flag3, d.flag4)
  }

  /** `response.ok`: a status in the 200 range. */
  function OutcomeOf(r: Route.Response): FetchOutcome {
    if 200 <= r.status < 300 then ResponseOk else ResponseNotOk
  }

  class SubmitFlagsPage {
    var formData: FormData
    var isSubmitting: bool
    var submitStatus: Status

    constructor ()
      ensures formData == EmptyForm && !isSubmitting && submitStatus == Idle
    {
      formData := EmptyForm;
      isSubmitting := false;
      submitStatus := Idle;
    }

    /** The submit button is disabled while a submission is in flight or the name is empty. */
    predicate SubmitDisabled()
      reads this
    {
      isSubmitting || !Truthy(formData.name)
    }

    /** `handleInputChange`: the edited field takes the new value, the others keep theirs. */
    method HandleInputChange(field: Field, value: string)
      modifies this`formData
      ensures formData == old(formData).With(field, value)
    {
      formData := formData.With(field, value);
    }

    /**
     * The synchronous start of `handleSubmit`: the form is marked as
     * submitting, the status banner is cleared, and the request body is the
     * form as it stands.
     */
    method StartSubmit() returns (requestBody: FormData)
      modifies this`isSubmitting, this`submitStatus
      ensures isSubmitting && submitStatus == Idle
      ensures requestBody == formData && formData == old(formData)
      ensures SubmitDisabled()
    {
      isSubmitting := true;
      submitStatus := Idle;
      requestBody := formData;
    }

    /**
     * The rest of `handleSubmit`, once the request has ended: success
     * clears the form, a failed response or a thrown error keeps it for
     * another try, and the form stops submitting either way.
     */
    method FinishSubmit(outcome: FetchOutcome)
      modifies this`formData, this`isSubmitting, this`submitStatus
      ensures !isSubmitting
      ensures outcome == ResponseOk ==> submitStatus == Success && formData == EmptyForm
      ensures outcome != ResponseOk ==> submitStatus == Error && formData == old(formData)
    {
      if outcome == ResponseOk {
        submitStatus := Success;
        formData := EmptyForm;
      } else {
        // a response that is not ok, or an error thrown by fetch
        submitStatus := Error;
      }
      isSubmitting := false;
    }

    /** `handleSubmit` with the way the request ended as a parameter. */
    method HandleSubmit(outcome: FetchOutcome) returns (requestBody: FormData)
      modifies this`formData, this`isSubmitting, this`submitStatus
      ensures requestBody == old(formData)
      ensures !isSubmitting
      ensures outcome == ResponseOk ==> submitStatus == Success && formData == EmptyForm && SubmitDisabled()
      ensures outcome != ResponseOk ==> submitStatus == Error && formData == old(formData)
      ensures outcome != ResponseOk ==> (SubmitDisabled() <==> !Truthy(formData.name))
    {
      requestBody := StartSubmit();
      FinishSubmit(outcome);
    }

    /**
     * A submission the way the button allows it: only when enabled, with
     * the server's answer to the form's own body deciding the outcome.
     */
    method SubmitToServer(headers: Route.Headers, env: Route.Env, clock: Route.Clock,
                          verify: Route.VerifyOutcome, send: Route.SendOutcome)
      returns (response: JsValues.Option<Route.Response>)
      modifies this`formData, this`isSubmitting, this`submitStatus
      ensures old(SubmitDisabled()) ==> response.None? && unchanged(this)
      ensures !old(SubmitDisabled()) ==>
                response == Some(Route.Post(Route.Parsed(AsSubmission(old(formData))), headers, env, clock, verify, send))
      ensures !old(SubmitDisabled()) ==> response.Some? && response.value.status != 400 && !isSubmitting
      ensures !old(SubmitDisabled()) ==>
                (submitStatus == Success <==>
                   Route.SmtpConfigured(env) && verify.Verified? && send.Sent?)
      ensures !old(SubmitDisabled()) ==>
                (submitStatus == Error <==>
                   !(Route.SmtpConfigured(env) && verify.Verified? && send.Sent?))
      ensures !old(SubmitDisabled()) && submitStatus == Error ==>
                formData == old(formData) && response.value.logged == Some(AsSubmission(formData))
      ensures !old(SubmitDisabled()) && submitStatus == Success ==> formData == EmptyForm && SubmitDisabled()
    {
      if SubmitDisabled() {
        return None;
      }
      var r := Route.Post(Route.Parsed(AsSubmission(formData)), headers, env, clock, verify, send);
      var _ := HandleSubmit(OutcomeOf(r));
      response := Some(r);
    }
  }

  /**
   * The client reports success exactly when the server mailed the flags,
   * and an enabled button never meets the server's name check.
   */
  lemma ClientSuccessIffDelivered(d: FormData, headers: Route.Headers, env: Route.Env, clock: Route.Clock,
                                  verify: Route.VerifyOutcome, send: Route.SendOutcome)
    requires Truthy(d.name)
    ensures var r := Route.Post(Route.Parsed(AsSubmission(d)), headers, env, clock, verify, send);
            && r.status != 400
            && (OutcomeOf(r) == ResponseOk <==> Route.SmtpConfigured(env) && verify.Verified? && send.Sent?)
            && (OutcomeOf(r) != ResponseOk ==> r.logged == Some(AsSubmission(d)))
  {
  }
}
