/**
 * The contact form controller of the `App` component: the state it keeps
 * (`formState`, `formData`, `errors`) and the handlers that change it. The
 * `fetch` call and the `setTimeout` callback are events delivered to the
 * controller (`OnResponse`, `OnTimer`); two ghost counters record how many of
 * each are still pending.
 */
module Controller {
  import opened JsText
  import opened EmailPattern
  import opened Form

  datatype Option<T> = None | Some(value: T)

  /** The submission phase shown by the form. */
  datatype FormState = Idle | Loading | Success | Error

  /** How the POST ended: an HTTP response with its status, or a thrown error. */
  datatype Outcome = Response(status: int) | Thrown

  /** `response.ok` of the Fetch standard: a status in the range 200 to 299. */
  predicate IsOk(o: Outcome)
  {
    o.Response? && 200 <= o.status <= 299
  }

  class ContactForm {
    var formState: FormState
    var formData: FormData
    var errors: Errors
    /** Requests sent and not yet answered. */
    ghost var inFlight: nat
    /** Reset timers armed and not yet fired. */
    ghost var timers: nat

    /**
     * A loading form has a request outstanding, and a success or error banner
     * has a timer armed that will set the form back to idle.
     */
    ghost predicate Valid()
      reads this
    {
      && (formState == Loading ==> inFlight > 0)
      && (formState == Success || formState == Error ==> timers > 0)
    }

    /** The component's initial state. */
    constructor ()
      ensures Valid()
      ensures formState == Idle && formData == EmptyForm && errors == map[]
      ensures inFlight == 0 && timers == 0
    {
      formState := Idle;
      formData := EmptyForm;
      errors := map[];
      inFlight := 0;
      timers := 0;
    }

    /**
     * `validateForm`: replaces the stored errors wholesale by those of the
     * current form, and reports whether there are none.
     */
    method ValidateForm() returns (ok: bool)
      modifies this`errors
      ensures errors == Validate(formData)
      ensures ok <==> errors == map[]
      ensures ok <==> IsComplete(formData)
    {
      var newErrors := Validate(formData);
      errors := newErrors;
      ok := |newErrors| == 0;
      ValidateEmptyIffComplete(formData);
    }

    /**
     * `handleSubmit` up to the request: an incomplete form only shows its
     * errors; a complete one goes to loading and sends its five fields.
     */
    method Submit() returns (request: Option<FormData>)
      requires Valid()
      modifies this
      ensures Valid()
      ensures errors == Validate(old(formData))
      ensures formData == old(formData) && timers == old(timers)
      ensures request.Some? <==> IsComplete(old(formData))
      ensures request.Some? ==> request.value == old(formData)
      ensures request.None? ==> formState == old(formState) && inFlight == old(inFlight)
      ensures request.Some? ==> formState == Loading && inFlight == old(inFlight) + 1
    {
      var ok := ValidateForm();
      if !ok {
        return None;
      }
      formState := Loading;
      inFlight := inFlight + 1;
      request := Some(formData);
    }

    /**
     * The rest of `handleSubmit`, once the request settles: an ok response
     * shows success and empties the form, anything else shows the error
     * banner and keeps the form; either way a reset timer is armed.
     */
    method OnResponse(outcome: Outcome)
      requires Valid() && inFlight > 0
      modifies this
      ensures Valid()
      ensures inFlight == old(inFlight) - 1 && timers == old(timers) + 1
      ensures errors == old(errors)
      ensures IsOk(outcome) ==> formState == Success && formData == EmptyForm
      ensures !IsOk(outcome) ==> formState == Error && formData == old(formData)
    {
      inFlight := inFlight - 1;
      if outcome.Response? && 200 <= outcome.status <= 299 {
        formState := Success;
        formData := EmptyForm;
      } else {
        formState := Error;
      }
      timers := timers + 1;
    }

    /** A reset timer fires: the form goes back to idle and nothing else changes. */
    method OnTimer()
      requires Valid() && timers > 0
      modifies this
      ensures Valid()
      ensures formState == Idle && timers == old(timers) - 1
      ensures formData == old(formData) && errors == old(errors) && inFlight == old(inFlight)
    {
      formState := Idle;
      timers := timers - 1;
    }

    /**
     * `handleInputChange(f, v)`: field `f` takes the value `v`, and a shown
     * error on `f` is blanked; nothing else changes.
     */
    method Edit(f: Field, v: string)
      modifies this`formData, this`errors
      ensures formData == old(formData).With(f, v)
      ensures errors == ClearError(old(errors), f)
    {
      formData := formData.With(f, v);
      if f in errors && errors[f] != "" {
        errors := errors[f := ""];
      }
    }
  }

  /** Types the five fields of `d` into `c`, one edit per field. */
  method Fill(c: ContactForm, d: FormData)
    modifies c`formData, c`errors
    ensures c.formData == d
  {
    c.Edit(FirstName, d.firstName);
    c.Edit(LastName, d.lastName);
    c.Edit(Email, d.email);
    c.Edit(Company, d.company);
    c.Edit(Message, d.message);
  }

  /**
   * A complete form submitted against an endpoint answering with a 2xx
   * status: loading, then success with every field emptied, then idle once the
   * timer fires.
   */
  method SuccessfulSubmission(d: FormData, status: int)
    returns (sent: Option<FormData>, afterSubmit: FormState, afterResponse: FormState,
             dataAfterResponse: FormData, afterTimer: FormState)
    requires IsComplete(d) && 200 <= status <= 299
    ensures sent == Some(d)
    ensures afterSubmit == Loading && afterResponse == Success && afterTimer == Idle
    ensures dataAfterResponse == EmptyForm
  {
    var c := new ContactForm();
    Fill(c, d);
    sent := c.Submit();
    afterSubmit := c.formState;
    c.OnResponse(Response(status));
    afterResponse, dataAfterResponse := c.formState, c.formData;
    c.OnTimer();
    afterTimer := c.formState;
  }

  /**
   * A complete form against an endpoint that answers with any other status,
   * or whose request throws: the error banner, the fields kept, then idle once
   * the timer fires.
   */
  method FailedSubmission(d: FormData, outcome: Outcome)
    returns (sent: Option<FormData>, afterResponse: FormState, dataAfterResponse: FormData,
             afterTimer: FormState)
    requires IsComplete(d) && !IsOk(outcome)
    ensures sent == Some(d)
    ensures afterResponse == Error && afterTimer == Idle
    ensures dataAfterResponse == d
  {
    var c := new ContactForm();
    Fill(c, d);
    sent := c.Submit();
    c.OnResponse(outcome);
    afterResponse, dataAfterResponse := c.formState, c.formData;
    c.OnTimer();
    afterTimer := c.formState;
  }

  /**
   * An incomplete form: no request, the form stays idle, and the errors shown
   * are exactly those `Validate` gives.
   */
  method RejectedSubmission(d: FormData) returns (sent: Option<FormData>, state: FormState, errs: Errors)
    requires !IsComplete(d)
    ensures sent == None && state == Idle
    ensures errs == Validate(d) && errs != map[]
  {
    var c := new ContactForm();
    Fill(c, d);
    sent := c.Submit();
    state, errs := c.formState, c.errors;
    ValidateEmptyIffComplete(d);
  }

  /**
   * Resubmitting while the error banner's timer is still armed (the submit
   * button is only disabled while loading): the earlier timer fires during the
   * new request and sets the form back to idle with that request outstanding.
   */
  method ResubmitBeforeReset(d: FormData, first: Outcome)
    returns (afterResubmit: FormState, afterOldTimer: FormState, ghost outstanding: nat)
    requires IsComplete(d) && !IsOk(first)
    ensures afterResubmit == Loading && afterOldTimer == Idle && outstanding == 1
  {
    var c := new ContactForm();
    Fill(c, d);
    var sent := c.Submit();
    c.OnResponse(first);
    sent := c.Submit();
    afterResubmit := c.formState;
    c.OnTimer();
    afterOldTimer, outstanding := c.formState, c.inFlight;
  }
}
