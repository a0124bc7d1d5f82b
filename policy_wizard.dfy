/**
 * The four-step policy wizard shared by `NewPolicy` and `EditPolicy`: the
 * step machine over `currentStep`, the touching validation of each step,
 * the submit gate, and, in edit mode, loading and back-filling a policy.
 *
 * The HTTP calls are returned as `Request` values; their callbacks are
 * methods taking the server's answer as parameters.
 */
module PolicyWizard {
  import opened Wrappers
  import opened PolicyForm

  /** `NewPolicy` creates a policy, `EditPolicy` updates one. */
  datatype Mode = Create | Edit

  datatype Request =
    | CreatePolicy(body: map<ControlId, FieldValue>)
    | UpdatePolicy(policyNumber: string, body: map<ControlId, FieldValue>)
    | GetPolicy(policyNumber: string)

  /** A navigation scheduled with `setTimeout`. */
  datatype Redirect = Redirect(route: string, delayMs: int)

  const InvalidFormMessage: string := "Please fill all required fields correctly."
  const LoadFailedMessage: string := "Failed to load policy data."
  const RedirectDelayMs: int := 2000

  function SuccessMessage(mode: Mode): string {
    if mode == Create then "Policy created successfully!" else "Policy updated successfully!"
  }

  function FailureMessage(mode: Mode): string {
    if mode == Create then "Failed to create policy. Please try again." else "Failed to update policy. Please try again."
  }

  function RouteAfterSave(mode: Mode): string {
    if mode == Create then "/home" else "/policy/list"
  }

  class Wizard {
    const mode: Mode
    /** `Validators.email`'s verdict on a non-empty string. */
    const emailOk: string -> bool
    var values: map<ControlId, FieldValue>
    var touched: set<ControlId>
    var currentStep: int
    var isSubmitting: bool
    var submitMessage: string
    var submitSuccess: bool
    var isLoading: bool
    var policyNumber: string

    /** The form holds exactly the controls `initializeForm` creates. */
    ghost predicate Valid()
      reads this
    {
      values.Keys == AllControls
    }

    /** The field initialisers and `initializeForm`. */
    constructor(mode: Mode, emailOk: string -> bool)
      ensures Valid()
      ensures this.mode == mode && this.emailOk == emailOk
      ensures values == InitialValues() && touched == {} && currentStep == 1
      ensures !isSubmitting && submitMessage == "" && !submitSuccess && isLoading && policyNumber == ""
    {
      this.mode := mode;
      this.emailOk := emailOk;
      values := InitialValues();
      touched := {};
      currentStep := 1;
      isSubmitting := false;
      submitMessage := "";
      submitSuccess := false;
      isLoading := true;
      policyNumber := "";
    }

    /**
     * `markControlsAsTouched`: touches every listed control the form holds,
     * without stopping at the first invalid one, and answers whether none of
     * them is invalid.
     */
    method MarkControlsAsTouched(ids: seq<ControlId>) returns (isValid: bool)
      modifies this`touched
      ensures touched == old(touched) + Existing(ids, values)
      ensures isValid == GroupValid(ids, values, emailOk)
    {
      isValid := true;
      for k := 0 to |ids|
        invariant touched == old(touched) + Existing(ids[..k], values)
        invariant isValid == GroupValid(ids[..k], values, emailOk)
      {
        assert ids[..k + 1] == ids[..k] + [ids[k]];
        var id := ids[k];
        if id in values {
          touched := touched + {id};
          if !ControlValid(id, values[id], emailOk) {
            isValid := false;
          }
        }
      }
      assert ids[..|ids|] == ids;
    }

    /** `validatePolicyDetails`. */
    method ValidatePolicyDetails() returns (ok: bool)
      modifies this`touched
      ensures ok == StepValid(1, values, emailOk)
      ensures touched == old(touched) + StepTouches(1, values, emailOk)
    {
      ok := MarkControlsAsTouched(PolicyStepControls);
    }

    /** `validatePolicyHolderDetails`: the address controls are reached only when the holder controls pass. */
    method ValidatePolicyHolderDetails() returns (ok: bool)
      modifies this`touched
      ensures ok == StepValid(2, values, emailOk)
      ensures touched == old(touched) + StepTouches(2, values, emailOk)
    {
      ok := MarkControlsAsTouched(HolderStepControls);
      if ok {
        ok := MarkControlsAsTouched(AddressStepControls);
      }
    }

    /** `validateNomineeDetails`. */
    method ValidateNomineeDetails() returns (ok: bool)
      modifies this`touched
      ensures ok == StepValid(3, values, emailOk)
      ensures touched == old(touched) + StepTouches(3, values, emailOk)
    {
      ok := MarkControlsAsTouched(NomineeStepControls);
    }

    /** `validateAgentDetails`. */
    method ValidateAgentDetails() returns (ok: bool)
      modifies this`touched
      ensures ok == StepValid(4, values, emailOk)
      ensures touched == old(touched) + StepTouches(4, values, emailOk)
    {
      ok := MarkControlsAsTouched(AgentStepControls);
    }

    /** `validateCurrentStep`: a step outside 1..4 passes and touches nothing. */
    method ValidateCurrentStep() returns (ok: bool)
      modifies this`touched
      ensures ok == StepValid(currentStep, values, emailOk)
      ensures touched == old(touched) + StepTouches(currentStep, values, emailOk)
    {
      if currentStep == 1 {
        ok := ValidatePolicyDetails();
      } else if currentStep == 2 {
        ok := ValidatePolicyHolderDetails();
      } else if currentStep == 3 {
        ok := ValidateNomineeDetails();
      } else if currentStep == 4 {
        ok := ValidateAgentDetails();
      } else {
        ok := true;
      }
    }

    /**
     * `validateStepsUpTo`: validates steps 1..step in order, moving
     * `currentStep` along, and stops at the first failing step, which is
     * where `currentStep` is left.
     */
    method ValidateStepsUpTo(step: int) returns (ok: bool)
      modifies this`touched, this`currentStep
      ensures ok <==> FirstFailing(values, emailOk, step).None?
      ensures !ok ==> currentStep == FirstFailing(values, emailOk, step).value
      ensures ok ==> currentStep == (if step >= 1 then step else old(currentStep))
      ensures touched == old(touched) + TouchedUpTo(values, emailOk, if ok then step else currentStep)
    {
      var i := 1;
      while i <= step
        invariant 1 <= i && (i <= step + 1 || i == 1)
        invariant FirstFailing(values, emailOk, i - 1).None?
        invariant currentStep == if i == 1 then old(currentStep) else i - 1
        invariant touched == old(touched) + TouchedUpTo(values, emailOk, i - 1)
        decreases step - i
      {
        currentStep := i;
        var valid := ValidateCurrentStep();
        if !valid {
          return false;
        }
        i := i + 1;
      }
      return true;
    }

    /** `nextStep`: one step on when the current step passes and is not the last. */
    method NextStep()
      modifies this`touched, this`currentStep
      ensures currentStep ==
                if StepValid(old(currentStep), values, emailOk) && old(currentStep) < TotalSteps
                then old(currentStep) + 1 else old(currentStep)
      ensures touched == old(touched) + StepTouches(old(currentStep), values, emailOk)
      ensures old(currentStep) <= TotalSteps ==> currentStep <= TotalSteps
    {
      var valid := ValidateCurrentStep();
      if valid {
        if currentStep < TotalSteps {
          currentStep := currentStep + 1;
        }
      }
    }

    /** `prevStep`: one step back, never below step 1, without validating. */
    method PrevStep()
      modifies this`currentStep
      ensures currentStep == if old(currentStep) > 1 then old(currentStep) - 1 else old(currentStep)
      ensures old(currentStep) >= 1 ==> currentStep >= 1
    {
      if currentStep > 1 {
        currentStep := currentStep - 1;
      }
    }

    /**
     * `goToStep`: a move back (or to the same step) is unconditional; a move
     * forward validates the steps before the target and, when one fails,
     * stays at the first failing step.
     */
    method GoToStep(step: int)
      modifies this`touched, this`currentStep
      ensures step <= old(currentStep) ==> currentStep == step && touched == old(touched)
      ensures step > old(currentStep) && FirstFailing(values, emailOk, step - 1).None? ==>
                currentStep == step && touched == old(touched) + TouchedUpTo(values, emailOk, step - 1)
      ensures step > old(currentStep) && FirstFailing(values, emailOk, step - 1).Some? ==>
                currentStep == FirstFailing(values, emailOk, step - 1).value
                && touched == old(touched) + TouchedUpTo(values, emailOk, currentStep)
      ensures 1 <= step <= TotalSteps && 1 <= old(currentStep) ==> 1 <= currentStep <= TotalSteps
    {
      if step <= currentStep {
        currentStep := step;
      } else {
        var ok := ValidateStepsUpTo(step - 1);
        if ok {
          currentStep := step;
        }
      }
    }

    /** The request a valid submit sends: the whole form, as a create or, when editing, an update of the route's policy. */
    function SaveRequest(): (r: Request)
      reads this
      ensures r.CreatePolicy? <==> mode == Create
      ensures (r.CreatePolicy? || r.UpdatePolicy?) && r.body == values
      ensures r.UpdatePolicy? ==> r.policyNumber == policyNumber
    {
      if mode == Create then CreatePolicy(values) else UpdatePolicy(policyNumber, values)
    }

    /**
     * `onSubmit`: sends the form only when all of it is valid; otherwise it
     * touches every control and shows the fixed message.
     */
    method OnSubmit() returns (req: Option<Request>)
      modifies this`isSubmitting, this`touched, this`submitMessage, this`submitSuccess
      ensures FormValid(values, emailOk) ==>
                req == Some(SaveRequest()) && isSubmitting
                && touched == old(touched) && submitMessage == old(submitMessage) && submitSuccess == old(submitSuccess)
      ensures !FormValid(values, emailOk) ==>
                req == None && isSubmitting == old(isSubmitting)
                && touched == old(touched) + values.Keys && submitMessage == InvalidFormMessage && !submitSuccess
    {
      if FormValid(values, emailOk) {
        isSubmitting := true;
        req := Some(SaveRequest());
      } else {
        touched := touched + values.Keys;
        submitMessage := InvalidFormMessage;
        submitSuccess := false;
        req := None;
      }
    }

    /** The success callback of the save: the server's message or the default, then a redirect after 2 s. */
    method OnSubmitSucceeded(responseMessage: string) returns (redirect: Redirect)
      modifies this`isSubmitting, this`submitSuccess, this`submitMessage
      ensures !isSubmitting && submitSuccess
      ensures submitMessage == if responseMessage != "" then responseMessage else SuccessMessage(mode)
      ensures redirect == Redirect(RouteAfterSave(mode), RedirectDelayMs)
    {
      isSubmitting := false;
      submitSuccess := true;
      submitMessage := if responseMessage != "" then responseMessage else SuccessMessage(mode);
      redirect := Redirect(RouteAfterSave(mode), RedirectDelayMs);
    }

    /** The failure callback of the save: the server's message or the default. */
    method OnSubmitFailed(errorMessage: string)
      modifies this`isSubmitting, this`submitSuccess, this`submitMessage
      ensures !isSubmitting && !submitSuccess
      ensures submitMessage == if errorMessage != "" then errorMessage else FailureMessage(mode)
    {
      isSubmitting := false;
      submitSuccess := false;
      submitMessage := if errorMessage != "" then errorMessage else FailureMessage(mode);
    }

    /**
     * `ngOnInit`: a fresh form; in edit mode the policy number comes from the
     * route (`''` when absent) and is loaded only when non-empty.
     */
    method Init(routePolicyNumber: string) returns (req: Option<Request>)
      modifies this`values, this`touched, this`policyNumber, this`isLoading
      ensures Valid() && values == InitialValues() && touched == {}
      ensures mode == Create ==> req == None && policyNumber == old(policyNumber) && isLoading == old(isLoading)
      ensures mode == Edit ==> policyNumber == routePolicyNumber
      ensures mode == Edit && routePolicyNumber != "" ==> req == Some(GetPolicy(routePolicyNumber)) && isLoading
      ensures mode == Edit && routePolicyNumber == "" ==> req == None && isLoading == old(isLoading)
    {
      values := InitialValues();
      touched := {};
      req := None;
      if mode == Edit {
        policyNumber := routePolicyNumber;
        if policyNumber != "" {
          isLoading := true;
          req := Some(GetPolicy(policyNumber));
        }
      }
    }

    /** The success callback of the load: `populateForm` back-fills every control. */
    method OnPolicyLoaded(record: map<ControlId, FieldValue>)
      modifies this`values, this`isLoading
      ensures Valid() && values == Backfill(record) && !isLoading
    {
      values := Backfill(record);
      isLoading := false;
    }

    /** The failure callback of the load. */
    method OnPolicyLoadFailed()
      modifies this`submitMessage, this`submitSuccess, this`isLoading
      ensures submitMessage == LoadFailedMessage && !submitSuccess && !isLoading
    {
      submitMessage := LoadFailedMessage;
      submitSuccess := false;
      isLoading := false;
    }

    /** `calculateEndDate`: patches the end date when `EndDatePatch` yields one; nothing else changes. */
    method CalculateEndDate()
      requires Valid()
      modifies this`values
      ensures Valid()
      ensures EndDatePatch(old(values)).Some? ==>
                values == old(values)[EndDateControl := Str(EndDatePatch(old(values)).value)]
      ensures EndDatePatch(old(values)).None? ==> values == old(values)
    {
      var patch := EndDatePatch(values);
      if patch.Some? {
        values := values[EndDateControl := Str(patch.value)];
      }
    }
  }
}
