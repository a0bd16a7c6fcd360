/**
 * The contact form: four text fields, a simulated submission that takes
 * two seconds, a success message that clears the form after three more,
 * and inputs whose floating label rises when focused or filled.
 */
module ContactModel {

  /** The names of the form's inputs. */
  datatype Field = Name | Email | Subject | Message

  /** `formData`. */
  datatype FormData = FormData(name: string, email: string, subject: string, message: string)

  const EmptyForm: FormData := FormData("", "", "", "")

  /** The value of one field. */
  function Get(f: FormData, field: Field): string {
    match field
    case Name => f.name
    case Email => f.email
    case Subject => f.subject
    case Message => f.message
  }

  /** `handleChange`: a copy of the form with one field replaced. */
  function WithField(f: FormData, field: Field, value: string): (r: FormData)
    ensures Get(r, field) == value
    ensures forall other :: other != field ==> Get(r, other) == Get(f, other)
  {
    match field
    case Name => f.(name := value)
    case Email => f.(email := value)
    case Subject => f.(subject := value)
    case Message => f.(message := value)
  }

  /** Setting a field to the value it already has changes nothing, and a
   *  later change to the same field overrides an earlier one. */
  lemma WithFieldLaws(f: FormData, field: Field, v: string, w: string)
    ensures WithField(f, field, Get(f, field)) == f
    ensures WithField(WithField(f, field, v), field, w) == WithField(f, field, w)
  {
  }

  /** The button's label. */
  function ButtonLabel(isSubmitting: bool, isSuccess: bool): (caption: string)
    ensures isSubmitting ==> caption == "Sending..."
    ensures !isSubmitting && isSuccess ==> caption == "Message Sent!"
    ensures !isSubmitting && !isSuccess ==> caption == "Send Message"
  {
    if isSubmitting then "Sending..."
    else if isSuccess then "Message Sent!"
    else "Send Message"
  }

  /** Whether the submit button is disabled. */
  predicate ButtonDisabled(isSubmitting: bool, isSuccess: bool) {
    isSubmitting || isSuccess
  }

  /**
   * The browser's constraint validation, which runs before `onSubmit`: each
   * of the four controls is `required`, so none may be empty, and the email
   * control has `type="email"`. Whether a string is an email address is the
   * browser's judgement, passed in as `isEmailAddress`.
   */
  predicate PassesValidation(f: FormData, isEmailAddress: string -> bool) {
    && f.name != "" && f.email != "" && f.subject != "" && f.message != ""
    && isEmailAddress(f.email)
  }

  /** The three submission phases the flags stand for. */
  datatype Phase = Idle | Submitting | Succeeded

  /** In each phase the button reads differently and is disabled exactly
   *  when it does not offer to send. */
  lemma LabelDisabledAgree(isSubmitting: bool, isSuccess: bool)
    ensures ButtonDisabled(isSubmitting, isSuccess) <==> ButtonLabel(isSubmitting, isSuccess) != "Send Message"
  {
  }

  /** The contact section's state and its pending timers. */
  class ContactForm {
    var formData: FormData
    var isSubmitting: bool
    var isSuccess: bool
    /** The two-second submission timer is pending. */
    var submitPending: bool
    /** The three-second reset timer is pending. */
    var resetPending: bool

    /** The flags never both hold, and each phase has exactly its own timer. */
    ghost predicate Valid()
      reads this
    {
      && !(isSubmitting && isSuccess)
      && submitPending == isSubmitting
      && resetPending == isSuccess
    }

    function CurrentPhase(): Phase
      reads this
    {
      if isSubmitting then Submitting else if isSuccess then Succeeded else Idle
    }

    constructor ()
      ensures Valid()
      ensures formData == EmptyForm && !isSubmitting && !isSuccess
      ensures CurrentPhase() == Idle
    {
      formData := EmptyForm;
      isSubmitting := false;
      isSuccess := false;
      submitPending := false;
      resetPending := false;
    }

    /** `handleChange` on one input. */
    method Change(field: Field, value: string)
      requires Valid()
      modifies this
      ensures Valid()
      ensures formData == WithField(old(formData), field, value)
      ensures isSubmitting == old(isSubmitting) && isSuccess == old(isSuccess)
      ensures submitPending == old(submitPending) && resetPending == old(resetPending)
    {
      formData := WithField(formData, field, value);
    }

    /**
     * The user asks to submit. The browser does not submit through a
     * disabled button, and it withholds the submit event while a control
     * fails validation, so `handleSubmit` runs, and `accepted` is true,
     * exactly when the phase is `Idle` and the form passes validation.
     */
    method Submit(isEmailAddress: string -> bool) returns (accepted: bool)
      requires Valid()
      modifies this
      ensures Valid()
      ensures accepted <==> !ButtonDisabled(old(isSubmitting), old(isSuccess)) && PassesValidation(formData, isEmailAddress)
      ensures accepted <==> old(CurrentPhase()) == Idle && PassesValidation(formData, isEmailAddress)
      ensures accepted ==> CurrentPhase() == Submitting && isSubmitting && submitPending
      ensures !accepted ==> isSubmitting == old(isSubmitting) && submitPending == old(submitPending)
      ensures formData == old(formData) && isSuccess == old(isSuccess) && resetPending == old(resetPending)
    {
      accepted := !ButtonDisabled(isSubmitting, isSuccess) && PassesValidation(formData, isEmailAddress);
      if accepted {
        isSubmitting := true;
        submitPending := true;
      }
    }

    /** The two-second wait ends: submission succeeds and the reset timer starts. */
    method SubmissionCompletes()
      requires Valid() && submitPending
      modifies this
      ensures Valid()
      ensures old(CurrentPhase()) == Submitting && CurrentPhase() == Succeeded
      ensures !isSubmitting && isSuccess && resetPending && !submitPending
      ensures formData == old(formData)
    {
      isSubmitting := false;
      submitPending := false;
      isSuccess := true;
      resetPending := true;
    }

    /** The reset timer fires: back to `Idle` with every field empty. */
    method ResetFires()
      requires Valid() && resetPending
      modifies this
      ensures Valid()
      ensures old(CurrentPhase()) == Succeeded && CurrentPhase() == Idle
      ensures !isSuccess && !isSubmitting && !resetPending && !submitPending
      ensures formData == EmptyForm
    {
      isSuccess := false;
      resetPending := false;
      formData := EmptyForm;
    }

    /** What the submit button shows. */
    function Button(): (r: (string, bool))
      requires Valid()
      reads this
      ensures r.1 <==> CurrentPhase() != Idle
      ensures r.0 == match CurrentPhase()
        case Idle => "Send Message"
        case Submitting => "Sending..."
        case Succeeded => "Message Sent!"
    {
      (ButtonLabel(isSubmitting, isSuccess), ButtonDisabled(isSubmitting, isSuccess))
    }
  }

  /**
   * Submitting a freshly mounted form does nothing: its fields are empty,
   * so the browser reports them as missing instead of submitting.
   */
  method EmptyFormIsNotSubmitted(isEmailAddress: string -> bool) returns (accepted: bool, phase: Phase)
    ensures !accepted && phase == Idle
  {
    var form := new ContactForm();
    accepted := form.Submit(isEmailAddress);
    phase := form.CurrentPhase();
  }

  /** The two kinds of floating-label control. */
  datatype Control = Input | Textarea

  /** The label's animation target: vertical offset, scale and colour. */
  datatype LabelPose = LabelPose(y: int, scale: real, color: string)

  /** The label is raised exactly when the control is focused or holds text. */
  predicate Raised(isFocused: bool, hasValue: bool) {
    isFocused || hasValue
  }

  function LabelTarget(control: Control, isFocused: bool, hasValue: bool): (p: LabelPose)
    ensures Raised(isFocused, hasValue) <==> p.y == -8
    ensures Raised(isFocused, hasValue) <==> p.scale == 0.85
    ensures !Raised(isFocused, hasValue) ==> p.scale == 1.0 && p.y == (if control == Input then 8 else 20)
    ensures p.color == (if isFocused then "#a855f7" else "#64748b")
  {
    var raised := isFocused || hasValue;
    LabelPose(
      if raised then -8 else if control == Input then 8 else 20,
      if raised then 0.85 else 1.0,
      if isFocused then "#a855f7" else "#64748b")
  }

  /** One floating-label input or textarea. */
  class FloatingLabel {
    const control: Control
    var value: string
    var isFocused: bool
    var hasValue: bool

    /** After the value effect has run, `hasValue` reflects the value. */
    ghost predicate Valid()
      reads this
    {
      hasValue == (|value| > 0)
    }

    /** Mounting with a value; the effect runs after the first render. */
    constructor (control: Control, value: string)
      ensures Valid() && this.control == control && this.value == value && !isFocused
    {
      this.control := control;
      this.value := value;
      isFocused := false;
      hasValue := |value| > 0;
    }

    method Focus()
      requires Valid()
      modifies this
      ensures Valid() && isFocused && value == old(value)
      ensures Target().y == -8
    {
      isFocused := true;
    }

    method Blur()
      requires Valid()
      modifies this
      ensures Valid() && !isFocused && value == old(value)
      ensures Target().y == -8 <==> |value| > 0
    {
      isFocused := false;
    }

    /** A new `value` prop, followed by the effect that recomputes `hasValue`. */
    method ValueChanged(v: string)
      modifies this
      ensures Valid() && value == v && isFocused == old(isFocused)
      ensures Target().y == -8 <==> isFocused || |v| > 0
    {
      value := v;
      hasValue := |value| > 0;
    }

    function Target(): LabelPose
      reads this
    {
      LabelTarget(control, isFocused, hasValue)
    }
  }
}
