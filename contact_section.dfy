/** The state of the contact section: the three form fields, the submitting
    flag, the pending simulated send and a one-shot visibility flag. The
    delayed completion of the simulated send is its own step. */
module ContactView {
  import opened Wrappers

  datatype Field = NameField | EmailField | MessageField

  /** The contents of the contact form. */
  datatype FormData = FormData(name: string, email: string, message: string) {
    function Get(f: Field): string {
      match f
      case NameField => name
      case EmailField => email
      case MessageField => message
    }

    /** The form after one input changes: that field holds the new value and
        the other two are unchanged. */
    function With(f: Field, value: string): (r: FormData)
      ensures r.Get(f) == value
      ensures forall g :: g != f ==> r.Get(g) == Get(g)
    {
      match f
      case NameField => this.(name := value)
      case EmailField => this.(email := value)
      case MessageField => this.(message := value)
    }
  }

  const EmptyForm: FormData := FormData("", "", "")

  /** The browser's constraint validation of the form: every input is
      required, so none may be empty, and the email input must hold an
      address of valid form, a verdict that is given here as `emailValid`. */
  predicate ConstraintsMet(form: FormData, emailValid: bool) {
    form.name != "" && form.email != "" && form.message != "" && emailValid
  }

  const SentToast: string := "Message sent successfully! I'll get back to you soon."

  class ContactSection {
    var isVisible: bool
    var formData: FormData
    var isSubmitting: bool
    /** Whether the simulated send's completion is scheduled. */
    var sendScheduled: bool

    /** A send is scheduled exactly while the form is submitting. */
    ghost predicate Valid()
      reads this
    {
      sendScheduled == isSubmitting
    }

    /** The state on mount: an empty form, not submitting, not revealed. */
    constructor ()
      ensures Valid()
      ensures !isVisible && formData == EmptyForm && !isSubmitting
    {
      isVisible := false;
      formData := EmptyForm;
      isSubmitting := false;
      sendScheduled := false;
    }

    /** The viewport observer's callback: the flag is raised on the first
        intersection and never lowered. */
    method OnIntersection(isIntersecting: bool)
      modifies this`isVisible
      ensures isVisible == (old(isVisible) || isIntersecting)
      ensures old(isVisible) ==> isVisible
    {
      if isIntersecting {
        isVisible := true;
      }
    }

    /** An input's change event: only the named field takes the new value. */
    method HandleInputChange(f: Field, value: string)
      modifies this`formData
      ensures formData == old(formData).With(f, value)
    {
      formData := formData.With(f, value);
    }

    /** The submit button is disabled while a send is in progress. */
    function SubmitDisabled(): (disabled: bool)
      reads this
      ensures disabled <==> isSubmitting
    {
      isSubmitting
    }

    /** The form's submit handler: marks the form as submitting and schedules
        the simulated send. The form's fields are kept until it completes. */
    method HandleSubmit()
      requires Valid() && !isSubmitting
      modifies this`isSubmitting, this`sendScheduled
      ensures Valid() && isSubmitting
    {
      isSubmitting := true;
      sendScheduled := true;
    }

    /** A press of the submit button: it reaches the handler only when the
        button is enabled and the form passes constraint validation. */
    method PressSubmit(emailValid: bool) returns (fired: bool)
      requires Valid()
      modifies this`isSubmitting, this`sendScheduled
      ensures Valid()
      ensures fired <==> !old(isSubmitting) && ConstraintsMet(formData, emailValid)
      ensures isSubmitting <==> old(isSubmitting) || fired
    {
      fired := !SubmitDisabled() && ConstraintsMet(formData, emailValid);
      if fired {
        HandleSubmit();
      }
    }

    /** The simulated send completes: the success notice is shown, the form
        is cleared and submitting ends. It has no failure outcome. */
    method SendCompleted() returns (toast: string)
      requires Valid() && sendScheduled
      modifies this`formData, this`isSubmitting, this`sendScheduled
      ensures Valid() && !isSubmitting && formData == EmptyForm
      ensures toast == SentToast
    {
      toast := SentToast;
      formData := EmptyForm;
      isSubmitting := false;
      sendScheduled := false;
    }
  }

  /** One submission attempt from a fresh section. A form that passes
      constraint validation is sent: the typed values stay in the form while
      the send is pending, the button is disabled and a second press is
      ignored; once the send completes, the form is empty and enabled again.
      A form that fails validation is not sent and keeps its values. */
  method SubmitCycle(name: string, email: string, message: string, emailValid: bool)
      returns (fired: bool, pending: FormData, disabledWhilePending: bool,
               secondPressFired: bool, toast: Option<string>, after: FormData,
               disabledAfter: bool)
    ensures fired <==> name != "" && email != "" && message != "" && emailValid
    ensures pending == FormData(name, email, message)
    ensures !secondPressFired && !disabledAfter
    ensures fired ==> disabledWhilePending && toast == Some(SentToast) && after == EmptyForm
    ensures !fired ==> !disabledWhilePending && toast == None && after == pending
  {
    var section := new ContactSection();
    section.HandleInputChange(NameField, name);
    section.HandleInputChange(EmailField, email);
    section.HandleInputChange(MessageField, message);
    fired := section.PressSubmit(emailValid);
    pending := section.formData;
    disabledWhilePending := section.SubmitDisabled();
    secondPressFired := section.PressSubmit(emailValid);
    if fired {
      var sent := section.SendCompleted();
      toast := Some(sent);
    } else {
      toast := None;
    }
    after := section.formData;
    disabledAfter := section.SubmitDisabled();
  }
}
