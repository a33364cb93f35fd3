/** The contact form (`src/app/contact/page.tsx`): five controlled fields, a simulated
    submission that completes when a 1500 ms timer fires, and a success panel that replaces
    the form until "Send Another Message" is clicked. */
module ContactPage {

  /** The `name` attributes of the form controls. */
  datatype Field = Name | Email | Phone | Service | Message

  datatype FormData = FormData(name: string, email: string, phone: string, service: string, message: string)

  const EmptyForm := FormData("", "", "", "", "")

  /** The value the control named `field` shows. */
  function Get(f: FormData, field: Field): string {
    match field
    case Name => f.name
    case Email => f.email
    case Phone => f.phone
    case Service => f.service
    case Message => f.message
  }

  /** `handleChange`: `{ ...prev, [name]: value }`, the one named field replaced. */
  function UpdateField(f: FormData, field: Field, value: string): (r: FormData)
    ensures Get(r, field) == value
    ensures forall other :: other != field ==> Get(r, other) == Get(f, other)
  {
    match field
    case Name => f.(name := value)
    case Email => f.(email := value)
    case Phone => f.(phone := value)
    case Service => f.(service := value)
    case Message => f.(message := value)
  }

  /** Two form values that show the same in every control are the same value. */
  lemma FormExtensionality(f: FormData, g: FormData)
    requires forall field :: Get(f, field) == Get(g, field)
    ensures f == g
  {
    assert Get(f, Name) == Get(g, Name) && Get(f, Email) == Get(g, Email);
    assert Get(f, Phone) == Get(g, Phone) && Get(f, Service) == Get(g, Service);
    assert Get(f, Message) == Get(g, Message);
  }

  /** A later change of the same control overrides an earlier one. */
  lemma LastChangeWins(f: FormData, field: Field, v: string, w: string)
    ensures UpdateField(UpdateField(f, field, v), field, w) == UpdateField(f, field, w)
  {
    FormExtensionality(UpdateField(UpdateField(f, field, v), field, w), UpdateField(f, field, w));
  }

  /** Changes of different controls commute. */
  lemma ChangesCommute(f: FormData, a: Field, v: string, b: Field, w: string)
    requires a != b
    ensures UpdateField(UpdateField(f, a, v), b, w) == UpdateField(UpdateField(f, b, w), a, v)
  {
    FormExtensionality(UpdateField(UpdateField(f, a, v), b, w), UpdateField(UpdateField(f, b, w), a, v));
  }

  /** Setting a control to the value it shows changes nothing. */
  lemma ChangeToSameValue(f: FormData, field: Field)
    ensures UpdateField(f, field, Get(f, field)) == f
  {
    FormExtensionality(UpdateField(f, field, Get(f, field)), f);
  }

  /** The `required` controls are the name, the email and the message. */
  predicate IsRequired(field: Field) {
    field == Name || field == Email || field == Message
  }

  /** Constraint validation lets the form submit only with every required control filled. */
  predicate RequiredFilled(f: FormData) {
    forall field :: IsRequired(field) ==> Get(f, field) != ""
  }

  /** Filling the optional controls never decides whether the form may be submitted. */
  lemma OptionalFieldsIrrelevant(f: FormData, field: Field, value: string)
    requires !IsRequired(field)
    ensures RequiredFilled(UpdateField(f, field, value)) <==> RequiredFilled(f)
  {
    assert Get(UpdateField(f, field, value), Name) == f.name;
    assert Get(UpdateField(f, field, value), Email) == f.email;
    assert Get(UpdateField(f, field, value), Message) == f.message;
  }

  class ContactForm {
    var formData: FormData
    var isSubmitting: bool
    var submitSuccess: bool
    /** Submission timers scheduled and not yet fired. */
    var pendingTimers: nat

    /** One timer is pending exactly while submitting, and the form is never sending and
        sent at once. */
    predicate Valid()
      reads this
    {
      (isSubmitting <==> pendingTimers == 1) && pendingTimers <= 1 &&
      !(isSubmitting && submitSuccess)
    }

    /** The form, rather than the success panel, is on the page. */
    predicate FormShown()
      reads this
    {
      !submitSuccess
    }

    constructor ()
      ensures Valid() && FormShown()
      ensures formData == EmptyForm && !isSubmitting && !submitSuccess && pendingTimers == 0
    {
      formData := EmptyForm;
      isSubmitting := false;
      submitSuccess := false;
      pendingTimers := 0;
    }

    /** `handleChange`, from a control of the form; there is none while the success panel shows. */
    method HandleChange(field: Field, value: string) returns (accepted: bool)
      requires Valid()
      modifies this`formData
      ensures Valid()
      ensures accepted <==> FormShown()
      ensures formData == (if accepted then UpdateField(old(formData), field, value) else old(formData))
    {
      accepted := FormShown();
      if accepted {
        formData := UpdateField(formData, field, value);
      }
    }

    /** `handleSubmit`: the browser submits only a validated form whose submit button is
        enabled; the handler marks the form as submitting and schedules the timer. The data
        is kept. */
    method HandleSubmit() returns (accepted: bool)
      requires Valid()
      modifies this`isSubmitting, this`pendingTimers
      ensures Valid()
      ensures accepted <==> FormShown() && !old(isSubmitting) && RequiredFilled(formData)
      ensures accepted ==> isSubmitting && pendingTimers == 1
      ensures !accepted ==> isSubmitting == old(isSubmitting) && pendingTimers == old(pendingTimers)
    {
      accepted := FormShown() && !isSubmitting && RequiredFilled(formData);
      if accepted {
        isSubmitting := true;
        pendingTimers := pendingTimers + 1;
      }
    }

    /** The submission timer fires: success, and no longer submitting. */
    method TimerFires() returns (fired: bool)
      requires Valid()
      modifies this`isSubmitting, this`submitSuccess, this`pendingTimers
      ensures Valid()
      ensures fired <==> old(pendingTimers) == 1
      ensures fired ==> submitSuccess && !isSubmitting && pendingTimers == 0 && !FormShown()
      ensures !fired ==>
        isSubmitting == old(isSubmitting) && submitSuccess == old(submitSuccess) &&
        pendingTimers == old(pendingTimers)
    {
      fired := pendingTimers == 1;
      if fired {
        submitSuccess := true;
        isSubmitting := false;
        pendingTimers := pendingTimers - 1;
      }
    }

    /** "Send Another Message" on the success panel brings back the form, still holding the
        values just sent. */
    method SendAnother() returns (accepted: bool)
      requires Valid()
      modifies this`submitSuccess
      ensures Valid()
      ensures accepted <==> old(submitSuccess)
      ensures !submitSuccess && FormShown()
    {
      accepted := submitSuccess;
      submitSuccess := false;
    }
  }

  /** A filled form goes through the whole cycle: submitting, then sent, then the form again
      with the same data. */
  method SubmitCycle(f: FormData) returns (c: ContactForm)
    requires RequiredFilled(f)
    ensures c.Valid() && c.FormShown() && !c.isSubmitting && c.formData == f
  {
    c := new ContactForm();
    var ok := c.HandleChange(Name, f.name);
    ok := c.HandleChange(Email, f.email);
    ok := c.HandleChange(Phone, f.phone);
    ok := c.HandleChange(Service, f.service);
    ok := c.HandleChange(Message, f.message);
    var submitted := c.HandleSubmit();
    assert submitted;
    var fired := c.TimerFires();
    assert fired && !c.FormShown();
    var again := c.SendAnother();
    assert again;
  }
}
