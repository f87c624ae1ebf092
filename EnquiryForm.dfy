/** The enquiry dialog: six form fields and a simulated submission that goes
    idle -> submitting -> submitted -> closed through two chained timers. The
    timer callbacks are events here; the delays are not modelled. */
module EnquiryForm {

  datatype Field = Name | Email | Phone | EventType | EventDate | Message

  datatype FormData = FormData(
    name: string,
    email: string,
    phone: string,
    eventType: string,
    eventDate: string,
    message: string)

  const EmptyForm := FormData("", "", "", "", "", "")

  /** The value of one field. */
  function Get(f: FormData, k: Field): string
  {
    match k
    case Name => f.name
    case Email => f.email
    case Phone => f.phone
    case EventType => f.eventType
    case EventDate => f.eventDate
    case Message => f.message
  }

  /** `{ ...f, [k]: v }`. */
  function With(f: FormData, k: Field, v: string): (g: FormData)
    ensures Get(g, k) == v
  {
    match k
    case Name => f.(name := v)
    case Email => f.(email := v)
    case Phone => f.(phone := v)
    case EventType => f.(eventType := v)
    case EventDate => f.(eventDate := v)
    case Message => f.(message := v)
  }

  /** Setting a field changes that field and no other one. */
  lemma WithGet(f: FormData, k: Field, v: string)
    ensures Get(With(f, k, v), k) == v
    ensures forall k' :: k' != k ==> Get(With(f, k, v), k') == Get(f, k')
  {
  }

  class Dialog {
    var formData: FormData
    var isSubmitting: bool
    var isSubmitted: bool
    /** Timer callbacks scheduled and not yet run: the one that confirms the
        submission, and the one that then closes the dialog. */
    var pendingConfirm: nat
    var pendingClose: nat
    /** How many times the caller's close callback has been invoked. */
    var closeCalls: nat

    /** The submit button is disabled while a submission is in progress. */
    predicate SubmitEnabled()
      reads this
    {
      !isSubmitting
    }

    /** Once submitted, the form is replaced by the confirmation. */
    predicate ShowsConfirmation()
      reads this
    {
      isSubmitted
    }

    constructor ()
      ensures formData == EmptyForm && !isSubmitting && !isSubmitted
      ensures pendingConfirm == 0 && pendingClose == 0 && closeCalls == 0
    {
      formData := EmptyForm;
      isSubmitting, isSubmitted := false, false;
      pendingConfirm, pendingClose, closeCalls := 0, 0, 0;
    }

    /** An input's change event. */
    method HandleChange(k: Field, v: string)
      modifies this`formData
      ensures formData == With(old(formData), k, v)
    {
      formData := With(formData, k, v);
    }

    /** Submitting: marks the form as submitting and schedules the confirmation;
        the form data is kept. */
    method HandleSubmit()
      modifies this`isSubmitting, this`pendingConfirm
      ensures isSubmitting && !SubmitEnabled()
      ensures pendingConfirm == old(pendingConfirm) + 1
    {
      isSubmitting := true;
      pendingConfirm := pendingConfirm + 1;
    }

    /** The first timer fires: the submission is confirmed and the closing timer
        is scheduled. */
    method ConfirmTimerFires()
      requires pendingConfirm > 0
      modifies this`isSubmitting, this`isSubmitted, this`pendingConfirm, this`pendingClose
      ensures !isSubmitting && isSubmitted && ShowsConfirmation()
      ensures pendingConfirm == old(pendingConfirm) - 1
      ensures pendingClose == old(pendingClose) + 1
    {
      isSubmitting, isSubmitted := false, true;
      pendingConfirm := pendingConfirm - 1;
      pendingClose := pendingClose + 1;
    }

    /** The second timer fires: the caller's close callback is invoked, whether
        or not the dialog was already closed. */
    method CloseTimerFires()
      requires pendingClose > 0
      modifies this`pendingClose, this`closeCalls
      ensures pendingClose == old(pendingClose) - 1
      ensures closeCalls == old(closeCalls) + 1
    {
      pendingClose := pendingClose - 1;
      closeCalls := closeCalls + 1;
    }

    /** The close button invokes the caller's close callback; the pending timers
        are not cancelled. */
    method CloseButton()
      modifies this`closeCalls
      ensures closeCalls == old(closeCalls) + 1
    {
      closeCalls := closeCalls + 1;
    }
  }

  /** A submission runs idle -> submitting -> submitted -> close, keeping what
      was typed. */
  method ScenarioSubmit(name: string, email: string)
  {
    var d := new Dialog();
    d.HandleChange(Name, name);
    d.HandleChange(Email, email);
    d.HandleSubmit();
    assert d.isSubmitting && !d.isSubmitted;
    d.ConfirmTimerFires();
    assert !d.isSubmitting && d.isSubmitted;
    d.CloseTimerFires();
    assert d.closeCalls == 1 && d.formData == FormData(name, email, "", "", "", "");
  }
}
