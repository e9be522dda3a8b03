/**
 * The contact form: seven text fields edited one at a time, and a submit
 * that checks them before posting them to the messages route.
 */
module ContactForm {

  import opened Common
  import opened Records
  import opened EmailFormat
  import MessagesRoute

  datatype Field = Name | Email | Phone | Interest | Budget | Country | MessageText

  const EmptyFields := ContactFields("", "", "", "", "", "", "")

  function Get(f: ContactFields, field: Field): string {
    match field
    case Name => f.name
    case Email => f.email
    case Phone => f.phone
    case Interest => f.interest
    case Budget => f.budget
    case Country => f.country
    case MessageText => f.message
  }

  /** `{ ...prev, [field]: value }`: the named field takes the value, every other keeps its own. */
  function WithField(f: ContactFields, field: Field, value: string): (r: ContactFields)
    ensures Get(r, field) == value
    ensures forall other :: other != field ==> Get(r, other) == Get(f, other)
  {
    match field
    case Name => f.(name := value)
    case Email => f.(email := value)
    case Phone => f.(phone := value)
    case Interest => f.(interest := value)
    case Budget => f.(budget := value)
    case Country => f.(country := value)
    case MessageText => f.(message := value)
  }

  /** What the messages route answered. */
  datatype Delivery = Delivered | Undelivered(error: Option<string>)

  /** A notification: `ok` for a success toast. */
  datatype Feedback = Feedback(ok: bool, message: string)

  const FillAllMessage := "Please fill in all required fields"
  const ValidEmailMessage := "Please enter a valid email address"
  const SentMessage := "Message sent successfully!"
  const SendFailedMessage := "Failed to send message"

  /** The form may be posted: every field filled and the address well formed. */
  predicate ReadyToSend(f: ContactFields) {
    MessagesRoute.AllFilled(f) && IsValidEmail(f.email)
  }

  /** The outcome of a submit: the fields afterwards, the notification, and whether a request went out. */
  datatype Submission = Submission(fields: ContactFields, feedback: Feedback, requested: bool)

  function Submitted(f: ContactFields, delivery: Delivery): (r: Submission)
    ensures r.requested <==> ReadyToSend(f)
    ensures !MessagesRoute.AllFilled(f) ==> r == Submission(f, Feedback(false, FillAllMessage), false)
    ensures (MessagesRoute.AllFilled(f) && !IsValidEmail(f.email)) ==> r == Submission(f, Feedback(false, ValidEmailMessage), false)
    ensures r.fields == f || r.fields == EmptyFields
    ensures r.fields == EmptyFields && f != EmptyFields ==> r.feedback.ok
  {
    if !MessagesRoute.AllFilled(f) then Submission(f, Feedback(false, FillAllMessage), false)
    else if !IsValidEmail(f.email) then Submission(f, Feedback(false, ValidEmailMessage), false)
    else match delivery
      case Delivered => Submission(EmptyFields, Feedback(true, SentMessage), true)
      case Undelivered(e) => Submission(f, Feedback(false, OrElse(e, SendFailedMessage)), true)
  }

  /** A delivered message empties all seven fields; an undelivered one keeps them for another try. */
  lemma SubmitResetsOnlyOnDelivery(f: ContactFields, delivery: Delivery)
    requires ReadyToSend(f)
    ensures delivery.Delivered? ==> forall field :: Get(Submitted(f, delivery).fields, field) == ""
    ensures delivery.Undelivered? ==> Submitted(f, delivery).fields == f && !Submitted(f, delivery).feedback.ok
  {
    if delivery.Delivered? {
      forall field ensures Get(Submitted(f, delivery).fields, field) == "" {
        match field
        case Name =>
        case Email =>
        case Phone =>
        case Interest =>
        case Budget =>
        case Country =>
        case MessageText =>
      }
    }
  }

  /**
   * What the form posts passes both checks of the messages route, so the
   * route stores it unless its write fails.
   */
  lemma SentFormsAreAccepted(s: MessagesRoute.Store, f: ContactFields, now: Timestamp)
    requires ReadyToSend(f)
    ensures MessagesRoute.SendEffect(s, MessagesRoute.SendRequest(true, f), Stored, now).reply.status == 201
  {
  }

  class ContactFormState {
    var formData: ContactFields
    var isLoading: bool

    constructor ()
      ensures formData == EmptyFields && !isLoading
    {
      formData := EmptyFields;
      isLoading := false;
    }

    method HandleInputChange(field: Field, value: string)
      modifies this
      ensures formData == WithField(old(formData), field, value) && isLoading == old(isLoading)
    {
      formData := WithField(formData, field, value);
    }

    /** `handleSubmit`; the loading flag is raised only while a request runs and always lowered after it. */
    method HandleSubmit(delivery: Delivery) returns (feedback: Feedback, requested: bool)
      modifies this
      ensures var r := Submitted(old(formData), delivery);
        formData == r.fields && feedback == r.feedback && requested == r.requested
      ensures isLoading == (old(isLoading) && !requested)
    {
      var f := formData;
      if !MessagesRoute.AllFilled(f) {
        return Feedback(false, FillAllMessage), false;
      }
      if !IsValidEmail(f.email) {
        return Feedback(false, ValidEmailMessage), false;
      }
      isLoading := true;
      requested := true;
      match delivery {
        case Delivered =>
          feedback := Feedback(true, SentMessage);
          formData := EmptyFields;
        case Undelivered(e) =>
          feedback := Feedback(false, OrElse(e, SendFailedMessage));
      }
      isLoading := false;
    }
  }
}
