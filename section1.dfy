/**
 * The hero section of the home page: three slides that advance on a timer
 * or by the arrows and dots, and a newsletter field whose address is posted
 * to the subscription route.
 */
module Section1 {

  import opened Common
  import opened EmailFormat
  import Carousel
  import SubscribeRoute

  /** The number of slides. */
  const SlideCount: nat := 3

  const EmptyEmailMessage := "Please enter an email address"
  const SubscribeFailedMessage := "Failed to subscribe"

  function ThanksMessage(email: string): string {
    "Thank you! You'll receive updates at " + email
  }

  /** What the subscription request produced: the route's reply, or the error `fetch` or `json()` threw. */
  datatype Answer = Responded(reply: Reply<()>) | Threw(message: string)

  /** A toast: `ok` for a success toast. */
  datatype Toast = Toast(ok: bool, message: string)

  /** The outcome of a submit: the address field afterwards, the toast, and whether a request went out. */
  datatype Submission = Submission(email: string, toast: Toast, requested: bool)

  /** `response.ok`. */
  predicate Ok(r: Reply<()>) {
    200 <= r.status < 300
  }

  /**
   * `handleSubmit`: an empty field is refused without a request; otherwise
   * the address is posted, a success empties the field, and a failure keeps
   * it and shows the route's error, or the thrown error's message.
   */
  function Submitted(email: string, answer: Answer): (r: Submission)
    ensures r.requested <==> email != ""
    ensures email == "" ==> r == Submission(email, Toast(false, EmptyEmailMessage), false)
    ensures r.toast.ok <==> email != "" && answer.Responded? && Ok(answer.reply)
    ensures r.toast.ok ==> r.email == "" && r.toast.message == ThanksMessage(email)
    ensures !r.toast.ok ==> r.email == email
    ensures email != "" && answer.Responded? && !Ok(answer.reply) ==>
      r.toast.message == OrElse(answer.reply.error, SubscribeFailedMessage)
  {
    if email == "" then Submission(email, Toast(false, EmptyEmailMessage), false)
    else match answer
      case Threw(m) => Submission(email, Toast(false, m), true)
      case Responded(reply) =>
        if !Ok(reply) then Submission(email, Toast(false, OrElse(reply.error, SubscribeFailedMessage)), true)
        else Submission("", Toast(true, ThanksMessage(email)), true)
  }

  /**
   * The field only checks that the address is non-empty; a malformed one is
   * posted, refused by the route before it touches the collection, and the
   * route's error is what the visitor reads.
   */
  lemma MalformedAddressReachesRoute(s: SubscribeRoute.Store, email: string, listing: QueryOutcome,
                                     save: StoreOutcome, now: Timestamp)
    requires email != "" && !IsValidEmail(email)
    ensures var h := SubscribeRoute.PostEffect(s, SubscribeRoute.PostRequest(true, Some(email)), listing, save, now);
      && h.after == s
      && Submitted(email, Responded(h.reply)) == Submission(email, Toast(false, SubscribeRoute.InvalidEmailMessage), true)
  {
  }

  /** The hero section's state; the slide index always names one of the slides. */
  class Hero {
    var email: string
    var currentSlide: nat
    var isLoading: bool

    predicate Valid()
      reads this
    {
      currentSlide < SlideCount
    }

    constructor ()
      ensures Valid() && email == "" && currentSlide == 0 && !isLoading
    {
      email, currentSlide, isLoading := "", 0, false;
    }

    /** The right arrow. */
    method NextSlide()
      requires Valid()
      modifies this
      ensures Valid() && currentSlide == Carousel.Next(old(currentSlide), SlideCount)
      ensures email == old(email) && isLoading == old(isLoading)
    {
      currentSlide := (currentSlide + 1) % SlideCount;
    }

    /** The left arrow; it undoes `NextSlide`. */
    method PrevSlide()
      requires Valid()
      modifies this
      ensures Valid() && currentSlide == Carousel.Prev(old(currentSlide), SlideCount)
      ensures email == old(email) && isLoading == old(isLoading)
    {
      currentSlide := (currentSlide - 1 + SlideCount) % SlideCount;
    }

    /** One tick of the five-second interval: the same step as the right arrow. */
    method Tick()
      requires Valid()
      modifies this
      ensures Valid() && currentSlide == Carousel.Next(old(currentSlide), SlideCount)
      ensures email == old(email) && isLoading == old(isLoading)
    {
      NextSlide();
    }

    /** A click on the dot of slide `index`; the dots are drawn one per slide. */
    method GoToSlide(index: nat)
      requires Valid() && index < SlideCount
      modifies this
      ensures Valid() && currentSlide == index
      ensures email == old(email) && isLoading == old(isLoading)
    {
      currentSlide := index;
    }

    method SetEmail(value: string)
      modifies this
      ensures email == value && currentSlide == old(currentSlide) && isLoading == old(isLoading)
    {
      email := value;
    }

    /** `handleSubmit`; loading is raised only while a request runs and always lowered after it. */
    method HandleSubmit(answer: Answer) returns (toast: Toast, requested: bool)
      modifies this
      ensures var r := Submitted(old(email), answer);
        email == r.email && toast == r.toast && requested == r.requested
      ensures isLoading == (old(isLoading) && !requested)
      ensures currentSlide == old(currentSlide)
    {
      if email == "" {
        return Toast(false, EmptyEmailMessage), false;
      }
      isLoading := true;
      requested := true;
      match answer {
        case Threw(m) =>
          toast := Toast(false, m);
        case Responded(reply) =>
          if !Ok(reply) {
            toast := Toast(false, OrElse(reply.error, SubscribeFailedMessage));
          } else {
            toast := Toast(true, ThanksMessage(email));
            email := "";
          }
      }
      isLoading := false;
    }
  }
}
