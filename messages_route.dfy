/**
 * The contact-messages route: a visitor POSTs the seven fields of the
 * contact form; the administrator lists the messages with `isAdmin=true`.
 */
module MessagesRoute {

  import opened Common
  import opened Records
  import opened EmailFormat

  const FieldsRequiredMessage := "All fields are required"
  const InvalidEmailMessage := "Invalid email"
  const SendFailedMessage := "Failed to send message"
  const UnauthorizedMessage := "Unauthorized"
  const FetchFailedMessage := "Failed to fetch messages"

  type Store = Stores<Message>

  /** Every one of the seven fields is non-empty. */
  predicate AllFilled(f: ContactFields) {
    f.name != "" && f.email != "" && f.phone != "" && f.interest != ""
    && f.budget != "" && f.country != "" && f.message != ""
  }

  /** A JSON POST body; `parsed` is false when it is not JSON. */
  datatype SendRequest = SendRequest(parsed: bool, fields: ContactFields)

  function SendEffect(s: Store, req: SendRequest, save: StoreOutcome, now: Timestamp)
    : (h: Handled<(), Message>)
    ensures h.after.nextId >= s.nextId && h.after.blobs == s.blobs
  {
    if !req.parsed then Handled(Refusal(500, SendFailedMessage), s)
    else if !AllFilled(req.fields) then Handled(Refusal(400, FieldsRequiredMessage), s)
    else if !IsValidEmail(req.fields.email) then Handled(Refusal(400, InvalidEmailMessage), s)
    else if save.StoreFailed? then Handled(Refusal(500, SendFailedMessage), s)
    else
      var m := Message(req.fields, now);
      Handled(Notice(201), s.(docs := s.docs[s.nextId := m], nextId := s.nextId + 1))
  }

  /**
   * A missing field is reported before the address is checked: a form with
   * an empty field and a malformed address is answered "All fields are
   * required", and neither refusal writes.
   */
  lemma SendChecksFieldsFirst(s: Store, req: SendRequest, save: StoreOutcome, now: Timestamp)
    requires req.parsed
    ensures var h := SendEffect(s, req, save, now);
      && (!AllFilled(req.fields) ==> h.reply == Refusal(400, FieldsRequiredMessage) && h.after == s)
      && ((AllFilled(req.fields) && !IsValidEmail(req.fields.email))
            ==> h.reply == Refusal(400, InvalidEmailMessage) && h.after == s)
  {
  }

  /**
   * A message is stored exactly when every field is filled, the address is
   * valid and the write succeeds; it then holds the seven fields as sent
   * and the time of the request, under a fresh identifier.
   */
  lemma SendStoresExactly(s: Store, req: SendRequest, save: StoreOutcome, now: Timestamp)
    requires Issued(s)
    ensures var h := SendEffect(s, req, save, now);
      && (h.reply.status == 201 <==>
            req.parsed && AllFilled(req.fields) && IsValidEmail(req.fields.email) && save.Stored?)
      && (h.reply.status != 201 ==> h.after == s)
      && (h.reply.status == 201 ==>
            s.nextId !in s.docs && h.after.docs == s.docs[s.nextId := Message(req.fields, now)])
  {
  }

  lemma SendKeepsIssued(s: Store, req: SendRequest, save: StoreOutcome, now: Timestamp)
    requires Issued(s)
    ensures Issued(SendEffect(s, req, save, now).after)
  {
    var h := SendEffect(s, req, save, now);
    forall k | k in h.after.docs ensures k < h.after.nextId {
      if k != s.nextId { assert k in s.docs; }
    }
  }

  /** Every stored message has all fields filled and a valid address. */
  ghost predicate WellFormed(docs: map<Id, Message>) {
    forall k :: k in docs ==> AllFilled(docs[k].fields) && IsValidEmail(docs[k].fields.email)
  }

  lemma SendKeepsWellFormed(s: Store, req: SendRequest, save: StoreOutcome, now: Timestamp)
    requires WellFormed(s.docs)
    ensures WellFormed(SendEffect(s, req, save, now).after.docs)
  {
    var h := SendEffect(s, req, save, now);
    forall k | k in h.after.docs
      ensures AllFilled(h.after.docs[k].fields) && IsValidEmail(h.after.docs[k].fields.email)
    {
      if k != s.nextId || h.reply.status != 201 { assert k in s.docs && h.after.docs[k] == s.docs[k]; }
    }
  }

  /** GET: the admin flag, then every message. */
  function ListEffect(s: Store, isAdmin: Option<string>, listing: QueryOutcome): (r: Reply<map<Id, Message>>)
    ensures !IsAdmin(isAdmin) ==> r == Refusal(401, UnauthorizedMessage)
    ensures IsAdmin(isAdmin) && listing.Answered? ==> r.status == 200 && r.data == Some(s.docs)
    ensures IsAdmin(isAdmin) && listing.QueryFailed? ==> r == Refusal(500, FetchFailedMessage)
  {
    if !IsAdmin(isAdmin) then Refusal(401, UnauthorizedMessage)
    else if listing.QueryFailed? then Refusal(500, FetchFailedMessage)
    else Reply(200, None, None, Some(s.docs))
  }

  /** The `messages` collection as the route handlers see it. */
  class Services {
    var messages: map<Id, Message>
    var nextId: Id

    function State(): Store
      reads this
    {
      Stores(messages, {}, nextId)
    }

    constructor ()
      ensures State() == Stores(map[], {}, 0) && Issued(State()) && WellFormed(State().docs)
    {
      messages, nextId := map[], 0;
    }

    method Send(req: SendRequest, save: StoreOutcome, now: Timestamp) returns (resp: Reply<()>)
      modifies this
      ensures var h := SendEffect(old(State()), req, save, now);
        resp == h.reply && State() == h.after
    {
      if !req.parsed {
        return Refusal(500, SendFailedMessage);
      }
      if !AllFilled(req.fields) {
        return Refusal(400, FieldsRequiredMessage);
      }
      if !IsValidEmail(req.fields.email) {
        return Refusal(400, InvalidEmailMessage);
      }
      if save.StoreFailed? {
        return Refusal(500, SendFailedMessage);
      }
      messages := messages[nextId := Message(req.fields, now)];
      nextId := nextId + 1;
      return Notice(201);
    }

    method List(isAdmin: Option<string>, listing: QueryOutcome) returns (resp: Reply<map<Id, Message>>)
      ensures resp == ListEffect(State(), isAdmin, listing)
    {
      if !IsAdmin(isAdmin) {
        return Refusal(401, UnauthorizedMessage);
      }
      if listing.QueryFailed? {
        return Refusal(500, FetchFailedMessage);
      }
      return Reply(200, None, None, Some(messages));
    }
  }
}
