/**
 * The subscription route: anyone may POST an address; listing, editing and
 * deleting addresses need the `isAdmin=true` query flag. Addresses must
 * match the e-mail pattern and are kept free of duplicates by checking the
 * whole collection before each write.
 */
module SubscribeRoute {

  import opened Common
  import opened Records
  import opened EmailFormat

  const InvalidEmailMessage := "Invalid email"
  const AlreadySubscribedMessage := "Email already subscribed"
  const SubscribeFailedMessage := "Failed to subscribe"
  const UnauthorizedMessage := "Unauthorized"
  const FetchFailedMessage := "Failed to fetch emails"
  const IdRequiredMessage := "ID is required"
  const DeleteFailedMessage := "Failed to delete email"
  const InvalidIdOrEmailMessage := "Invalid ID or email"
  const EmailExistsMessage := "Email already exists"
  const UpdateFailedMessage := "Failed to update email"

  type Store = Stores<Subscriber>

  /** `!email || !emailRegex.test(email)`. */
  predicate AcceptedEmail(email: Option<string>) {
    Truthy(email) && IsValidEmail(email.value)
  }

  /** Some subscriber other than `excludeId` has exactly this address. */
  predicate EmailTaken(docs: map<Id, Subscriber>, email: string, excludeId: Option<Id>) {
    exists k :: k in docs && docs[k].email == email && Some(k) != excludeId
  }

  /** No address is subscribed twice. */
  ghost predicate UniqueEmails(docs: map<Id, Subscriber>) {
    forall j, k :: j in docs && k in docs && j != k ==> docs[j].email != docs[k].email
  }

  // ---------------------------------------------------------------- POST

  /** A JSON POST body `{ email }`; `parsed` is false when it is not JSON. */
  datatype PostRequest = PostRequest(parsed: bool, email: Option<string>)

  function PostEffect(s: Store, req: PostRequest, listing: QueryOutcome, save: StoreOutcome, now: Timestamp)
    : (h: Handled<(), Subscriber>)
    ensures h.after.nextId >= s.nextId && h.after.blobs == s.blobs
  {
    if !req.parsed then Handled(Refusal(500, SubscribeFailedMessage), s)
    else if !AcceptedEmail(req.email) then Handled(Refusal(400, InvalidEmailMessage), s)
    else if listing.QueryFailed? then Handled(Refusal(500, SubscribeFailedMessage), s)
    else if EmailTaken(s.docs, req.email.value, None) then Handled(Refusal(400, AlreadySubscribedMessage), s)
    else if save.StoreFailed? then Handled(Refusal(500, SubscribeFailedMessage), s)
    else
      var r := Subscriber(req.email.value, now, None);
      Handled(Notice(201), s.(docs := s.docs[s.nextId := r], nextId := s.nextId + 1))
  }

  /**
   * An address that fails the pattern is refused with 400 before the
   * collection is read: the reply depends on no outcome and nothing changes.
   */
  lemma PostRejectsInvalidEmail(s: Store, req: PostRequest, listing: QueryOutcome, save: StoreOutcome,
                                now: Timestamp, listing': QueryOutcome, save': StoreOutcome, now': Timestamp)
    requires req.parsed && !AcceptedEmail(req.email)
    ensures var h := PostEffect(s, req, listing, save, now);
      && h == PostEffect(s, req, listing', save', now')
      && h.reply == Refusal(400, InvalidEmailMessage) && h.after == s
  {
  }

  /**
   * A subscriber is inserted exactly when the address is accepted, the
   * collection is read, no subscriber has that address and the save succeeds;
   * it is then `{ email, createdAt }` under a fresh identifier, answered 201.
   * An address already present is answered 400.
   */
  lemma PostInsertsOnlyNewAddresses(s: Store, req: PostRequest, listing: QueryOutcome, save: StoreOutcome,
                                    now: Timestamp)
    requires Issued(s)
    ensures var h := PostEffect(s, req, listing, save, now);
      && (h.reply.status == 201 <==>
            req.parsed && AcceptedEmail(req.email) && listing.Answered?
            && !EmailTaken(s.docs, req.email.value, None) && save.Stored?)
      && (h.reply.status != 201 ==> h.after == s)
      && ((req.parsed && AcceptedEmail(req.email) && listing.Answered? && EmailTaken(s.docs, req.email.value, None))
            ==> h.reply == Refusal(400, AlreadySubscribedMessage))
      && (h.reply.status == 201 ==>
            s.nextId !in s.docs && h.after.docs == s.docs[s.nextId := Subscriber(req.email.value, now, None)])
  {
  }

  lemma PostKeepsIssued(s: Store, req: PostRequest, listing: QueryOutcome, save: StoreOutcome, now: Timestamp)
    requires Issued(s)
    ensures Issued(PostEffect(s, req, listing, save, now).after)
  {
    var h := PostEffect(s, req, listing, save, now);
    forall k | k in h.after.docs ensures k < h.after.nextId {
      if k != s.nextId { assert k in s.docs; }
    }
  }

  /** POST never subscribes an address twice. */
  lemma PostKeepsEmailsUnique(s: Store, req: PostRequest, listing: QueryOutcome, save: StoreOutcome, now: Timestamp)
    requires Issued(s) && UniqueEmails(s.docs)
    ensures UniqueEmails(PostEffect(s, req, listing, save, now).after.docs)
  {
    var h := PostEffect(s, req, listing, save, now);
    if h.reply.status == 201 {
      var d := h.after.docs;
      forall j, k | j in d && k in d && j != k ensures d[j].email != d[k].email {
        if j != s.nextId && k != s.nextId {
          assert d[j] == s.docs[j] && d[k] == s.docs[k];
        } else if j == s.nextId {
          assert k in s.docs && d[k] == s.docs[k];
        } else {
          assert j in s.docs && d[j] == s.docs[j];
        }
      }
    }
  }

  // ---------------------------------------------------------------- GET

  /** GET: the admin flag, then the listing of every subscriber. */
  function GetEffect(s: Store, isAdmin: Option<string>, listing: QueryOutcome): (r: Reply<map<Id, Subscriber>>)
    ensures !IsAdmin(isAdmin) ==> r == Refusal(401, UnauthorizedMessage)
    ensures IsAdmin(isAdmin) && listing.Answered? ==> r.status == 200 && r.data == Some(s.docs)
    ensures IsAdmin(isAdmin) && listing.QueryFailed? ==> r == Refusal(500, FetchFailedMessage)
  {
    if !IsAdmin(isAdmin) then Refusal(401, UnauthorizedMessage)
    else if listing.QueryFailed? then Refusal(500, FetchFailedMessage)
    else Reply(200, None, None, Some(s.docs))
  }

  // ---------------------------------------------------------------- DELETE

  /** DELETE `?id=…&isAdmin=…`. */
  datatype DeleteRequest = DeleteRequest(isAdmin: Option<string>, id: Option<Id>)

  function DeleteEffect(s: Store, req: DeleteRequest, removal: StoreOutcome): (h: Handled<(), Subscriber>)
    ensures h.after.nextId == s.nextId && h.after.docs.Keys <= s.docs.Keys
  {
    if !IsAdmin(req.isAdmin) then Handled(Refusal(401, UnauthorizedMessage), s)
    else if req.id.None? then Handled(Refusal(400, IdRequiredMessage), s)
    else if removal.StoreFailed? then Handled(Refusal(500, DeleteFailedMessage), s)
    else Handled(Notice(200), s.(docs := s.docs - {req.id.value}))
  }

  /** The admin flag is checked first; an admin delete removes exactly that subscriber. */
  lemma DeleteGuarded(s: Store, req: DeleteRequest, removal: StoreOutcome, removal': StoreOutcome)
    ensures var h := DeleteEffect(s, req, removal);
      && (!IsAdmin(req.isAdmin) ==>
            h == DeleteEffect(s, req.(id := None), removal') && h.reply == Refusal(401, UnauthorizedMessage) && h.after == s)
      && (h.reply.status == 200 <==> IsAdmin(req.isAdmin) && req.id.Some? && removal.Stored?)
      && (h.reply.status == 200 ==> h.after.docs == s.docs - {req.id.value})
      && (h.reply.status != 200 ==> h.after == s)
  {
  }

  // ---------------------------------------------------------------- PUT

  /**
   * PUT `?id=…&isAdmin=…` with a JSON body `{ email }`. The body is read
   * before the admin check and outside the route's error handling, so a
   * body that is not JSON fails the request (500) whatever the flag says.
   */
  datatype PutRequest = PutRequest(isAdmin: Option<string>, id: Option<Id>, parsed: bool, email: Option<string>)

  function PutEffect(s: Store, req: PutRequest, listing: QueryOutcome, update: StoreOutcome, now: Timestamp)
    : (h: Handled<(), Subscriber>)
    ensures h.after.nextId == s.nextId && h.after.docs.Keys == s.docs.Keys
  {
    if !req.parsed then Handled(Notice(500), s)
    else if !IsAdmin(req.isAdmin) then Handled(Refusal(401, UnauthorizedMessage), s)
    else if req.id.None? || !AcceptedEmail(req.email) then Handled(Refusal(400, InvalidIdOrEmailMessage), s)
    else if listing.QueryFailed? then Handled(Refusal(500, UpdateFailedMessage), s)
    else if EmailTaken(s.docs, req.email.value, req.id) then Handled(Refusal(400, EmailExistsMessage), s)
    else if req.id.value !in s.docs || update.StoreFailed? then Handled(Refusal(500, UpdateFailedMessage), s)
    else
      var id := req.id.value;
      Handled(Notice(200), s.(docs := s.docs[id := s.docs[id].(email := req.email.value, updatedAt := Some(now))]))
  }

  /** The admin flag is checked before the id and the address. */
  lemma PutGuarded(s: Store, req: PutRequest, listing: QueryOutcome, update: StoreOutcome, now: Timestamp)
    requires req.parsed && !IsAdmin(req.isAdmin)
    ensures var h := PutEffect(s, req, listing, update, now);
      && h == PutEffect(s, req.(id := None, email := None), listing, update, now)
      && h.reply == Refusal(401, UnauthorizedMessage) && h.after == s
  {
  }

  /**
   * An admin PUT writes exactly when the id and address are accepted, the
   * collection is read, no other subscriber has the address, the id exists
   * and the write succeeds; it then changes only that subscriber's address
   * and update time.
   */
  lemma PutChangesOnlyEmail(s: Store, req: PutRequest, listing: QueryOutcome, update: StoreOutcome, now: Timestamp)
    ensures var h := PutEffect(s, req, listing, update, now);
      && (h.reply.status == 200 <==>
            req.parsed && IsAdmin(req.isAdmin) && req.id.Some? && AcceptedEmail(req.email) && listing.Answered?
            && !EmailTaken(s.docs, req.email.value, req.id) && req.id.value in s.docs && update.Stored?)
      && (h.reply.status != 200 ==> h.after == s)
      && (h.reply.status == 200 ==>
            var id := req.id.value;
            h.after.docs == s.docs[id := Subscriber(req.email.value, s.docs[id].createdAt, Some(now))])
  {
  }

  /**
   * The duplicate check skips the subscriber being edited: re-saving the
   * address it already has is answered 200 when the addresses are distinct.
   */
  lemma PutOwnEmailIsNotADuplicate(s: Store, id: Id, now: Timestamp)
    requires UniqueEmails(s.docs) && id in s.docs && IsValidEmail(s.docs[id].email) && s.docs[id].email != ""
    ensures var req := PutRequest(Some("true"), Some(id), true, Some(s.docs[id].email));
      PutEffect(s, req, Answered, Stored, now).reply.status == 200
  {
    assert !EmailTaken(s.docs, s.docs[id].email, Some(id));
  }

  /** PUT keeps the addresses distinct. */
  lemma PutKeepsEmailsUnique(s: Store, req: PutRequest, listing: QueryOutcome, update: StoreOutcome, now: Timestamp)
    requires UniqueEmails(s.docs)
    ensures UniqueEmails(PutEffect(s, req, listing, update, now).after.docs)
  {
    PutChangesOnlyEmail(s, req, listing, update, now);
    var h := PutEffect(s, req, listing, update, now);
    if h.reply.status == 200 {
      var id := req.id.value;
      var d := h.after.docs;
      forall j, k | j in d && k in d && j != k ensures d[j].email != d[k].email {
        if j != id && k != id {
          assert d[j] == s.docs[j] && d[k] == s.docs[k];
        } else if j == id {
          assert d[k] == s.docs[k];
        } else {
          assert d[j] == s.docs[j];
        }
      }
    }
  }

  // ---------------------------------------------------------------- the route

  /** The `subscribe` collection as the route handlers see it. */
  class Services {
    var subscribers: map<Id, Subscriber>
    var nextId: Id

    function State(): Store
      reads this
    {
      Stores(subscribers, {}, nextId)
    }

    constructor ()
      ensures State() == Stores(map[], {}, 0) && Issued(State()) && UniqueEmails(State().docs)
    {
      subscribers, nextId := map[], 0;
    }

    method Post(req: PostRequest, listing: QueryOutcome, save: StoreOutcome, now: Timestamp) returns (resp: Reply<()>)
      modifies this
      ensures var h := PostEffect(old(State()), req, listing, save, now);
        resp == h.reply && State() == h.after
    {
      if !req.parsed {
        return Refusal(500, SubscribeFailedMessage);
      }
      if !AcceptedEmail(req.email) {
        return Refusal(400, InvalidEmailMessage);
      }
      if listing.QueryFailed? {
        return Refusal(500, SubscribeFailedMessage);
      }
      var email := req.email.value;
      if EmailTaken(subscribers, email, None) {
        return Refusal(400, AlreadySubscribedMessage);
      }
      if save.StoreFailed? {
        return Refusal(500, SubscribeFailedMessage);
      }
      subscribers := subscribers[nextId := Subscriber(email, now, None)];
      nextId := nextId + 1;
      return Notice(201);
    }

    method Get(isAdmin: Option<string>, listing: QueryOutcome) returns (resp: Reply<map<Id, Subscriber>>)
      ensures resp == GetEffect(State(), isAdmin, listing)
    {
      if !IsAdmin(isAdmin) {
        return Refusal(401, UnauthorizedMessage);
      }
      if listing.QueryFailed? {
        return Refusal(500, FetchFailedMessage);
      }
      return Reply(200, None, None, Some(subscribers));
    }

    method Delete(req: DeleteRequest, removal: StoreOutcome) returns (resp: Reply<()>)
      modifies this
      ensures var h := DeleteEffect(old(State()), req, removal);
        resp == h.reply && State() == h.after
    {
      if !IsAdmin(req.isAdmin) {
        return Refusal(401, UnauthorizedMessage);
      }
      if req.id.None? {
        return Refusal(400, IdRequiredMessage);
      }
      if removal.StoreFailed? {
        return Refusal(500, DeleteFailedMessage);
      }
      subscribers := subscribers - {req.id.value};
      return Notice(200);
    }

    method Put(req: PutRequest, listing: QueryOutcome, update: StoreOutcome, now: Timestamp) returns (resp: Reply<()>)
      modifies this
      ensures var h := PutEffect(old(State()), req, listing, update, now);
        resp == h.reply && State() == h.after
    {
      if !req.parsed {
        return Notice(500);
      }
      if !IsAdmin(req.isAdmin) {
        return Refusal(401, UnauthorizedMessage);
      }
      if req.id.None? || !AcceptedEmail(req.email) {
        return Refusal(400, InvalidIdOrEmailMessage);
      }
      if listing.QueryFailed? {
        return Refusal(500, UpdateFailedMessage);
      }
      var id, email := req.id.value, req.email.value;
      if EmailTaken(subscribers, email, req.id) {
        return Refusal(400, EmailExistsMessage);
      }
      if id !in subscribers || update.StoreFailed? {
        return Refusal(500, UpdateFailedMessage);
      }
      subscribers := subscribers[id := subscribers[id].(email := email, updatedAt := Some(now))];
      return Notice(200);
    }
  }
}
