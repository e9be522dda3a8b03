/**
 * The newsletter route: a visitor signs up with an address; a valid address
 * not yet in the `newsletter` collection is stored and the administrator is
 * notified by e-mail. The notification's outcome never changes the reply.
 */
module NewsletterRoute {

  import opened Common
  import opened Records
  import opened EmailFormat

  const InvalidEmailMessage := "Adresse email invalide"
  const AlreadySignedUpMessage := "Cet email est déjà inscrit"
  const SignupFailedMessage := "Échec de l'inscription à la newsletter"

  type Store = Stores<Signup>

  predicate AcceptedEmail(email: Option<string>) {
    Truthy(email) && IsValidEmail(email.value)
  }

  /** The equality query on `email` finds a signup. */
  predicate SignedUp(docs: map<Id, Signup>, email: string) {
    exists k :: k in docs && docs[k].email == email
  }

  /** No address is signed up twice. */
  ghost predicate UniqueEmails(docs: map<Id, Signup>) {
    forall j, k :: j in docs && k in docs && j != k ==> docs[j].email != docs[k].email
  }

  /** A JSON POST body `{ email }`; `parsed` is false when it is not JSON. */
  datatype SignupRequest = SignupRequest(parsed: bool, email: Option<string>)

  /**
   * POST. `notified` is whether the notification e-mail went out; the
   * handler logs a failed notification and answers as if it had not been
   * attempted. The success reply carries the new entry's identifier.
   */
  function SignupEffect(s: Store, req: SignupRequest, lookup: QueryOutcome, save: StoreOutcome,
                        notified: bool, now: Timestamp)
    : (h: Handled<Id, Signup>)
    ensures h.after.nextId >= s.nextId && h.after.blobs == s.blobs
  {
    if !req.parsed then Handled(Refusal(500, SignupFailedMessage), s)
    else if !AcceptedEmail(req.email) then Handled(Refusal(400, InvalidEmailMessage), s)
    else if lookup.QueryFailed? then Handled(Refusal(500, SignupFailedMessage), s)
    else if SignedUp(s.docs, req.email.value) then Handled(Refusal(400, AlreadySignedUpMessage), s)
    else if save.StoreFailed? then Handled(Refusal(500, SignupFailedMessage), s)
    else
      var r := Signup(req.email.value, now);
      Handled(Reply(200, None, None, Some(s.nextId)), s.(docs := s.docs[s.nextId := r], nextId := s.nextId + 1))
  }

  /** Whether the notification e-mail went out changes neither the reply nor the store. */
  lemma NotificationIsBestEffort(s: Store, req: SignupRequest, lookup: QueryOutcome, save: StoreOutcome,
                                 now: Timestamp)
    ensures SignupEffect(s, req, lookup, save, true, now) == SignupEffect(s, req, lookup, save, false, now)
  {
  }

  /** An address that fails the pattern is refused before the collection is queried. */
  lemma SignupRejectsInvalidEmail(s: Store, req: SignupRequest, lookup: QueryOutcome, save: StoreOutcome,
                                  notified: bool, now: Timestamp,
                                  lookup': QueryOutcome, save': StoreOutcome, notified': bool, now': Timestamp)
    requires req.parsed && !AcceptedEmail(req.email)
    ensures var h := SignupEffect(s, req, lookup, save, notified, now);
      && h == SignupEffect(s, req, lookup', save', notified', now')
      && h.reply == Refusal(400, InvalidEmailMessage) && h.after == s
  {
  }

  /**
   * A signup is stored exactly when the address is accepted, the query
   * answers, no entry has that address and the write succeeds; the reply
   * then names the fresh identifier under which `{ email, subscribedAt }`
   * was stored, and an already-present address is answered 400.
   */
  lemma SignupStoresOnlyNewAddresses(s: Store, req: SignupRequest, lookup: QueryOutcome, save: StoreOutcome,
                                     notified: bool, now: Timestamp)
    requires Issued(s)
    ensures var h := SignupEffect(s, req, lookup, save, notified, now);
      && (h.reply.status == 200 <==>
            req.parsed && AcceptedEmail(req.email) && lookup.Answered?
            && !SignedUp(s.docs, req.email.value) && save.Stored?)
      && (h.reply.status != 200 ==> h.after == s && h.reply.data.None?)
      && ((req.parsed && AcceptedEmail(req.email) && lookup.Answered? && SignedUp(s.docs, req.email.value))
            ==> h.reply == Refusal(400, AlreadySignedUpMessage))
      && (h.reply.status == 200 ==>
            && h.reply.data == Some(s.nextId) && s.nextId !in s.docs
            && h.after.docs == s.docs[s.nextId := Signup(req.email.value, now)])
  {
  }

  lemma SignupKeepsIssued(s: Store, req: SignupRequest, lookup: QueryOutcome, save: StoreOutcome,
                          notified: bool, now: Timestamp)
    requires Issued(s)
    ensures Issued(SignupEffect(s, req, lookup, save, notified, now).after)
  {
    var h := SignupEffect(s, req, lookup, save, notified, now);
    forall k | k in h.after.docs ensures k < h.after.nextId {
      if k != s.nextId { assert k in s.docs; }
    }
  }

  /** The collection never holds an address twice. */
  lemma SignupKeepsEmailsUnique(s: Store, req: SignupRequest, lookup: QueryOutcome, save: StoreOutcome,
                                notified: bool, now: Timestamp)
    requires Issued(s) && UniqueEmails(s.docs)
    ensures UniqueEmails(SignupEffect(s, req, lookup, save, notified, now).after.docs)
  {
    var h := SignupEffect(s, req, lookup, save, notified, now);
    if h.reply.status == 200 {
      var d := h.after.docs;
      forall j, k | j in d && k in d && j != k ensures d[j].email != d[k].email {
        if j != s.nextId && k != s.nextId {
          assert d[j] == s.docs[j] && d[k] == s.docs[k];
        } else if j == s.nextId {
          assert k in s.docs && d[k] == s.docs[k];
        } else {
          assert j in s.docs && d[j] == s.docs[j];
        }
      }
    }
  }

  /** The `newsletter` collection as the route handler sees it. */
  class Services {
    var signups: map<Id, Signup>
    var nextId: Id

    function State(): Store
      reads this
    {
      Stores(signups, {}, nextId)
    }

    constructor ()
      ensures State() == Stores(map[], {}, 0) && Issued(State()) && UniqueEmails(State().docs)
    {
      signups, nextId := map[], 0;
    }

    method Signup(req: SignupRequest, lookup: QueryOutcome, save: StoreOutcome, notified: bool, now: Timestamp)
      returns (resp: Reply<Id>)
      modifies this
      ensures var h := SignupEffect(old(State()), req, lookup, save, notified, now);
        resp == h.reply && State() == h.after
    {
      if !req.parsed {
        return Refusal(500, SignupFailedMessage);
      }
      if !AcceptedEmail(req.email) {
        return Refusal(400, InvalidEmailMessage);
      }
      if lookup.QueryFailed? {
        return Refusal(500, SignupFailedMessage);
      }
      var email := req.email.value;
      if SignedUp(signups, email) {
        return Refusal(400, AlreadySignedUpMessage);
      }
      if save.StoreFailed? {
        return Refusal(500, SignupFailedMessage);
      }
      var id := nextId;
      signups := signups[id := Records.Signup(email, now)];
      nextId := nextId + 1;
      // The notification e-mail is sent here; its failure is only logged.
      return Reply(200, None, None, Some(id));
    }
  }
}
