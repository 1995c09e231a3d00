/** The webhook intake endpoint (`POST /api/webhook/register`): it authenticates a
    signed event from the identity provider and, for a "user.created" event,
    provisions one row in the application's user table.

    The collaborators are made explicit: the configured secret is an optional
    value, the three `svix-*` headers are optional strings, the signature
    library's verdict is an `Option<Event>` (None when it throws), and the ORM's
    user table is the class `UserTable`. */
module Webhook {
  import opened Wrappers

  // ---------------------------------------------------------------------------
  // Data model
  // ---------------------------------------------------------------------------

  /** One entry of the event's `email_addresses` list. */
  datatype EmailAddress = EmailAddress(id: string, emailAddress: string)

  /** The `data` part of a verified event, as a "user.created" event carries it. */
  datatype EventData = EventData(
    id: string,
    emailAddresses: seq<EmailAddress>,
    primaryEmailAddressId: string)

  /** A verified event: what the signature library hands back on success. */
  datatype Event = Event(eventType: string, data: EventData)

  /** The three signature headers; None is a header the request did not carry. */
  datatype SvixHeaders = SvixHeaders(
    id: Option<string>,
    timestamp: Option<string>,
    signature: Option<string>)

  /** A row of the user table. */
  datatype User = User(id: string, email: string, isSubscribed: bool)

  datatype Response = Response(status: int, body: string)

  /** What the handler does with a request: answers it, or raises an error out
      of the handler (only for a missing configuration secret). */
  datatype Outcome = Raised(message: string) | Answered(response: Response)

  const UserCreated: string := "user.created"
  const MissingSecretMessage: string := "Missing WEBHOOK_SECRET environment variable"
  /** The missing-headers answer carries no status, so it gets the default 200. */
  const NoHeadersResponse: Response := Response(200, "Error occurred: No SVIX HEADERS found")
  const VerifyFailedResponse: Response := Response(404, "Error occurred: Failed to verify webhook")
  const NoPrimaryEmailResponse: Response := Response(400, "No primary email found")
  const CreateFailedResponse: Response := Response(400, "Error creating user")
  const CreatedResponse: Response := Response(200, "User created successfully")
  const ReceivedResponse: Response := Response(200, "Webhook recieved Successfully")

  /** JavaScript truthiness of a `string | null | undefined`: present and not empty. */
  predicate Truthy(v: Option<string>)
  {
    v.Some? && v.value != ""
  }

  predicate HeadersPresent(h: SvixHeaders)
  {
    Truthy(h.id) && Truthy(h.timestamp) && Truthy(h.signature)
  }

  // ---------------------------------------------------------------------------
  // Primary-email search (`email_addresses.find(e => e.id === primary_email_address_id)`)
  // ---------------------------------------------------------------------------

  /** The first entry, in list order, whose id is `primaryId`; None when no entry has it. */
  function FindPrimaryEmail(emails: seq<EmailAddress>, primaryId: string): (r: Option<EmailAddress>)
    ensures r.Some? ==> r.value in emails && r.value.id == primaryId
    ensures r.None? <==> forall i :: 0 <= i < |emails| ==> emails[i].id != primaryId
  {
    if emails == [] then None
    else if emails[0].id == primaryId then Some(emails[0])
    else FindPrimaryEmail(emails[1..], primaryId)
  }

  /** The search answers with the entry at the least index whose id matches. */
  lemma {:induction false} FindPrimaryEmailIsFirst(emails: seq<EmailAddress>, primaryId: string, k: nat)
    requires k < |emails| && emails[k].id == primaryId
    requires forall j :: 0 <= j < k ==> emails[j].id != primaryId
    ensures FindPrimaryEmail(emails, primaryId) == Some(emails[k])
  {
    if k > 0 {
      FindPrimaryEmailIsFirst(emails[1..], primaryId, k - 1);
    }
  }

  /** Once a match exists, entries appended after it (even ones with the same id)
      never change the answer. */
  lemma {:induction false} FindPrimaryEmailIgnoresLater(front: seq<EmailAddress>, back: seq<EmailAddress>, primaryId: string)
    requires FindPrimaryEmail(front, primaryId).Some?
    ensures FindPrimaryEmail(front + back, primaryId) == FindPrimaryEmail(front, primaryId)
  {
    if front[0].id != primaryId {
      assert (front + back)[1..] == front[1..] + back;
      FindPrimaryEmailIgnoresLater(front[1..], back, primaryId);
    }
  }

  // ---------------------------------------------------------------------------
  // The user table (the ORM's `prisma.user.create`)
  // ---------------------------------------------------------------------------

  /** Create-if-absent on the user table, keyed by id. That an insert with an id
      already present FAILS is an assumption about the database (a uniqueness
      constraint on the id column); the handler itself does not check it. */
  function Insert(users: map<string, User>, user: User): (r: Option<map<string, User>>)
    ensures r.None? <==> user.id in users
    ensures r.Some? ==> r.value.Keys == users.Keys + {user.id} && r.value[user.id] == user
    ensures r.Some? ==> forall k :: k in users ==> r.value[k] == users[k]
  {
    if user.id in users then None else Some(users[user.id := user])
  }

  /** The user table, updated in place by `create`. */
  class UserTable {
    var users: map<string, User>

    constructor (initial: map<string, User>)
      ensures users == initial
    {
      users := initial;
    }

    /** Returns the created row, or None where the ORM call throws. */
    method Create(user: User) returns (created: Option<User>)
      modifies this
      ensures created.Some? <==> Insert(old(users), user).Some?
      ensures created.Some? ==> created.value == user && users == Insert(old(users), user).value
      ensures created.None? ==> users == old(users)
    {
      if user.id in users {
        created := None;
      } else {
        users := users[user.id := user];
        created := Some(user);
      }
    }
  }

  // ---------------------------------------------------------------------------
  // The handler
  // ---------------------------------------------------------------------------

  /** The handler as a function of its inputs and the user table before the
      request: the outcome and the user table after it. The table is written only
      when the answer is "User created successfully", and then by exactly one new
      row; no existing row is ever removed or changed. */
  function Handle(secret: Option<string>, headers: SvixHeaders, verified: Option<Event>,
                  users: map<string, User>): (r: (Outcome, map<string, User>))
    ensures users.Keys <= r.1.Keys && forall k :: k in users ==> r.1[k] == users[k]
    ensures r.1 != users <==> r.0 == Answered(CreatedResponse)
    ensures r.1 != users ==> |r.1| == |users| + 1
  {
    if !Truthy(secret) then (Raised(MissingSecretMessage), users)
    else if !HeadersPresent(headers) then (Answered(NoHeadersResponse), users)
    else if verified.None? then (Answered(VerifyFailedResponse), users)
    else if verified.value.eventType != UserCreated then (Answered(ReceivedResponse), users)
    else
      var data := verified.value.data;
      match FindPrimaryEmail(data.emailAddresses, data.primaryEmailAddressId)
      case None => (Answered(NoPrimaryEmailResponse), users)
      case Some(primary) =>
        match Insert(users, User(data.id, primary.emailAddress, false))
        case None => (Answered(CreateFailedResponse), users)
        case Some(after) => (Answered(CreatedResponse), after)
  }

  /** The request handler: a chain of early returns, with the one write going
      through the user table. */
  method Post(table: UserTable, secret: Option<string>, headers: SvixHeaders, verified: Option<Event>)
    returns (out: Outcome)
    modifies table
    ensures (out, table.users) == Handle(secret, headers, verified, old(table.users))
    ensures out != Answered(CreatedResponse) ==> table.users == old(table.users)
  {
    if !Truthy(secret) {
      return Raised(MissingSecretMessage);
    }
    if !HeadersPresent(headers) {
      return Answered(NoHeadersResponse);
    }
    if verified.None? {
      return Answered(VerifyFailedResponse);
    }
    var evt := verified.value;
    if evt.eventType == UserCreated {
      var primary := FindPrimaryEmail(evt.data.emailAddresses, evt.data.primaryEmailAddressId);
      if primary.None? {
        return Answered(NoPrimaryEmailResponse);
      }
      var newUser := table.Create(User(evt.data.id, primary.value.emailAddress, false));
      if newUser.Some? {
        return Answered(CreatedResponse);
      }
      return Answered(CreateFailedResponse);
    }
    return Answered(ReceivedResponse);
  }

  // ---------------------------------------------------------------------------
  // Properties of the handler, branch by branch
  // ---------------------------------------------------------------------------

  /** Without a configured secret the handler raises, whatever the headers and the
      verifier's verdict, and the table is untouched. */
  lemma MissingSecretRaises(secret: Option<string>, headers: SvixHeaders, verified: Option<Event>,
                            users: map<string, User>)
    requires !Truthy(secret)
    ensures Handle(secret, headers, verified, users) == (Raised(MissingSecretMessage), users)
  {
  }

  /** A missing or empty signature header is answered with the default status 200
      before verification: the verifier's verdict does not matter and the table is
      untouched. */
  lemma MissingHeadersAnswered(secret: Option<string>, headers: SvixHeaders, verified: Option<Event>,
                               users: map<string, User>)
    requires Truthy(secret)
    requires !Truthy(headers.id) || !Truthy(headers.timestamp) || !Truthy(headers.signature)
    ensures Handle(secret, headers, verified, users) == (Answered(NoHeadersResponse), users)
  {
  }

  /** A request that fails verification is answered 404 and writes nothing. */
  lemma VerificationFailureAnswered(secret: Option<string>, headers: SvixHeaders, users: map<string, User>)
    requires Truthy(secret) && HeadersPresent(headers)
    ensures Handle(secret, headers, None, users) == (Answered(VerifyFailedResponse), users)
  {
  }

  /** Every verified event type other than "user.created" is acknowledged with
      200 and writes nothing. */
  lemma OtherEventAcknowledged(secret: Option<string>, headers: SvixHeaders, e: Event, users: map<string, User>)
    requires Truthy(secret) && HeadersPresent(headers)
    requires e.eventType != UserCreated
    ensures Handle(secret, headers, Some(e), users) == (Answered(ReceivedResponse), users)
  {
  }

  /** A "user.created" event with no entry matching the primary id is answered 400
      and no insert is attempted. */
  lemma NoPrimaryEmailRejected(secret: Option<string>, headers: SvixHeaders, e: Event, users: map<string, User>)
    requires Truthy(secret) && HeadersPresent(headers) && e.eventType == UserCreated
    requires forall i :: 0 <= i < |e.data.emailAddresses| ==>
               e.data.emailAddresses[i].id != e.data.primaryEmailAddressId
    ensures Handle(secret, headers, Some(e), users) == (Answered(NoPrimaryEmailResponse), users)
  {
  }

  /** A "user.created" event whose primary email is the entry at index k (the first
      match) for an id not yet in the table adds exactly the row
      {id, that address, isSubscribed = false}, and nothing else changes. */
  lemma UserProvisioned(secret: Option<string>, headers: SvixHeaders, e: Event, users: map<string, User>, k: nat)
    requires Truthy(secret) && HeadersPresent(headers) && e.eventType == UserCreated
    requires k < |e.data.emailAddresses| && e.data.emailAddresses[k].id == e.data.primaryEmailAddressId
    requires forall j :: 0 <= j < k ==> e.data.emailAddresses[j].id != e.data.primaryEmailAddressId
    requires e.data.id !in users
    ensures Handle(secret, headers, Some(e), users)
         == (Answered(CreatedResponse),
             users[e.data.id := User(e.data.id, e.data.emailAddresses[k].emailAddress, false)])
  {
    FindPrimaryEmailIsFirst(e.data.emailAddresses, e.data.primaryEmailAddressId, k);
  }

  /** A "user.created" event for an id already in the table is answered 400 and
      leaves the table as it was. */
  lemma DuplicateUserRejected(secret: Option<string>, headers: SvixHeaders, e: Event, users: map<string, User>)
    requires Truthy(secret) && HeadersPresent(headers) && e.eventType == UserCreated
    requires FindPrimaryEmail(e.data.emailAddresses, e.data.primaryEmailAddressId).Some?
    requires e.data.id in users
    ensures Handle(secret, headers, Some(e), users) == (Answered(CreateFailedResponse), users)
  {
  }

  /** Delivering the same "user.created" event twice (the redelivery carrying its
      own timestamp and signature headers): the first delivery creates the row,
      the second is answered "Error creating user" and leaves exactly one row for
      that id. */
  lemma RedeliveryRejected(secret: Option<string>, headers: SvixHeaders,
                           secret2: Option<string>, headers2: SvixHeaders,
                           e: Event, users: map<string, User>)
    requires Truthy(secret) && HeadersPresent(headers) && e.eventType == UserCreated
    requires Truthy(secret2) && HeadersPresent(headers2)
    requires FindPrimaryEmail(e.data.emailAddresses, e.data.primaryEmailAddressId).Some?
    requires e.data.id !in users
    ensures Handle(secret, headers, Some(e), users).0 == Answered(CreatedResponse)
    ensures var after := Handle(secret, headers, Some(e), users).1;
            Handle(secret2, headers2, Some(e), after) == (Answered(CreateFailedResponse), after)
    ensures Handle(secret, headers, Some(e), users).1.Keys == users.Keys + {e.data.id}
  {
  }
}
