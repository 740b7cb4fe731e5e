/**
 * The older Worker build kept in the Wrangler dev bundle
 * (worker/.wrangler/tmp/dev-CuDjMT/index.js, its embedded `src/index.ts`):
 * strict e-mail pattern, fail-fast validation, every message appended to
 * one aggregate list under the KV key `contact_messages`, and an
 * unauthenticated listing.
 */
module WorkerBundle {
  import opened Wrappers
  import opened Http
  import opened EmailPatterns
  import Worker

  const MinMessageLength: nat := 10
  const MessagesKey: string := "contact_messages"
  const FallbackNotificationEmail: string := "jiviteshgd28@gmail.com"

  /** A stored message; `id` is `Date.now()` at acceptance. */
  datatype Record = Record(
    id: int, name: string, email: string, title: string, message: string,
    company: string, projectType: string, timestamp: string, read: bool)

  /** What `MESSAGES.get('contact_messages', 'json')` can find: an array
      of records, some other JSON value (null, an object, a number ...),
      or text that is not JSON at all. */
  datatype Stored = Records(list: seq<Record>) | NotArray | NotJson

  /** The list the handlers work on: a missing key or a non-array value
      counts as the empty list (`|| []`, `Array.isArray`); unparseable text
      makes the read throw (None). */
  function Loaded(m: map<string, Stored>): Option<seq<Record>> {
    if MessagesKey !in m then Some([])
    else match m[MessagesKey]
      case Records(l) => Some(l)
      case NotArray => Some([])
      case NotJson => None
  }

  /** `messages.filter(m => !m.read).length` */
  function CountUnread(l: seq<Record>): (n: nat)
    ensures n <= |l|
    ensures n == 0 <==> forall i | 0 <= i < |l| :: l[i].read
  {
    if l == [] then 0 else (if l[0].read then 0 else 1) + CountUnread(l[1..])
  }

  lemma {:induction false} CountUnreadAppend(l: seq<Record>, rec: Record)
    ensures CountUnread(l + [rec]) == CountUnread(l) + if rec.read then 0 else 1
  {
    if l != [] {
      assert (l + [rec])[1..] == l[1..] + [rec];
      CountUnreadAppend(l[1..], rec);
    }
  }

  /** The first rule a body breaks, in the handler's order, with its message. */
  function FirstError(f: map<string, string>): (r: Option<string>)
    ensures r == None <==>
      Worker.HasRequiredFields(f) && StrictEmail(f["email"]) && |f["message"]| >= MinMessageLength
    ensures r.Some? ==>
      r.value in {"All fields are required", "Invalid email format", "Message must be at least 10 characters"}
  {
    if !Worker.HasRequiredFields(f) then Some("All fields are required")
    else if !StrictEmail(f["email"]) then Some("Invalid email format")
    else if |f["message"]| < MinMessageLength then Some("Message must be at least 10 characters")
    else None
  }

  /** A body this build accepts is also accepted by the production worker,
      whose e-mail pattern is looser and which has no length floor. */
  lemma AcceptedByProductionWorker(f: map<string, string>)
    requires FirstError(f) == None
    ensures Worker.Acceptable(f)
  {
    StrictImpliesLoose(f["email"]);
  }

  /** ... while a short message with a one-letter top-level label passes
      the production worker and fails here. */
  lemma StricterThanProductionWorker()
    ensures var f := map["name" := "A", "email" := "a@b.c", "title" := "T", "message" := "hi"];
      Worker.Acceptable(f) && FirstError(f) == Some("Invalid email format")
  {
    LooseButNotStrict();
  }

  /** The record built from an accepted body: raw, untrimmed fields. */
  function NewRecord(f: map<string, string>, id: int, now: string): Record
    requires Worker.HasRequiredFields(f)
  {
    Record(id, f["name"], f["email"], f["title"], f["message"],
      OrEmpty(Member(f, "company")), OrEmpty(Member(f, "project_type")), now, false)
  }

  datatype Env = Env(resendApiKey: Option<string>, notificationEmail: Option<string>)

  /** `env.NOTIFICATION_EMAIL || 'jiviteshgd28@gmail.com'` */
  function NotifyTo(env: Env): string {
    if Truthy(env.notificationEmail) then env.notificationEmail.value else FallbackNotificationEmail
  }

  datatype Request = Request(verb: string, path: string, payload: Payload)

  datatype Body =
    | NoBody
    | Error(error: string)
    | Health(status: string, timestamp: string, emailConfigured: bool)
    | Created(data: Record, emailNotification: bool, confirmationSent: bool)
    | StaticData(name: string)
    | Listing(total: nat, unread: nat, messages: seq<Record>)

  datatype Response = Response(status: nat, body: Body)

  datatype Mail = Notification(to: string, record: Record) | Confirmation(to: string, record: Record)

  datatype Route = Preflight | HealthRoute | ContactRoute | ProjectsRoute | SkillsRoute | MessagesRoute | NotFound

  /** OPTIONS is answered before any path test; every other route needs its
      exact path and method. */
  function RouteOf(verb: string, path: string): Route {
    if verb == "OPTIONS" then Preflight
    else if path == "/api/health" && verb == "GET" then HealthRoute
    else if path == "/api/contact" && verb == "POST" then ContactRoute
    else if path == "/api/projects" && verb == "GET" then ProjectsRoute
    else if path == "/api/skills" && verb == "GET" then SkillsRoute
    else if path == "/api/messages" && verb == "GET" then MessagesRoute
    else NotFound
  }

  /** What `POST /api/contact` answers, leaves in the namespace (`m'`,
      starting from `m`) and mails, down the handler's ladder of checks. */
  ghost predicate ContactEffect(m: map<string, Stored>, env: Env, payload: Payload, id: int, now: string,
                                notified: bool, confirmed: bool,
                                r: Response, m': map<string, Stored>, mails: seq<Mail>)
  {
    if payload.Malformed? then
      r == Response(500, Error("Internal server error")) && m' == m && mails == []
    else if FirstError(payload.fields).Some? then
      r == Response(400, Error(FirstError(payload.fields).value)) && m' == m && mails == []
    else if Loaded(m).None? then
      r == Response(500, Error("Internal server error")) && m' == m && mails == []
    else
      var rec := NewRecord(payload.fields, id, now);
      && m' == m[MessagesKey := Records(Loaded(m).value + [rec])]
      && Loaded(m') == Some(Loaded(m).value + [rec])
      && r == Response(200, Created(rec, notified, confirmed))
      && mails == [Notification(NotifyTo(env), rec), Confirmation(rec.email, rec)]
  }

  /** What `GET /api/messages` answers for namespace `m`: the loaded list
      with its length and unread count, or 500 when the value is not JSON. */
  function ListingOf(m: map<string, Stored>): (r: Response)
    ensures r.status == 200 <==> Loaded(m).Some?
    ensures r.status != 200 ==> r == Response(500, Error("Internal server error"))
    ensures r.status == 200 ==>
      r.body.Listing? && r.body.messages == Loaded(m).value && r.body.total == |r.body.messages|
      && (r.body.unread == 0 <==> forall i | 0 <= i < |r.body.messages| :: r.body.messages[i].read)
  {
    match Loaded(m)
    case None => Response(500, Error("Internal server error"))
    case Some(l) => Response(200, Listing(|l|, CountUnread(l), l))
  }

  class Store {
    var entries: map<string, Stored>

    constructor ()
      ensures entries == map[]
    {
      entries := map[];
    }

    /** `POST /api/contact`. `notified` and `confirmed` are what the two
        `sendEmail` calls report. */
    method Contact(env: Env, payload: Payload, id: int, now: string, notified: bool, confirmed: bool)
      returns (r: Response, mails: seq<Mail>)
      modifies this
      ensures ContactEffect(old(entries), env, payload, id, now, notified, confirmed, r, entries, mails)
    {
      mails := [];
      if payload.Malformed? {
        return Response(500, Error("Internal server error")), [];
      }
      var data := payload.fields;
      if !Truthy(Member(data, "name")) || !Truthy(Member(data, "email"))
        || !Truthy(Member(data, "title")) || !Truthy(Member(data, "message")) {
        return Response(400, Error("All fields are required")), [];
      }
      if !StrictEmail(data["email"]) {
        return Response(400, Error("Invalid email format")), [];
      }
      if |data["message"]| < MinMessageLength {
        return Response(400, Error("Message must be at least 10 characters")), [];
      }
      var contactMessage := NewRecord(data, id, now);
      var existing := Loaded(entries);
      if existing.None? {
        return Response(500, Error("Internal server error")), [];
      }
      var messages := existing.value;
      messages := messages + [contactMessage];
      entries := entries[MessagesKey := Records(messages)];
      mails := [Notification(NotifyTo(env), contactMessage), Confirmation(data["email"], contactMessage)];
      r := Response(200, Created(contactMessage, notified, confirmed));
    }

    /** `GET /api/messages`: no credential is checked. */
    method Messages() returns (r: Response)
      ensures r == ListingOf(entries)
      ensures r.status == 200 ==> r.body.unread <= r.body.total
    {
      var stored := Loaded(entries);
      if stored.None? {
        return Response(500, Error("Internal server error"));
      }
      var messageArray := stored.value;
      r := Response(200, Listing(|messageArray|, CountUnread(messageArray), messageArray));
    }

    method Fetch(req: Request, env: Env, id: int, now: string, notified: bool, confirmed: bool)
      returns (r: Response, mails: seq<Mail>)
      modifies this
      ensures RouteOf(req.verb, req.path) == Preflight ==> r == Response(200, NoBody)
      ensures RouteOf(req.verb, req.path) == HealthRoute ==>
        r == Response(200, Health("healthy", now, Truthy(env.resendApiKey)))
      ensures RouteOf(req.verb, req.path) == ProjectsRoute ==> r == Response(200, StaticData("projects"))
      ensures RouteOf(req.verb, req.path) == SkillsRoute ==> r == Response(200, StaticData("skills"))
      ensures RouteOf(req.verb, req.path) == NotFound ==> r == Response(404, Error("Endpoint not found"))
      ensures RouteOf(req.verb, req.path) == MessagesRoute ==> r == ListingOf(entries)
      ensures RouteOf(req.verb, req.path) == ContactRoute ==>
        ContactEffect(old(entries), env, req.payload, id, now, notified, confirmed, r, entries, mails)
      ensures RouteOf(req.verb, req.path) != ContactRoute ==> entries == old(entries) && mails == []
      ensures r.status != 200 ==> entries == old(entries)
    {
      mails := [];
      match RouteOf(req.verb, req.path)
      case Preflight => r := Response(200, NoBody);
      case HealthRoute => r := Response(200, Health("healthy", now, Truthy(env.resendApiKey)));
      case ContactRoute => r, mails := Contact(env, req.payload, id, now, notified, confirmed);
      case ProjectsRoute => r := Response(200, StaticData("projects"));
      case SkillsRoute => r := Response(200, StaticData("skills"));
      case MessagesRoute => r := Messages();
      case NotFound => r := Response(404, Error("Endpoint not found"));
    }
  }

  /** After an accepted submission the listing reports one more message
      and one more unread message. */
  lemma ListingAfterAccept(l: seq<Record>, rec: Record)
    requires !rec.read
    ensures |l + [rec]| == |l| + 1
    ensures CountUnread(l + [rec]) == CountUnread(l) + 1
  {
    CountUnreadAppend(l, rec);
  }

  /** An empty store lists zero messages. */
  lemma EmptyStoreListsNothing()
    ensures Loaded(map[]) == Some([]) && CountUnread([]) == 0
  {
  }
}
