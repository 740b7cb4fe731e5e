/**
 * The production Cloudflare Worker (worker/src/index.ts): a request router
 * over one KV namespace that holds rate-limit counters (`rate:<ip>`),
 * contact records (`contact:<id>`) and analytics counters
 * (`analytics:<day>:<event>`).
 */
module Worker {
  import opened Wrappers
  import opened Http
  import opened Text
  import opened Decimal
  import opened EmailPatterns

  /** Default cap of `sanitize`, used for the message body. */
  const MessageCap: nat := 2000
  /** A stored count above this rejects the request. */
  const RateThreshold: nat := 10

  // ------------------------------------------------------------ sanitize

  /** `sanitize(text, max)`: drop angle brackets, trim, keep at most `max`
      characters. */
  function Sanitize(text: string, max: nat): (r: string)
    ensures '<' !in r && '>' !in r
    ensures |r| <= max
    ensures r == [] || !IsJsSpace(r[0])
    ensures r <= JsTrim(StripBrackets(text))
    ensures |r| == max || r == JsTrim(StripBrackets(text))
    ensures forall c :: c in r ==> c in text
  {
    var t := JsTrim(StripBrackets(text));
    TrimSubset(StripBrackets(text), JsSpaces);
    var r := Take(t, max);
    assert forall c :: c in r ==> c in t;
    r
  }

  /** Sanitising is not idempotent: truncation can expose trailing white
      space, which a second pass trims. */
  lemma SanitizeNotIdempotent()
    ensures Sanitize("a b", 2) == "a "
    ensures Sanitize(Sanitize("a b", 2), 2) == "a"
  {
    assert !IsJsSpace('a') && !IsJsSpace('b') && IsJsSpace(' ');
    assert StripBrackets("a b") == "a b";
    assert JsTrim("a b") == "a b";
    assert Sanitize("a b", 2) == "a ";
    assert StripBrackets("a ") == "a ";
    assert ("a ")[..1] == "a";
    assert JsTrim("a ") == "a";
  }

  /** When nothing was cut off, sanitising again changes nothing. */
  lemma SanitizeIdempotentUntruncated(text: string, max: nat)
    requires |JsTrim(StripBrackets(text))| <= max
    ensures Sanitize(Sanitize(text, max), max) == Sanitize(text, max)
  {
    var r := Sanitize(text, max);
    StripBracketsOfClean(r);
    TrimIdempotent(StripBrackets(text), JsSpaces);
  }

  /** The presence check runs on the raw field, so a name made only of
      brackets is accepted and stored empty. */
  lemma BracketsOnlySanitizeToEmpty()
    ensures Sanitize("<>", 100) == ""
  {
    assert StripBrackets("<>") == StripBrackets(">") == "";
  }

  // --------------------------------------------------------------- store

  datatype Record = Record(
    id: string, name: string, email: string, title: string, message: string,
    company: string, projectType: string, timestamp: string, read: bool)

  /** A KV value: a plain string (the counters) or the JSON text of a
      contact record, represented by the record it encodes. */
  datatype KvValue = Str(s: string) | Stored(record: Record)

  function RateKey(ip: string): string { "rate:" + ip }

  function ContactKey(id: string): string { "contact:" + id }

  function AnalyticsKey(day: string, event: string): string { "analytics:" + day + ":" + event }

  predicate IsContactKey(k: string) { "contact:" <= k }

  /** The keys `list({ prefix: 'contact:' })` enumerates. */
  function ContactKeys(m: map<string, KvValue>): set<string> {
    set k | k in m && IsContactKey(k)
  }

  /** The part of the store that the message listing can see. */
  function ContactView(m: map<string, KvValue>): map<string, KvValue> {
    map k | k in m && IsContactKey(k) :: m[k]
  }

  predicate IsUnread(v: KvValue) { v.Stored? && !v.record.read }

  function UnreadIn(m: map<string, KvValue>, keys: set<string>): set<string> {
    set k | k in keys && k in m && IsUnread(m[k])
  }

  /** `Number((await get(key)) || 0)`: a missing key reads as 0. */
  function CountAt(m: map<string, KvValue>, key: string): Number {
    if key !in m then Num(0)
    else match m[key]
      case Str(s) => JsNumber(s)
      case Stored(_) => NaN
  }

  /** `count > 10`; NaN compares false. */
  predicate Exceeds(v: Number) { v.Num? && v.n > RateThreshold }

  /** `String(count + 1)` */
  function Bumped(v: Number): KvValue { Str(JsString(Successor(v))) }

  /** The store after one `rateLimit(ip)` call. */
  function RateLimited(m: map<string, KvValue>, ip: string): map<string, KvValue> {
    var c := CountAt(m, RateKey(ip));
    if Exceeds(c) then m else m[RateKey(ip) := Bumped(c)]
  }

  /** Counter, contact and analytics keys never collide. */
  lemma KeySpaces(ip: string, id: string, day: string, event: string)
    ensures !IsContactKey(RateKey(ip)) && !IsContactKey(AnalyticsKey(day, event))
    ensures IsContactKey(ContactKey(id))
    ensures RateKey(ip) != AnalyticsKey(day, event)
  {
    assert RateKey(ip)[0] == 'r';
    assert AnalyticsKey(day, event)[0] == 'a';
  }

  /** Writing a key outside the `contact:` prefix leaves the listing's view alone. */
  lemma ContactViewIgnores(m: map<string, KvValue>, key: string, v: KvValue)
    requires !IsContactKey(key)
    ensures ContactView(m[key := v]) == ContactView(m)
  {
  }

  /** `rateLimit` touches no key but the client's counter, and so no contact record. */
  lemma RateLimitedFrame(m: map<string, KvValue>, ip: string)
    ensures forall k | k != RateKey(ip) :: (k in RateLimited(m, ip) <==> k in m)
    ensures forall k | k in m && k != RateKey(ip) :: RateLimited(m, ip)[k] == m[k]
    ensures ContactView(RateLimited(m, ip)) == ContactView(m)
  {
    KeySpaces(ip, "", "", "");
    var c := CountAt(m, RateKey(ip));
    if !Exceeds(c) { ContactViewIgnores(m, RateKey(ip), Bumped(c)); }
  }

  /** `n` consecutive `rateLimit(ip)` calls. */
  function RateRun(m: map<string, KvValue>, ip: string, n: nat): map<string, KvValue> {
    if n == 0 then m else RateLimited(RateRun(m, ip, n - 1), ip)
  }

  lemma {:induction false} RateRunCounts(ip: string, n: nat)
    requires n <= RateThreshold + 1
    ensures CountAt(RateRun(map[], ip, n), RateKey(ip)) == Num(n)
  {
    if n > 0 {
      RateRunCounts(ip, n - 1);
      DecimalRoundTrip(n);
    }
  }

  /** From an empty store the first eleven calls for one client are allowed
      (each finds a count of at most 10) and the twelfth is rejected, leaving
      the store as it was. */
  lemma ElevenAllowedThenRejected(ip: string)
    ensures forall n: nat | n <= RateThreshold :: !Exceeds(CountAt(RateRun(map[], ip, n), RateKey(ip)))
    ensures Exceeds(CountAt(RateRun(map[], ip, RateThreshold + 1), RateKey(ip)))
    ensures RateRun(map[], ip, RateThreshold + 2) == RateRun(map[], ip, RateThreshold + 1)
  {
    forall n: nat | n <= RateThreshold
      ensures !Exceeds(CountAt(RateRun(map[], ip, n), RateKey(ip)))
    {
      RateRunCounts(ip, n);
    }
    RateRunCounts(ip, RateThreshold + 1);
  }

  /** A counter that does not read as a number (NaN) never rejects, and
      stays NaN. */
  lemma NaNCounterNeverLimits(m: map<string, KvValue>, ip: string)
    requires RateKey(ip) in m && m[RateKey(ip)] == Str("NaN")
    ensures !Exceeds(CountAt(m, RateKey(ip)))
    ensures RateLimited(m, ip) == m
  {
    assert !IsDigit("NaN"[0]);
  }

  /** Any other counter text that is not a number reads as NaN too, and the
      limiter rewrites it as the text "NaN", which then never limits. */
  lemma NonNumericCounterBecomesNaN(m: map<string, KvValue>, ip: string, text: string)
    requires RateKey(ip) in m && m[RateKey(ip)] == Str(text) && JsNumber(text) == NaN
    ensures !Exceeds(CountAt(m, RateKey(ip)))
    ensures RateLimited(m, ip) == m[RateKey(ip) := Str("NaN")]
    ensures RateLimited(RateLimited(m, ip), ip) == RateLimited(m, ip)
  {
    NaNCounterNeverLimits(m[RateKey(ip) := Str("NaN")], ip);
  }

  // ---------------------------------------------------------- requests

  datatype Env = Env(adminKey: Option<string>, notificationEmail: string)

  datatype Request = Request(
    verb: string, path: string, adminKeyHeader: Option<string>,
    connectingIp: Option<string>, payload: Payload)

  datatype Body =
    | NoBody
    | Error(error: string)
    | Health(status: string, time: string)
    | Success
    | Listing(total: nat, unread: nat, messages: seq<Record>)
    | Tracked

  datatype Response = Response(status: nat, body: Body)

  /** The two `sendEmail` calls, in order; their results are ignored. */
  datatype Mail = Notification(to: string, record: Record) | Confirmation(to: string, record: Record)

  /** `CF-Connecting-IP || 'unknown'` */
  function ClientIp(h: Option<string>): string {
    if Truthy(h) then h.value else "unknown"
  }

  /** None of `!body.name || !body.email || !body.title || !body.message` holds. */
  predicate HasRequiredFields(f: map<string, string>) {
    Truthy(Member(f, "name")) && Truthy(Member(f, "email")) &&
    Truthy(Member(f, "title")) && Truthy(Member(f, "message"))
  }

  /** A body the contact handler stores. */
  predicate Acceptable(f: map<string, string>) {
    HasRequiredFields(f) && LooseEmail(f["email"])
  }

  /** Within its cap and free of angle brackets. */
  predicate Safe(s: string, cap: nat) {
    |s| <= cap && '<' !in s && '>' !in s
  }

  /** The stored record: every field sanitised with its own cap. */
  function NewRecord(f: map<string, string>, id: string, now: string): (r: Record)
    requires HasRequiredFields(f)
    ensures r.id == id && r.timestamp == now && !r.read
    ensures Safe(r.name, 100) && Safe(r.email, 150) && Safe(r.title, 150)
    ensures Safe(r.message, MessageCap) && Safe(r.company, 100) && Safe(r.projectType, 50)
  {
    Record(id,
      Sanitize(f["name"], 100), Sanitize(f["email"], 150), Sanitize(f["title"], 150),
      Sanitize(f["message"], MessageCap),
      Sanitize(OrEmpty(Member(f, "company")), 100),
      Sanitize(OrEmpty(Member(f, "project_type")), 50),
      now, false)
  }

  /** `(new Date()).toISOString().slice(0, 10)` */
  function Day(now: string): string { Take(now, 10) }

  /** The event name as the template literal renders it. */
  function EventName(f: map<string, string>): string {
    if "event" in f then f["event"] else "undefined"
  }

  predicate Authorized(h: Option<string>, env: Env) {
    h.Some? && env.adminKey == h
  }

  lemma UnreadInAdd(m: map<string, KvValue>, keys: set<string>, k: string)
    requires k in m && k !in keys
    ensures |UnreadIn(m, keys + {k})| == |UnreadIn(m, keys)| + if IsUnread(m[k]) then 1 else 0
  {
    if IsUnread(m[k]) {
      assert UnreadIn(m, keys + {k}) == UnreadIn(m, keys) + {k};
    } else {
      assert UnreadIn(m, keys + {k}) == UnreadIn(m, keys);
    }
  }

  /** `order` lists every `contact:` key once, and `messages` holds their
      records in that order. */
  ghost predicate ListingOrder(m: map<string, KvValue>, order: seq<string>, messages: seq<Record>) {
    && |order| == |messages|
    && (forall i | 0 <= i < |order| :: order[i] in ContactKeys(m) && m[order[i]] == Stored(messages[i]))
    && (forall k | k in ContactKeys(m) :: k in order)
    && (forall i, j | 0 <= i < j < |order| :: order[i] != order[j])
  }

  predicate AllRecords(m: map<string, KvValue>) {
    forall k | k in ContactKeys(m) :: m[k].Stored?
  }

  datatype Route = Preflight | HealthRoute | ContactRoute | MessagesRoute | AnalyticsRoute | NotFound

  /** The order of the router's tests: OPTIONS first on any path; health
      and messages on any method; contact and analytics only on POST. */
  function RouteOf(verb: string, path: string): Route {
    if verb == "OPTIONS" then Preflight
    else if path == "/api/health" then HealthRoute
    else if path == "/api/contact" && verb == "POST" then ContactRoute
    else if path == "/api/messages" then MessagesRoute
    else if path == "/api/analytics" && verb == "POST" then AnalyticsRoute
    else NotFound
  }

  /** A record stored by an accepted submission is new to the listing:
      with a fresh id, the listing gains exactly one message and one unread. */
  lemma AcceptedAddsOneUnread(m: map<string, KvValue>, ip: string, id: string, rec: Record)
    requires ContactKey(id) !in m
    requires !rec.read
    ensures var m' := RateLimited(m, ip)[ContactKey(id) := Stored(rec)];
      && ContactKeys(m') == ContactKeys(m) + {ContactKey(id)}
      && |ContactKeys(m')| == |ContactKeys(m)| + 1
      && UnreadIn(m', ContactKeys(m')) == UnreadIn(m, ContactKeys(m)) + {ContactKey(id)}
      && |UnreadIn(m', ContactKeys(m'))| == |UnreadIn(m, ContactKeys(m))| + 1
  {
    var r := RateLimited(m, ip);
    RateLimitedFrame(m, ip);
    KeySpaces(ip, id, "", "");
    SameViewSameListing(r, m);
    AddContactKey(r, ContactKey(id), Stored(rec));
    AddUnreadKey(r, ContactKey(id), Stored(rec));
    assert ContactKey(id) !in ContactKeys(m);
    assert ContactKey(id) !in UnreadIn(m, ContactKeys(m));
  }

  /** Two stores with the same `contact:` entries list the same messages. */
  lemma SameViewSameListing(m1: map<string, KvValue>, m2: map<string, KvValue>)
    requires ContactView(m1) == ContactView(m2)
    ensures ContactKeys(m1) == ContactKeys(m2)
    ensures UnreadIn(m1, ContactKeys(m1)) == UnreadIn(m2, ContactKeys(m2))
  {
    assert forall k :: k in ContactKeys(m1) <==> k in ContactView(m1);
    assert forall k :: k in ContactKeys(m2) <==> k in ContactView(m2);
    forall k | k in ContactKeys(m1) ensures m1[k] == m2[k] {
      assert m1[k] == ContactView(m1)[k];
    }
  }

  /** Storing a value under a new `contact:` key adds that key to the listing ... */
  lemma AddContactKey(m: map<string, KvValue>, k: string, v: KvValue)
    requires IsContactKey(k) && k !in m
    ensures ContactKeys(m[k := v]) == ContactKeys(m) + {k}
  {
  }

  /** ... and to the unread keys when the value is an unread record. */
  lemma AddUnreadKey(m: map<string, KvValue>, k: string, v: KvValue)
    requires IsContactKey(k) && k !in m
    ensures UnreadIn(m[k := v], ContactKeys(m[k := v])) ==
      UnreadIn(m, ContactKeys(m)) + (if IsUnread(v) then {k} else {})
  {
    AddContactKey(m, k, v);
  }

  /** The loop's progress: `order` lists the keys of `done` once each, and
      `messages` the records stored under them, position by position. */
  ghost predicate Gathered(m: map<string, KvValue>, done: set<string>, order: seq<string>, messages: seq<Record>) {
    && |done| == |order| == |messages|
    && (forall i | 0 <= i < |order| :: order[i] in done && order[i] in m && m[order[i]] == Stored(messages[i]))
    && (forall k | k in done :: k in order)
    && (forall i, j | 0 <= i < j < |order| :: order[i] != order[j])
  }

  lemma GatheredStep(m: map<string, KvValue>, done: set<string>, order: seq<string>, messages: seq<Record>,
                     k: string, rec: Record)
    requires Gathered(m, done, order, messages) && k !in done && k in m && m[k] == Stored(rec)
    ensures Gathered(m, done + {k}, order + [k], messages + [rec])
  {
    assert k !in order;
  }

  lemma GatheredAll(m: map<string, KvValue>, order: seq<string>, messages: seq<Record>)
    requires Gathered(m, ContactKeys(m), order, messages)
    ensures ListingOrder(m, order, messages) && |messages| == |ContactKeys(m)| && AllRecords(m)
  {
  }

  /** What `POST /api/contact` answers, leaves in the namespace (`m'`,
      starting from `m`) and mails, down the handler's ladder of checks. */
  ghost predicate ContactEffect(m: map<string, KvValue>, env: Env, connectingIp: Option<string>,
                                payload: Payload, id: string, now: string,
                                r: Response, m': map<string, KvValue>, mails: seq<Mail>)
  {
    var ip := ClientIp(connectingIp);
    if Exceeds(CountAt(m, RateKey(ip))) then
      r == Response(429, Error("Too many requests")) && m' == m && mails == []
    else if payload.Malformed? then
      r == Response(500, Error("Server error")) && m' == RateLimited(m, ip) && mails == []
    else if !HasRequiredFields(payload.fields) then
      r == Response(400, Error("Missing fields")) && m' == RateLimited(m, ip) && mails == []
    else if !LooseEmail(payload.fields["email"]) then
      r == Response(400, Error("Invalid email")) && m' == RateLimited(m, ip) && mails == []
    else
      var rec := NewRecord(payload.fields, id, now);
      && r == Response(200, Success)
      && m' == RateLimited(m, ip)[ContactKey(id) := Stored(rec)]
      && mails == [Notification(env.notificationEmail, rec), Confirmation(rec.email, rec)]
  }

  /** What `/api/messages` answers for namespace `m`; `order` is the order in
      which the keys were read. */
  ghost predicate MessagesAnswer(m: map<string, KvValue>, adminKeyHeader: Option<string>, env: Env,
                                 r: Response, order: seq<string>)
  {
    if !Authorized(adminKeyHeader, env) then r == Response(401, Error("Unauthorized"))
    else if !AllRecords(m) then r == Response(500, Error("Server error"))
    else
      && r.status == 200 && r.body.Listing?
      && r.body.total == |r.body.messages| == |ContactKeys(m)|
      && r.body.unread == |UnreadIn(m, ContactKeys(m))|
      && ListingOrder(m, order, r.body.messages)
  }

  /** What `POST /api/analytics` answers and leaves in the namespace. */
  ghost predicate AnalyticsEffect(m: map<string, KvValue>, payload: Payload, now: string,
                                  r: Response, m': map<string, KvValue>)
  {
    if payload.Malformed? then r == Response(500, Error("Server error")) && m' == m
    else
      var key := AnalyticsKey(Day(now), EventName(payload.fields));
      r == Response(200, Tracked) && m' == m[key := Bumped(CountAt(m, key))]
  }

  class Store {
    var entries: map<string, KvValue>

    constructor ()
      ensures entries == map[]
    {
      entries := map[];
    }

    /** `rateLimit(env, ip)` */
    method RateLimit(ip: string) returns (allowed: bool)
      modifies this
      ensures allowed == !Exceeds(CountAt(old(entries), RateKey(ip)))
      ensures entries == RateLimited(old(entries), ip)
    {
      var key := RateKey(ip);
      var count := if key in entries then (match entries[key] case Str(s) => JsNumber(s) case Stored(_) => NaN) else Num(0);
      if count.Num? && count.n > RateThreshold {
        return false;
      }
      entries := entries[key := Str(JsString(Successor(count)))];
      allowed := true;
    }

    /** `POST /api/contact` */
    method Contact(env: Env, connectingIp: Option<string>, payload: Payload, id: string, now: string)
      returns (r: Response, mails: seq<Mail>)
      modifies this
      ensures ContactEffect(old(entries), env, connectingIp, payload, id, now, r, entries, mails)
      ensures r.status == 200 <==>
        !Exceeds(CountAt(old(entries), RateKey(ClientIp(connectingIp)))) && payload.Object? && Acceptable(payload.fields)
      ensures r.status != 200 ==> ContactView(entries) == ContactView(old(entries))
    {
      var ip := ClientIp(connectingIp);
      RateLimitedFrame(entries, ip);
      var allowed := RateLimit(ip);
      mails := [];
      if !allowed {
        return Response(429, Error("Too many requests")), [];
      }
      if payload.Malformed? {
        return Response(500, Error("Server error")), [];
      }
      var body := payload.fields;
      if !Truthy(Member(body, "name")) || !Truthy(Member(body, "email"))
        || !Truthy(Member(body, "title")) || !Truthy(Member(body, "message")) {
        return Response(400, Error("Missing fields")), [];
      }
      if !LooseEmail(body["email"]) {
        return Response(400, Error("Invalid email")), [];
      }
      var message := NewRecord(body, id, now);
      entries := entries[ContactKey(id) := Stored(message)];
      mails := [Notification(env.notificationEmail, message), Confirmation(message.email, message)];
      r := Response(200, Success);
    }

    /** `GET /api/messages` (any method): enumerate every `contact:` key. */
    method Messages(adminKeyHeader: Option<string>, env: Env) returns (r: Response, ghost order: seq<string>)
      ensures MessagesAnswer(entries, adminKeyHeader, env, r, order)
    {
      order := [];
      if !(adminKeyHeader.Some? && env.adminKey == adminKeyHeader) {
        return Response(401, Error("Unauthorized")), [];
      }
      var ok, messages, unread;
      ok, messages, unread, order := Collect();
      if !ok {
        return Response(500, Error("Server error")), order;
      }
      r := Response(200, Listing(|messages|, unread, messages));
    }

    /** Reads and parses every `contact:` record, counting the unread ones. */
    method Collect() returns (ok: bool, messages: seq<Record>, unread: nat, ghost order: seq<string>)
      ensures ok == AllRecords(entries)
      ensures ok ==>
        && |messages| == |ContactKeys(entries)|
        && unread == |UnreadIn(entries, ContactKeys(entries))|
        && ListingOrder(entries, order, messages)
    {
      var m := entries;
      var keys := ContactKeys(m);
      var todo := keys;
      ghost var done: set<string> := {};
      messages, unread, order := [], 0, [];
      while todo != {}
        invariant todo + done == keys && todo !! done
        invariant Gathered(m, done, order, messages)
        invariant unread == |UnreadIn(m, done)|
        decreases |todo|
      {
        var k :| k in todo;
        match m[k]
        case Str(_) =>
          assert !AllRecords(m) by { assert k in ContactKeys(m); }
          return false, messages, unread, order;
        case Stored(rec) =>
          UnreadInAdd(m, done, k);
          GatheredStep(m, done, order, messages, k, rec);
          if !rec.read {
            unread := unread + 1;
          }
          messages := messages + [rec];
          order := order + [k];
          todo := todo - {k};
          done := done + {k};
      }
      GatheredAll(m, order, messages);
      ok := true;
    }

    /** `POST /api/analytics`: bump the per-day, per-event counter. */
    method Analytics(payload: Payload, now: string) returns (r: Response)
      modifies this
      ensures AnalyticsEffect(old(entries), payload, now, r, entries)
      ensures ContactView(entries) == ContactView(old(entries))
    {
      if payload.Malformed? {
        return Response(500, Error("Server error"));
      }
      var key := AnalyticsKey(Day(now), EventName(payload.fields));
      KeySpaces("", "", Day(now), EventName(payload.fields));
      ContactViewIgnores(entries, key, Bumped(CountAt(entries, key)));
      var count := CountAt(entries, key);
      entries := entries[key := Str(JsString(Successor(count)))];
      r := Response(200, Tracked);
    }

    /** The router: `fetch(req, env)`. */
    method Fetch(req: Request, env: Env, id: string, now: string) returns (r: Response, mails: seq<Mail>)
      modifies this
      ensures RouteOf(req.verb, req.path) == Preflight ==> r == Response(200, NoBody) && entries == old(entries)
      ensures RouteOf(req.verb, req.path) == HealthRoute ==> r == Response(200, Health("ok", now)) && entries == old(entries)
      ensures RouteOf(req.verb, req.path) == NotFound ==> r == Response(404, Error("Not found")) && entries == old(entries)
      ensures RouteOf(req.verb, req.path) == MessagesRoute ==>
        entries == old(entries) && exists order :: MessagesAnswer(entries, req.adminKeyHeader, env, r, order)
      ensures RouteOf(req.verb, req.path) == AnalyticsRoute ==> AnalyticsEffect(old(entries), req.payload, now, r, entries)
      ensures RouteOf(req.verb, req.path) == ContactRoute ==>
        ContactEffect(old(entries), env, req.connectingIp, req.payload, id, now, r, entries, mails)
      ensures RouteOf(req.verb, req.path) != ContactRoute ==> mails == []
      ensures r.status != 200 || RouteOf(req.verb, req.path) != ContactRoute ==>
        ContactView(entries) == ContactView(old(entries))
    {
      mails := [];
      match RouteOf(req.verb, req.path)
      case Preflight =>
        r := Response(200, NoBody);
      case HealthRoute =>
        r := Response(200, Health("ok", now));
      case ContactRoute =>
        r, mails := Contact(env, req.connectingIp, req.payload, id, now);
      case MessagesRoute =>
        ghost var order;
        r, order := Messages(req.adminKeyHeader, env);
        assert MessagesAnswer(entries, req.adminKeyHeader, env, r, order);
      case AnalyticsRoute =>
        r := Analytics(req.payload, now);
      case NotFound =>
        r := Response(404, Error("Not found"));
    }
  }
}
