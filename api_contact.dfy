/**
 * The Vercel serverless contact handler (api/contact.py): an
 * error-collecting validator, then a ladder of status decisions ending in
 * one SMTP send whose outcome decides between 200 and 500.
 */
module ApiContact {
  import opened Wrappers
  import opened Http
  import opened Text
  import opened EmailPatterns

  const RequiredFields: seq<string> := ["name", "email", "message"]
  const MinMessageLength: nat := 5
  const MinNameLength: nat := 2

  /** Python `str.capitalize` on ASCII text: first letter upper case, the
      rest lower case. */
  function Capitalize(s: string): (r: string)
    ensures |r| == |s|
    ensures r != [] ==> !('a' <= r[0] <= 'z')
    ensures forall k | 1 <= k < |r| :: !('A' <= r[k] <= 'Z')
  {
    if s == [] then [] else [AsciiUpper(s[0])] + AsciiLowerAll(s[1..])
  }

  function AsciiUpper(c: char): char {
    if 'a' <= c <= 'z' then (c as int - 32) as char else c
  }

  function AsciiLowerAll(s: string): (r: string)
    ensures |r| == |s|
    ensures forall k | 0 <= k < |r| :: !('A' <= r[k] <= 'Z')
  {
    if s == [] then [] else [if 'A' <= s[0] <= 'Z' then (s[0] as int + 32) as char else s[0]] + AsciiLowerAll(s[1..])
  }

  lemma {:induction false} LowerOfLower(s: string)
    requires forall k | 0 <= k < |s| :: !('A' <= s[k] <= 'Z')
    ensures AsciiLowerAll(s) == s
  {
    if s != [] {
      LowerOfLower(s[1..]);
    }
  }

  /** `not data.get(field) or not data[field].strip()` for one member. */
  predicate BlankValue(v: Option<string>) {
    !Truthy(v) || PyStrip(v.value) == []
  }

  predicate Blank(f: map<string, string>, field: string) {
    BlankValue(Member(f, field))
  }

  /** One entry of the `errors` list. */
  datatype Violation = Required(field: string) | BadEmail | ShortMessage | ShortName {
    /** The text the handler reports for it. */
    function Message(): string {
      match this
      case Required(field) => Capitalize(field) + " is required"
      case BadEmail => "Invalid email format"
      case ShortMessage => "Message must be at least 5 characters long"
      case ShortName => "Name must be at least 2 characters long"
    }
  }

  /** One "is required" entry per blank field, in the order of `fields`. */
  function RequiredErrors(f: map<string, string>, fields: seq<string>): seq<Violation> {
    if fields == [] then [] else
      var last := fields[|fields| - 1];
      RequiredErrors(f, fields[..|fields| - 1]) + (if Blank(f, last) then [Required(last)] else [])
  }

  /** The format check, made only when the e-mail member is truthy, on its
      unstripped value. */
  function EmailCheck(email: Option<string>): seq<Violation> {
    if Truthy(email) && !PyStrictMatch(email.value) then [BadEmail] else []
  }

  function MessageCheck(message: Option<string>): seq<Violation> {
    if Truthy(message) && |PyStrip(message.value)| < MinMessageLength then [ShortMessage] else []
  }

  function NameCheck(name: Option<string>): seq<Violation> {
    if Truthy(name) && |PyStrip(name.value)| < MinNameLength then [ShortName] else []
  }

  /** Every rule a body breaks, in the order the validator reports them:
      required fields, then the e-mail format, then the message length,
      then the name length. */
  function Violations(f: map<string, string>): seq<Violation> {
    RequiredErrors(f, RequiredFields) + EmailCheck(Member(f, "email"))
    + MessageCheck(Member(f, "message")) + NameCheck(Member(f, "name"))
  }

  /** `validate_input`: a loop over the required fields appending one error
      per blank field, then the three conditional checks. */
  method ValidateInput(f: map<string, string>) returns (errors: seq<Violation>)
    ensures errors == Violations(f)
  {
    errors := [];
    var i := 0;
    while i < |RequiredFields|
      invariant 0 <= i <= |RequiredFields|
      invariant errors == RequiredErrors(f, RequiredFields[..i])
    {
      var field := RequiredFields[i];
      assert RequiredFields[..i + 1][..i] == RequiredFields[..i];
      if Blank(f, field) {
        errors := errors + [Required(field)];
      }
      i := i + 1;
    }
    assert RequiredFields[..i] == RequiredFields;
    ghost var required := errors;
    if Truthy(Member(f, "email")) && !PyStrictMatch(f["email"]) {
      errors := errors + [BadEmail];
    }
    assert errors == required + EmailCheck(Member(f, "email"));
    ghost var formatted := errors;
    if Truthy(Member(f, "message")) && |PyStrip(f["message"])| < MinMessageLength {
      errors := errors + [ShortMessage];
    }
    assert errors == formatted + MessageCheck(Member(f, "message"));
    ghost var measured := errors;
    if Truthy(Member(f, "name")) && |PyStrip(f["name"])| < MinNameLength {
      errors := errors + [ShortName];
    }
    assert errors == measured + NameCheck(Member(f, "name"));
  }

  /** `str.capitalize` of a lower-case word upper-cases its first letter. */
  lemma CapitalizeLower(c: char, rest: string)
    requires 'a' <= c <= 'z'
    requires forall k | 0 <= k < |rest| :: !('A' <= rest[k] <= 'Z')
    ensures Capitalize([c] + rest) == [(c as int - 32) as char] + rest
  {
    assert ([c] + rest)[1..] == rest;
    LowerOfLower(rest);
  }

  /** The labels in the three "is required" entries. */
  lemma NameLabel()
    ensures Capitalize("name") == "Name"
  {
    CapitalizeLower('n', "ame");
    assert "name" == ['n'] + "ame";
  }

  lemma EmailLabel()
    ensures Capitalize("email") == "Email"
  {
    CapitalizeLower('e', "mail");
    assert "email" == ['e'] + "mail";
  }

  lemma MessageLabel()
    ensures Capitalize("message") == "Message"
  {
    CapitalizeLower('m', "essage");
    assert "message" == ['m'] + "essage";
  }

  /** The three required-field entries, each present exactly when its field is blank. */
  lemma RequiredErrorsUnfold(f: map<string, string>)
    ensures RequiredErrors(f, RequiredFields) ==
      (if BlankValue(Member(f, "name")) then [Required("name")] else [])
      + (if BlankValue(Member(f, "email")) then [Required("email")] else [])
      + (if BlankValue(Member(f, "message")) then [Required("message")] else [])
  {
    var fs := RequiredFields;
    assert fs[..2][..1] == fs[..1] == ["name"] && fs[..2] == ["name", "email"] && fs[..1][..0] == [];
    assert RequiredErrors(f, fs[..1]) == if Blank(f, "name") then [Required("name")] else [];
  }

  /** A body is valid exactly when name, e-mail and message are present and
      not blank, the raw e-mail matches the strict pattern, the stripped
      message has at least five characters and the stripped name at least two. */
  lemma ValidIff(f: map<string, string>)
    ensures Violations(f) == [] <==>
      && !Blank(f, "name") && !Blank(f, "email") && !Blank(f, "message")
      && PyStrictMatch(f["email"])
      && |PyStrip(f["message"])| >= MinMessageLength
      && |PyStrip(f["name"])| >= MinNameLength
  {
    RequiredErrorsUnfold(f);
  }

  /** The title is neither required nor checked: bodies that differ only in
      their title have the same violations. */
  lemma TitleIgnored(f: map<string, string>, g: map<string, string>)
    requires forall k | k != "title" :: Member(g, k) == Member(f, k)
    ensures Violations(g) == Violations(f)
  {
    assert "name" != "title" && "message" != "title";
    assert "email" != "title" by { assert "email"[0] != "title"[0]; }
    assert Member(g, "name") == Member(f, "name");
    assert Member(g, "email") == Member(f, "email");
    assert Member(g, "message") == Member(f, "message");
    RequiredErrorsUnfold(f);
    RequiredErrorsUnfold(g);
  }

  /** An e-mail member made only of white space is reported twice: as
      missing, and as badly formed, because the format check sees the
      unstripped value. */
  lemma BlankEmailReportedTwice(f: map<string, string>)
    requires "email" in f && f["email"] != [] && AllSpace(f["email"], PySpaces)
    ensures Required("email") in Violations(f) && BadEmail in Violations(f)
  {
    TrimEmptyIffBlank(f["email"], PySpaces);
    BlankNotStrict(f["email"]);
    RequiredErrorsUnfold(f);
  }

  /** An empty object collects the three "is required" entries and nothing else. */
  lemma EmptyBodyErrors()
    ensures Violations(map[]) == [Required("name"), Required("email"), Required("message")]
  {
    RequiredErrorsUnfold(map[]);
  }

  /** A string that neither starts nor ends with white space strips to itself. */
  lemma StripUnpadded(s: string)
    requires s != [] && !IsPySpace(s[0]) && !IsPySpace(s[|s| - 1])
    ensures PyStrip(s) == s
  {
  }

  /** The request the repository's test script sends, which has no title, is valid. */
  lemma TestRequestValid()
    ensures Violations(map["name" := "Test User", "email" := "test@example.com",
      "message" := "This is a test message"]) == []
  {
    var f := map["name" := "Test User", "email" := "test@example.com",
      "message" := "This is a test message"];
    assert "name" != "email" by { assert |"name"| != |"email"|; }
    assert "name" != "message" by { assert |"name"| != |"message"|; }
    assert "email" != "message" by { assert |"email"| != |"message"|; }
    assert Member(f, "name") == Some("Test User");
    assert Member(f, "email") == Some("test@example.com");
    assert Member(f, "message") == Some("This is a test message");
    TestNamePasses();
    TestMessagePasses();
    TestAddressPasses();
    RequiredErrorsUnfold(f);
  }

  lemma TestNamePasses()
    ensures !BlankValue(Some("Test User")) && NameCheck(Some("Test User")) == []
  {
    StripUnpadded("Test User");
  }

  lemma TestMessagePasses()
    ensures !BlankValue(Some("This is a test message")) && MessageCheck(Some("This is a test message")) == []
  {
    StripUnpadded("This is a test message");
  }

  lemma TestAddressPasses()
    ensures !BlankValue(Some("test@example.com")) && EmailCheck(Some("test@example.com")) == []
  {
    StripUnpadded("test@example.com");
    TestAddressMatches();
  }

  lemma TestAddressMatches()
    ensures PyStrictMatch("test@example.com")
  {
    assert StrictSplit("test@example.com", 4, 12);
  }

  /** The three stripped values handed to `send_email`. */
  datatype SmtpMail = SmtpMail(name: string, email: string, message: string)

  datatype Body =
    | EmptyObject
    | Outcome(success: bool, message: string)
    | Invalid(errors: seq<Violation>)

  datatype Response = Response(status: nat, body: Body)

  const ServerError: Response := Response(500, Outcome(false, "An error occurred. Please try again later."))
  const NoData: Response := Response(400, Outcome(false, "No data received"))
  const Sent: Response := Response(200, Outcome(true, "Message sent successfully!"))
  const NotSent: Response := Response(500, Outcome(false, "Failed to send message. Please try again later."))

  /** What an accepted body makes the handler send. */
  function MailFor(f: map<string, string>): SmtpMail {
    SmtpMail(PyStrip(Field(f, "name")), PyStrip(Field(f, "email")), PyStrip(Field(f, "message")))
  }

  /** What is mailed meets the length floors and is never blank. */
  lemma MailedFieldsMeetFloors(f: map<string, string>)
    requires Violations(f) == []
    ensures |MailFor(f).name| >= MinNameLength
    ensures |MailFor(f).email| > 0
    ensures |MailFor(f).message| >= MinMessageLength
  {
    ValidIff(f);
  }

  /** `handler(request)`; `sendOk` is what `send_email` returns. */
  method Handler(verb: string, payload: Payload, sendOk: bool) returns (r: Response, mail: Option<SmtpMail>)
    ensures verb == "OPTIONS" ==> r == Response(200, EmptyObject) && mail == None
    ensures verb != "OPTIONS" && verb != "POST" ==>
      r == Response(405, Outcome(false, "Method not allowed")) && mail == None
    ensures verb == "POST" && payload.Malformed? ==> r == ServerError && mail == None
    ensures verb == "POST" && payload == Object(map[]) ==> r == NoData && mail == None
    ensures verb == "POST" && payload.Object? && payload.fields != map[] && Violations(payload.fields) != [] ==>
      r == Response(400, Invalid(Violations(payload.fields))) && mail == None
    ensures verb == "POST" && payload.Object? && payload.fields != map[] && Violations(payload.fields) == [] ==>
      mail == Some(MailFor(payload.fields)) && r == (if sendOk then Sent else NotSent)
  {
    mail := None;
    if verb == "OPTIONS" {
      return Response(200, EmptyObject), None;
    }
    if verb != "POST" {
      return Response(405, Outcome(false, "Method not allowed")), None;
    }
    if payload.Malformed? {
      return ServerError, None;
    }
    var data := payload.fields;
    if data == map[] {
      return NoData, None;
    }
    var errors := ValidateInput(data);
    if errors != [] {
      return Response(400, Invalid(errors)), None;
    }
    ValidIff(data);
    var name := PyStrip(data["name"]);
    var email := PyStrip(data["email"]);
    var message := PyStrip(data["message"]);
    mail := Some(SmtpMail(name, email, message));
    r := if sendOk then Sent else NotSent;
  }
}
