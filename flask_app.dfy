/**
 * The Flask development backend (app.py). Its message file is loaded,
 * changed and saved by every handler; here it is the list held by a
 * `MessageLog` object, which the handlers change in place.
 */
module FlaskApp {
  import opened Wrappers
  import opened Http
  import opened Text
  import opened EmailPatterns
  import opened Seqs

  const MinMessageLength: nat := 10

  /** A stored message; `id` is the submission time in milliseconds. */
  datatype Record = Record(
    id: int, name: string, email: string, title: string, message: string,
    timestamp: string, read: bool)

  datatype Body =
    | Error(error: string)
    | Created(data: Record)
    | Listing(total: nat, messages: seq<Record>)
    | Done(message: string)

  datatype Response = Response(status: nat, body: Body)

  /** `data.get(key, '').strip()` */
  function Stripped(f: map<string, string>, key: string): string {
    PyStrip(Field(f, key))
  }

  /** The first rule a body breaks, in the handler's order. */
  function FirstError(f: map<string, string>): Option<string> {
    if f == map[] then Some("No data provided")
    else if Stripped(f, "name") == [] || Stripped(f, "email") == []
      || Stripped(f, "title") == [] || Stripped(f, "message") == []
    then Some("All fields are required")
    else if !PyStrictMatch(Stripped(f, "email")) then Some("Invalid email format")
    else if |Stripped(f, "message")| < MinMessageLength then Some("Message must be at least 10 characters")
    else None
  }

  /** The record stored for an accepted body: the stripped fields. */
  function NewRecord(f: map<string, string>, id: int, now: string): Record {
    Record(id, Stripped(f, "name"), Stripped(f, "email"), Stripped(f, "title"),
      Stripped(f, "message"), now, false)
  }

  /** No white space at either end. */
  predicate Clean(s: string) {
    s != [] && !IsPySpace(s[0]) && !IsPySpace(s[|s| - 1])
  }

  /** A stripped member that is not empty has no surrounding white space. */
  lemma StrippedIsClean(f: map<string, string>, key: string)
    requires Stripped(f, key) != []
    ensures Clean(Stripped(f, key))
  {
    TrimEnds(Field(f, key), PySpaces);
  }

  /** What is stored for an accepted body: every field non-empty and without
      surrounding white space, an e-mail address of the strict shape (the
      Python trailing-newline allowance cannot apply to a stripped value),
      and a message of at least ten characters. */
  lemma AcceptedRecordIsClean(f: map<string, string>, id: int, now: string)
    requires FirstError(f) == None
    ensures var rec := NewRecord(f, id, now);
      && Clean(rec.name) && Clean(rec.email) && Clean(rec.title) && Clean(rec.message)
      && StrictEmail(rec.email) && |rec.message| >= MinMessageLength && !rec.read
  {
    AcceptedFieldsPresent(f);
    StrippedIsClean(f, "name");
    StrippedIsClean(f, "email");
    StrippedIsClean(f, "title");
    StrippedIsClean(f, "message");
    PyStrippedNoNewline(Field(f, "email"));
    PyStrictMatchNoNewline(Stripped(f, "email"));
  }

  lemma AcceptedFieldsPresent(f: map<string, string>)
    requires FirstError(f) == None
    ensures Stripped(f, "name") != [] && Stripped(f, "email") != []
    ensures Stripped(f, "title") != [] && Stripped(f, "message") != []
    ensures PyStrictMatch(Stripped(f, "email")) && |Stripped(f, "message")| >= MinMessageLength
  {
  }

  /** A required member that is only white space is reported as missing. */
  lemma BlankFieldIsMissing(f: map<string, string>, key: string)
    requires f != map[] && key in {"name", "email", "title", "message"}
    requires key in f && AllSpace(f[key], PySpaces)
    ensures FirstError(f) == Some("All fields are required")
  {
    TrimEmptyIffBlank(f[key], PySpaces);
  }

  lemma StripPaddedAddress()
    ensures PyStrip(" a@b.co ") == "a@b.co"
  {
    TrimPadded("a@b.co", ' ', ' ', PySpaces);
    assert " a@b.co " == [' '] + "a@b.co" + [' '];
  }

  lemma ShortAddressMatches()
    ensures StrictEmail("a@b.co")
  {
    assert StrictSplit("a@b.co", 1, 3);
  }

  lemma PaddedAddressNotStrict()
    ensures !StrictEmail(" a@b.co ")
  {
    var e := " a@b.co ";
    forall at, dot | 0 < at && at + 1 < dot && dot + 2 < |e|
      ensures !StrictSplit(e, at, dot)
    {
      assert e[..at][0] == ' ';
    }
  }

  /** Surrounding white space is stripped before the e-mail check, so an
      address the JavaScript builds reject passes here. */
  lemma PaddedEmailAccepted()
    ensures PyStrictMatch(PyStrip(" a@b.co ")) && !StrictEmail(" a@b.co ")
  {
    StripPaddedAddress();
    ShortAddressMatches();
    PaddedAddressNotStrict();
  }

  /** `[m for m in messages if m['id'] != message_id]` */
  function RemoveId(l: seq<Record>, id: int): (r: seq<Record>)
    ensures |r| <= |l|
    ensures forall m :: m in r <==> m in l && m.id != id
  {
    if l == [] then []
    else if l[0].id == id then RemoveId(l[1..], id)
    else [l[0]] + RemoveId(l[1..], id)
  }

  /** The records kept are the others, in their original order. */
  lemma {:induction false} RemoveIdKeepsOrder(l: seq<Record>, id: int)
    ensures Subsequence(RemoveId(l, id), l)
  {
    if l != [] {
      RemoveIdKeepsOrder(l[1..], id);
      var r := RemoveId(l, id);
      if l[0].id != id {
        assert r[0] == l[0] && r[1..] == RemoveId(l[1..], id);
      }
    }
  }

  /** Every record with another id is kept as many times as it occurs. */
  lemma {:induction false} RemoveIdCounts(l: seq<Record>, id: int, m: Record)
    ensures multiset(RemoveId(l, id))[m] == if m.id == id then 0 else multiset(l)[m]
  {
    if l != [] {
      assert l == [l[0]] + l[1..];
      RemoveIdCounts(l[1..], id, m);
    }
  }

  /** Deleting from a concatenation deletes from each part. */
  lemma {:induction false} RemoveIdConcat(a: seq<Record>, b: seq<Record>, id: int)
    ensures RemoveId(a + b, id) == RemoveId(a, id) + RemoveId(b, id)
  {
    if a != [] {
      assert (a + b)[0] == a[0] && (a + b)[1..] == a[1..] + b;
      RemoveIdConcat(a[1..], b, id);
    } else {
      assert a + b == b;
    }
  }

  /** Removing an id that no record has changes nothing. */
  lemma {:induction false} RemoveAbsentId(l: seq<Record>, id: int)
    requires forall m | m in l :: m.id != id
    ensures RemoveId(l, id) == l
  {
    if l != [] {
      assert forall m | m in l[1..] :: m in l;
      RemoveAbsentId(l[1..], id);
    }
  }

  /** Deleting twice is deleting once. */
  lemma RemoveIdIdempotent(l: seq<Record>, id: int)
    ensures RemoveId(RemoveId(l, id), id) == RemoveId(l, id)
  {
    RemoveAbsentId(RemoveId(l, id), id);
  }

  /** The first record with the id marked read, every other record as it was. */
  function MarkFirst(l: seq<Record>, id: int): (r: seq<Record>)
    ensures |r| == |l|
  {
    if l == [] then []
    else if l[0].id == id then [l[0].(read := true)] + l[1..]
    else [l[0]] + MarkFirst(l[1..], id)
  }

  /** When index `i` holds the first record with the id, exactly that
      record changes, and only its `read` flag. */
  lemma {:induction false} MarkFirstAt(l: seq<Record>, id: int, i: nat)
    requires i < |l| && l[i].id == id
    requires forall j | 0 <= j < i :: l[j].id != id
    ensures MarkFirst(l, id) == l[i := l[i].(read := true)]
  {
    if i > 0 {
      MarkFirstAt(l[1..], id, i - 1);
    }
  }

  /** An id that no record has leaves the list unchanged. */
  lemma {:induction false} MarkFirstAbsent(l: seq<Record>, id: int)
    requires forall j | 0 <= j < |l| :: l[j].id != id
    ensures MarkFirst(l, id) == l
  {
    if l != [] {
      MarkFirstAbsent(l[1..], id);
    }
  }

  /** Marking twice is marking once: the first match stays the first. */
  lemma {:induction false} MarkFirstIdempotent(l: seq<Record>, id: int)
    ensures MarkFirst(MarkFirst(l, id), id) == MarkFirst(l, id)
  {
    if l != [] && l[0].id != id {
      MarkFirstIdempotent(l[1..], id);
    }
  }

  class MessageLog {
    var messages: seq<Record>

    constructor ()
      ensures messages == []
    {
      messages := [];
    }

    /** `POST /api/contact` */
    method HandleContact(payload: Payload, id: int, now: string) returns (r: Response)
      modifies this
      ensures payload.Malformed? ==> r.status == 500 && r.body.Error? && messages == old(messages)
      ensures payload.Object? && FirstError(payload.fields).Some? ==>
        r == Response(400, Error(FirstError(payload.fields).value)) && messages == old(messages)
      ensures payload.Object? && FirstError(payload.fields).None? ==>
        var rec := NewRecord(payload.fields, id, now);
        messages == old(messages) + [rec] && r == Response(200, Created(rec))
    {
      if payload.Malformed? {
        return Response(500, Error("Server error"));
      }
      var data := payload.fields;
      if data == map[] {
        return Response(400, Error("No data provided"));
      }
      var name := Stripped(data, "name");
      var email := Stripped(data, "email");
      var title := Stripped(data, "title");
      var message := Stripped(data, "message");
      if name == [] || email == [] || title == [] || message == [] {
        return Response(400, Error("All fields are required"));
      }
      assert FirstError(data) == if !PyStrictMatch(email) then Some("Invalid email format")
        else if |message| < MinMessageLength then Some("Message must be at least 10 characters") else None;
      if !PyStrictMatch(email) {
        return Response(400, Error("Invalid email format"));
      }
      if |message| < MinMessageLength {
        return Response(400, Error("Message must be at least 10 characters"));
      }
      var contactMessage := Record(id, name, email, title, message, now, false);
      messages := messages + [contactMessage];
      r := Response(200, Created(contactMessage));
    }

    /** `GET /api/messages` */
    method GetMessages() returns (r: Response)
      ensures r == Response(200, Listing(|messages|, messages))
    {
      r := Response(200, Listing(|messages|, messages));
    }

    /** `DELETE /api/messages/<id>`: succeeds whether or not a record matched. */
    method DeleteMessage(id: int) returns (r: Response)
      modifies this
      ensures messages == RemoveId(old(messages), id)
      ensures r == Response(200, Done("Message deleted successfully"))
    {
      messages := RemoveId(messages, id);
      r := Response(200, Done("Message deleted successfully"));
    }

    /** `PUT /api/messages/<id>/read`: scans for the first record with the
        id, marks it and stops. */
    method MarkAsRead(id: int) returns (r: Response)
      modifies this
      ensures messages == MarkFirst(old(messages), id)
      ensures r == Response(200, Done("Message marked as read"))
    {
      var i := 0;
      while i < |messages|
        invariant 0 <= i <= |messages|
        invariant messages == old(messages)
        invariant forall j | 0 <= j < i :: messages[j].id != id
      {
        if messages[i].id == id {
          MarkFirstAt(messages, id, i);
          messages := messages[i := messages[i].(read := true)];
          break;
        }
        i := i + 1;
      }
      if i == |messages| {
        MarkFirstAbsent(messages, id);
      }
      r := Response(200, Done("Message marked as read"));
    }
  }
}
