/**
 * The check the static site runs in the browser before it posts the contact
 * form (`validateForm` in script.js), and the JSON body it then posts.
 */
module ContactForm {
  import opened Wrappers
  import opened Http
  import opened EmailPatterns
  import Worker

  const MinMessageLength := 10

  /** The four `formData.get(...)` values; `None` is the `null` returned for a
      control the form does not have. */
  datatype Form = Form(name: Option<string>, email: Option<string>,
                       title: Option<string>, message: Option<string>)

  /** Every control holds a non-empty string. */
  predicate Filled(d: Form) {
    && d.name.Some? && d.name.value != ""
    && d.email.Some? && d.email.value != ""
    && d.title.Some? && d.title.value != ""
    && d.message.Some? && d.message.value != ""
  }

  /** `validateForm(data)`: the required check, then the loose pattern on the
      address, then the message length (untrimmed, in characters). */
  function ValidateForm(d: Form): (ok: bool)
    ensures ok ==> Filled(d)
    ensures ok ==> |d.message.value| >= MinMessageLength
  {
    if !Truthy(d.name) || !Truthy(d.email) || !Truthy(d.title) || !Truthy(d.message) then false
    else if !LooseEmail(d.email.value) then false
    else if |d.message.value| < MinMessageLength then false
    else true
  }

  /** The form passes exactly when every control is filled, the address has
      one '@', no white space and a dotted domain, and the message has at
      least ten characters. */
  lemma ValidateFormIff(d: Form)
    ensures ValidateForm(d) <==>
      Filled(d) && LooseShape(d.email.value) && |d.message.value| >= MinMessageLength
  {
    if d.email.Some? {
      LooseEmailShape(d.email.value);
    }
  }

  /** The message is not trimmed: ten spaces are a valid message. */
  lemma BlankMessagePasses()
    ensures ValidateForm(Form(Some("Ann"), Some("a@b.c"), Some("Hi"), Some("          ")))
  {
    assert LooseSplit("a@b.c", 1, 3);
  }

  /** `data.k = v` for a value that may be null; `JSON.stringify` followed by
      the backend's parse leaves a null member indistinguishable from an
      absent one. */
  function Put(body: map<string, string>, key: string, v: Option<string>): map<string, string> {
    if v.Some? then body[key := v.value] else body - {key}
  }

  /** The object `{ name, email, title, message }` posted to `/contact`. */
  function Posted(d: Form): (body: map<string, string>)
    ensures Member(body, "name") == d.name && Member(body, "email") == d.email
    ensures Member(body, "title") == d.title && Member(body, "message") == d.message
    ensures forall k | k in body :: k in ["name", "email", "title", "message"]
  {
    Put(Put(Put(Put(map[], "name", d.name), "email", d.email), "title", d.title),
        "message", d.message)
  }

  /** Every form the browser lets through is a body the worker stores: both
      use the same required fields and the same loose pattern. */
  lemma ValidFormAcceptedByWorker(d: Form)
    requires ValidateForm(d)
    ensures Worker.Acceptable(Posted(d))
  {
    var body := Posted(d);
    assert Member(body, "email") == d.email;
    assert body["email"] == d.email.value;
  }
}
