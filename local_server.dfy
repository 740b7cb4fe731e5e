/**
 * The local development server (local_server.py). Its `validate_input` is
 * the same code as the serverless handler's, so the model reuses
 * `ApiContact.ValidateInput`; only the route's status ladder is its own.
 */
module LocalServer {
  import opened Wrappers
  import opened Http
  import opened Text
  import ApiContact

  /** `POST /api/contact`; `sendOk` is what `send_email` returns. */
  method Contact(payload: Payload, sendOk: bool) returns (r: ApiContact.Response, mail: Option<ApiContact.SmtpMail>)
    ensures payload.Malformed? ==> r == ApiContact.ServerError && mail == None
    ensures payload == Object(map[]) ==> r == ApiContact.NoData && mail == None
    ensures payload.Object? && payload.fields != map[] && ApiContact.Violations(payload.fields) != [] ==>
      r == ApiContact.Response(400, ApiContact.Invalid(ApiContact.Violations(payload.fields))) && mail == None
    ensures payload.Object? && payload.fields != map[] && ApiContact.Violations(payload.fields) == [] ==>
      mail == Some(ApiContact.MailFor(payload.fields)) && r == (if sendOk then ApiContact.Sent else ApiContact.NotSent)
    ensures r.status == 200 <==> mail.Some? && sendOk
  {
    mail := None;
    if payload.Malformed? {
      return ApiContact.ServerError, None;
    }
    var data := payload.fields;
    if data == map[] {
      return ApiContact.NoData, None;
    }
    var errors := ApiContact.ValidateInput(data);
    if errors != [] {
      return ApiContact.Response(400, ApiContact.Invalid(errors)), None;
    }
    ApiContact.ValidIff(data);
    var name := PyStrip(data["name"]);
    var email := PyStrip(data["email"]);
    var message := PyStrip(data["message"]);
    mail := Some(ApiContact.SmtpMail(name, email, message));
    r := if sendOk then ApiContact.Sent else ApiContact.NotSent;
  }
}
