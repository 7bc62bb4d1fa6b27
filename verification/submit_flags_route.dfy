/**
 * The `POST /api/submit-flags` handler: it reads a flag submission,
 * checks the participant's name and the SMTP settings, verifies the SMTP
 * connection, mails the rendered submission to the organisers and, when
 * any of that fails after the name check, logs the submission so it can be
 * processed by hand.
 *
 * The mail transport is outside the model: whether `verify` and `sendMail`
 * succeed (and the message id the latter returns) are inputs, as are the
 * four clock readings that go into the mail.
 */
module SubmitFlagsRoute {
  import opened JsValues

  /** `FlagSubmissionData`; a field missing from the JSON body reads as "". */
  datatype Submission = Submission(name: string, flag1: string, flag2: string, flag3: string, flag4: string)
  {
    function Flags(): seq<string> {
      [flag1, flag2, flag3, flag4]
    }
  }

  /** The value `body` starts with, and keeps when the request body is not JSON. */
  const EmptySubmission := Submission("", "", "", "", "")

  /** What `request.json()` gave. */
  datatype RequestBody = Malformed | Parsed(data: Submission)

  /** Request headers by lower-case name, and the process environment. */
  type Headers = map<string, string>
  type Env = map<string, string>

  /**
   * A header or an environment variable. A missing one (`null` or
   * `undefined`) reads as "": every use in the handler treats the two alike.
   */
  function Lookup(m: map<string, string>, key: string): string {
    if key in m then m[key] else ""
  }

  datatype VerifyOutcome = Verified | VerifyFailed
  datatype SendOutcome = Sent(messageId: string) | SendFailed

  /**
   * The four `new Date()` readings the mail bodies take, in the order they
   * are taken: the local time and the ISO time of the text body, then those
   * of the HTML body. Nothing makes the text and the HTML readings agree.
   */
  datatype Clock = Clock(textLocalTime: string, textIsoTime: string,
                         htmlLocalTime: string, htmlIsoTime: string)

  // ----- SMTP settings -----

  /** Host, user and password must all be set (and not empty). */
  predicate SmtpConfigured(env: Env) {
    Truthy(Lookup(env, "SMTP_HOST")) && Truthy(Lookup(env, "SMTP_USER")) && Truthy(Lookup(env, "SMTP_PASSWORD"))
  }

  /** `parseInt(process.env.SMTP_PORT || "587")`; `None` is NaN. */
  function SmtpPort(env: Env): Option<int> {
    ParseInt(FirstTruthy([Lookup(env, "SMTP_PORT")], "587"))
  }

  /** Implicit TLS is chosen on the text of SMTP_PORT, not on the parsed number. */
  predicate SmtpSecure(env: Env) {
    Lookup(env, "SMTP_PORT") == "465"
  }

  datatype TransportConfig = TransportConfig(host: string, port: Option<int>, secure: bool, user: string, password: string)

  /** The options passed to `createTransport` (the fixed TLS options are not modelled). */
  function Transport(env: Env): TransportConfig {
    TransportConfig(Lookup(env, "SMTP_HOST"), SmtpPort(env), SmtpSecure(env),
                    Lookup(env, "SMTP_USER"), Lookup(env, "SMTP_PASSWORD"))
  }

  const DefaultRecipient := "contact@secforit.ro"

  /** `process.env.SUBMISSION_EMAIL || 'contact@secforit.ro'` */
  function Recipient(env: Env): string {
    FirstTruthy([Lookup(env, "SUBMISSION_EMAIL")], DefaultRecipient)
  }

  // ----- rendering -----

  const NotSubmitted := "Not submitted"
  const Unknown := "Unknown"

  /** A flag in the plain-text mail. */
  function FlagText(flag: string): string {
    FirstTruthy([flag], NotSubmitted)
  }

  /** A flag in the HTML mail. */
  function FlagHtml(flag: string): string {
    FirstTruthy([flag], "<em>Not submitted</em>")
  }

  /** The background of a flag's box in the HTML mail: green when submitted, red otherwise. */
  function FlagBackground(flag: string): string {
    if Truthy(flag) then "#d4edda" else "#f8d7da"
  }

  /** `x-forwarded-for`, else `x-real-ip`, else "Unknown". */
  function IpAddress(headers: Headers): string {
    FirstTruthy([Lookup(headers, "x-forwarded-for"), Lookup(headers, "x-real-ip")], Unknown)
  }

  /** `user-agent`, else "Unknown". */
  function UserAgent(headers: Headers): string {
    FirstTruthy([Lookup(headers, "user-agent")], Unknown)
  }

  /** One flag as both mail bodies show it, under its challenge's title. */
  datatype FlagLine = FlagLine(challenge: string, text: string, html: string, background: string)

  const Challenges := ["Network/DNS", "Crypto/XOR", "Web/Email", "Steganography"]

  function RenderFlag(challenge: string, flag: string): FlagLine {
    FlagLine(challenge, FlagText(flag), FlagHtml(flag), FlagBackground(flag))
  }

  /**
   * The mail options handed to `sendMail`. The two bodies are kept as the
   * values they interpolate; the fixed template text around them and the
   * extra priority headers are not modelled.
   */
  datatype Mail = Mail(
    senderName: string,
    senderAddress: string,
    to: string,
    subject: string,
    participant: string,
    textSubmittedAt: string,
    htmlSubmittedAt: string,
    flags: seq<FlagLine>,
    ipAddress: string,
    userAgent: string,
    textTimestamp: string,
    htmlTimestamp: string)

  function ComposeMail(data: Submission, headers: Headers, env: Env, clock: Clock): Mail {
    Mail(
      "Stefanini CTF Platform",
      Lookup(env, "SMTP_USER"),
      Recipient(env),
      "\U{1F3F4} CTF Flag Submission - " + data.name,
      data.name,
      clock.textLocalTime,
      clock.htmlLocalTime,
      [RenderFlag(Challenges[0], data.flag1), RenderFlag(Challenges[1], data.flag2),
       RenderFlag(Challenges[2], data.flag3), RenderFlag(Challenges[3], data.flag4)],
      IpAddress(headers),
      UserAgent(headers),
      clock.textIsoTime,
      clock.htmlIsoTime)
  }

  // ----- the handler -----

  const NameRequired := "Name is required"
  const NotConfigured := "SMTP not configured. Check server logs."
  const EmailFailed := "Failed to send email. Submission logged to server."
  const Submitted := "Flags submitted successfully"

  datatype Reply = ErrorReply(error: string) | SuccessReply(message: string, messageId: string)

  /**
   * What the handler does: the status and JSON body of its response, the
   * submission it logs for manual processing (if any), the transport it
   * creates (if it gets that far) and the mail it hands to `sendMail` (if
   * it gets that far).
   */
  datatype Response = Response(
    status: int,
    reply: Reply,
    logged: Option<Submission>,
    transport: Option<TransportConfig>,
    mail: Option<Mail>)

  /** The submission the catch block logs: the parsed body, or the initial empty one. */
  function BodyOf(body: RequestBody): Submission {
    if body.Parsed? then body.data else EmptySubmission
  }

  function Post(body: RequestBody, headers: Headers, env: Env, clock: Clock,
                verify: VerifyOutcome, send: SendOutcome): (r: Response)
    ensures r.status == 200 || r.status == 400 || r.status == 500
    // the name check comes first, and a rejected request leaves no trace
    ensures r.status == 400 <==> body.Parsed? && !Truthy(body.data.name)
    ensures r.status == 400 ==>
              r.reply == ErrorReply(NameRequired) && r.logged.None? && r.transport.None? && r.mail.None?
    // success needs every step to succeed, and returns the transport's message id
    ensures r.status == 200 <==>
              body.Parsed? && Truthy(body.data.name) && SmtpConfigured(env) && verify.Verified? && send.Sent?
    ensures r.status == 200 ==>
              r.reply == SuccessReply(Submitted, send.messageId) && r.logged.None? && r.mail.Some?
    // every other outcome is a 500 that logs the body
    ensures r.status == 500 ==> r.reply.ErrorReply? && r.logged == Some(BodyOf(body))
    ensures r.status == 500 && body.Parsed? && !SmtpConfigured(env) ==>
              r.reply == ErrorReply(NotConfigured) && r.transport.None?
    ensures r.status == 500 && (body.Malformed? || SmtpConfigured(env)) ==> r.reply == ErrorReply(EmailFailed)
    // a transport is made only from complete settings; a mail only after a verified connection
    ensures r.transport.Some? ==>
              body.Parsed? && Truthy(body.data.name) && SmtpConfigured(env) && r.transport == Some(Transport(env))
    ensures r.mail.Some? ==>
              body.Parsed? && r.transport.Some? && verify.Verified? &&
              r.mail == Some(ComposeMail(body.data, headers, env, clock))
    // and conversely: complete settings always make the transport, and a
    // verified connection always hands the mail over, even if sending fails
    ensures body.Parsed? && Truthy(body.data.name) && SmtpConfigured(env) ==>
              r.transport == Some(Transport(env))
    ensures body.Parsed? && Truthy(body.data.name) && SmtpConfigured(env) && verify.Verified? ==>
              r.mail == Some(ComposeMail(body.data, headers, env, clock))
  {
    match body
    case Malformed =>
      Response(500, ErrorReply(EmailFailed), Some(EmptySubmission), None, None)
    case Parsed(data) =>
      if !Truthy(data.name) then
        Response(400, ErrorReply(NameRequired), None, None, None)
      else if !SmtpConfigured(env) then
        Response(500, ErrorReply(NotConfigured), Some(data), None, None)
      else
        var transport := Transport(env);
        if verify.VerifyFailed? then
          Response(500, ErrorReply(EmailFailed), Some(data), Some(transport), None)
        else
          var mail := ComposeMail(data, headers, env, clock);
          match send
          case SendFailed =>
            Response(500, ErrorReply(EmailFailed), Some(data), Some(transport), Some(mail))
          case Sent(id) =>
            Response(200, SuccessReply(Submitted, id), None, Some(transport), Some(mail))
  }

  // ----- properties -----

  /**
   * The name is checked before anything else is looked at: for a nameless
   * submission neither the environment nor the transport matters.
   */
  lemma NameCheckedFirst(data: Submission, headers: Headers, env: Env, clock: Clock,
                         verify: VerifyOutcome, send: SendOutcome,
                         headers': Headers, env': Env, clock': Clock,
                         verify': VerifyOutcome, send': SendOutcome)
    requires !Truthy(data.name)
    ensures Post(Parsed(data), headers, env, clock, verify, send) ==
            Post(Parsed(data), headers', env', clock', verify', send')
  {
  }

  /**
   * The SMTP settings are checked before any transport is made: when they
   * are incomplete the outcome does not depend on the transport.
   */
  lemma ConfigCheckedBeforeTransport(data: Submission, headers: Headers, env: Env, clock: Clock,
                                     verify: VerifyOutcome, send: SendOutcome,
                                     verify': VerifyOutcome, send': SendOutcome)
    requires Truthy(data.name) && !SmtpConfigured(env)
    ensures Post(Parsed(data), headers, env, clock, verify, send) ==
            Post(Parsed(data), headers, env, clock, verify', send')
    ensures Post(Parsed(data), headers, env, clock, verify, send) ==
            Response(500, ErrorReply(NotConfigured), Some(data), None, None)
  {
  }

  /** A body that is not JSON is answered with a 500 and the empty submission is logged. */
  lemma MalformedBodyLogsDefault(headers: Headers, env: Env, clock: Clock, verify: VerifyOutcome, send: SendOutcome)
    ensures Post(Malformed, headers, env, clock, verify, send).status == 500
    ensures Post(Malformed, headers, env, clock, verify, send).logged == Some(EmptySubmission)
    ensures Post(Malformed, headers, env, clock, verify, send).reply == ErrorReply(EmailFailed)
  {
  }

  /** A submission that gets past the name check is mailed or logged, never lost. */
  lemma NeverLost(data: Submission, headers: Headers, env: Env, clock: Clock, verify: VerifyOutcome, send: SendOutcome)
    requires Truthy(data.name)
    ensures var r := Post(Parsed(data), headers, env, clock, verify, send);
            (r.status == 200 && r.mail.Some? && r.mail.value.participant == data.name) ||
            (r.status == 500 && r.logged == Some(data))
  {
  }

  /** One flag: its value when submitted, "Not submitted" otherwise, on a green or red background. */
  lemma RenderFlagShowsValue(challenge: string, flag: string)
    ensures RenderFlag(challenge, flag).challenge == challenge
    ensures Truthy(flag) ==>
              RenderFlag(challenge, flag) == FlagLine(challenge, flag, flag, "#d4edda")
    ensures !Truthy(flag) ==>
              RenderFlag(challenge, flag) == FlagLine(challenge, NotSubmitted, "<em>Not submitted</em>", "#f8d7da")
  {
    assert [flag][0] == flag;
  }

  /** The mail lists the four flags in order, each rendered under its challenge's title. */
  lemma MailRendersFlags(data: Submission, headers: Headers, env: Env, clock: Clock, i: nat)
    requires i < 4
    ensures var m := ComposeMail(data, headers, env, clock);
            var flag := data.Flags()[i];
            && |m.flags| == 4
            && (Truthy(flag) ==> m.flags[i] == FlagLine(Challenges[i], flag, flag, "#d4edda"))
            && (!Truthy(flag) ==> m.flags[i] == FlagLine(Challenges[i], NotSubmitted, "<em>Not submitted</em>", "#f8d7da"))
  {
    var m := ComposeMail(data, headers, env, clock);
    assert m.flags[i] == RenderFlag(Challenges[i], data.Flags()[i]);
    RenderFlagShowsValue(Challenges[i], data.Flags()[i]);
  }

  /**
   * The sender is the SMTP user, the subject and body carry the participant's
   * name, and each body carries its own two clock readings.
   */
  lemma MailHeader(data: Submission, headers: Headers, env: Env, clock: Clock)
    ensures var m := ComposeMail(data, headers, env, clock);
            && m.senderAddress == Lookup(env, "SMTP_USER")
            && m.participant == data.name
            && m.subject[|m.subject| - |data.name|..] == data.name
            && m.textSubmittedAt == clock.textLocalTime && m.htmlSubmittedAt == clock.htmlLocalTime
            && m.textTimestamp == clock.textIsoTime && m.htmlTimestamp == clock.htmlIsoTime
  {
  }

  /** The address is the forwarded-for header, else the real-IP header, else "Unknown". */
  lemma IpAddressFallback(headers: Headers)
    ensures Truthy(Lookup(headers, "x-forwarded-for")) ==> IpAddress(headers) == headers["x-forwarded-for"]
    ensures !Truthy(Lookup(headers, "x-forwarded-for")) && Truthy(Lookup(headers, "x-real-ip")) ==>
              IpAddress(headers) == headers["x-real-ip"]
    ensures !Truthy(Lookup(headers, "x-forwarded-for")) && !Truthy(Lookup(headers, "x-real-ip")) ==>
              IpAddress(headers) == Unknown
  {
    var c := [Lookup(headers, "x-forwarded-for"), Lookup(headers, "x-real-ip")];
    assert c[0] == Lookup(headers, "x-forwarded-for") && c[1] == Lookup(headers, "x-real-ip");
  }

  /** The user agent is its header, else "Unknown". */
  lemma UserAgentFallback(headers: Headers)
    ensures Truthy(Lookup(headers, "user-agent")) ==> UserAgent(headers) == headers["user-agent"]
    ensures !Truthy(Lookup(headers, "user-agent")) ==> UserAgent(headers) == Unknown
  {
    assert [Lookup(headers, "user-agent")][0] == Lookup(headers, "user-agent");
  }

  /** The recipient is SUBMISSION_EMAIL, else the organisers' address. */
  lemma RecipientFallback(env: Env)
    ensures Truthy(Lookup(env, "SUBMISSION_EMAIL")) ==> Recipient(env) == env["SUBMISSION_EMAIL"]
    ensures !Truthy(Lookup(env, "SUBMISSION_EMAIL")) ==> Recipient(env) == DefaultRecipient
  {
    assert [Lookup(env, "SUBMISSION_EMAIL")][0] == Lookup(env, "SUBMISSION_EMAIL");
  }

  /** The two port numbers the handler spells out, in decimal. */
  lemma Decimal587()
    ensures ToDecimal(587) == "587"
  {
    assert DecimalDigit(5) == '5' && DecimalDigit(8) == '8' && DecimalDigit(7) == '7';
    assert ToDecimal(5) == "5";
    assert ToDecimal(58) == "58";
  }

  lemma Decimal465()
    ensures ToDecimal(465) == "465"
  {
    assert DecimalDigit(4) == '4' && DecimalDigit(6) == '6' && DecimalDigit(5) == '5';
    assert ToDecimal(4) == "4";
    assert ToDecimal(46) == "46";
  }

  /** Without SMTP_PORT the port is 587, without implicit TLS. */
  lemma PortDefault(env: Env)
    requires !Truthy(Lookup(env, "SMTP_PORT"))
    ensures SmtpPort(env) == Some(587) && !SmtpSecure(env)
  {
    assert FirstTruthy([Lookup(env, "SMTP_PORT")], "587") == "587";
    Decimal587();
    ParseIntDecimal(587);
  }

  /** A port written in decimal is that port. */
  lemma PortDecimal(env: Env, n: nat)
    requires Lookup(env, "SMTP_PORT") == ToDecimal(n)
    ensures SmtpPort(env) == Some(n)
  {
    assert FirstTruthy([Lookup(env, "SMTP_PORT")], "587") == ToDecimal(n);
    ParseIntDecimal(n);
  }

  /** A non-empty SMTP_PORT without a single decimal digit gives a NaN port. */
  lemma PortNotANumber(env: Env)
    requires Lookup(env, "SMTP_PORT") != ""
    requires forall i :: 0 <= i < |Lookup(env, "SMTP_PORT")| ==> !IsDigit(Lookup(env, "SMTP_PORT")[i], 10)
    ensures SmtpPort(env) == None
  {
    assert FirstTruthy([Lookup(env, "SMTP_PORT")], "587") == Lookup(env, "SMTP_PORT");
    NoDigitsIsNaN(Lookup(env, "SMTP_PORT"));
  }

  /** Implicit TLS is used exactly when SMTP_PORT is the text "465", and then the port is 465. */
  lemma SecureOnlyOn465(env: Env)
    ensures Transport(env).secure <==> Lookup(env, "SMTP_PORT") == "465"
    ensures Transport(env).secure ==> Transport(env).port == Some(465)
  {
    if Lookup(env, "SMTP_PORT") == "465" {
      Decimal465();
      PortDecimal(env, 465);
    }
  }

  /**
   * The TLS choice reads the text while the port reads the number: a
   * SMTP_PORT of " 465" gives port 465 without implicit TLS.
   */
  lemma SecureReadsTheText(env: Env)
    requires Lookup(env, "SMTP_PORT") == " 465"
    ensures Transport(env).port == Some(465) && !Transport(env).secure
  {
    var text := Lookup(env, "SMTP_PORT");
    assert FirstTruthy([text], "587") == text;
    assert text == [' '] + "465";
    ParseIntSkipsWhiteSpace(' ', "465");
    Decimal465();
    ParseIntDecimal(465);
  }
}
