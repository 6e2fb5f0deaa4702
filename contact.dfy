/** The contact form handler `send_message`, the reset handler
    `reset_email_count` and the process-wide counter they share. */
module Contact {
  import opened Wrappers
  import opened Http

  /** The threshold of the counter; despite its name nothing resets it daily. */
  const MaxEmailsPerDay: int := 50

  /** The fixed label the outgoing Subject header starts with. */
  const SubjectLabel := "Portfolio Contact: "

  const RateLimited := Response(false, 429, "Oops! Our email service has reached its daily limit. Please try again tomorrow.")
  const FieldsRequired := Response(false, 400, "All fields are required.")
  const InvalidEmail := Response(false, 400, "Please provide a valid email address.")
  const SendFailed := Response(false, 500, "An error occurred while sending your message. Please try again later.")
  const Sent := Response(true, 200, "Your message has been sent successfully!")
  const CountReset := Response(true, 200, "Email count reset.")

  /** The fields the contact form must carry, in the order the source lists them. */
  const RequiredFields := ["name", "email", "subject", "message"]

  /** `all([name, email, subject, message])`: every required field is truthy. */
  predicate AllFieldsFilled(p: Payload)
    ensures AllFieldsFilled(p) <==>
              Filled(p, "name") && Filled(p, "email") && Filled(p, "subject") && Filled(p, "message")
  {
    forall k | k in RequiredFields :: Filled(p, k)
  }

  /** The deliberately weak address check: both an '@' and a '.' occur,
      anywhere and in any order. */
  predicate LooksLikeEmail(address: string)
    ensures LooksLikeEmail(address) <==>
              exists i, j | 0 <= i < |address| && 0 <= j < |address| :: address[i] == '@' && address[j] == '.'
  {
    '@' in address && '.' in address
  }

  /** The headers of the outgoing message. */
  datatype Mail = Mail(from: string, to: string, subject: string, replyTo: string)

  /** Recovers the submitted subject from a Subject header, if it carries the label. */
  function SubjectOf(header: string): Option<string> {
    if |SubjectLabel| <= |header| && header[..|SubjectLabel|] == SubjectLabel
    then Some(header[|SubjectLabel|..])
    else None
  }

  /** The headers `send_message` sets: the message goes from the configured
      account to itself, and replies go to the submitter. */
  function ComposeMail(account: string, subject: string, replyTo: string): (m: Mail)
    ensures m.from == account && m.to == account
    ensures m.replyTo == replyTo
    ensures SubjectOf(m.subject) == Some(subject)
  {
    Mail(account, account, SubjectLabel + subject, replyTo)
  }

  /** What one call of `send_message` does: its reply, the counter afterwards,
      and the message composed for the send attempt (None when a check stops
      the request first). A failed attempt may never have handed it to SMTP. */
  datatype Outcome = Outcome(response: Response, count: int, mail: Option<Mail>)

  /** What `reset_email_count` does, whatever the counter held: the counter
      becomes 0, nothing is sent, and the reset is acknowledged. */
  const ResetOutcome := Outcome(CountReset, 0, None)

  /** `send_message` on counter value `count`, where `delivered` is whether the
      SMTP exchange would complete without raising. */
  function SendOutcome(account: string, count: int, p: Payload, delivered: bool): (o: Outcome)
    // the rate gate comes first, whatever the body holds
    ensures count >= MaxEmailsPerDay ==> o == Outcome(RateLimited, count, None)
    ensures count < MaxEmailsPerDay && !AllFieldsFilled(p) ==> o == Outcome(FieldsRequired, count, None)
    ensures count < MaxEmailsPerDay && AllFieldsFilled(p) && !LooksLikeEmail(p["email"]) ==>
              o == Outcome(InvalidEmail, count, None)
    // a send is attempted exactly when every check passes, with the composed headers
    ensures o.mail.Some? <==> count < MaxEmailsPerDay && AllFieldsFilled(p) && LooksLikeEmail(p["email"])
    ensures o.mail.Some? ==> o.mail.value == ComposeMail(account, p["subject"], p["email"])
    ensures o.mail.Some? && !delivered ==> o.response == SendFailed
    ensures o.response.success <==> o.mail.Some? && delivered
    ensures o.response.success ==> o.response == Sent
    // the counter moves only on a successful send, and by one
    ensures o.count == if o.response.success then count + 1 else count
    ensures 0 <= count <= MaxEmailsPerDay ==> 0 <= o.count <= MaxEmailsPerDay
  {
    if count >= MaxEmailsPerDay then Outcome(RateLimited, count, None)
    else if !AllFieldsFilled(p) then Outcome(FieldsRequired, count, None)
    else if !LooksLikeEmail(p["email"]) then Outcome(InvalidEmail, count, None)
    else
      var m := ComposeMail(account, p["subject"], p["email"]);
      if delivered then Outcome(Sent, count + 1, Some(m))
      else Outcome(SendFailed, count, Some(m))
  }

  /** The process state of the handlers: the configured SMTP account and the
      global `email_count`. */
  class EmailGate {
    const account: string
    var count: int

    /** The counter never leaves [0, MaxEmailsPerDay]. */
    ghost predicate Valid()
      reads this
    {
      0 <= count <= MaxEmailsPerDay
    }

    /** Module load: `email_count = 0`. */
    constructor (account: string)
      ensures Valid()
      ensures this.account == account && count == 0
    {
      this.account := account;
      count := 0;
    }

    /** `send_message`; `mail` is the message composed for the send attempt
        (None when a check stops the request first). */
    method SendMessage(p: Payload, delivered: bool) returns (r: Response, mail: Option<Mail>)
      requires Valid()
      modifies this
      ensures Valid()
      ensures Outcome(r, count, mail) == SendOutcome(account, old(count), p, delivered)
    {
      mail := None;
      if count >= MaxEmailsPerDay {
        return RateLimited, None;
      }
      if !AllFieldsFilled(p) {
        return FieldsRequired, None;
      }
      var email := p["email"];
      if !LooksLikeEmail(email) {
        return InvalidEmail, None;
      }
      mail := Some(ComposeMail(account, p["subject"], email));
      if !delivered {
        return SendFailed, mail;
      }
      count := count + 1;
      r := Sent;
    }

    /** `reset_email_count`: unconditional, whatever the counter held. */
    method Reset() returns (r: Response)
      modifies this
      ensures Valid()
      ensures Outcome(r, count, None) == ResetOutcome
    {
      count := 0;
      r := CountReset;
    }
  }

  /** A caller sees from the contracts alone how a fresh gate answers a few
      submissions: a valid one is sent and counted, an invalid address, a
      missing field and a failed send leave the counter alone, and after two
      resets the counter is 0. */
  method ClientExchange(account: string)
  {
    var gate := new EmailGate(account);
    var form := map["name" := "A", "email" := "a@b.com", "subject" := "Hi", "message" := "Test"];
    var r, mail := gate.SendMessage(form, true);
    assert r == Sent && gate.count == 1;
    assert mail.Some? && mail.value.from == mail.value.to == account;
    assert mail.value.replyTo == "a@b.com" && SubjectOf(mail.value.subject) == Some("Hi");
    r, mail := gate.SendMessage(form["email" := "nobody"], true);
    assert r == InvalidEmail && mail == None && gate.count == 1;
    r, mail := gate.SendMessage(form - {"subject"}, true);
    assert r == FieldsRequired && gate.count == 1;
    r, mail := gate.SendMessage(form, false);
    assert r == SendFailed && gate.count == 1;
    r := gate.Reset();
    r := gate.Reset();
    assert r == CountReset && gate.count == 0;
  }
}
