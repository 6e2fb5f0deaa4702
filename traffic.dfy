/** Sequences of requests served one after another by one process: the
    counter bound and the quota of successful submissions they guarantee.
    Concurrent requests are not modelled. */
module Traffic {
  import opened Wrappers
  import opened Http
  import opened Contact
  import opened Chat

  /** The configuration read once at startup: the SMTP account (`GMAIL_USER`)
      and the provider key (`OPENAI_API_KEY`). */
  datatype Config = Config(account: string, apiKey: Option<string>)

  /** One request to the gateway, with the outcome of the outside world it
      meets: whether the SMTP exchange completes, and which reply the provider
      path gives (in the source, one of the shapes `ProviderAnswer` names). */
  datatype Request =
    | SendMessage(payload: Payload, delivered: bool)
    | ResetEmailCount
    | ChatMessage(payload: Payload, answer: Response)

  /** The counter after a run and the reply to each request in order. */
  datatype Served = Served(count: int, responses: seq<Response>)

  /** One request on counter value `count`, dispatched to its handler. */
  function Step(cfg: Config, count: int, req: Request): (o: Outcome)
    ensures req.SendMessage? ==> o == SendOutcome(cfg.account, count, req.payload, req.delivered)
    ensures req.ResetEmailCount? ==> o == ResetOutcome
    // a chat sends no mail and leaves the counter alone; the provider is
    // consulted only when the guard forwards
    ensures req.ChatMessage? ==> o.count == count && o.mail == None
    ensures req.ChatMessage? ==>
              o.response == match ChatGuard(cfg.apiKey, req.payload)
                            case Refuse(refusal) => refusal
                            case Forward(_) => req.answer
    ensures req.ChatMessage? && ProviderAnswer(req.answer) ==> o.response.status in {200, 400, 500, 503}
  {
    match req
    case SendMessage(p, delivered) => SendOutcome(cfg.account, count, p, delivered)
    case ResetEmailCount => ResetOutcome
    case ChatMessage(p, answer) =>
      var reply := match ChatGuard(cfg.apiKey, p)
                   case Refuse(refusal) => refusal
                   case Forward(_) => answer;
      Outcome(reply, count, None)
  }

  /** Serves `reqs` in order from counter value `count`. */
  function Replay(cfg: Config, count: int, reqs: seq<Request>): (s: Served)
    ensures |s.responses| == |reqs|
    decreases |reqs|
  {
    if reqs == [] then Served(count, [])
    else
      var o := Step(cfg, count, reqs[0]);
      var rest := Replay(cfg, o.count, reqs[1..]);
      Served(rest.count, [o.response] + rest.responses)
  }

  /** How many contact-form submissions were answered with success. A mail
      that SMTP accepted before a failing `quit()` is not among them. */
  function SuccessfulSends(reqs: seq<Request>, resps: seq<Response>): nat
    requires |reqs| == |resps|
  {
    if reqs == [] then 0
    else (if reqs[0].SendMessage? && resps[0].success then 1 else 0) + SuccessfulSends(reqs[1..], resps[1..])
  }

  predicate NoReset(reqs: seq<Request>) {
    forall i | 0 <= i < |reqs| :: !reqs[i].ResetEmailCount?
  }

  /** A contact-form submission that passes every check and whose SMTP
      exchange completes. */
  predicate DeliverableSend(req: Request) {
    req.SendMessage? && req.delivered && AllFieldsFilled(req.payload) && LooksLikeEmail(req.payload["email"])
  }

  /** Starting in range, the counter stays in [0, MaxEmailsPerDay] whatever
      requests arrive. */
  lemma {:induction false} ReplayKeepsCountInRange(cfg: Config, count: int, reqs: seq<Request>)
    requires 0 <= count <= MaxEmailsPerDay
    ensures 0 <= Replay(cfg, count, reqs).count <= MaxEmailsPerDay
    decreases |reqs|
  {
    if reqs != [] {
      ReplayKeepsCountInRange(cfg, Step(cfg, count, reqs[0]).count, reqs[1..]);
    }
  }

  /** Without a reset, the counter grows by exactly the number of submissions
      answered with success; chats and failed submissions leave it alone. */
  lemma {:induction false} ReplayCountsSuccessfulSends(cfg: Config, count: int, reqs: seq<Request>)
    requires NoReset(reqs)
    ensures Replay(cfg, count, reqs).count == count + SuccessfulSends(reqs, Replay(cfg, count, reqs).responses)
    decreases |reqs|
  {
    if reqs != [] {
      var o := Step(cfg, count, reqs[0]);
      var rest := Replay(cfg, o.count, reqs[1..]);
      var s := Replay(cfg, count, reqs);
      assert s.responses[0] == o.response && s.responses[1..] == rest.responses;
      assert !reqs[0].ResetEmailCount?;
      assert NoReset(reqs[1..]) by {
        forall i | 0 <= i < |reqs[1..]| ensures !reqs[1..][i].ResetEmailCount? {
          assert reqs[1..][i] == reqs[i + 1];
        }
      }
      ReplayCountsSuccessfulSends(cfg, o.count, reqs[1..]);
    }
  }

  /** The quota: between two resets at most MaxEmailsPerDay - count
      submissions are answered with success, so at most MaxEmailsPerDay from a
      fresh or reset counter. */
  lemma AtMostQuotaBetweenResets(cfg: Config, count: int, reqs: seq<Request>)
    requires 0 <= count <= MaxEmailsPerDay
    requires NoReset(reqs)
    ensures SuccessfulSends(reqs, Replay(cfg, count, reqs).responses) <= MaxEmailsPerDay - count
  {
    ReplayKeepsCountInRange(cfg, count, reqs);
    ReplayCountsSuccessfulSends(cfg, count, reqs);
  }

  /** Serving two runs back to back is serving their concatenation. */
  lemma {:induction false} ReplayAppend(cfg: Config, count: int, xs: seq<Request>, ys: seq<Request>)
    ensures var a := Replay(cfg, count, xs);
            var b := Replay(cfg, a.count, ys);
            Replay(cfg, count, xs + ys) == Served(b.count, a.responses + b.responses)
    decreases |xs|
  {
    if xs == [] {
      assert xs + ys == ys;
    } else {
      assert (xs + ys)[0] == xs[0];
      assert (xs + ys)[1..] == xs[1..] + ys;
      ReplayAppend(cfg, Step(cfg, count, xs[0]).count, xs[1..], ys);
    }
  }

  /** Whatever came before, a reset leaves the counter at 0 and acknowledges,
      and a second reset changes nothing but adds the same acknowledgement. */
  lemma ResetIsIdempotent(cfg: Config, count: int, history: seq<Request>)
    ensures var once := Replay(cfg, count, history + [ResetEmailCount]);
            var twice := Replay(cfg, count, history + [ResetEmailCount, ResetEmailCount]);
            && once.count == 0 && once.responses[|history|] == CountReset
            && twice.count == once.count
            && twice.responses == once.responses + [CountReset]
  {
    ReplayAppend(cfg, count, history, [ResetEmailCount]);
    ReplayAppend(cfg, count, history + [ResetEmailCount], [ResetEmailCount]);
    assert history + [ResetEmailCount, ResetEmailCount] == history + [ResetEmailCount] + [ResetEmailCount];
  }

  /** Below the threshold every deliverable submission is sent: up to
      MaxEmailsPerDay - count of them in a row all succeed. */
  lemma {:induction false} QuotaAdmitsDeliverableSends(cfg: Config, count: int, reqs: seq<Request>)
    requires 0 <= count && count + |reqs| <= MaxEmailsPerDay
    requires forall i | 0 <= i < |reqs| :: DeliverableSend(reqs[i])
    ensures Replay(cfg, count, reqs).count == count + |reqs|
    ensures forall i | 0 <= i < |reqs| :: Replay(cfg, count, reqs).responses[i] == Sent
    decreases |reqs|
  {
    if reqs != [] {
      var o := Step(cfg, count, reqs[0]);
      assert DeliverableSend(reqs[0]);
      assert o.count == count + 1 && o.response == Sent;
      QuotaAdmitsDeliverableSends(cfg, count + 1, reqs[1..]);
      var s := Replay(cfg, count, reqs);
      var rest := Replay(cfg, count + 1, reqs[1..]);
      forall i | 0 <= i < |reqs| ensures s.responses[i] == Sent {
        if i > 0 {
          assert s.responses[i] == rest.responses[i - 1];
        }
      }
    }
  }

  /** Once the counter has reached the threshold, every submission is answered
      429 until a reset, and the counter stays put. (That no mail is composed
      then is the first ensures of `SendOutcome`.) */
  lemma {:induction false} ExhaustedQuotaRefusesSends(cfg: Config, count: int, reqs: seq<Request>)
    requires count >= MaxEmailsPerDay
    requires NoReset(reqs)
    ensures Replay(cfg, count, reqs).count == count
    ensures forall i | 0 <= i < |reqs| && reqs[i].SendMessage? :: Replay(cfg, count, reqs).responses[i] == RateLimited
    decreases |reqs|
  {
    if reqs != [] {
      assert !reqs[0].ResetEmailCount?;
      assert NoReset(reqs[1..]) by {
        forall i | 0 <= i < |reqs[1..]| ensures !reqs[1..][i].ResetEmailCount? {
          assert reqs[1..][i] == reqs[i + 1];
        }
      }
      ExhaustedQuotaRefusesSends(cfg, count, reqs[1..]);
      var s := Replay(cfg, count, reqs);
      var rest := Replay(cfg, count, reqs[1..]);
      forall i | 0 <= i < |reqs| && reqs[i].SendMessage? ensures s.responses[i] == RateLimited {
        if i > 0 {
          assert reqs[i] == reqs[1..][i - 1];
          assert s.responses[i] == rest.responses[i - 1];
        }
      }
    }
  }
}
