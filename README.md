# Portfolio gateway: email gate and chat guards

The backend of the portfolio site (`api/app.py`) has two handlers and one piece
of process state. `send_message` relays a contact form by SMTP. `chat` forwards
a question to a language-model provider. A process-wide counter, `email_count`,
caps the number of submissions answered with success. `reset_email_count` sets it back to zero.

This project models the decision logic of these handlers. It covers the order
of the guards, the status code and message of every reply, the headers of the
outgoing mail, and when the counter changes. The SMTP exchange and the provider
call are outside code: each appears only as its outcome, passed in as a
parameter (`delivered`, `answer`). The configuration read at startup (the
SMTP account and the provider key) is one `Config` value per run.

- `wrappers.dfy`: `Option`, for absent fields and an unset API key.
- `http.dfy`: the reply `Response(success, status, message)`, the request body
  as a map from field names to strings, `dict.get` and Python truthiness.
- `contact.dfy`: the constants and reply texts, the field and address checks,
  the header composition, `SendOutcome` (what one `send_message` call does, as a
  function of the counter), and the class `EmailGate`. It holds the counter and
  has the methods `SendMessage`, proved against `SendOutcome`, and `Reset`,
  proved against `ResetOutcome`, the single definition of a reset.
- `chat.dfy`: `ChatGuard`, the checks `chat` makes before it calls the provider,
  and the two shapes of reply the provider path gives (`ProviderAnswer`).
- `traffic.dfy`: requests served one after another (`Replay`), and the
  properties of the counter over any such sequence.

The code rejects an address that lacks either `@` or `.` (`api/app.py:59`), as
`LooksLikeEmail` does.

## Model

| member | source | states |
|---|---|---|
| `Http.Filled` | api/app.py:48-53 | Defined as Python truthiness of `data.get(key)`, from `Get` (the `dict.get` lookup) and `Truthy` (`None` and `""` are falsy). Proved at the map level: a field is filled exactly when the key is present and its value is not the empty string. |
| `Contact.AllFieldsFilled` | api/app.py:53 | `all([name, email, subject, message])`: the form passes exactly when each of the four named fields is filled. |
| `Contact.LooksLikeEmail` | api/app.py:59 | An address passes exactly when it holds some '@' and some '.', at any positions and in any order. Nothing else is checked. |
| `Chat.ChatGuard` | api/app.py:106-119 | A key that is `None` or the empty string gives 503 "Chat service is currently unavailable." whatever the body holds. With a key, a missing or empty message gives 400 "Message is required.". The provider is reached exactly when both are present, and it receives the user's message. |
| `Contact.ComposeMail` | api/app.py:66-70 | From and To are both the configured account. Reply-To is the submitter's address. The Subject header is the label "Portfolio Contact: " followed by the subject, which `SubjectOf` recovers exactly. |
| `Contact.SendOutcome` | api/app.py:38-101 | At or above 50 the reply is 429 and nothing else is looked at. Below 50: a missing or empty field gives 400 "All fields are required."; then an address without '@' or '.' gives 400 "Please provide a valid email address.". Each of these leaves the counter alone and sends nothing. A send is attempted exactly when all checks pass, and the message composed for it carries the composed headers. Success happens exactly when that send is delivered, and the counter then rises by one. A failed send gives 500 and the counter stays. A counter in [0, 50] stays in [0, 50]. |
| `Contact.EmailGate.constructor` | api/app.py:24-25 | The counter starts at 0, inside the invariant 0 <= count <= 50. |
| `Contact.EmailGate.SendMessage` | api/app.py:37-101 | Updates the counter in place. The reply, the new counter and the message composed for the send attempt (None when a check stops the request first) are those of `SendOutcome` on the old counter. The invariant 0 <= count <= 50 is kept. |
| `Contact.EmailGate.Reset` | api/app.py:169-173 | Whatever the prior value, the counter becomes 0, nothing is sent, and the reply is 200 "Email count reset.". This is `ResetOutcome`, the same reset the request-sequence model uses. |
| `Traffic.Step` | api/app.py:37-173 | One request goes to its handler. A submission does what `SendOutcome` says. A reset gives `ResetOutcome`. A chat sends no mail and leaves the counter as it was. Its reply is the guard's refusal, or else the provider's answer. When that answer has one of the provider path's two shapes (200 with text, or the 500 apology), a chat's status is 200, 400, 500 or 503. |
| `Traffic.Replay` | api/app.py:37-173 | Under one configuration, requests served in sequence get exactly one reply each. |
| `Traffic.ReplayKeepsCountInRange` | api/app.py:41-89 | Starting with a counter in [0, 50], any sequence of submissions, resets and chats leaves it in [0, 50]. This holds because the `>=` gate runs before the only increment. |
| `Traffic.ReplayCountsSuccessfulSends` | api/app.py:83-94 | Without a reset, the final counter is the initial one plus the number of submissions answered with success. Chats and failed submissions do not move it. |
| `Traffic.AtMostQuotaBetweenResets` | api/app.py:24-94 | Between resets, at most 50 - count submissions are answered with success. So at most 50 are, from a fresh or reset counter. |
| `Traffic.ResetIsIdempotent` | api/app.py:169-173 | After any history, a reset leaves the counter at 0 and acknowledges. A second reset gives the same counter and only adds the same acknowledgement. |
| `Traffic.QuotaAdmitsDeliverableSends` | api/app.py:41-94 | Below the threshold, every valid submission whose SMTP exchange completes is answered with success, up to 50 - count of them in a row. The counter rises by one for each. |
| `Traffic.ExhaustedQuotaRefusesSends` | api/app.py:41-45 | Once the counter is at or above 50, every submission gets 429 until a reset, valid or not, and the counter does not move. |

## Left out

- The SMTP exchange (`smtplib.SMTP`, `starttls`, `login`, `send_message`, `quit`) is network I/O. Only whether it completes without raising is modelled, as the `delivered` parameter. An unset `GMAIL_USER` or password fails inside that exchange, so for the reply and the counter it is covered by `delivered = false`. With `GMAIL_USER` unset, the source's `From` and `To` headers are `None`. The model does not represent this: its account is always a string.
- `delivered` stands for the whole SMTP exchange completing without raising. The model does not capture a mail that the server accepted at `send_message` before `quit()` raised. That request is answered 500 and not counted, yet the mail went out. Such mails are neither counted nor bounded here, so the quota lemmas bound successful submissions, not emails delivered.
- The MIME body text and the `MIMEText`/`MIMEMultipart` objects are library behaviour. Only the four headers are modelled.
- After the chat guard: the persona prompt, the provider call, the `.strip()` of its text and its 500 path. These are a foreign network client and a static string. The reply they produce is the `answer` parameter of a chat request in `Traffic`. `ProviderAnswer` names its two shapes, 200 with text or the fixed 500 apology, but the text itself is not modelled.
- Flask routing, `jsonify`, `render_template`, CORS, `load_dotenv` and `os.getenv` are framework and configuration plumbing. The configuration appears as parameters (`account`, `apiKey`).
- `request.json` being `None`, and fields that are not strings. A body is a map from field names to strings, and a field is either such a string or absent.
- Concurrent requests, and the check-then-increment race they allow. Every property here is about requests served one after another.
- The `print` logging on failures is output only.
