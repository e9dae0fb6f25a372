# Chat-completion relay bot: a Dafny model

The bot forwards each text message it receives from a chat to a
chat-completion API and sends back one reply. This project models the two
pieces of logic in its message handler (`bot.py`):

- **Endpoint normalisation** (module `Endpoint`). All trailing slashes are
  stripped from the configured base URL. If the result ends in `/v1`, it gets
  `/chat/completions`; otherwise it gets `/v1/chat/completions`. The model
  proves that the result always ends in `/v1/chat/completions`, that the
  stripped base is a prefix of it, that trailing slashes make no difference,
  that no doubled `/v1/v1` is introduced, and that `https://host` and
  `https://host/v1` reach the same endpoint.
- **Request building and reply choice** (module `Relay`). The payload holds
  the system prompt followed by the user's text, unchanged. The HTTP call
  becomes an `Outcome` value: the call either raised, or returned a status, a
  body and possibly the content at `choices[0].message.content`. Each outcome
  leads to exactly one of four replies:
  - the content itself;
  - a fixed parse-failure notice;
  - an upstream-error text with the status code and the raw body;
  - an internal-error text with the exception's text.

  The class `Bot` records the requests it has issued and the replies it has
  sent. Handling one message appends exactly one entry to each, unless the
  typing indicator failed first.

Supporting modules: `Text` (Python's `startswith`, `endswith` and substring
test, plus a helper that cuts a string at the first occurrence of a character,
used to read an upstream-error reply back into its parts), `Decimal`
(`str(int)` and reading it back) and `Wrappers` (`Option`).

`send_chat_action` (bot.py:26) is outside the `try`. If it raises, the handler
exits with no request and no reply. `Bot.HandleMessage` models this with its
`chatActionSent` flag.

## Model

| member | source | states |
|---|---|---|
| `Endpoint.TrimTrailingSlashes` | bot.py:37 | `rstrip('/')`: the result is a prefix of the input; only slashes were removed; the result is empty or does not end in a slash |
| `Endpoint.TrimUnique` | bot.py:37 | those three properties determine the result uniquely, so the function is exactly `rstrip('/')` |
| `Endpoint.TrimIdempotent` | bot.py:37 | stripping twice gives the same result as stripping once |
| `Endpoint.TrimIgnoresTrailingSlashes` | bot.py:37 | appending any run of slashes does not change the stripped string |
| `Endpoint.NormalizeEndpoint` | bot.py:37-41 | the endpoint always ends in `/v1/chat/completions`, and the stripped base URL is a prefix of it |
| `Endpoint.NormalizeShape` | bot.py:37-41 | after the stripped base comes exactly one of the two paths; it is `/chat/completions` if and only if the stripped base ends in `/v1` |
| `Endpoint.NoDoubledVersion` | bot.py:34-41 | the endpoint ends in `/v1/v1/chat/completions` if and only if the stripped base already ended in `/v1/v1`; normalising never doubles the version segment |
| `Endpoint.NormalizeIgnoresTrailingSlashes` | bot.py:37-41 | `normalize(b + slashes) == normalize(b)` for any run of slashes |
| `Endpoint.ConventionalFormsAgree` | bot.py:34-41 | `host`, `host/`, `host/v1` and `host/v1/` all give `host/v1/chat/completions`, for a host that ends in neither `/` nor `/v1` |
| `Endpoint.NormalizeExamplesBare` | bot.py:37-41 | `https://api.x.com` and `https://api.x.com/` give `https://api.x.com/v1/chat/completions` |
| `Endpoint.NormalizeExamplesVersioned` | bot.py:37-41 | `https://api.x.com/v1` and `https://api.x.com/v1/` give the same endpoint, without a doubled `/v1` |
| `Decimal.NatToDecimal` | bot.py:63 | the decimal text of a status code is non-empty, all digits, and has no leading zero |
| `Decimal.IntToDecimal` | bot.py:63 | `str(int)`: starts with `-` exactly when the value is negative; the rest is one or more digits with no leading zero, and never `-0` |
| `Decimal.NatRoundTrip` | bot.py:63 | reading back the digits of `n` gives `n` |
| `Decimal.IntRoundTrip` | bot.py:63 | reading back `str(i)` gives `i`, for negative values too |
| `Decimal.CanonicalRoundTrip` | bot.py:63 | digits without a leading zero are the decimal text of their own value |
| `Decimal.ParseIntUnique` | bot.py:63 | the only text that reads back as `i` is `str(i)`, so a status code has a single spelling in the reply |
| `Relay.BuildPayload` | bot.py:43-49 | the payload names the configured model and has exactly two messages, in order: `system` with the configured prompt, then `user` with the message text unchanged |
| `Relay.BuildRequest` | bot.py:29-52 | the request goes to the normalised endpoint of the base URL, which ends in `/v1/chat/completions` and extends the stripped base URL. Its headers are exactly `Authorization: Bearer <key>` then `Content-Type: application/json`. It carries the two-message payload and a 60-second timeout |
| `Relay.Classify` | bot.py:54-66 | every outcome falls in exactly one of four kinds. Status 200 with readable content is an answer. Status 200 without it is a parse failure. Any other status, including other 2xx codes, is an upstream error. An exception is an internal error |
| `Relay.ReplyText` | bot.py:54-66 | an answer replies with the content verbatim. A parse failure replies with the fixed notice. An upstream error's reply reads back as the status code and the body verbatim, and by `UpstreamErrorParsedUnique` this fixes its text. An internal error's reply is the fixed prefix followed by the exception text |
| `Relay.UpstreamErrorRoundTrip` | bot.py:61-63 | the status code and the raw body can both be recovered exactly from the upstream-error reply |
| `Relay.UpstreamErrorParsedUnique` | bot.py:61-63 | any text that reads back as a status and a body is exactly the upstream-error reply for them, so that reply has one spelling |
| `Relay.ParseFailureEchoesNothing` | bot.py:56-60 | the parse-failure reply does not depend on the body. No fragment containing a character the notice lacks occurs in it |
| `Relay.ReplyExamples` | bot.py:54-63 | a 200 reply with content `hi` gives `hi`. A 500 with body `server overloaded` gives a reply holding both. A 200 whose body has the wrong shape gives a reply that does not contain `unexpected` |
| `Relay.Bot.constructor` | bot.py:14-21 | the bot starts only after the start-up check, with no requests issued and no replies sent |
| `Relay.Bot.HandleMessage` | bot.py:24-66 | if the typing indicator fails, nothing changes. Otherwise exactly one request is appended: the built request for the message text. Exactly one reply is appended: addressed to the message's chat, answering that message, with text `ReplyText(outcome)` |

## Left out

- Reading the environment variables and the fatal start-up check (bot.py:7-19). These are process configuration. `Config` is an immutable argument, and the `Bot` constructor requires the checked fields to be non-empty. The bot token is not modelled.
- The chat client, the handler registration and the polling loop (bot.py:21-23, 68). These are transport.
- The HTTP call itself, JSON serialisation and the 60-second wait (bot.py:52). The call's result enters only as an `Outcome` value. The timeout appears only as a field of the request.
- JSON decoding of the response (bot.py:57). `content` is `Some(c)` exactly when `choices[0].message.content` resolves to the text `c`. A content value that is not text is not modelled.
- `Relay.Bot.HandleMessage`: assumes every `reply_to` succeeds. In the code, a `reply_to` that raises at bot.py:58 falls into the bare `except` and sends the parse-failure notice as a second attempt; an empty content string would do this. A `reply_to` that raises at bot.py:63 falls into the outer handler and sends an internal-error reply instead.
- The text of an exception (`str(e)`) is an opaque string.
- Exceptions other than the HTTP call's are not modelled separately. Building the headers, the endpoint and the payload cannot raise for string inputs. Any exception from the call is a `TransportError`.
