# Webhook API — Dafny model

This project models the core of a small webhook registry. A client registers callback URLs, each
with a shared token. Later it triggers a test broadcast that posts a payload to every registered
webhook. The model covers four parts:

- **Validation.** The `Webhook` constructor (`Webhooks.NewWebhook`) runs an ordered chain of
  guards on the url and the token. The first guard that fails throws a `ValidationError`.
  The `Payload` constructor (`Payloads.NewPayload`) rejects only `undefined` and `null`.
- **The in-memory registry.** `InMemoryDb.InMemoryDB` is a class with a `seq<Webhook>` field. Its
  methods append one webhook, append several, list and reset.
- **The handlers.** `App.Server` holds the module-level webhook list. `Register` validates a
  webhook and only then appends it. `Trigger` validates the payload, then posts it to each
  webhook in turn and waits for every answer. It records one error line for each answer whose
  status is not 200. It replies with the success text, or with 404 and the errors. An error
  thrown anywhere aborts the loop, and the reply is then 500 with that error's message
  (`handleError`).
- **Declarations.** The status codes, the validation messages and the `ApiResponse` envelope
  are modelled as constants and datatypes.

Boundaries:

- **URL parsing.** The WHATWG URL Standard, section 4.4 "URL parsing", is not modelled. Every
  member that needs it takes a parameter `isAbsoluteUrl: string -> bool`, and nothing is
  assumed about it.
- **The network.** It is the parameter `send: Network`, a function of the request's position in
  the trigger (0, 1, ...) and of the request. It answers with a response (status and status text)
  or a thrown error. Because the position is an argument, two identical requests, as a webhook
  registered twice produces, may get different answers.
- **Missing fields.** A request-body field that is `undefined` or `null` is `None`.

`Trigger` is proved against the function `App.Deliver`. That function states the loop as a left
fold over the webhook list. The lemmas beside it state what the loop does with indices:
- the order of the requests;
- aborting at the first thrown error;
- when the error list is empty;
- how running over a concatenation splits into two runs.

The test suite in `src/test/test.ts` targets a later revision of the app. It expects 400 for
validation errors and a `{success, results, errors}` envelope. The model follows `src/app.ts`
as written:
- Requests are sequential, each one awaited before the next.
- A thrown error aborts the loop. It is not turned into a failure outcome for one webhook.
- A non-200 answer makes the reply 404.
- Validation errors are answered with 500 through `handleError`.
- With no webhooks, the reply is the plain success text.

`src/models/webhook.ts:1` imports message constants that `src/models/errors.ts` does not
declare. Their values come from the test suite (`src/test/test.ts:105`, `132`, `152`, `171`,
`191`, and `266` for the payload).

## Model

| member | source | states |
|---|---|---|
| `Errors.ValidationError` | src/models/payload.ts:14-18 | the error keeps the given message and is named "ValidationError" (src/models/errors.ts:4-9 declares an identical copy; the model tells errors apart by name only) |
| `Responses.MakeApiResponse` | src/models/response.ts:1-9 | the response is successful exactly when its list of errors is empty; it keeps the given results and errors |
| `Payloads.Validate` | src/models/payload.ts:7-11 | it fails exactly for undefined and null, with the error "Payload is required" |
| `Payloads.NewPayload` | src/models/payload.ts:1-6 | it accepts exactly the values other than undefined and null, and stores them unchanged; otherwise it throws a ValidationError "Payload is required" |
| `Payloads.FalsyAndEmptyPayloadsAccepted` | src/models/payload.ts:8 | false, 0, "", [] and {} are accepted unchanged |
| `Webhooks.ValidateUrl` | src/models/webhook.ts:14-26 | it passes exactly for a url that is present, non-empty and parses; every failure is a ValidationError |
| `Webhooks.ValidateToken` | src/models/webhook.ts:27-34 | it passes exactly for a token that is present and non-empty; every failure is a ValidationError |
| `Webhooks.NewWebhook` | src/models/webhook.ts:7-12 | missing url gives "URL is required" whatever the token; "" gives "URL cannot be empty" whatever the parser says; an unparsable url gives "URL format is invalid"; url errors take priority over token errors; then "Token is required" and "Token cannot be empty"; on success url and token are stored unchanged, non-empty and parsed |
| `Webhooks.NewWebhookRoundTrip` | src/models/webhook.ts:3-12 | a webhook is rebuilt from its own fields exactly when it is well formed |
| `Webhooks.CheckMessagesDistinct` | src/models/webhook.ts:14-34 | the five guards throw five different messages |
| `Webhooks.NewWebhookReportsFirstFailedCheck` | src/models/webhook.ts:7-34 | construction succeeds exactly when all five checks pass; otherwise the one error reported is that of the first failing check in the fixed order |
| `InMemoryDb.InMemoryDB.constructor` | src/db/inMemoryDB.ts:14 | a new store is empty |
| `InMemoryDb.InMemoryDB.AddWebhook` | src/db/inMemoryDB.ts:16-19 | the new list is the old list plus the webhook at the end; the old list stays a prefix; the given webhook is returned |
| `InMemoryDb.InMemoryDB.GetWebhooks` | src/db/inMemoryDB.ts:21-23 | it returns the current list and changes nothing |
| `InMemoryDb.InMemoryDB.Reset` | src/db/inMemoryDB.ts:26-28 | the list is empty afterwards |
| `InMemoryDb.InMemoryDB.AddWebhooks` | src/db/inMemoryDB.ts:29-34 | the new list is the old list followed by the given webhooks in order; the given list is returned |
| `InMemoryDb.AddTwice` | src/db/inMemoryDB.ts:16-19 | adding the same webhook twice stores two entries: no deduplication |
| `InMemoryDb.ResetAddList` | src/db/inMemoryDB.ts:16-28 | after reset and one add, listing returns exactly that webhook |
| `App.WebhookRequest` | src/app.ts:59-68 | the request targets the webhook's url, and its body carries the webhook's token and the payload unchanged |
| `App.ErrorLine` | src/app.ts:42-44 | the error line starts with "Error making POST request to " and the webhook's url, and ends with the response's status text |
| `App.Step` | src/app.ts:35-45 | once aborted, nothing changes; otherwise the webhook's request is issued next, at the position after the requests already sent, an error line is added exactly for a non-200 status, and a thrown error aborts |
| `App.Triggered` | src/app.ts:30-55 | a missing payload issues no request; at most one request per webhook; the status is 200, 404 or 500, and 200 only with the success text |
| `App.HandleError` | src/app.ts:70-72 | the reply is 500 with the error's message as its only entry |
| `App.Deliver` | src/app.ts:34-46 | the loop issues at most one request per webhook, and exactly one per webhook when nothing throws |
| `App.DeliverStopsAtThrow` | src/app.ts:34-55 | once a request has thrown, the remaining webhooks change nothing |
| `App.DeliverRequestsInOrder` | src/app.ts:34-38 | the i-th request goes to the i-th webhook's url, with body {token, payload} (src/app.ts:63-67) |
| `App.DeliverThrowsIffSomeRequestThrows` | src/app.ts:34-53 | the loop is aborted exactly when the request of some webhook throws |
| `App.DeliverAbortsAtFirstThrow` | src/app.ts:34-53 | an aborted loop stopped at the first request that threw: the last request issued threw that error, and none before it threw |
| `App.DeliverErrorsEmptyIffAllAccepted` | src/app.ts:41-47 | without a throw, no error is recorded exactly when every webhook answered 200 |
| `App.DeliverAppend` | src/app.ts:34-46 | running over front + back is running over front, then over back with the network shifted past front's requests, with requests and errors appended in webhook order |
| `App.DuplicateWebhookAnsweredPerRequest` | src/app.ts:34-38 | a webhook registered twice gets two identical requests, and the second may throw after the first got 200, aborting the loop at the second copy |
| `App.DeliverOne` | src/app.ts:35-45 | one webhook gets one request, and one error line exactly when its answer is a non-200 status |
| `App.TriggerRejectsMissingPayload` | src/app.ts:30-55 | an undefined or null payload gives 500 with "Payload is required", and no request is issued |
| `App.TriggerWithoutWebhooks` | src/app.ts:32-48 | with no webhooks, a valid payload gets the success text and no request is issued |
| `App.TriggerDecision` | src/app.ts:34-51 | without a throw: one request per webhook in list order; the success text exactly when every answer is 200; otherwise 404 with a non-empty error list |
| `App.TriggerAbortsOnThrow` | src/app.ts:34-55 | if webhook k's request throws first, the webhooks after k get no request, and the reply is 500 with that error's message |
| `App.Server.constructor` | src/app.ts:17 | the module-level list starts empty |
| `App.Server.Register` | src/app.ts:19-28 | a valid webhook is appended once and echoed with status 200; a validation error leaves the list unchanged and gives 500 with the error's message |
| `App.Server.Trigger` | src/app.ts:30-55 | the reply and the requests issued are those of `App.Triggered` over the registered webhooks |

## Left out

- Express routing, body parsing, `app.listen` and the embedded test server (src/app.ts:7-9, 57, 76-86): these are HTTP plumbing.
- axios and the network: `send` is a parameter. axios's own rule that non-2xx answers throw belongs to the library. The oracle may return any status or throw.
- The logging of status codes (`console.log`).
- URL parsing by `new URL`: it is the uninterpreted parameter `isAbsoluteUrl`.
- Request-body fields that are neither strings nor undefined/null are not modelled as url or token. In JavaScript, an array or a number there would reach `.length` and `new URL`.
- JSON numbers are modelled as `real`. NaN and floating-point details are not modelled.
- The Promise wrapping of `InMemoryDB` and the `DB` interface (src/db/db.ts): calls are synchronous.
- Webhooks are values, so object identity is not modelled. In particular, `getWebhooks` returns the internal array itself, and that aliasing is not captured.
- `InMemoryDb.InMemoryDB.AddWebhooks` given the store's own array: in the source the `for…of` loop (src/db/inMemoryDB.ts:30-32) pushes onto the array it is iterating and never terminates; the model takes the list as a value and doubles it.
- Interleaving of handlers at the `await` in src/app.ts:35 is not modelled. In the source, a registration handled while the trigger loop waits pushes onto the same live array, and the loop then posts to the new webhook too; the model's loop runs over the list as it was when the trigger started.
- The test suites (src/test) and the startup file src/prod.ts are not part of this model. The tests target a later revision of the app that src/app.ts does not contain.
