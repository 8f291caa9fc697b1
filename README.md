# cashfree-go webhook ingestion, in Dafny

This project models the part of the cashfree-go payment service that has logic of its own:

- **Webhook ingestion.** The Cashfree gateway posts an event with a signature header and a timestamp header. The service:
  - checks both headers, reads the body, verifies the HMAC-SHA256 signature and parses the JSON;
  - writes one audit row to the `webhooks` table;
  - dispatches on the event type to a projector, which rewrites the status columns of matching `payments` or `refunds` rows;
  - answers 200 once the event has parsed.
- **The gateway client's pure parts.** Choosing the sandbox or production base URL from the environment name, the authentication headers, and webhook signature verification. Signatures use base64 as in section 4 of RFC 4648, over HMAC as in section 2 of RFC 2104, with SHA-256 as in section 6.2 of FIPS 180-4.
- **The PostgreSQL repository as in-memory tables.** A class holds one sequence of rows per table. Each method has the row-level effect of its SQL statement:
  - inserts append;
  - updates overwrite the SET columns of every row matching the WHERE clause;
  - single-row queries return the first matching row or a not-found error;
  - the split-settlement insert is one transaction, committed or rolled back.
- **Two small rules of the HTTP handlers.** The `limit`/`offset` clamp of the payment list, and the conversion of a split-settlement request into gateway splits and table rows.

Files and modules:

| file | module | what it holds |
|---|---|---|
| `wrappers.dfy` | `Wrappers` | `Option` and `Result` |
| `models.dfy` | `Models` | the stored records |
| `base64.dfy` | `Base64` | the standard encoding, with its decoder and the round trip |
| `strconv.dfy` | `Strconv` | Go's `strconv.Atoi` on a 64-bit platform |
| `cashfree_client.dfy` | `Cashfree` | client configuration, headers, signature verification |
| `repository.dfy` | `Repository` | the `PaymentRepository` class and the row-update functions that specify it |
| `handlers.dfy` | `Handlers` | the webhook model, the `PaymentHandler` class, pagination and split conversion |

The webhook path is modelled twice:

- `Handlers.HandleWebhookSpec` is a pure function from the tables and a request to the response and the new tables. It is built from:
  - `Decide`, the rejection ladder;
  - `ResponseFor`, the status code and JSON body;
  - `WebhookLogRecord` and `LogEvent`, the audit row and its INSERT;
  - `Projection` and `ApplyUpdate`, the typed store update an event asks for and its effect;
  - `ProcessEvent`, the log first and the update second.
- `Handlers.PaymentHandler.HandleWebhook` follows the Go code: early returns, the log INSERT, then the `switch` over the event type. The `switch` is its own method, `DispatchEvent`, and calls the four projector methods. Each of those methods calls the repository class.

The method's postcondition says that its response and final tables are exactly those of `HandleWebhookSpec`. The properties of the webhook path are proved as lemmas about that function.

Collaborators outside the model are parameters:

- HMAC-SHA256 is a function type whose results are 32-byte digests, so every signature property holds for every such function.
- `json.Unmarshal` into `WebhookData` is a parameter `string -> Option<WebhookData>`.
- `time.Parse(time.RFC3339, ·)` is a parameter `string -> Option<Time>`.
- `uuid.New()` and `time.Now()` are parameters.
- Whether the database accepts a statement is a parameter: a `succeeds` flag, or a `TxFault` for the split-settlement transaction.

## Model

| member | source | states |
|---|---|---|
| Base64.Encode | cashfree_client.go:224 | the standard encoding of n bytes has 4·⌈n/3⌉ characters |
| Base64.DecodeEncode | cashfree_client.go:224 | decoding the encoding of any byte string gives it back |
| Base64.EncodeInjective | cashfree_client.go:224-226 | two byte strings have equal encodings exactly when they are equal, so comparing encoded signatures compares digests |
| Strconv.Atoi | handlers.go:554-562 | a parsed value is inside the 64-bit `int` range and comes from a non-empty string |
| Strconv.DigitsValueOfDecimal | handlers.go:554 | the digits of the decimal rendering of n have the value n |
| Strconv.AtoiDecimal | handlers.go:551-552 | Atoi reads back every in-range number written in decimal, with no sign, with '+' and with '-' |
| Strconv.AtoiRejects | handlers.go:554-561 | the empty string, a bare sign, any other non-digit character and a value past the `int` range are parse errors |
| Cashfree.ToUpper | cashfree_client.go:31 | upper-casing keeps the length and maps each character on its own |
| Cashfree.NewCashfreeClient | cashfree_client.go:29-47 | the client keeps the id, secret and environment unchanged, and its base URL is the sandbox or the production URL |
| Cashfree.ProdURLIffProdEnvironment | cashfree_client.go:30-33 | the base URL is production exactly when the environment spells "prod" in any letter case, and sandbox otherwise |
| Cashfree.ClientCreationExamples | main_test.go:161-176 | the "test" client gets the sandbox URL and its three fields unchanged; the "PROD" client gets the production URL |
| Cashfree.AuthHeaders | cashfree_client.go:230-238 | exactly five headers: the client id and secret, JSON content type and accept, and API version "2023-08-01" |
| Cashfree.ExpectedSignature | cashfree_client.go:219-224 | the base64 of a 32-byte digest is 44 characters long |
| Cashfree.VerifyWebhookSignature | cashfree_client.go:217-227 | a signature that verifies is 44 characters long |
| Cashfree.SignatureRoundTrip | cashfree_client.go:219-226 | the signature computed with the client secret over timestamp and payload verifies for that timestamp and payload |
| Cashfree.VerifyComparesDigests | cashfree_client.go:217-227 | an encoded digest verifies exactly when it is the HMAC-SHA256, under the client secret, of timestamp followed by payload |
| Cashfree.OnlyConcatenationSigned | cashfree_client.go:219 | two (timestamp, payload) pairs with the same concatenation verify alike |
| Cashfree.WrongLengthRejected | cashfree_client.go:224-226 | a signature whose length is not 44, such as "mock_signature", never verifies |
| Repository.UpdatePaymentRows | repository.go:80-90 | the payment UPDATE keeps the table length, rewrites every row with the order id and leaves every other row as it was |
| Repository.UpdateRefundRows | repository.go:154-163 | the refund UPDATE keeps the table length, rewrites every row with the refund id and leaves every other row as it was |
| Repository.UpdatePaymentRowsFrame | repository.go:80-90 | on matching rows only status, cf_payment_id, payment_method, payment_time and updated_at change; with no matching row the table is unchanged |
| Repository.UpdatePaymentRowsIdempotent | repository.go:80-90 | the same payment UPDATE applied twice gives the table of one application at the later time |
| Repository.UpdateRefundRowsFrame | repository.go:154-163 | on matching rows only status, processed_at and updated_at change; with no matching row the table is unchanged |
| Repository.UpdateRefundRowsIdempotent | repository.go:154-163 | the same refund UPDATE applied twice gives the table of one application at the later time |
| Repository.InsertedPaymentRow | repository.go:22-29 | the inserted row has every field of the record except the three columns the INSERT does not list, which are NULL |
| Repository.StampedCount | repository.go:202-225 | no more records are stamped than there are, and all of them when the transaction does not abort |
| Repository.PaymentRepository.constructor | repository.go:17-19 | the repository works on the tables the database already holds, whatever rows they contain |
| Repository.PaymentRepository.CreatePayment | repository.go:22-44 | the record gets the fresh id and created_at == updated_at == now; the table gains its row exactly when the INSERT succeeds, and nothing else changes |
| Repository.PaymentRepository.GetPaymentByOrderID | repository.go:47-77 | the first row with the order id; "payment not found" exactly when no row matches; the driver's error when the query fails |
| Repository.PaymentRepository.UpdatePaymentStatus | repository.go:80-90 | no error exactly when the statement succeeds, even with no matching row; the payments table becomes `UpdatePaymentRows` of the old one |
| Repository.PaymentRepository.UpdateRefundStatus | repository.go:154-163 | no error exactly when the statement succeeds; the refunds table becomes `UpdateRefundRows` of the old one |
| Repository.PaymentRepository.GetRefundByID | repository.go:166-191 | the first row with the refund id; "refund not found" exactly when no row matches; the driver's error when the query fails |
| Repository.PaymentRepository.CreateSplitSettlement | repository.go:194-226 | all or nothing: the table gains every split, in order, exactly when begin, every insert and commit succeed, and is unchanged otherwise; the records stamped in place are those reached before the failure, each with its own id and the one shared time |
| Repository.PaymentRepository.CreateWebhookLog | repository.go:282-297 | the record gets the fresh id and time; the table gains exactly that row when the INSERT succeeds; earlier rows are untouched |
| Handlers.StringField | handlers.go:462-463 | the Go type assertion `data[key].(string)`: a value exactly when the key is present and holds a JSON string |
| Handlers.StringOrEmpty | handlers.go:468-469 | the asserted string, or "" when the key is absent or not a string |
| Handlers.TimeField | handlers.go:472-479 | a time exactly when the key holds a string that parses as RFC 3339, and then the parsed time |
| Handlers.Classify | handlers.go:445-456 | exact match of the event type: a known kind has that type's name, and the event is unknown exactly when its type is none of the four names |
| Handlers.ClassifyName | handlers.go:445-456 | each of the four kinds is recognised from its own name, so dispatch picks at most one handler |
| Handlers.PaymentSuccessUpdate | handlers.go:461-485 | no update without a string order_id; otherwise status "SUCCESS", cf_payment_id and payment_method set to the string or "" and never null, and payment_time set only from a parseable string |
| Handlers.PaymentFailedUpdate | handlers.go:487-498 | no update without a string order_id; otherwise status "FAILED" with cf_payment_id, payment_method and payment_time null |
| Handlers.RefundStatusUpdate | handlers.go:500-523 | no update without a string refund_id; otherwise status from refund_status, or "" when absent, and processed_at only from a parseable string |
| Handlers.ProjectionFrame | handlers.go:444-529 | a projection never touches the webhook or split tables; only the payment events touch payments, and only the refund event touches refunds |
| Handlers.WebhookRejections | handlers.go:390-420 | an empty header gives 400 before anything else; an unreadable body gives 400; a bad signature gives 401 whatever the JSON parser does; an unparseable body gives 400; no rejected request changes any table |
| Handlers.WebhookAccepted | handlers.go:426-458 | after a successful parse the answer is 200 {"status":"success"} whatever the store calls do; the log gains exactly one row (when its INSERT succeeds) with the event type, the raw body, "RECEIVED" and the order id only when it is a string |
| Handlers.AuditOnlyEvents | handlers.go:452-455 | settlement and unknown events leave payments and refunds unchanged |
| Handlers.PaymentSuccessExample | handlers.go:461-485 | a correctly signed success event for order "o1" answers 200, logs one row and sets the "o1" payments to SUCCESS, "p1", "card" and the parsed time |
| Handlers.PaymentSuccessWithoutOrderID | handlers.go:461-466 | a success event without an order_id answers 200 and logs, but changes no payment |
| Handlers.Redelivery | handlers.go:440-523 | the same event delivered twice logs two rows and leaves payments and refunds as one delivery at the later time |
| Handlers.PaymentHandler.constructor | handlers.go:16-19 | the handler holds the given client and repository |
| Handlers.PaymentHandler.HandleWebhook | handlers.go:388-459 | the response and the final tables are exactly those of `HandleWebhookSpec` on the initial tables |
| Handlers.PaymentHandler.DispatchEvent | handlers.go:444-456 | exact-match dispatch: the tables become those of applying the projection of the event's kind, so an unknown type changes nothing |
| Handlers.PaymentHandler.HandlePaymentSuccessWebhook | handlers.go:461-485 | the tables become those of applying `PaymentSuccessUpdate` of the event data |
| Handlers.PaymentHandler.HandlePaymentFailedWebhook | handlers.go:487-498 | the tables become those of applying `PaymentFailedUpdate` of the event data |
| Handlers.PaymentHandler.HandleRefundStatusWebhook | handlers.go:500-523 | the tables become those of applying `RefundStatusUpdate` of the event data |
| Handlers.PaymentHandler.HandleSettlementStatusWebhook | handlers.go:525-529 | no stored row changes |
| Handlers.PageParams | handlers.go:551-567 | limit in [1, 100] and offset ≥ 0; an unparseable or non-positive limit becomes 10, one above 100 becomes 100; an unparseable or negative offset becomes 0; absent parameters read as "10" and "0" |
| Handlers.PageParamsDefaults | handlers.go:551-552 | without query parameters the page is limit 10, offset 0 |
| Handlers.PageParamsFixedPoint | handlers.go:551-567 | a clamped page written back as decimal query parameters clamps to itself |
| Handlers.ConvertSplits | handlers.go:311-340 | one gateway split and one row per requested split, in order, same vendor, status "PENDING"; an amount wins (type "AMOUNT"); else a percentage gives "PERCENTAGE" with amount = payment amount × percentage / 100; with neither, type "" and amount 0 |

## Left out

- The outbound gateway REST calls (creating orders, reading order status and payments, refunds, cancellation, settlements) and the HTTP handlers that only forward to them are not modelled. They are network calls through a retrying HTTP client.
- The rest of the split-settlement handler (binding, the payment lookup, the gateway call, the response) is not modelled. Only its conversion loop is modelled, and the repository's transactional insert is modelled separately.
- HMAC-SHA256 is a parameter of function type. Its only modelled property is the 32-byte digest length. A tampered body is rejected only if the HMAC has no collisions, which is not modelled.
- Constant-time comparison is not part of the model. The source compares with plain string equality, and so does the model.
- `Handlers.WebhookRequest` and `Cashfree.HmacSha256` hold the webhook body, the two headers and the signed message as Dafny strings, which are sequences of Unicode scalar values. Go reads the body as raw bytes and signs `[]byte(timestamp + payload)`, so it also verifies a body that is not valid UTF-8 byte for byte, and `json.Unmarshal` then reads invalid bytes inside JSON strings as U+FFFD. The model, and so `Handlers.WebhookRejections`, `Handlers.WebhookAccepted` and `Handlers.PaymentHandler.HandleWebhook`, covers only bodies and headers that are valid UTF-8.
- `json.Unmarshal` and RFC 3339 time parsing are parameters. The `Signature` and `Timestamp` fields of `WebhookData` are never filled by decoding, so they are left out.
- `Cashfree.ToUpper` upper-cases ASCII letters only, while Go's `strings.ToUpper` is Unicode-aware. No non-ASCII letter upper-cases to 'P', 'R', 'O' or 'D', so the URL choice is the same.
- `float64` amounts and percentages are `real`. IEEE rounding of payment amount × percentage / 100 is not modelled.
- `Repository.PaymentRepository.GetPaymentByOrderID` and `Repository.PaymentRepository.GetRefundByID` return the first matching row in insertion order. With several matches, SQL's `QueryRow` order is unspecified, and the schema is not part of the source.
- `Repository.InsertedPaymentRow` makes the three columns missing from the payment INSERT NULL. This assumes the columns have no default, because the table definitions are not part of the source.
- The `Create*` methods assign the id and timestamps on the caller's record in place. The model returns the stamped record, except in `CreateSplitSettlement`, where the records are an array updated in place.
- The settlement table (`CreateSettlement`, `GetSettlementByID`), `CreateRefund` and the `GetAllPayments` query are not modelled. No webhook or handler rule modelled here writes to them, so the settlement record is not declared.
- Context timeouts, logging, HTTP routing, CORS, configuration loading and the request validators are not modelled. They decide nothing in the modelled rules.
- Go's `map[string]interface{}` becomes a map to a JSON value type. Only whether a member is a string matters to the modelled rules.
