/**
 * The HTTP handlers of the payment service that hold logic of their own:
 * webhook ingestion (header check, signature check, JSON parse, audit log,
 * dispatch, status projection), the pagination clamp of the payment list and
 * the conversion of a split-settlement request into gateway and table rows.
 *
 * The webhook path is modelled twice: `HandleWebhookSpec` says in one pure
 * function what a request does to the response and to the tables, and
 * `PaymentHandler.HandleWebhook` follows the Go code's early returns and
 * ordered store calls and is proved to agree with it.
 */
module Handlers {
  import opened Wrappers
  import opened Models
  import opened Cashfree
  import opened Repository
  import opened Strconv

  // ---------------------------------------------------------------------
  // Reading the untyped `data` object of an event
  // ---------------------------------------------------------------------

  /** `data[key].(string)` with its `ok`: the value when the key is there and holds a JSON string. */
  function StringField(data: map<string, JsonValue>, key: string): (r: Option<string>)
    ensures r.Some? <==> key in data && data[key].JString?
    ensures r.Some? ==> data[key] == JString(r.value)
  {
    if key in data && data[key].JString? then Some(data[key].s) else None
  }

  /** `v, _ := data[key].(string)`: the string, or Go's zero value "" when absent or not a string. */
  function StringOrEmpty(data: map<string, JsonValue>, key: string): (v: string)
    ensures key in data && data[key].JString? ==> v == data[key].s
    ensures !(key in data && data[key].JString?) ==> v == ""
  {
    StringField(data, key).GetOr("")
  }

  /** An optional RFC 3339 timestamp: present only when the member is a string that parses. */
  function TimeField(data: map<string, JsonValue>, key: string, parseTime: string -> Option<Time>): (r: Option<Time>)
    ensures r.Some? <==> key in data && data[key].JString? && parseTime(data[key].s).Some?
    ensures r.Some? ==> r == parseTime(data[key].s)
  {
    match StringField(data, key)
    case None => None
    case Some(s) => parseTime(s)
  }

  // ---------------------------------------------------------------------
  // Event classification
  // ---------------------------------------------------------------------

  /** The event types the service reacts to, and everything else. */
  datatype EventKind = PaymentSuccess | PaymentFailed | RefundStatus | SettlementStatus | UnknownEvent

  /** The `type` string of each known event kind. */
  function EventTypeName(k: EventKind): string
    requires k != UnknownEvent
  {
    match k
    case PaymentSuccess => "PAYMENT_SUCCESS_WEBHOOK"
    case PaymentFailed => "PAYMENT_FAILED_WEBHOOK"
    case RefundStatus => "REFUND_STATUS_WEBHOOK"
    case SettlementStatus => "SETTLEMENT_STATUS_WEBHOOK"
  }

  /** The names of the known kinds. */
  const KnownEventTypes: set<string> :=
    {EventTypeName(PaymentSuccess), EventTypeName(PaymentFailed),
     EventTypeName(RefundStatus), EventTypeName(SettlementStatus)}

  /** Exact, case-sensitive match of the event type against the four known names. */
  function Classify(eventType: string): (k: EventKind)
    ensures k != UnknownEvent ==> EventTypeName(k) == eventType
    ensures k == UnknownEvent <==> eventType !in KnownEventTypes
  {
    if eventType == "PAYMENT_SUCCESS_WEBHOOK" then PaymentSuccess
    else if eventType == "PAYMENT_FAILED_WEBHOOK" then PaymentFailed
    else if eventType == "REFUND_STATUS_WEBHOOK" then RefundStatus
    else if eventType == "SETTLEMENT_STATUS_WEBHOOK" then SettlementStatus
    else UnknownEvent
  }

  /** Each known kind is recognised from its own name, so no two kinds share a name. */
  lemma ClassifyName(k: EventKind)
    requires k != UnknownEvent
    ensures Classify(EventTypeName(k)) == k
  {
  }

  // ---------------------------------------------------------------------
  // Status projection: the typed store update each event asks for
  // ---------------------------------------------------------------------

  /** The repository call a projector makes, if any. */
  datatype StoreUpdate =
    | NoUpdate
    | SetPaymentStatus(orderID: string, paymentCols: PaymentStatusColumns)
    | SetRefundStatus(refundID: string, refundCols: RefundStatusColumns)

  /**
   * PAYMENT_SUCCESS_WEBHOOK: with a string order id, status "SUCCESS", the
   * gateway payment id and method as strings ("" when absent, never null) and
   * the payment time only when it parses.
   */
  function PaymentSuccessUpdate(data: map<string, JsonValue>, parseTime: string -> Option<Time>): (u: StoreUpdate)
    ensures u.NoUpdate? <==> !("order_id" in data && data["order_id"].JString?)
    ensures !u.SetRefundStatus?
    ensures u.SetPaymentStatus? ==>
      && data["order_id"] == JString(u.orderID)
      && u.paymentCols.status == "SUCCESS"
      && u.paymentCols.cfPaymentID == Some(StringOrEmpty(data, "cf_payment_id"))
      && u.paymentCols.paymentMethod == Some(StringOrEmpty(data, "payment_method"))
      && u.paymentCols.paymentTime == TimeField(data, "payment_time", parseTime)
  {
    match StringField(data, "order_id")
    case None => NoUpdate
    case Some(orderID) =>
      SetPaymentStatus(orderID, PaymentStatusColumns(
        "SUCCESS",
        Some(StringOrEmpty(data, "cf_payment_id")),
        Some(StringOrEmpty(data, "payment_method")),
        TimeField(data, "payment_time", parseTime)))
  }

  /** PAYMENT_FAILED_WEBHOOK: with a string order id, status "FAILED" and the payment id, method and time cleared. */
  function PaymentFailedUpdate(data: map<string, JsonValue>): (u: StoreUpdate)
    ensures u.NoUpdate? <==> !("order_id" in data && data["order_id"].JString?)
    ensures !u.SetRefundStatus?
    ensures u.SetPaymentStatus? ==>
      data["order_id"] == JString(u.orderID) && u.paymentCols == PaymentStatusColumns("FAILED", None, None, None)
  {
    match StringField(data, "order_id")
    case None => NoUpdate
    case Some(orderID) => SetPaymentStatus(orderID, PaymentStatusColumns("FAILED", None, None, None))
  }

  /** REFUND_STATUS_WEBHOOK: with a string refund id, the refund status ("" when absent) and the processed time when it parses. */
  function RefundStatusUpdate(data: map<string, JsonValue>, parseTime: string -> Option<Time>): (u: StoreUpdate)
    ensures u.NoUpdate? <==> !("refund_id" in data && data["refund_id"].JString?)
    ensures !u.SetPaymentStatus?
    ensures u.SetRefundStatus? ==>
      && data["refund_id"] == JString(u.refundID)
      && u.refundCols.status == StringOrEmpty(data, "refund_status")
      && u.refundCols.processedAt == TimeField(data, "processed_at", parseTime)
  {
    match StringField(data, "refund_id")
    case None => NoUpdate
    case Some(refundID) =>
      SetRefundStatus(refundID, RefundStatusColumns(
        StringOrEmpty(data, "refund_status"),
        TimeField(data, "processed_at", parseTime)))
  }

  /** The update an event of a given kind asks for: settlement and unknown events ask for none. */
  function Projection(kind: EventKind, data: map<string, JsonValue>, parseTime: string -> Option<Time>): StoreUpdate {
    match kind
    case PaymentSuccess => PaymentSuccessUpdate(data, parseTime)
    case PaymentFailed => PaymentFailedUpdate(data)
    case RefundStatus => RefundStatusUpdate(data, parseTime)
    case SettlementStatus => NoUpdate
    case UnknownEvent => NoUpdate
  }

  /** The tables after the repository call of an update, when the database accepts it. */
  function ApplyUpdate(t: Tables, u: StoreUpdate, now: Time, succeeds: bool): Tables {
    if !succeeds then t
    else match u
      case NoUpdate => t
      case SetPaymentStatus(orderID, cols) => t.(payments := UpdatePaymentRows(t.payments, orderID, cols, now))
      case SetRefundStatus(refundID, cols) => t.(refunds := UpdateRefundRows(t.refunds, refundID, cols, now))
  }

  /** Only the payment events touch payments, only the refund event touches refunds, and nothing else is touched. */
  lemma ProjectionFrame(t: Tables, kind: EventKind, data: map<string, JsonValue>, parseTime: string -> Option<Time>,
                        now: Time, succeeds: bool)
    ensures var t' := ApplyUpdate(t, Projection(kind, data, parseTime), now, succeeds);
      && t'.webhooks == t.webhooks && t'.splitSettlements == t.splitSettlements
      && (kind != PaymentSuccess && kind != PaymentFailed ==> t'.payments == t.payments)
      && (kind != RefundStatus ==> t'.refunds == t.refunds)
  {
  }

  // ---------------------------------------------------------------------
  // The webhook decision procedure
  // ---------------------------------------------------------------------

  /** An inbound webhook: the two headers ("" when missing) and the body, None when it could not be read. */
  datatype WebhookRequest = WebhookRequest(signature: string, timestamp: string, body: Option<string>)

  datatype Rejection = MissingHeaders | UnreadableBody | InvalidSignature | InvalidPayload

  /** Whether a request is turned away, and why, or the event it carries. */
  datatype Decision = Rejected(reason: Rejection) | Accepted(event: WebhookData, payload: string)

  /** The HTTP status code and the JSON object of a response. */
  datatype Response = Response(code: int, body: map<string, string>)

  const MissingHeadersResponse: Response := Response(400, map["error" := "Missing webhook headers"])
  const UnreadableBodyResponse: Response := Response(400, map["error" := "Failed to read request body"])
  const InvalidSignatureResponse: Response := Response(401, map["error" := "Invalid signature"])
  const InvalidPayloadResponse: Response := Response(400, map["error" := "Invalid webhook data"])
  const SuccessResponse: Response := Response(200, map["status" := "success"])

  /**
   * The checks, in order: both headers present, body read, signature valid,
   * body parses as JSON. `parseJson` is `json.Unmarshal` into WebhookData.
   */
  function Decide(client: CashfreeClient, hmac: HmacSha256, req: WebhookRequest,
                  parseJson: string -> Option<WebhookData>): Decision
  {
    if req.signature == "" || req.timestamp == "" then Rejected(MissingHeaders)
    else if req.body.None? then Rejected(UnreadableBody)
    else if !VerifyWebhookSignature(client, hmac, req.signature, req.timestamp, req.body.value) then Rejected(InvalidSignature)
    else match parseJson(req.body.value)
      case None => Rejected(InvalidPayload)
      case Some(event) => Accepted(event, req.body.value)
  }

  function ResponseFor(d: Decision): Response {
    match d
    case Rejected(MissingHeaders) => MissingHeadersResponse
    case Rejected(UnreadableBody) => UnreadableBodyResponse
    case Rejected(InvalidSignature) => InvalidSignatureResponse
    case Rejected(InvalidPayload) => InvalidPayloadResponse
    case Accepted(_, _) => SuccessResponse
  }

  /** The audit row for an accepted event, before the repository gives it an id and a time. */
  function WebhookLogRecord(event: WebhookData, payload: string): Webhook {
    Webhook(NilUuid, event.eventType, StringField(event.data, "order_id"), payload, "RECEIVED", ZeroTime)
  }

  /**
   * The outcomes of the collaborators one accepted webhook calls: the id and
   * time of the log row and whether its INSERT succeeds, and the time of the
   * status UPDATE and whether it succeeds.
   */
  datatype Ambient = Ambient(logID: Uuid, logAt: Time, logSucceeds: bool, updateAt: Time, updateSucceeds: bool)

  /** The tables after the audit INSERT of an accepted event. */
  function LogEvent(t: Tables, event: WebhookData, payload: string, amb: Ambient): Tables {
    var logged := WebhookLogRecord(event, payload).(id := amb.logID, createdAt := amb.logAt);
    t.(webhooks := t.webhooks + if amb.logSucceeds then [logged] else [])
  }

  /** What an accepted event does to the tables: the audit row first, then the projection of its kind. */
  function ProcessEvent(t: Tables, event: WebhookData, payload: string, parseTime: string -> Option<Time>,
                        amb: Ambient): Tables
  {
    var update := Projection(Classify(event.eventType), event.data, parseTime);
    ApplyUpdate(LogEvent(t, event, payload, amb), update, amb.updateAt, amb.updateSucceeds)
  }

  /** What one webhook request does: the response, and the tables afterwards. */
  function HandleWebhookSpec(t: Tables, client: CashfreeClient, hmac: HmacSha256, req: WebhookRequest,
                             parseJson: string -> Option<WebhookData>, parseTime: string -> Option<Time>,
                             amb: Ambient): (Response, Tables)
  {
    var d := Decide(client, hmac, req, parseJson);
    (ResponseFor(d), if d.Accepted? then ProcessEvent(t, d.event, d.payload, parseTime, amb) else t)
  }

  /**
   * The rejection ladder. A missing header is a 400 whatever the body and
   * signature; a bad signature is a 401 and the outcome does not depend on
   * the JSON parser (the body is never parsed); an unparseable body is a 400.
   * No rejected request changes any table.
   */
  lemma WebhookRejections(t: Tables, client: CashfreeClient, hmac: HmacSha256, req: WebhookRequest,
                          parseJson: string -> Option<WebhookData>, otherParser: string -> Option<WebhookData>,
                          parseTime: string -> Option<Time>, amb: Ambient)
    ensures var (resp, t') := HandleWebhookSpec(t, client, hmac, req, parseJson, parseTime, amb);
      && (req.signature == "" || req.timestamp == "" ==> resp == MissingHeadersResponse && t' == t)
      && (req.signature != "" && req.timestamp != "" && req.body.None? ==> resp == UnreadableBodyResponse && t' == t)
      && ((req.signature != "" && req.timestamp != "" && req.body.Some?
           && !VerifyWebhookSignature(client, hmac, req.signature, req.timestamp, req.body.value)) ==>
            && resp == InvalidSignatureResponse && resp.code == 401 && t' == t
            && HandleWebhookSpec(t, client, hmac, req, otherParser, parseTime, amb) == (resp, t'))
      && ((req.signature != "" && req.timestamp != "" && req.body.Some?
           && VerifyWebhookSignature(client, hmac, req.signature, req.timestamp, req.body.value)
           && parseJson(req.body.value).None?) ==> resp == InvalidPayloadResponse && t' == t)
      && (resp.code != 200 ==> t' == t)
  {
  }

  /**
   * Once the signature verifies and the body parses, the answer is 200
   * {"status":"success"} whatever the event type and whether or not the log
   * INSERT and the status UPDATE succeed; the log gains exactly the one
   * audit row (when its INSERT succeeds), carrying the event type, the raw
   * body, status "RECEIVED" and the order id only if `data.order_id` is a string.
   */
  lemma WebhookAccepted(t: Tables, client: CashfreeClient, hmac: HmacSha256, req: WebhookRequest,
                        parseJson: string -> Option<WebhookData>, parseTime: string -> Option<Time>, amb: Ambient)
    requires req.signature != "" && req.timestamp != "" && req.body.Some?
    requires VerifyWebhookSignature(client, hmac, req.signature, req.timestamp, req.body.value)
    requires parseJson(req.body.value).Some?
    ensures var (resp, t') := HandleWebhookSpec(t, client, hmac, req, parseJson, parseTime, amb);
      var event := parseJson(req.body.value).value;
      && resp == SuccessResponse
      && t'.splitSettlements == t.splitSettlements
      && (amb.logSucceeds ==>
            && |t'.webhooks| == |t.webhooks| + 1 && t'.webhooks[..|t.webhooks|] == t.webhooks
            && var w := t'.webhooks[|t.webhooks|];
               && w.id == amb.logID && w.createdAt == amb.logAt
               && w.eventType == event.eventType && w.payload == req.body.value && w.status == "RECEIVED"
               && (w.orderID.Some? <==> "order_id" in event.data && event.data["order_id"].JString?)
               && (w.orderID.Some? ==> event.data["order_id"] == JString(w.orderID.value)))
      && (!amb.logSucceeds ==> t'.webhooks == t.webhooks)
  {
  }

  /**
   * Settlement and unknown event types are audit-only: the payments and
   * refunds tables are as they were.
   */
  lemma AuditOnlyEvents(t: Tables, client: CashfreeClient, hmac: HmacSha256, req: WebhookRequest,
                        parseJson: string -> Option<WebhookData>, parseTime: string -> Option<Time>, amb: Ambient)
    requires req.body.Some? && parseJson(req.body.value).Some?
    requires Classify(parseJson(req.body.value).value.eventType) in {SettlementStatus, UnknownEvent}
    ensures var (_, t') := HandleWebhookSpec(t, client, hmac, req, parseJson, parseTime, amb);
      t'.payments == t.payments && t'.refunds == t.refunds
  {
  }

  /** The data object of the worked example below. */
  const ExampleData: map<string, JsonValue> := map[
    "order_id" := JString("o1"), "cf_payment_id" := JString("p1"),
    "payment_method" := JString("card"), "payment_time" := JString("2024-01-01T00:00:00Z")]

  lemma ExampleProjection(parseTime: string -> Option<Time>, paidAt: Time)
    requires parseTime("2024-01-01T00:00:00Z") == Some(paidAt)
    ensures Projection(Classify("PAYMENT_SUCCESS_WEBHOOK"), ExampleData, parseTime)
         == SetPaymentStatus("o1", PaymentStatusColumns("SUCCESS", Some("p1"), Some("card"), Some(paidAt)))
  {
  }

  /**
   * The worked example: a correctly signed PAYMENT_SUCCESS_WEBHOOK for order
   * "o1" answers 200, logs one row, and sets every "o1" payment to SUCCESS
   * with payment id "p1", method "card" and the parsed time.
   */
  lemma PaymentSuccessExample(t: Tables, client: CashfreeClient, hmac: HmacSha256, timestamp: string, body: string,
                              parseJson: string -> Option<WebhookData>, parseTime: string -> Option<Time>,
                              amb: Ambient, paidAt: Time)
    requires timestamp != ""
    requires parseJson(body) == Some(WebhookData("PAYMENT_SUCCESS_WEBHOOK", ExampleData))
    requires parseTime("2024-01-01T00:00:00Z") == Some(paidAt)
    requires amb.logSucceeds && amb.updateSucceeds
    ensures var req := WebhookRequest(ExpectedSignature(hmac, client.clientSecret, timestamp, body), timestamp, Some(body));
      var (resp, t') := HandleWebhookSpec(t, client, hmac, req, parseJson, parseTime, amb);
      && resp.code == 200
      && |t'.webhooks| == |t.webhooks| + 1
      && t'.webhooks[|t.webhooks|].eventType == "PAYMENT_SUCCESS_WEBHOOK"
      && t'.webhooks[|t.webhooks|].orderID == Some("o1")
      && t'.payments == UpdatePaymentRows(t.payments, "o1",
           PaymentStatusColumns("SUCCESS", Some("p1"), Some("card"), Some(paidAt)), amb.updateAt)
      && t'.refunds == t.refunds
  {
    var req := WebhookRequest(ExpectedSignature(hmac, client.clientSecret, timestamp, body), timestamp, Some(body));
    SignatureRoundTrip(client, hmac, timestamp, body);
    var event := WebhookData("PAYMENT_SUCCESS_WEBHOOK", ExampleData);
    assert Decide(client, hmac, req, parseJson) == Accepted(event, body);
    ExampleProjection(parseTime, paidAt);
  }

  /** A payment success event without a string order id is logged but changes no payment. */
  lemma PaymentSuccessWithoutOrderID(t: Tables, client: CashfreeClient, hmac: HmacSha256, req: WebhookRequest,
                                     parseJson: string -> Option<WebhookData>, parseTime: string -> Option<Time>, amb: Ambient)
    requires req.signature != "" && req.timestamp != "" && req.body.Some?
    requires VerifyWebhookSignature(client, hmac, req.signature, req.timestamp, req.body.value)
    requires parseJson(req.body.value).Some?
    requires parseJson(req.body.value).value.eventType == "PAYMENT_SUCCESS_WEBHOOK"
    requires "order_id" !in parseJson(req.body.value).value.data
    ensures var (resp, t') := HandleWebhookSpec(t, client, hmac, req, parseJson, parseTime, amb);
      resp.code == 200 && t'.payments == t.payments && t'.refunds == t.refunds
      && (amb.logSucceeds ==> |t'.webhooks| == |t.webhooks| + 1)
  {
  }

  /**
   * Redelivery: the same accepted payment event handled twice writes two
   * audit rows and leaves the payments as handling it once at the later time.
   */
  lemma Redelivery(t: Tables, client: CashfreeClient, hmac: HmacSha256, req: WebhookRequest,
                   parseJson: string -> Option<WebhookData>, parseTime: string -> Option<Time>,
                   first: Ambient, second: Ambient)
    requires req.signature != "" && req.timestamp != "" && req.body.Some?
    requires VerifyWebhookSignature(client, hmac, req.signature, req.timestamp, req.body.value)
    requires parseJson(req.body.value).Some?
    requires first.logSucceeds && second.logSucceeds && first.updateSucceeds && second.updateSucceeds
    ensures var (_, t1) := HandleWebhookSpec(t, client, hmac, req, parseJson, parseTime, first);
      var (_, t2) := HandleWebhookSpec(t1, client, hmac, req, parseJson, parseTime, second);
      var (_, once) := HandleWebhookSpec(t, client, hmac, req, parseJson, parseTime, second);
      && |t2.webhooks| == |t.webhooks| + 2
      && t2.payments == once.payments && t2.refunds == once.refunds
  {
    var event := parseJson(req.body.value).value;
    var u := Projection(Classify(event.eventType), event.data, parseTime);
    match u
    case NoUpdate =>
    case SetPaymentStatus(orderID, cols) =>
      UpdatePaymentRowsIdempotent(t.payments, orderID, cols, first.updateAt, second.updateAt);
    case SetRefundStatus(refundID, cols) =>
      UpdateRefundRowsIdempotent(t.refunds, refundID, cols, first.updateAt, second.updateAt);
  }

  // ---------------------------------------------------------------------
  // The handler object
  // ---------------------------------------------------------------------

  class PaymentHandler {
    const cashfree: CashfreeClient
    const repo: PaymentRepository

    constructor (cashfree: CashfreeClient, repo: PaymentRepository)
      ensures this.cashfree == cashfree && this.repo == repo
    {
      this.cashfree := cashfree;
      this.repo := repo;
    }

    /**
     * POST /api/v1/webhook/cashfree. Early returns for missing headers, an
     * unreadable body, a bad signature and bad JSON; otherwise the audit row
     * is written, then the event is dispatched, and the answer is 200 whatever
     * the store calls returned.
     */
    method HandleWebhook(req: WebhookRequest, hmac: HmacSha256,
                         parseJson: string -> Option<WebhookData>, parseTime: string -> Option<Time>,
                         amb: Ambient) returns (resp: Response)
      modifies repo
      ensures (resp, repo.Snapshot())
           == HandleWebhookSpec(old(repo.Snapshot()), cashfree, hmac, req, parseJson, parseTime, amb)
    {
      if req.signature == "" || req.timestamp == "" {
        return MissingHeadersResponse;
      }
      if req.body.None? {
        return UnreadableBodyResponse;
      }
      var body := req.body.value;
      if !VerifyWebhookSignature(cashfree, hmac, req.signature, req.timestamp, body) {
        return InvalidSignatureResponse;
      }
      var parsed := parseJson(body);
      if parsed.None? {
        return InvalidPayloadResponse;
      }
      var event := parsed.value;

      assert Decide(cashfree, hmac, req, parseJson) == Accepted(event, body);

      var orderID: Option<string> := None;
      if "order_id" in event.data {
        var oid := event.data["order_id"];
        if oid.JString? {
          orderID := Some(oid.s);
        }
      }
      var webhook := Webhook(NilUuid, event.eventType, orderID, body, "RECEIVED", ZeroTime);
      var _, _ := repo.CreateWebhookLog(webhook, amb.logID, amb.logAt, amb.logSucceeds);
      assert repo.Snapshot() == LogEvent(old(repo.Snapshot()), event, body, amb);

      DispatchEvent(event, parseTime, amb.updateAt, amb.updateSucceeds);
      resp := SuccessResponse;
    }

    /** The `switch` on the event type: exact match, at most one projector; an unknown type only reaches the log. */
    method DispatchEvent(event: WebhookData, parseTime: string -> Option<Time>, now: Time, succeeds: bool)
      modifies repo
      ensures repo.Snapshot()
           == ApplyUpdate(old(repo.Snapshot()), Projection(Classify(event.eventType), event.data, parseTime), now, succeeds)
    {
      if event.eventType == "PAYMENT_SUCCESS_WEBHOOK" {
        HandlePaymentSuccessWebhook(event.data, parseTime, now, succeeds);
      } else if event.eventType == "PAYMENT_FAILED_WEBHOOK" {
        HandlePaymentFailedWebhook(event.data, now, succeeds);
      } else if event.eventType == "REFUND_STATUS_WEBHOOK" {
        HandleRefundStatusWebhook(event.data, parseTime, now, succeeds);
      } else if event.eventType == "SETTLEMENT_STATUS_WEBHOOK" {
        HandleSettlementStatusWebhook(event.data);
      }
    }

    method HandlePaymentSuccessWebhook(data: map<string, JsonValue>, parseTime: string -> Option<Time>,
                                       now: Time, succeeds: bool)
      modifies repo
      ensures repo.Snapshot() == ApplyUpdate(old(repo.Snapshot()), PaymentSuccessUpdate(data, parseTime), now, succeeds)
    {
      if !("order_id" in data && data["order_id"].JString?) {
        return;
      }
      var orderID := data["order_id"].s;
      var cfPaymentID := StringOrEmpty(data, "cf_payment_id");
      var paymentMethod := StringOrEmpty(data, "payment_method");
      var paymentTime: Option<Time> := None;
      if "payment_time" in data {
        var pt := data["payment_time"];
        if pt.JString? {
          var parsedTime := parseTime(pt.s);
          if parsedTime.Some? {
            paymentTime := parsedTime;
          }
        }
      }
      var _ := repo.UpdatePaymentStatus(orderID, "SUCCESS", Some(cfPaymentID), Some(paymentMethod), paymentTime, now, succeeds);
    }

    method HandlePaymentFailedWebhook(data: map<string, JsonValue>, now: Time, succeeds: bool)
      modifies repo
      ensures repo.Snapshot() == ApplyUpdate(old(repo.Snapshot()), PaymentFailedUpdate(data), now, succeeds)
    {
      if !("order_id" in data && data["order_id"].JString?) {
        return;
      }
      var orderID := data["order_id"].s;
      var _ := repo.UpdatePaymentStatus(orderID, "FAILED", None, None, None, now, succeeds);
    }

    method HandleRefundStatusWebhook(data: map<string, JsonValue>, parseTime: string -> Option<Time>,
                                     now: Time, succeeds: bool)
      modifies repo
      ensures repo.Snapshot() == ApplyUpdate(old(repo.Snapshot()), RefundStatusUpdate(data, parseTime), now, succeeds)
    {
      if !("refund_id" in data && data["refund_id"].JString?) {
        return;
      }
      var refundID := data["refund_id"].s;
      var refundStatus := StringOrEmpty(data, "refund_status");
      var processedAt: Option<Time> := None;
      if "processed_at" in data {
        var pt := data["processed_at"];
        if pt.JString? {
          var parsedTime := parseTime(pt.s);
          if parsedTime.Some? {
            processedAt := parsedTime;
          }
        }
      }
      var _ := repo.UpdateRefundStatus(refundID, refundStatus, processedAt, now, succeeds);
    }

    /** Settlement events are only logged: no stored row changes. */
    method HandleSettlementStatusWebhook(data: map<string, JsonValue>)
      ensures repo.Snapshot() == old(repo.Snapshot())
    {
    }
  }

  // ---------------------------------------------------------------------
  // Pagination of GET /api/v1/payments
  // ---------------------------------------------------------------------

  datatype Page = Page(limit: int, offset: int)

  /**
   * The `limit` and `offset` query parameters (None when absent, which reads
   * as "10" and "0"): a limit that does not parse or is not positive becomes
   * 10, one above 100 becomes 100; an offset that does not parse or is
   * negative becomes 0.
   */
  function PageParams(limitParam: Option<string>, offsetParam: Option<string>): (p: Page)
    ensures 1 <= p.limit <= 100 && p.offset >= 0
    ensures var n := Atoi(limitParam.GetOr("10"));
      && (n.None? || n.value <= 0 ==> p.limit == 10)
      && (n.Some? && n.value > 100 ==> p.limit == 100)
      && (n.Some? && 1 <= n.value <= 100 ==> p.limit == n.value)
    ensures var n := Atoi(offsetParam.GetOr("0"));
      && (n.None? || n.value < 0 ==> p.offset == 0)
      && (n.Some? && n.value >= 0 ==> p.offset == n.value)
  {
    var limit := match Atoi(limitParam.GetOr("10"))
      case Some(n) => if n <= 0 then 10 else n
      case None => 10;
    var offset := match Atoi(offsetParam.GetOr("0"))
      case Some(n) => if n < 0 then 0 else n
      case None => 0;
    Page(if limit > 100 then 100 else limit, offset)
  }

  /** Without query parameters the page is the first ten payments. */
  lemma PageParamsDefaults()
    ensures PageParams(None, None) == Page(10, 0)
  {
    AtoiDecimal(10);
    AtoiDecimal(0);
    assert Decimal(10) == "10";
    assert Decimal(0) == "0";
  }

  /** The clamped page is a fixed point: writing it back as query parameters gives the same page. */
  lemma PageParamsFixedPoint(limitParam: Option<string>, offsetParam: Option<string>)
    ensures var p := PageParams(limitParam, offsetParam);
      PageParams(Some(Decimal(p.limit)), Some(Decimal(p.offset))) == p
  {
    var p := PageParams(limitParam, offsetParam);
    AtoiDecimal(p.limit);
    AtoiDecimal(p.offset);
  }

  // ---------------------------------------------------------------------
  // Split settlement conversion
  // ---------------------------------------------------------------------

  /**
   * How one requested split becomes a gateway split and a table row: same
   * vendor, status "PENDING"; an amount wins over a percentage (type
   * "AMOUNT"); otherwise a percentage gives type "PERCENTAGE" and the amount
   * payment.amount * percentage / 100; with neither, type "" and amount 0.
   * Id and timestamps stay zero until the repository stamps them.
   */
  predicate ConvertedSplit(orderID: string, payment: Payment, req: SplitConfig,
                           cf: CashfreeSettlementSplit, db: SplitSettlement)
  {
    && cf.vendorID == req.vendorID
    && db.vendorID == req.vendorID && db.orderID == orderID && db.cfOrderID == payment.cfOrderID
    && db.status == "PENDING" && db.id == NilUuid && db.createdAt == ZeroTime && db.updatedAt == ZeroTime
    && (req.amount.Some? ==>
          && cf.amount == req.amount && cf.percentage.None?
          && db.splitType == "AMOUNT" && db.amount == req.amount.value && db.percentage.None?)
    && (req.amount.None? && req.percentage.Some? ==>
          && cf.amount.None? && cf.percentage == req.percentage
          && db.splitType == "PERCENTAGE" && db.percentage == req.percentage
          && db.amount == payment.amount * req.percentage.value / 100.0)
    && (req.amount.None? && req.percentage.None? ==>
          && cf.amount.None? && cf.percentage.None?
          && db.splitType == "" && db.amount == 0.0 && db.percentage.None?)
  }

  /** The loop of the split-settlement handler: one gateway split and one row per requested split, in order. */
  method ConvertSplits(orderID: string, payment: Payment, requested: seq<SplitConfig>)
    returns (cashfreeSplits: seq<CashfreeSettlementSplit>, dbSplits: seq<SplitSettlement>)
    ensures |cashfreeSplits| == |requested| && |dbSplits| == |requested|
    ensures forall i :: 0 <= i < |requested| ==>
      ConvertedSplit(orderID, payment, requested[i], cashfreeSplits[i], dbSplits[i])
  {
    cashfreeSplits, dbSplits := [], [];
    for i := 0 to |requested|
      invariant |cashfreeSplits| == i && |dbSplits| == i
      invariant forall j :: 0 <= j < i ==>
        ConvertedSplit(orderID, payment, requested[j], cashfreeSplits[j], dbSplits[j])
    {
      var split := requested[i];
      var cashfreeSplit := CashfreeSettlementSplit(split.vendorID, None, None);
      var dbSplit := SplitSettlement(NilUuid, orderID, payment.cfOrderID, split.vendorID,
                                     0.0, None, "", "PENDING", ZeroTime, ZeroTime);
      if split.amount.Some? {
        cashfreeSplit := cashfreeSplit.(amount := split.amount);
        dbSplit := dbSplit.(amount := split.amount.value, splitType := "AMOUNT");
      } else if split.percentage.Some? {
        cashfreeSplit := cashfreeSplit.(percentage := split.percentage);
        dbSplit := dbSplit.(percentage := split.percentage,
                            amount := (payment.amount * split.percentage.value) / 100.0,
                            splitType := "PERCENTAGE");
      }
      cashfreeSplits := cashfreeSplits + [cashfreeSplit];
      dbSplits := dbSplits + [dbSplit];
    }
  }
}
