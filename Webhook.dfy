/**
 * The payment-gateway webhook: a request carrying an access token and a JSON
 * body with a payment event arrives; the handler checks the token, writes an
 * audit row to `webhook_logs`, maps the gateway status onto the internal
 * transaction status, finds the matching row of `transactions`, updates it,
 * queues a payment notification when the payment is settled, and marks the
 * audit rows processed.
 *
 * The two tables and the record of dispatched notifications are the fields
 * of `WebhookEndpoint`; the clock, the UUID generator and the outcome of each
 * store call are parameters of `Handle`.
 */
module Webhook {
  import opened Optional
  import opened Text

  // ----- status mapping -----

  /** The internal transaction status. */
  datatype Status = Pending | Paid | Overdue | Refunded | Disputed | Failed

  /** The gateway status vocabulary and its internal meaning. */
  const StatusMap: map<string, Status> := map[
    "PENDING" := Pending,
    "RECEIVED" := Paid,
    "CONFIRMED" := Paid,
    "OVERDUE" := Overdue,
    "REFUNDED" := Refunded,
    "RECEIVED_IN_CASH" := Paid,
    "REFUND_REQUESTED" := Refunded,
    "CHARGEBACK_REQUESTED" := Disputed,
    "CHARGEBACK_DISPUTE" := Disputed,
    "AWAITING_CHARGEBACK_REVERSAL" := Disputed,
    "DUNNING_REQUESTED" := Failed,
    "DUNNING_RECEIVED" := Paid,
    "AWAITING_RISK_ANALYSIS" := Pending
  ]

  /**
   * `statusMap[payment.status] || 'pending'`. Each internal status is reached
   * from exactly the gateway statuses listed; anything unknown is pending,
   * so no unknown status can ever read as paid.
   */
  function MapStatus(gatewayStatus: string): (s: Status)
    ensures s == Paid <==> gatewayStatus in {"RECEIVED", "CONFIRMED", "RECEIVED_IN_CASH", "DUNNING_RECEIVED"}
    ensures s == Overdue <==> gatewayStatus == "OVERDUE"
    ensures s == Refunded <==> gatewayStatus in {"REFUNDED", "REFUND_REQUESTED"}
    ensures s == Disputed <==>
      gatewayStatus in {"CHARGEBACK_REQUESTED", "CHARGEBACK_DISPUTE", "AWAITING_CHARGEBACK_REVERSAL"}
    ensures s == Failed <==> gatewayStatus == "DUNNING_REQUESTED"
    ensures gatewayStatus !in StatusMap ==> s == Pending
  {
    if gatewayStatus in StatusMap then StatusMap[gatewayStatus] else Pending
  }

  // ----- payload, rows, responses -----

  /** The `payment` object of the webhook body; `None` is a field the body leaves out. */
  datatype Payment = Payment(
    id: string,
    customer: string,
    billingType: Option<string>,
    status: string,
    description: Option<string>,
    invoiceUrl: Option<string>,
    externalReference: Option<string>,
    confirmedDate: Option<string>,
    paymentDate: Option<string>)

  datatype Payload = Payload(event: string, payment: Option<Payment>)

  /** The request body: JSON that parsed into a payload, or text that did not. */
  datatype Body = Malformed | Parsed(payload: Payload)

  /** The `asaas-access-token` header (absent or a value) and the body. */
  datatype Request = Request(accessToken: Option<string>, body: Body)

  /** A row of `transactions`; `None` is SQL null. */
  datatype Transaction = Transaction(
    id: string,
    userId: string,
    serviceId: string,
    amountCents: int,
    feeValue: int,
    netValue: int,
    status: Status,
    externalId: Option<string>,
    asaasPaymentId: Option<string>,
    asaasInvoiceUrl: Option<string>,
    checkoutUrl: Option<string>,
    payerName: Option<string>,
    payerEmail: Option<string>,
    paymentMethod: Option<string>,
    paidAt: Option<string>,
    createdAt: string,
    updatedAt: string)

  /** A row of `webhook_logs`. */
  datatype LogEntry = LogEntry(eventType: string, payload: Payload, idempotencyKey: string, processed: bool)

  datatype ResponseBody = Unauthorized | Received | Processed(event: string, status: Status) | ProcessingError

  datatype Response = Response(code: int, body: ResponseBody)

  /** Which store calls fail on this delivery (the source only observes their `error` results). */
  datatype Faults = Faults(logInsertFails: bool, fetchFails: bool, updateFails: bool, markFails: bool)

  /** What the handler takes from its surroundings: the clock, a fresh UUID, the store outcomes. */
  datatype Env = Env(now: string, freshUuid: string, faults: Faults)

  /** JavaScript truthiness of an optional string: present and non-empty. */
  predicate Truthy(o: Option<string>) {
    o.Some? && o.value != ""
  }

  // ----- token gate -----

  /** `asaasWebhookToken && asaasToken !== asaasWebhookToken`. */
  predicate TokenRejected(configured: Option<string>, header: Option<string>) {
    Truthy(configured) && header != configured
  }

  /** An unset or empty token admits every request; a configured one admits exactly the requests carrying it. */
  lemma TokenGateAdmits(configured: Option<string>, header: Option<string>)
    ensures !Truthy(configured) ==> !TokenRejected(configured, header)
    ensures Truthy(configured) ==> (!TokenRejected(configured, header) <==> header == configured)
  {
  }

  // ----- audit log -----

  /** The row inserted into `webhook_logs` before anything else is done. */
  function NewLogEntry(payload: Payload, freshUuid: string): (e: LogEntry)
    ensures !e.processed && e.eventType == payload.event && e.payload == payload
    ensures e.idempotencyKey == freshUuid <==>
      payload.payment.None? || payload.payment.value.id == "" || payload.payment.value.id == freshUuid
    ensures payload.payment.Some? && payload.payment.value.id != "" ==>
      e.idempotencyKey == payload.payment.value.id
  {
    var key := if payload.payment.Some? && payload.payment.value.id != "" then payload.payment.value.id else freshUuid;
    LogEntry(payload.event, payload, key, false)
  }

  /** `update({ processed: true }).eq('idempotency_key', key)` on `webhook_logs`. */
  function MarkProcessed(logs: seq<LogEntry>, key: string): (r: seq<LogEntry>)
    ensures |r| == |logs|
    ensures forall i :: 0 <= i < |logs| ==>
      r[i] == (if logs[i].idempotencyKey == key then logs[i].(processed := true) else logs[i])
  {
    if logs == [] then []
    else
      var e := logs[0];
      [if e.idempotencyKey == key then e.(processed := true) else e] + MarkProcessed(logs[1..], key)
  }

  /**
   * The audit row inserted for a payment with a truthy id is keyed so that
   * the closing mark-processed step reaches it; earlier rows are untouched
   * unless they carry the same key.
   */
  lemma InsertedRowIsMarked(logs: seq<LogEntry>, payload: Payload, freshUuid: string)
    requires payload.payment.Some? && payload.payment.value.id != ""
    ensures var logs' := MarkProcessed(logs + [NewLogEntry(payload, freshUuid)], payload.payment.value.id);
      |logs'| == |logs| + 1 &&
      logs'[|logs|] == NewLogEntry(payload, freshUuid).(processed := true) &&
      forall i :: 0 <= i < |logs| && logs[i].idempotencyKey != payload.payment.value.id ==> logs'[i] == logs[i]
  {
    var all := logs + [NewLogEntry(payload, freshUuid)];
    assert all[|logs|] == NewLogEntry(payload, freshUuid);
    assert forall i :: 0 <= i < |logs| ==> all[i] == logs[i];
  }

  // ----- lookup -----

  /** The single equality filter of the transaction query. */
  datatype LookupKey = ByExternalId(reference: string) | ByPaymentId(paymentId: string)

  /**
   * `externalReference` when it is truthy, otherwise the gateway payment id;
   * the query is built once, so a miss on one key never tries the other.
   */
  function LookupKeyOf(p: Payment): (k: LookupKey)
    ensures k.ByExternalId? <==> Truthy(p.externalReference)
    ensures k.ByExternalId? ==> k.reference == p.externalReference.value
    ensures k.ByPaymentId? ==> k.paymentId == p.id
    ensures forall t :: Matches(t, k) <==>
      if Truthy(p.externalReference) then t.externalId == p.externalReference
      else t.asaasPaymentId == Some(p.id)
  {
    if Truthy(p.externalReference) then ByExternalId(p.externalReference.value) else ByPaymentId(p.id)
  }

  /** SQL `eq` on a nullable column: null never matches. */
  predicate Matches(t: Transaction, k: LookupKey) {
    match k
    case ByExternalId(r) => t.externalId == Some(r)
    case ByPaymentId(id) => t.asaasPaymentId == Some(id)
  }

  /** The indices of the rows the filter selects, in table order. */
  function MatchingIndices(rows: seq<Transaction>, k: LookupKey): (r: seq<nat>)
    ensures forall i :: i in r <==> 0 <= i < |rows| && Matches(rows[i], k)
    ensures forall a, b :: 0 <= a < b < |r| ==> r[a] < r[b]
  {
    if rows == [] then []
    else
      var last := |rows| - 1;
      var r := MatchingIndices(rows[..last], k);
      assert forall i :: 0 <= i < last ==> rows[..last][i] == rows[i];
      assert |rows[..last]| == last;
      assert forall a :: 0 <= a < |r| ==> r[a] in r;
      assert forall a :: 0 <= a < |r| ==> r[a] < last;
      if Matches(rows[last], k) then r + [last] else r
  }

  /** The result of `maybeSingle()`: no row, one row, or the error for several. */
  datatype Fetch = NoRow | OneRow(index: nat) | ManyRows

  function MaybeSingle(rows: seq<Transaction>, k: LookupKey): (f: Fetch)
    ensures f == NoRow <==> forall i :: 0 <= i < |rows| ==> !Matches(rows[i], k)
    ensures f.OneRow? ==> f.index < |rows| && Matches(rows[f.index], k)
    ensures f.OneRow? ==> forall i :: 0 <= i < |rows| && Matches(rows[i], k) ==> i == f.index
    ensures f == ManyRows <==>
      exists i, j :: 0 <= i < j < |rows| && Matches(rows[i], k) && Matches(rows[j], k)
  {
    var found := MatchingIndices(rows, k);
    if |found| == 0 then
      NoRow
    else if |found| == 1 then
      assert forall i :: i in found ==> i == found[0];
      assert forall i :: 0 <= i < |rows| && Matches(rows[i], k) ==> i == found[0];
      assert found[0] in found;
      OneRow(found[0])
    else
      assert found[0] in found && found[1] in found;
      ManyRows
  }

  // ----- update -----

  /** The columns the handler writes; `None` is a key that JSON serialisation drops, leaving the column as it is. */
  datatype UpdateData = UpdateData(
    status: Status,
    asaasPaymentId: string,
    asaasInvoiceUrl: Option<string>,
    paymentMethod: Option<string>,
    updatedAt: string,
    paidAt: Option<string>)

  /** `paid_at` is written only for a paid status with a truthy date, `confirmedDate` first. */
  function PaidAtOf(p: Payment, mapped: Status): (d: Option<string>)
    ensures d.Some? <==> mapped == Paid && (Truthy(p.confirmedDate) || Truthy(p.paymentDate))
    ensures d.Some? && Truthy(p.confirmedDate) ==> d == p.confirmedDate
    ensures d.Some? && !Truthy(p.confirmedDate) ==> d == p.paymentDate
  {
    if mapped == Paid && (Truthy(p.confirmedDate) || Truthy(p.paymentDate)) then
      if Truthy(p.confirmedDate) then p.confirmedDate else p.paymentDate
    else None
  }

  /** `updateData`, with `paid_at` added when `PaidAtOf` gives one. */
  function BuildUpdateData(p: Payment, mapped: Status, now: string): (u: UpdateData)
    ensures u.status == mapped && u.asaasPaymentId == p.id && u.updatedAt == now
    ensures u.asaasInvoiceUrl == p.invoiceUrl
    ensures u.paymentMethod.Some? <==> p.billingType.Some?
    ensures u.paymentMethod.Some? ==> u.paymentMethod.value == ToLower(p.billingType.value)
    ensures u.paidAt == PaidAtOf(p, mapped)
  {
    UpdateData(
      mapped,
      p.id,
      p.invoiceUrl,
      if p.billingType.Some? then Some(ToLower(p.billingType.value)) else None,
      now,
      PaidAtOf(p, mapped))
  }

  /** A column whose new value may be left out of the update. */
  function Overwrite<T>(update: Option<T>, current: Option<T>): Option<T> {
    if update.Some? then update else current
  }

  /** The row after the update statement. */
  function ApplyUpdate(t: Transaction, u: UpdateData): (r: Transaction)
    // the six webhook columns are the only ones that may change
    ensures r.(status := t.status, asaasPaymentId := t.asaasPaymentId, asaasInvoiceUrl := t.asaasInvoiceUrl,
               paymentMethod := t.paymentMethod, updatedAt := t.updatedAt, paidAt := t.paidAt) == t
    // the keys always sent are written
    ensures r.status == u.status && r.asaasPaymentId == Some(u.asaasPaymentId) && r.updatedAt == u.updatedAt
    // a key left undefined is dropped, so its column keeps its value; a key sent is written
    ensures r.asaasInvoiceUrl == (if u.asaasInvoiceUrl.None? then t.asaasInvoiceUrl else u.asaasInvoiceUrl)
    ensures r.paymentMethod == (if u.paymentMethod.None? then t.paymentMethod else u.paymentMethod)
    ensures r.paidAt == (if u.paidAt.None? then t.paidAt else u.paidAt)
  {
    t.(status := u.status,
       asaasPaymentId := Some(u.asaasPaymentId),
       asaasInvoiceUrl := Overwrite(u.asaasInvoiceUrl, t.asaasInvoiceUrl),
       paymentMethod := Overwrite(u.paymentMethod, t.paymentMethod),
       updatedAt := u.updatedAt,
       paidAt := Overwrite(u.paidAt, t.paidAt))
  }

  /** `update(updateData).eq('id', id)` on `transactions`: every row with that id. */
  function UpdateById(rows: seq<Transaction>, id: string, u: UpdateData): (r: seq<Transaction>)
    ensures |r| == |rows|
    ensures forall i :: 0 <= i < |rows| ==> r[i] == (if rows[i].id == id then ApplyUpdate(rows[i], u) else rows[i])
  {
    if rows == [] then []
    else [if rows[0].id == id then ApplyUpdate(rows[0], u) else rows[0]] + UpdateById(rows[1..], id, u)
  }

  predicate UniqueIds(rows: seq<Transaction>) {
    forall i, j :: 0 <= i < j < |rows| ==> rows[i].id != rows[j].id
  }

  /** With the primary key unique, updating by the id of row `i` updates row `i` alone. */
  lemma UpdateByIdIsPointUpdate(rows: seq<Transaction>, i: nat, u: UpdateData)
    requires UniqueIds(rows) && i < |rows|
    ensures UpdateById(rows, rows[i].id, u) == rows[i := ApplyUpdate(rows[i], u)]
  {
    var r := UpdateById(rows, rows[i].id, u);
    forall j | 0 <= j < |rows| ensures r[j] == rows[i := ApplyUpdate(rows[i], u)][j] {
      if j < i {
        assert rows[j].id != rows[i].id;
      } else if j > i {
        assert rows[i].id != rows[j].id;
      }
    }
  }

  /** Rewriting one row leaves every id where it was, so the key stays unique. */
  lemma PointUpdateKeepsIds(rows: seq<Transaction>, i: nat, u: UpdateData)
    requires UniqueIds(rows) && i < |rows|
    ensures UniqueIds(rows[i := ApplyUpdate(rows[i], u)])
  {
    var r := rows[i := ApplyUpdate(rows[i], u)];
    assert forall j :: 0 <= j < |rows| ==> r[j].id == rows[j].id;
  }

  /**
   * The transaction table after one delivery whose store calls all succeed:
   * the single matching row is updated, anything else leaves the table as it was.
   */
  function ReconcileRows(rows: seq<Transaction>, p: Payment, now: string): (r: seq<Transaction>)
    ensures |r| == |rows|
    ensures forall j :: 0 <= j < |rows| && MaybeSingle(rows, LookupKeyOf(p)) != OneRow(j) ==> r[j] == rows[j]
    ensures MaybeSingle(rows, LookupKeyOf(p)).OneRow? ==>
      var i := MaybeSingle(rows, LookupKeyOf(p)).index;
      r[i] == ApplyUpdate(rows[i], BuildUpdateData(p, MapStatus(p.status), now))
  {
    match MaybeSingle(rows, LookupKeyOf(p))
    case OneRow(i) => rows[i := ApplyUpdate(rows[i], BuildUpdateData(p, MapStatus(p.status), now))]
    case _ => rows
  }

  // ----- properties of the update -----

  /**
   * The update writes status, gateway id, invoice URL, payment method,
   * `updated_at` and possibly `paid_at`; every other column, the amounts
   * among them, keeps its value.
   */
  lemma UpdateTouchesOnlyWebhookColumns(t: Transaction, p: Payment, mapped: Status, now: string)
    ensures var r := ApplyUpdate(t, BuildUpdateData(p, mapped, now));
      r.(status := t.status, asaasPaymentId := t.asaasPaymentId, asaasInvoiceUrl := t.asaasInvoiceUrl,
         paymentMethod := t.paymentMethod, updatedAt := t.updatedAt, paidAt := t.paidAt) == t
    ensures var r := ApplyUpdate(t, BuildUpdateData(p, mapped, now));
      r.status == mapped && r.asaasPaymentId == Some(p.id) && r.updatedAt == now &&
      r.amountCents == t.amountCents && r.feeValue == t.feeValue && r.netValue == t.netValue
  {
  }

  /** `paid_at` is never cleared, and it changes only for a paid status carrying a date. */
  lemma PaidAtNeverCleared(t: Transaction, p: Payment, mapped: Status, now: string)
    ensures var r := ApplyUpdate(t, BuildUpdateData(p, mapped, now));
      (t.paidAt.Some? ==> r.paidAt.Some?) &&
      (r.paidAt != t.paidAt ==> mapped == Paid && r.paidAt == PaidAtOf(p, mapped)) &&
      (mapped != Paid ==> r.paidAt == t.paidAt)
    ensures var r := ApplyUpdate(t, BuildUpdateData(p, mapped, now));
      (mapped == Paid && Truthy(p.confirmedDate) ==> r.paidAt == p.confirmedDate) &&
      (mapped == Paid && !Truthy(p.confirmedDate) && Truthy(p.paymentDate) ==> r.paidAt == p.paymentDate) &&
      (!Truthy(p.confirmedDate) && !Truthy(p.paymentDate) ==> r.paidAt == t.paidAt)
  {
  }

  /** Applying the same payload twice gives the record of applying it once, up to `updated_at`. */
  lemma UpdateIdempotent(t: Transaction, p: Payment, mapped: Status, now1: string, now2: string)
    ensures var once := ApplyUpdate(t, BuildUpdateData(p, mapped, now1));
      ApplyUpdate(once, BuildUpdateData(p, mapped, now2)) == once.(updatedAt := now2)
  {
  }

  /** The updated row is still found by the key that found it. */
  lemma UpdatedRowStillMatches(t: Transaction, p: Payment, now: string)
    requires Matches(t, LookupKeyOf(p))
    ensures Matches(ApplyUpdate(t, BuildUpdateData(p, MapStatus(p.status), now)), LookupKeyOf(p))
  {
  }

  /** Replacing the one matching row by another matching row leaves the lookup result as it was. */
  lemma MaybeSingleAfterPointUpdate(rows: seq<Transaction>, k: LookupKey, i: nat, t: Transaction)
    requires MaybeSingle(rows, k) == OneRow(i) && Matches(t, k)
    ensures MaybeSingle(rows[i := t], k) == OneRow(i)
  {
    var rows' := rows[i := t];
    assert forall j :: 0 <= j < |rows'| && j != i ==> rows'[j] == rows[j];
    assert Matches(rows'[i], k);
  }

  /**
   * A truthy external reference that no row carries is a miss, even when a
   * row holds the payment id: the second key is never tried.
   */
  lemma NoFallbackToPaymentId(rows: seq<Transaction>, p: Payment, now: string)
    requires Truthy(p.externalReference)
    requires forall i :: 0 <= i < |rows| ==> rows[i].externalId != p.externalReference
    ensures ReconcileRows(rows, p, now) == rows
  {
  }

  /** With a truthy external reference, the one row carrying it is the row rewritten. */
  lemma LookupByExternalReference(rows: seq<Transaction>, p: Payment, now: string, i: nat)
    requires Truthy(p.externalReference)
    requires i < |rows| && rows[i].externalId == p.externalReference
    requires forall j :: 0 <= j < |rows| && j != i ==> rows[j].externalId != p.externalReference
    ensures ReconcileRows(rows, p, now) == rows[i := ApplyUpdate(rows[i], BuildUpdateData(p, MapStatus(p.status), now))]
  {
    assert MaybeSingle(rows, LookupKeyOf(p)) == OneRow(i);
  }

  /** Without one, the one row carrying the gateway payment id is the row rewritten. */
  lemma LookupByPaymentId(rows: seq<Transaction>, p: Payment, now: string, i: nat)
    requires !Truthy(p.externalReference)
    requires i < |rows| && rows[i].asaasPaymentId == Some(p.id)
    requires forall j :: 0 <= j < |rows| && j != i ==> rows[j].asaasPaymentId != Some(p.id)
    ensures ReconcileRows(rows, p, now) == rows[i := ApplyUpdate(rows[i], BuildUpdateData(p, MapStatus(p.status), now))]
  {
    assert MaybeSingle(rows, LookupKeyOf(p)) == OneRow(i);
  }

  /**
   * Redelivering a payload gives the table of a single delivery at the
   * later time: the same row is found again and rewritten with the same values.
   */
  lemma {:induction false} RedeliveryIdempotent(rows: seq<Transaction>, p: Payment, now1: string, now2: string)
    ensures ReconcileRows(ReconcileRows(rows, p, now1), p, now2) == ReconcileRows(rows, p, now2)
  {
    var k := LookupKeyOf(p);
    match MaybeSingle(rows, k)
    case OneRow(i) =>
      var mapped := MapStatus(p.status);
      var once := ApplyUpdate(rows[i], BuildUpdateData(p, mapped, now1));
      UpdatedRowStillMatches(rows[i], p, now1);
      MaybeSingleAfterPointUpdate(rows, k, i, once);
      UpdateIdempotent(rows[i], p, mapped, now1, now2);
      assert rows[i := once][i := ApplyUpdate(once, BuildUpdateData(p, mapped, now2))]
          == rows[i := ApplyUpdate(rows[i], BuildUpdateData(p, mapped, now2))];
    case NoRow =>
    case ManyRows =>
  }

  /** Amounts, fee and net of every row: the columns no delivery may touch. */
  predicate SameAmounts(a: seq<Transaction>, b: seq<Transaction>) {
    |a| == |b| &&
    forall i :: 0 <= i < |a| ==>
      a[i].id == b[i].id && a[i].amountCents == b[i].amountCents &&
      a[i].feeValue == b[i].feeValue && a[i].netValue == b[i].netValue
  }

  /** The table after a series of deliveries, each with its own clock reading. */
  function ReconcileEach(rows: seq<Transaction>, deliveries: seq<(Payment, string)>): (r: seq<Transaction>)
    ensures |r| == |rows|
    decreases |deliveries|
  {
    if deliveries == [] then rows
    else ReconcileEach(ReconcileRows(rows, deliveries[0].0, deliveries[0].1), deliveries[1..])
  }

  /** No number of deliveries changes a row's id, amount, fee or net; so `net = amount - fee` survives them all. */
  lemma {:induction false} DeliveriesKeepAmounts(rows: seq<Transaction>, deliveries: seq<(Payment, string)>)
    ensures SameAmounts(rows, ReconcileEach(rows, deliveries))
    ensures (forall i :: 0 <= i < |rows| ==> rows[i].netValue == rows[i].amountCents - rows[i].feeValue) ==>
      var r := ReconcileEach(rows, deliveries);
      forall i :: 0 <= i < |r| ==> r[i].netValue == r[i].amountCents - r[i].feeValue
    decreases |deliveries|
  {
    if deliveries != [] {
      var next := ReconcileRows(rows, deliveries[0].0, deliveries[0].1);
      assert SameAmounts(rows, next);
      DeliveriesKeepAmounts(next, deliveries[1..]);
    }
  }

  // ----- the handler -----

  /**
   * One deployment of the webhook function: the configured token
   * (`ASAAS_WEBHOOK_TOKEN`), the two tables it writes, and the transaction
   * ids handed to the notification function, in order.
   */
  class WebhookEndpoint {
    const webhookToken: Option<string>
    var transactions: seq<Transaction>
    var webhookLogs: seq<LogEntry>
    var notifications: seq<string>

    /** `id` is the primary key of `transactions`. */
    ghost predicate Valid()
      reads this
    {
      UniqueIds(transactions)
    }

    constructor (token: Option<string>, rows: seq<Transaction>)
      requires UniqueIds(rows)
      ensures Valid()
      ensures webhookToken == token && transactions == rows && webhookLogs == [] && notifications == []
    {
      webhookToken := token;
      transactions := rows;
      webhookLogs := [];
      notifications := [];
    }

    /** The `Deno.serve` handler for one POST. */
    method Handle(req: Request, env: Env) returns (resp: Response)
      requires Valid()
      modifies this
      ensures Valid()
      // token gate: 401 and nothing written
      ensures TokenRejected(webhookToken, req.accessToken) ==>
        resp == Response(401, Unauthorized) &&
        transactions == old(transactions) && webhookLogs == old(webhookLogs) && notifications == old(notifications)
      // a body that does not parse: 500 before anything is written
      ensures !TokenRejected(webhookToken, req.accessToken) && req.body.Malformed? ==>
        resp == Response(500, ProcessingError) &&
        transactions == old(transactions) && webhookLogs == old(webhookLogs) && notifications == old(notifications)
      // no payment object: logged, acknowledged, no transaction access
      ensures !TokenRejected(webhookToken, req.accessToken) && req.body.Parsed? && req.body.payload.payment.None? ==>
        resp == Response(200, Received) &&
        webhookLogs == old(webhookLogs) + InsertedLog(req.body.payload, env) &&
        transactions == old(transactions) && notifications == old(notifications)
      // a payment: lookup, update, notification, mark processed
      ensures !TokenRejected(webhookToken, req.accessToken) && req.body.Parsed? && req.body.payload.payment.Some? ==>
        ReconcileOutcome(req.body.payload, env, old(transactions), old(webhookLogs) + InsertedLog(req.body.payload, env),
          old(notifications), transactions, webhookLogs, notifications, resp)
    {
      if TokenRejected(webhookToken, req.accessToken) {
        return Response(401, Unauthorized);
      }
      if req.body.Malformed? {
        return Response(500, ProcessingError);
      }
      var payload := req.body.payload;

      if !env.faults.logInsertFails {
        webhookLogs := webhookLogs + [NewLogEntry(payload, env.freshUuid)];
      }

      if payload.payment.None? {
        return Response(200, Received);
      }
      resp := Reconcile(payload, env);
    }

    /** Lookup, update, notification and mark-processed, once the payload holds a payment. */
    method Reconcile(payload: Payload, env: Env) returns (resp: Response)
      requires Valid() && payload.payment.Some?
      modifies this
      ensures Valid()
      ensures ReconcileOutcome(payload, env, old(transactions), old(webhookLogs), old(notifications),
        transactions, webhookLogs, notifications, resp)
    {
      var payment := payload.payment.value;
      var mappedStatus := MapStatus(payment.status);

      var fetched := MaybeSingle(transactions, LookupKeyOf(payment));
      if env.faults.fetchFails || fetched.ManyRows? {
        return Response(500, ProcessingError);
      }

      if fetched.OneRow? {
        if env.faults.updateFails {
          return Response(500, ProcessingError);
        }
        UpdateFound(fetched.index, payment, mappedStatus, env.now);
      }
      assert transactions == ReconcileRows(old(transactions), payment, env.now);

      if payment.id != "" && !env.faults.markFails {
        webhookLogs := MarkProcessed(webhookLogs, payment.id);
      }
      return Response(200, Processed(payload.event, mappedStatus));
    }

    /**
     * The update of the row found at `i`, by its id, and the notification
     * for it when the payment is settled; the audit log is not touched.
     */
    method UpdateFound(i: nat, payment: Payment, mappedStatus: Status, now: string)
      requires Valid() && i < |transactions|
      modifies this
      ensures Valid()
      ensures transactions == old(transactions)[i := ApplyUpdate(old(transactions)[i], BuildUpdateData(payment, mappedStatus, now))]
      ensures notifications == old(notifications) + (if mappedStatus == Paid then [old(transactions)[i].id] else [])
      ensures webhookLogs == old(webhookLogs)
    {
      var existing := transactions[i];
      var updateData := BuildUpdateData(payment, mappedStatus, now);
      UpdateByIdIsPointUpdate(transactions, i, updateData);
      PointUpdateKeepsIds(transactions, i, updateData);
      transactions := UpdateById(transactions, existing.id, updateData);
      if mappedStatus == Paid {
        notifications := notifications + [existing.id];
      }
    }
  }

  /** The audit row the handler inserts, or none when the insert fails (a failure it only logs). */
  function InsertedLog(payload: Payload, env: Env): (r: seq<LogEntry>)
    ensures |r| == (if env.faults.logInsertFails then 0 else 1)
  {
    if env.faults.logInsertFails then [] else [NewLogEntry(payload, env.freshUuid)]
  }

  /**
   * The effect of reconciling a payment, from the tables before (`rows`,
   * `logs`, `sent`) to the tables after and the response: a failed fetch,
   * several matching rows or a failed update answer 500 and write nothing
   * more; otherwise the table is `ReconcileRows`, a paid status on a found
   * row queues one notification for its id, a truthy payment id marks every
   * audit row under that key processed (found or not), and the answer is 200
   * with the mapped status.
   */
  ghost predicate ReconcileOutcome(
    payload: Payload, env: Env,
    rows: seq<Transaction>, logs: seq<LogEntry>, sent: seq<string>,
    rows': seq<Transaction>, logs': seq<LogEntry>, sent': seq<string>, resp: Response)
    requires payload.payment.Some?
  {
    var p := payload.payment.value;
    var mapped := MapStatus(p.status);
    var fetched := MaybeSingle(rows, LookupKeyOf(p));
    if env.faults.fetchFails || fetched == ManyRows || (fetched.OneRow? && env.faults.updateFails) then
      resp == Response(500, ProcessingError) && logs' == logs && rows' == rows && sent' == sent
    else
      resp == Response(200, Processed(payload.event, mapped)) &&
      rows' == ReconcileRows(rows, p, env.now) &&
      sent' == sent + (if fetched.OneRow? && mapped == Paid then [rows[fetched.index].id] else []) &&
      logs' == (if p.id != "" && !env.faults.markFails then MarkProcessed(logs, p.id) else logs)
  }
}
