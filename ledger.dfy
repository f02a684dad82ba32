/**
 * The approval ledger (`registro_aprobaciones`): one row per decided
 * requisition, with a snapshot of the requisition, the decision and, once
 * delivered, the delivery fields. This module holds the two read queries of
 * the ledger and the effect of the delivery update on the table.
 */
module Ledger {
  import opened Options
  import opened Seqs
  import opened Sorting
  import opened Records

  /** A ledger row. Timestamps are seconds; SQL NULL is `None`. */
  datatype ApprovalRecord = ApprovalRecord(
    id: int,
    datosCompletos: Entries,
    estado: string,
    aprobador: string,
    tablaOrigen: string,
    fechaDecision: int,
    entregadoPor: Option<string>,
    fechaEntrega: Option<int>,
    observaciones: Option<string>)

  const SecondsPerDay := 86400
  const RetentionDays := 60

  /** The state the delivery update writes. */
  const DeliveredState := "Entregado"

  /** `CURRENT_DATE - INTERVAL '60 days'`, for `currentDate` the start of today. */
  function RetentionCutoff(currentDate: int): int {
    currentDate - RetentionDays * SecondsPerDay
  }

  /** `fecha_entrega IS NULL OR fecha_entrega >= CURRENT_DATE - INTERVAL '60 days'`. */
  predicate Retained(currentDate: int, r: ApprovalRecord) {
    r.fechaEntrega.None? || r.fechaEntrega.value >= RetentionCutoff(currentDate)
  }

  /** `estado = 'Entregado' AND fecha_entrega >= CURRENT_DATE - INTERVAL '60 days'` (a NULL date fails). */
  predicate RecentlyDelivered(currentDate: int, r: ApprovalRecord) {
    r.estado == DeliveredState && r.fechaEntrega.Some? && r.fechaEntrega.value >= RetentionCutoff(currentDate)
  }

  function DecisionDate(r: ApprovalRecord): int {
    r.fechaDecision
  }

  /**
   * `fecha_entrega || fecha_decision`: the delivery date, or the decision date
   * of a row without one. The recent-deliveries query only sorts rows that
   * have a delivery date; the client sorts its delivered tab by this key.
   */
  function DeliveryDate(r: ApprovalRecord): int {
    if r.fechaEntrega.Some? then r.fechaEntrega.value else r.fechaDecision
  }

  function RetainedRows(table: seq<ApprovalRecord>, currentDate: int): seq<ApprovalRecord> {
    Filter(table, r => Retained(currentDate, r))
  }

  function RecentRows(table: seq<ApprovalRecord>, currentDate: int): seq<ApprovalRecord> {
    Filter(table, r => RecentlyDelivered(currentDate, r))
  }

  /**
   * `GET /api/aprobaciones`: the undelivered rows and the rows delivered in
   * the last 60 days, latest decision first.
   */
  function ActiveLedger(table: seq<ApprovalRecord>, currentDate: int): (view: seq<ApprovalRecord>)
    ensures forall r :: r in view ==> r in table && Retained(currentDate, r)
    ensures forall r :: r in table && Retained(currentDate, r) ==> r in view
    ensures multiset(view) == multiset(RetainedRows(table, currentDate))
    ensures SortedDesc(view, DecisionDate)
  {
    var rows := RetainedRows(table, currentDate);
    var view := SortDesc(rows, DecisionDate);
    assert forall r :: r in view <==> r in rows by {
      forall r ensures r in view <==> r in rows {
        assert r in view <==> r in multiset(view);
      }
    }
    view
  }

  /**
   * `GET /api/aprobaciones/entregas-recientes`: the rows in state
   * 'Entregado' delivered in the last 60 days, latest delivery first.
   */
  function RecentDeliveries(table: seq<ApprovalRecord>, currentDate: int): (view: seq<ApprovalRecord>)
    ensures forall r :: r in view ==> r in table && RecentlyDelivered(currentDate, r)
    ensures forall r :: r in table && RecentlyDelivered(currentDate, r) ==> r in view
    ensures multiset(view) == multiset(RecentRows(table, currentDate))
    ensures SortedDesc(view, DeliveryDate)
  {
    var rows := RecentRows(table, currentDate);
    var view := SortDesc(rows, DeliveryDate);
    assert forall r :: r in view <==> r in rows by {
      forall r ensures r in view <==> r in rows {
        assert r in view <==> r in multiset(view);
      }
    }
    view
  }

  /** The active ledger never shows a delivery older than the retention window. */
  lemma ActiveLedgerHidesExpiredDeliveries(table: seq<ApprovalRecord>, currentDate: int, r: ApprovalRecord)
    requires r in table && r.fechaEntrega.Some?
    ensures r in ActiveLedger(table, currentDate) <==> r.fechaEntrega.value >= RetentionCutoff(currentDate)
  {
  }

  /** Every recent delivery is also in the active ledger (as a set of rows). */
  lemma RecentDeliveriesWithinActiveLedger(table: seq<ApprovalRecord>, currentDate: int)
    ensures forall r :: r in RecentDeliveries(table, currentDate) ==> r in ActiveLedger(table, currentDate)
  {
  }

  /**
   * The row after `SET estado = 'Entregado', entregado_por = $1,
   * observaciones = $2, fecha_entrega = NOW()`; every other column is kept.
   */
  function Delivered(r: ApprovalRecord, entregadoPor: Option<string>, observaciones: Option<string>, now: int): ApprovalRecord {
    r.(estado := DeliveredState, entregadoPor := entregadoPor, observaciones := observaciones, fechaEntrega := Some(now))
  }

  /** The table after `UPDATE registro_aprobaciones SET ... WHERE id = $3`. */
  function DeliverInTable(table: seq<ApprovalRecord>, id: int, entregadoPor: Option<string>, observaciones: Option<string>, now: int): (t: seq<ApprovalRecord>)
    ensures |t| == |table|
  {
    seq(|table|, i requires 0 <= i < |table| =>
      if table[i].id == id then Delivered(table[i], entregadoPor, observaciones, now) else table[i])
  }

  function Ids(table: seq<ApprovalRecord>): seq<int> {
    seq(|table|, i requires 0 <= i < |table| => table[i].id)
  }

  /** The update keeps every row, in place, with its id. */
  lemma DeliverKeepsIds(table: seq<ApprovalRecord>, id: int, por: Option<string>, obs: Option<string>, now: int)
    ensures Ids(DeliverInTable(table, id, por, obs, now)) == Ids(table)
  {
  }

  /** Only the rows with the given id change, and those only in the four delivery columns. */
  lemma DeliverChangesOnlyThatRow(table: seq<ApprovalRecord>, id: int, por: Option<string>, obs: Option<string>, now: int)
    ensures forall i :: 0 <= i < |table| && table[i].id != id ==> DeliverInTable(table, id, por, obs, now)[i] == table[i]
    ensures forall i :: 0 <= i < |table| && table[i].id == id ==>
      var r := DeliverInTable(table, id, por, obs, now)[i];
      && r.estado == DeliveredState && r.entregadoPor == por && r.observaciones == obs && r.fechaEntrega == Some(now)
      && r.id == id && r.datosCompletos == table[i].datosCompletos && r.aprobador == table[i].aprobador
      && r.tablaOrigen == table[i].tablaOrigen && r.fechaDecision == table[i].fechaDecision
  {
  }

  /** An id that no row has leaves the table as it was. */
  lemma DeliverUnknownIdChangesNothing(table: seq<ApprovalRecord>, id: int, por: Option<string>, obs: Option<string>, now: int)
    requires forall r :: r in table ==> r.id != id
    ensures DeliverInTable(table, id, por, obs, now) == table
  {
  }

  /**
   * Repeating the same delivery changes nothing more: the update is idempotent.
   */
  lemma DeliverIsIdempotent(table: seq<ApprovalRecord>, id: int, por: Option<string>, obs: Option<string>, now: int)
    ensures DeliverInTable(DeliverInTable(table, id, por, obs, now), id, por, obs, now)
         == DeliverInTable(table, id, por, obs, now)
  {
  }

  /**
   * The update has no guard on the previous state: a rejected row, or a row
   * delivered before, becomes a fresh delivery as well, and an absent or
   * empty deliverer is stored as given.
   */
  lemma DeliverIgnoresPriorState(table: seq<ApprovalRecord>, id: int, por: Option<string>, obs: Option<string>, now: int, i: int)
    requires 0 <= i < |table| && table[i].id == id
    ensures DeliverInTable(table, id, por, obs, now)[i].estado == DeliveredState
    ensures DeliverInTable(table, id, por, obs, now)[i].entregadoPor == por
  {
  }

  /**
   * A delivery stamped inside the retention window shows up in both
   * listings, with the deliverer and notes it was given.
   */
  lemma DeliveredRowIsListed(table: seq<ApprovalRecord>, i: int, por: Option<string>, obs: Option<string>, now: int, currentDate: int)
    requires 0 <= i < |table|
    requires now >= RetentionCutoff(currentDate)
    ensures var t := DeliverInTable(table, table[i].id, por, obs, now);
      && t[i] == Delivered(table[i], por, obs, now)
      && t[i] in RecentDeliveries(t, currentDate)
      && t[i] in ActiveLedger(t, currentDate)
  {
    var t := DeliverInTable(table, table[i].id, por, obs, now);
    assert t[i] in t;
  }
}
