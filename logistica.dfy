/**
 * The logistics approval list (`ApprovalList`): the fetched ledger split into
 * the approved, pending and delivered tabs by the lower-cased state, each tab
 * newest first, the status icon of a row, its details grid, and the delivery
 * form that moves an approved row to the delivered tab.
 */
module Logistica {
  import opened Options
  import opened Seqs
  import opened Sorting
  import opened Text
  import opened Records
  import opened Ledger
  import opened Expand

  const ApprovedTag := "aprobado"
  const RejectedTag := "rechazado"
  const DeliveredTag := "entregado"

  predicate IsApproved(r: ApprovalRecord) {
    Lower(r.estado) == ApprovedTag
  }

  predicate IsDelivered(r: ApprovalRecord) {
    Lower(r.estado) == DeliveredTag
  }

  /** The pending tab holds every state that is neither approved nor delivered. */
  predicate IsPending(r: ApprovalRecord) {
    !IsApproved(r) && !IsDelivered(r)
  }

  /** The approved tab: rows in state 'aprobado' (any case), latest decision first. */
  function ApprovedTab(items: seq<ApprovalRecord>): (tab: seq<ApprovalRecord>)
    ensures StablySortedDesc(tab, Filter(items, IsApproved), DecisionDate)
  {
    SortDescIsStable(Filter(items, IsApproved), DecisionDate);
    SortDesc(Filter(items, IsApproved), DecisionDate)
  }

  /** The pending tab: every other state except 'entregado', latest decision first. */
  function PendingTab(items: seq<ApprovalRecord>): (tab: seq<ApprovalRecord>)
    ensures StablySortedDesc(tab, Filter(items, IsPending), DecisionDate)
  {
    SortDescIsStable(Filter(items, IsPending), DecisionDate);
    SortDesc(Filter(items, IsPending), DecisionDate)
  }

  /** The delivered tab: rows in state 'entregado', latest delivery (or decision) first. */
  function DeliveredTab(items: seq<ApprovalRecord>): (tab: seq<ApprovalRecord>)
    ensures StablySortedDesc(tab, Filter(items, IsDelivered), DeliveryDate)
  {
    SortDescIsStable(Filter(items, IsDelivered), DeliveryDate);
    SortDesc(Filter(items, IsDelivered), DeliveryDate)
  }

  /** The three tabs split the fetched rows: together they hold every row exactly once. */
  lemma TabsPartition(items: seq<ApprovalRecord>)
    ensures multiset(ApprovedTab(items)) + multiset(PendingTab(items)) + multiset(DeliveredTab(items)) == multiset(items)
  {
    forall x ensures (multiset(ApprovedTab(items)) + multiset(PendingTab(items)) + multiset(DeliveredTab(items)))[x]
                  == multiset(items)[x] {
      FilterMultiplicity(items, IsApproved, x);
      FilterMultiplicity(items, IsPending, x);
      FilterMultiplicity(items, IsDelivered, x);
    }
  }

  /** A fetched row is in exactly the tab its lower-cased state selects. */
  lemma RowInItsTab(items: seq<ApprovalRecord>, r: ApprovalRecord)
    requires r in items
    ensures r in ApprovedTab(items) <==> IsApproved(r)
    ensures r in DeliveredTab(items) <==> IsDelivered(r)
    ensures r in PendingTab(items) <==> IsPending(r)
  {
    assert r in multiset(ApprovedTab(items)) <==> r in multiset(Filter(items, IsApproved));
    assert r in multiset(DeliveredTab(items)) <==> r in multiset(Filter(items, IsDelivered));
    assert r in multiset(PendingTab(items)) <==> r in multiset(Filter(items, IsPending));
  }

  datatype StatusIcon = ApprovedIcon | RejectedIcon | DeliveredIcon | PendingIcon

  /** `renderStatusIcon(status)`. */
  function StatusIconFor(estado: string): (icon: StatusIcon)
    ensures icon == ApprovedIcon <==> Lower(estado) == ApprovedTag
    ensures icon == RejectedIcon <==> Lower(estado) == RejectedTag
    ensures icon == DeliveredIcon <==> Lower(estado) == DeliveredTag
    ensures icon == PendingIcon <==> Lower(estado) !in {ApprovedTag, RejectedTag, DeliveredTag}
  {
    var s := Lower(estado);
    if s == ApprovedTag then ApprovedIcon
    else if s == RejectedTag then RejectedIcon
    else if s == DeliveredTag then DeliveredIcon
    else PendingIcon
  }

  /**
   * The icon agrees with the tab: approved rows show the approved icon,
   * delivered rows the delivered icon, and the pending tab shows the rejected
   * icon for 'rechazado' and the clock for anything else.
   */
  lemma IconMatchesTab(items: seq<ApprovalRecord>, r: ApprovalRecord)
    requires r in items
    ensures r in ApprovedTab(items) ==> StatusIconFor(r.estado) == ApprovedIcon
    ensures r in DeliveredTab(items) ==> StatusIconFor(r.estado) == DeliveredIcon
    ensures r in PendingTab(items) ==> StatusIconFor(r.estado) in {RejectedIcon, PendingIcon}
  {
    RowInItsTab(items, r);
  }

  /** The fixed fields of the snapshot that the row header shows. */
  const HeaderKeys: set<string> := {"nombre_solicitante", "departamento_origen", "descripcion", "fecha_solicitud"}

  /** The details grid of an expanded row. */
  function DetailEntries(r: ApprovalRecord): (shown: Entries)
    ensures Subsequence(shown, r.datosCompletos)
  {
    Visible(r.datosCompletos, HeaderKeys)
  }

  /** The grid shows exactly the snapshot keys other than the four header fields. */
  lemma DetailKeys(r: ApprovalRecord, k: string)
    ensures k in Keys(DetailEntries(r)) <==> k in Keys(r.datosCompletos) && k !in HeaderKeys
  {
    VisibleKeys(r.datosCompletos, HeaderKeys);
  }

  /** The delivery form's two text fields. */
  datatype DeliveryForm = DeliveryForm(entregadoPor: string, observaciones: string)

  const EmptyDeliveryForm := DeliveryForm("", "")

  /** The body of `PATCH /api/aprobaciones/:id/entregar`. */
  datatype DeliveryRequest = DeliveryRequest(id: int, entregadoPor: string, observaciones: string)

  /** The form's fields as sent: both trimmed. */
  function RequestFor(id: int, form: DeliveryForm): (req: DeliveryRequest)
    ensures req.id == id
    ensures req.entregadoPor == Trim(form.entregadoPor) && req.observaciones == Trim(form.observaciones)
    ensures !IsBlank(form.entregadoPor) ==> req.entregadoPor != ""
  {
    DeliveryRequest(id, Trim(form.entregadoPor), Trim(form.observaciones))
  }

  /** The row the component prepends to the delivered tab; `now` is the client clock. */
  function DeliveredItem(item: ApprovalRecord, form: DeliveryForm, now: int): ApprovalRecord {
    item.(estado := "Entregado", entregadoPor := Some(Trim(form.entregadoPor)),
          observaciones := Some(Trim(form.observaciones)), fechaEntrega := Some(now))
  }

  /**
   * The client's row is the row the server writes for the request it sent,
   * when both clocks read the same.
   */
  lemma DeliveredItemMatchesServerRow(item: ApprovalRecord, form: DeliveryForm, now: int)
    ensures var req := RequestFor(item.id, form);
      DeliveredItem(item, form, now) == Delivered(item, Some(req.entregadoPor), Some(req.observaciones), now)
  {
  }

  function ApprovalId(r: ApprovalRecord): int {
    r.id
  }

  /** Two lists the delivery moves rows between. */
  datatype Tabs = Tabs(approvals: seq<ApprovalRecord>, delivered: seq<ApprovalRecord>)

  /**
   * The local update after a successful PATCH: when the id is in the approved
   * tab, every row with that id leaves it and the delivered version of the
   * first one is put in front of the delivered tab; otherwise both stay.
   */
  function AfterDelivery(tabs: Tabs, id: int, form: DeliveryForm, now: int): (next: Tabs)
    ensures forall r :: r in next.approvals ==> r in tabs.approvals && r.id != id
    ensures forall r :: r in tabs.approvals && r.id != id ==> r in next.approvals
    ensures Subsequence(next.approvals, tabs.approvals)
    ensures forall r :: multiset(next.approvals)[r] == if r.id == id then 0 else multiset(tabs.approvals)[r]
  {
    match Find(tabs.approvals, (r: ApprovalRecord) => r.id == id)
    case None =>
      FilterKeepsAll(tabs.approvals, (r: ApprovalRecord) => r.id != id);
      FilterIsSubsequence(tabs.approvals, (r: ApprovalRecord) => r.id != id);
      FilterCounts(tabs.approvals, (r: ApprovalRecord) => r.id != id);
      tabs
    case Some(item) =>
      FilterIsSubsequence(tabs.approvals, (r: ApprovalRecord) => r.id != id);
      FilterCounts(tabs.approvals, (r: ApprovalRecord) => r.id != id);
      Tabs(Filter(tabs.approvals, (r: ApprovalRecord) => r.id != id), [DeliveredItem(item, form, now)] + tabs.delivered)
  }

  /** A delivered row moves to the front of the delivered tab, with the trimmed fields and the new date. */
  lemma DeliveryMovesTheRow(tabs: Tabs, id: int, form: DeliveryForm, now: int, i: int)
    requires 0 <= i < |tabs.approvals| && tabs.approvals[i].id == id
    requires UniqueKeys(tabs.approvals, ApprovalId)
    ensures var next := AfterDelivery(tabs, id, form, now);
      && next.delivered == [DeliveredItem(tabs.approvals[i], form, now)] + tabs.delivered
      && next.delivered[0].estado == "Entregado"
      && next.delivered[0].fechaEntrega == Some(now)
      && |next.approvals| + |next.delivered| == |tabs.approvals| + |tabs.delivered|
  {
    assert tabs.approvals[i] in tabs.approvals;
    var item := Find(tabs.approvals, (r: ApprovalRecord) => r.id == id).value;
    var j :| 0 <= j < |tabs.approvals| && tabs.approvals[j] == item;
    assert ApprovalId(tabs.approvals[i]) == ApprovalId(tabs.approvals[j]);
    FilterOutUniqueKey(tabs.approvals, ApprovalId, id, (r: ApprovalRecord) => r.id != id);
  }

  /** A delivery of an id that is not in the approved tab leaves both tabs as they were. */
  lemma DeliveryOfUnknownIdChangesNothing(tabs: Tabs, id: int, form: DeliveryForm, now: int)
    requires forall r :: r in tabs.approvals ==> r.id != id
    ensures AfterDelivery(tabs, id, form, now) == tabs
  {
  }

  const LoadError := "Error al cargar los datos. Por favor intente nuevamente."
  const DeliveryError := "Error al registrar entrega. Por favor intente nuevamente."

  /** The component's state. */
  class ApprovalListView {
    var approvals: seq<ApprovalRecord>
    var pending: seq<ApprovalRecord>
    var delivered: seq<ApprovalRecord>
    var expandedId: Option<int>
    var deliveryData: DeliveryForm
    var error: Option<string>

    constructor ()
      ensures approvals == [] && pending == [] && delivered == []
      ensures expandedId.None? && deliveryData == EmptyDeliveryForm && error.None?
    {
      approvals, pending, delivered := [], [], [];
      expandedId := None;
      deliveryData := EmptyDeliveryForm;
      error := None;
    }

    /**
     * `fetchData`: the reply of `GET /api/aprobaciones` split into the three
     * tabs, or, when the request fails (`None`), the load error and the tabs
     * as they were.
     */
    method Load(response: Option<seq<ApprovalRecord>>)
      modifies this`approvals, this`pending, this`delivered, this`error
      ensures response.Some? ==> && approvals == ApprovedTab(response.value)
                                 && pending == PendingTab(response.value)
                                 && delivered == DeliveredTab(response.value)
                                 && error.None?
      ensures response.None? ==> && approvals == old(approvals) && pending == old(pending)
                                 && delivered == old(delivered) && error == Some(LoadError)
    {
      error := None;
      match response
      case Some(items) =>
        approvals := ApprovedTab(items);
        pending := PendingTab(items);
        delivered := DeliveredTab(items);
      case None =>
        error := Some(LoadError);
    }

    method ToggleExpand(id: int)
      modifies this`expandedId
      ensures expandedId == ToggleExpanded(old(expandedId), id)
    {
      expandedId := if expandedId == Some(id) then None else Some(id);
    }

    /** `handleDeliveryInputChange` on either field. */
    method EditDeliveryForm(form: DeliveryForm)
      modifies this`deliveryData
      ensures deliveryData == form
    {
      deliveryData := form;
    }

    /**
     * `handleDelivery(id)`. A blank deliverer name stops before any request
     * and changes nothing (`None`). Otherwise the trimmed form is sent;
     * `patchSucceeds` is whether the PATCH succeeded. On success the row moves
     * tabs, the form is emptied and no row stays open; on failure only the
     * error is set.
     */
    method HandleDelivery(id: int, patchSucceeds: bool, now: int) returns (request: Option<DeliveryRequest>)
      modifies this`approvals, this`delivered, this`deliveryData, this`expandedId, this`error
      ensures IsBlank(old(deliveryData.entregadoPor)) ==>
        && request.None? && approvals == old(approvals) && delivered == old(delivered)
        && deliveryData == old(deliveryData) && expandedId == old(expandedId) && error == old(error)
      ensures !IsBlank(old(deliveryData.entregadoPor)) ==> request == Some(RequestFor(id, old(deliveryData)))
      ensures !IsBlank(old(deliveryData.entregadoPor)) && patchSucceeds ==>
        && Tabs(approvals, delivered) == AfterDelivery(Tabs(old(approvals), old(delivered)), id, old(deliveryData), now)
        && deliveryData == EmptyDeliveryForm && expandedId.None? && error.None?
      ensures !IsBlank(old(deliveryData.entregadoPor)) && !patchSucceeds ==>
        && approvals == old(approvals) && delivered == old(delivered)
        && deliveryData == old(deliveryData) && expandedId == old(expandedId) && error == Some(DeliveryError)
      ensures pending == old(pending)
    {
      if IsBlank(deliveryData.entregadoPor) {
        request := None;
      } else {
        request := Some(RequestFor(id, deliveryData));
        if patchSucceeds {
          CompleteDelivery(id, now);
        } else {
          error := Some(DeliveryError);
        }
      }
    }

    /** The success branch of `handleDelivery`: the local move and the form reset. */
    method CompleteDelivery(id: int, now: int)
      modifies this`approvals, this`delivered, this`deliveryData, this`expandedId, this`error
      ensures Tabs(approvals, delivered) == AfterDelivery(Tabs(old(approvals), old(delivered)), id, old(deliveryData), now)
      ensures deliveryData == EmptyDeliveryForm && expandedId.None? && error.None?
    {
      var next := AfterDelivery(Tabs(approvals, delivered), id, deliveryData, now);
      approvals, delivered := next.approvals, next.delivered;
      deliveryData := EmptyDeliveryForm;
      expandedId := None;
      error := None;
    }
  }
}
