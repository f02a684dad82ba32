/**
 * The requisitions screen (`RequisicionesView`): the tab chooses the
 * endpoint, the search box filters the fetched rows case-insensitively, each
 * row shows an origin badge and, when expanded, a grid of its other fields.
 */
module RequisicionesView {
  import opened Options
  import opened Seqs
  import opened Text
  import opened Records
  import opened Requisitions
  import opened Expand

  datatype Tab = TicTab | LogisticaTab | ComprasTab | TodasTab

  /** The tab's name, the value of `activeTab`. */
  function TabName(t: Tab): string {
    match t
    case TicTab => "tic"
    case LogisticaTab => "logistica"
    case ComprasTab => "compras"
    case TodasTab => "todas"
  }

  /**
   * The endpoint `fetchRequisiciones` requests for the active tab: the
   * combined route for 'todas', the tab's own route otherwise. Both branches
   * build the same path from the tab's name.
   */
  function Endpoint(t: Tab): (path: string)
    ensures path == RequisitionsPrefix + TabName(t)
  {
    if t == TodasTab then "/api/requisiciones/todas" else "/api/requisiciones/" + TabName(t)
  }

  /** What each tab should show on the server side. */
  function ViewOf(t: Tab): RequisitionView {
    match t
    case TicTab => OneOrigin(Tic)
    case LogisticaTab => OneOrigin(Logistica)
    case ComprasTab => OneOrigin(Compras)
    case TodasTab => AllOrigins
  }

  /** Every tab's endpoint is a route of the server, the one serving that tab's rows. */
  lemma EndpointReachesItsView(t: Tab)
    ensures Route(Endpoint(t)) == Some(ViewOf(t))
  {
    RouteFindsEveryView(ViewOf(t));
    assert Endpoint(t) == RequisitionsPrefix + RouteSegment(ViewOf(t));
  }

  /** The row's name, department or description contains the term, ignoring case. */
  predicate Matches(term: string, r: Requisicion) {
    || Contains(Lower(r.nombreSolicitante), Lower(term))
    || Contains(Lower(r.departamentoOrigen), Lower(term))
    || Contains(Lower(r.descripcion), Lower(term))
  }

  /** `filteredRequisiciones`: the rows matching the search term, in fetched order. */
  function Filtered(rows: seq<Requisicion>, term: string): (shown: seq<Requisicion>)
    ensures forall r :: r in shown ==> r in rows && Matches(term, r)
    ensures forall r :: r in rows && Matches(term, r) ==> r in shown
    ensures Subsequence(shown, rows)
    ensures forall r :: multiset(shown)[r] == if Matches(term, r) then multiset(rows)[r] else 0
  {
    FilterIsSubsequence(rows, r => Matches(term, r));
    FilterCounts(rows, r => Matches(term, r));
    Filter(rows, r => Matches(term, r))
  }

  /** A row matches exactly when the lower-cased term occurs somewhere in one of the three lower-cased fields. */
  lemma MatchesIffOccurs(term: string, r: Requisicion)
    ensures Matches(term, r) <==>
      || (exists i :: OccursAt(Lower(r.nombreSolicitante), Lower(term), i))
      || (exists i :: OccursAt(Lower(r.departamentoOrigen), Lower(term), i))
      || (exists i :: OccursAt(Lower(r.descripcion), Lower(term), i))
  {
    ContainsIffOccurs(Lower(r.nombreSolicitante), Lower(term));
    ContainsIffOccurs(Lower(r.departamentoOrigen), Lower(term));
    ContainsIffOccurs(Lower(r.descripcion), Lower(term));
  }

  /** An empty search box shows every row. */
  lemma EmptyTermShowsAll(rows: seq<Requisicion>)
    ensures Filtered(rows, "") == rows
  {
    forall r ensures Matches("", r) {
      ContainsEmpty(Lower(r.nombreSolicitante));
    }
    FilterKeepsAll(rows, r => Matches("", r));
  }

  /** The search ignores the case of the term. */
  lemma SearchIgnoresTermCase(rows: seq<Requisicion>, term: string)
    ensures Filtered(rows, Lower(term)) == Filtered(rows, term)
  {
    LowerIsIdempotent(term);
    assert forall r :: Matches(Lower(term), r) == Matches(term, r);
    FilterSamePredicate(rows, r => Matches(Lower(term), r), r => Matches(term, r));
  }

  datatype Badge = BadgeTic | BadgeLogistica | BadgeCompras | NoBadge

  /** `getBadgeClass(tipo)`. */
  function BadgeClass(tipo: Option<string>): (b: Badge)
    ensures b == NoBadge <==> tipo.None? || tipo.value !in {OriginTag(Tic), OriginTag(Logistica), OriginTag(Compras)}
  {
    if tipo == Some("TIC") then BadgeTic
    else if tipo == Some("Log\U{00ED}stica") then BadgeLogistica
    else if tipo == Some("Compras") then BadgeCompras
    else NoBadge
  }

  function BadgeOf(o: Origin): Badge {
    match o
    case Tic => BadgeTic
    case Logistica => BadgeLogistica
    case Compras => BadgeCompras
  }

  /**
   * Every row of the combined list gets the badge of the table it came from;
   * rows of a per-origin list carry no tag and get no badge.
   */
  lemma CombinedRowsGetTheirBadge(tables: Tables, o: Origin, r: Requisicion)
    requires r in TaggedAs(Combined(tables), o)
    ensures BadgeClass(r.tipo) == BadgeOf(o)
  {
    var rows := Combined(tables);
    assert r in rows && HasTag(o, r);
  }

  /** Rows without a tag get no badge. */
  lemma UntaggedRowsGetNoBadge(r: Requisicion)
    requires r.tipo.None?
    ensures BadgeClass(r.tipo) == NoBadge
  {
  }

  /** The five columns every requisition table has, in table order. */
  function FixedEntries(r: Requisicion): Entries {
    [("id", Number(r.id)), ("nombre_solicitante", Str(r.nombreSolicitante)),
     ("departamento_origen", Str(r.departamentoOrigen)), ("descripcion", Str(r.descripcion)),
     ("fecha_solicitud", Number(r.fechaSolicitud))]
  }

  /** The `tipo` column the combined query adds. */
  function TipoEntries(r: Requisicion): Entries {
    if r.tipo.Some? then [("tipo", Str(r.tipo.value))] else []
  }

  /**
   * `Object.entries(req)`: the row's columns in the order `SELECT *` returns
   * them, with `tipo` last when the combined query added it. Putting the five
   * columns every table shares before the table's own columns is an
   * assumption about the table definitions, which are not part of this
   * model; the details grid drops those five wherever they stand.
   */
  function RowEntries(r: Requisicion): (entries: Entries)
    ensures |entries| == 5 + |r.extra| + (if r.tipo.Some? then 1 else 0)
    ensures entries[..5] == FixedEntries(r)
    ensures entries[5..5 + |r.extra|] == r.extra
    ensures entries[5 + |r.extra|..] == TipoEntries(r)
  {
    FixedEntries(r) + r.extra + TipoEntries(r)
  }

  const HiddenKeys: set<string> := {"id", "nombre_solicitante", "departamento_origen", "descripcion", "fecha_solicitud", "tipo"}

  /** The details grid of an expanded row. */
  function DetailEntries(r: Requisicion): Entries {
    Visible(RowEntries(r), HiddenKeys)
  }

  /** The grid lists exactly the row's fields other than the six shown elsewhere. */
  lemma DetailKeys(r: Requisicion, k: string)
    ensures k in Keys(DetailEntries(r)) <==> k in Keys(RowEntries(r)) && k !in HiddenKeys
  {
    VisibleKeys(RowEntries(r), HiddenKeys);
  }

  lemma FixedAndTipoAreHidden(r: Requisicion)
    ensures forall e :: e in FixedEntries(r) ==> e.0 in HiddenKeys
    ensures forall e :: e in TipoEntries(r) ==> e.0 in HiddenKeys
  {
  }

  /** When no extra column is named like a hidden one, the grid is the extra columns in order. */
  lemma DetailsAreTheExtraColumns(r: Requisicion)
    requires forall e :: e in r.extra ==> e.0 !in HiddenKeys
    ensures DetailEntries(r) == r.extra
  {
    var p := e => NotHidden(HiddenKeys, e);
    FixedAndTipoAreHidden(r);
    FilterKeepsOnlyMiddle(FixedEntries(r), r.extra, TipoEntries(r), p);
  }

  const LoadError := "Error al cargar las requisiciones"

  /** The component's state. */
  class RequisitionsPanel {
    var requisiciones: seq<Requisicion>
    var error: Option<string>
    var activeTab: Tab
    var expandedId: Option<int>
    var searchTerm: string

    constructor ()
      ensures requisiciones == [] && error.None? && activeTab == TodasTab && expandedId.None? && searchTerm == ""
    {
      requisiciones := [];
      error := None;
      activeTab := TodasTab;
      expandedId := None;
      searchTerm := "";
    }

    /** The rows on screen. */
    function Shown(): (shown: seq<Requisicion>)
      reads this
      ensures Subsequence(shown, requisiciones)
    {
      Filtered(requisiciones, searchTerm)
    }

    /**
     * `fetchRequisiciones`: requests the active tab's endpoint and stores the
     * reply, or, when the request fails (`None`), sets the error and keeps the
     * rows.
     */
    method FetchRequisiciones(response: Option<seq<Requisicion>>) returns (endpoint: string)
      modifies this`requisiciones, this`error
      ensures endpoint == Endpoint(activeTab)
      ensures response.Some? ==> requisiciones == response.value && error.None?
      ensures response.None? ==> requisiciones == old(requisiciones) && error == Some(LoadError)
    {
      error := None;
      endpoint := "/api/requisiciones/todas";
      if activeTab != TodasTab {
        endpoint := "/api/requisiciones/" + TabName(activeTab);
      }
      match response
      case Some(rows) => requisiciones := rows;
      case None => error := Some(LoadError);
    }

    /** Choosing a tab; the effect on `activeTab` then fetches again. */
    method SelectTab(t: Tab)
      modifies this`activeTab
      ensures activeTab == t
    {
      activeTab := t;
    }

    method Search(term: string)
      modifies this`searchTerm
      ensures searchTerm == term
    {
      searchTerm := term;
    }

    method ToggleExpand(id: int)
      modifies this`expandedId
      ensures expandedId == ToggleExpanded(old(expandedId), id)
    {
      expandedId := if expandedId == Some(id) then None else Some(id);
    }
  }
}
