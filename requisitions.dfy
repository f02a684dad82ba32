/**
 * Requisitions: three origin tables of the same shape (TIC, logistics,
 * purchasing) and the read endpoints over them. A per-origin endpoint
 * returns its table newest first; the combined endpoint tags every row with
 * its origin, concatenates the three lists and sorts the union newest first.
 */
module Requisitions {
  import opened Options
  import opened Seqs
  import opened Sorting
  import opened Records
  import Text

  /** The three origin tables, a closed set: no table name comes from the caller. */
  datatype Origin = Tic | Logistica | Compras

  /** A requisition row; `tipo` is only present on rows of the combined list. */
  datatype Requisicion = Requisicion(
    id: int,
    nombreSolicitante: string,
    departamentoOrigen: string,
    descripcion: string,
    fechaSolicitud: int,
    tipo: Option<string>,
    extra: Entries)

  /** `'TIC' as tipo`, `'Logística' as tipo`, `'Compras' as tipo`. */
  function OriginTag(o: Origin): string {
    match o
    case Tic => "TIC"
    case Logistica => "Log\U{00ED}stica"
    case Compras => "Compras"
  }

  /** The fixed table each origin reads. */
  function TableName(o: Origin): string {
    match o
    case Tic => "requisiciones_tic"
    case Logistica => "requisiciones_logistica"
    case Compras => "requisiciones_compras"
  }

  lemma OriginTagsAreDistinct(o: Origin, p: Origin)
    ensures OriginTag(o) == OriginTag(p) ==> o == p
    ensures TableName(o) == TableName(p) ==> o == p
  {
    assert OriginTag(Tic)[0] == 'T' && OriginTag(Logistica)[0] == 'L' && OriginTag(Compras)[0] == 'C';
    assert TableName(Tic)[14] == 't' && TableName(Logistica)[14] == 'l' && TableName(Compras)[14] == 'c';
  }

  function FechaSolicitud(r: Requisicion): int {
    r.fechaSolicitud
  }

  /** The database's three tables. */
  datatype Tables = Tables(tic: seq<Requisicion>, logistica: seq<Requisicion>, compras: seq<Requisicion>) {
    function Of(o: Origin): seq<Requisicion> {
      match o
      case Tic => tic
      case Logistica => logistica
      case Compras => compras
    }
  }

  /** `SELECT * FROM <table> ORDER BY fecha_solicitud DESC`. */
  function ByOrigin(tables: Tables, o: Origin): (view: seq<Requisicion>)
    ensures multiset(view) == multiset(tables.Of(o))
    ensures SortedDesc(view, FechaSolicitud)
  {
    SortDesc(tables.Of(o), FechaSolicitud)
  }

  /** `SELECT *, '<tag>' as tipo FROM <table>`. */
  function Tagged(rows: seq<Requisicion>, o: Origin): (r: seq<Requisicion>)
    ensures |r| == |rows|
    ensures forall i :: 0 <= i < |rows| ==> r[i] == rows[i].(tipo := Some(OriginTag(o)))
  {
    seq(|rows|, i requires 0 <= i < |rows| => rows[i].(tipo := Some(OriginTag(o))))
  }

  /** `[...tic.rows, ...logistica.rows, ...compras.rows]`. */
  function Concatenated(tables: Tables): seq<Requisicion> {
    Tagged(tables.tic, Tic) + Tagged(tables.logistica, Logistica) + Tagged(tables.compras, Compras)
  }

  predicate HasTag(o: Origin, r: Requisicion) {
    r.tipo == Some(OriginTag(o))
  }

  /** The rows of a list tagged with origin `o`. */
  function TaggedAs(rows: seq<Requisicion>, o: Origin): seq<Requisicion> {
    Filter(rows, r => HasTag(o, r))
  }

  /**
   * `GET /api/requisiciones/todas`: every row of the three tables, tagged,
   * newest first; rows with the same date keep the order of the
   * concatenation (TIC, then logistics, then purchasing, each in table order).
   */
  function Combined(tables: Tables): (view: seq<Requisicion>)
    ensures |view| == |tables.tic| + |tables.logistica| + |tables.compras|
    ensures StablySortedDesc(view, Concatenated(tables), FechaSolicitud)
  {
    SortDescIsStable(Concatenated(tables), FechaSolicitud);
    SortDesc(Concatenated(tables), FechaSolicitud)
  }

  lemma {:induction false} TaggedAsOwnOrigin(rows: seq<Requisicion>, o: Origin, p: Origin)
    ensures TaggedAs(Tagged(rows, o), p) == if o == p then Tagged(rows, o) else []
  {
    OriginTagsAreDistinct(o, p);
    if rows != [] {
      TaggedAsOwnOrigin(rows[1..], o, p);
      TaggedCons(rows, o);
    }
  }

  /** Tagging a non-empty list tags its head and then its tail. */
  lemma TaggedCons(rows: seq<Requisicion>, o: Origin)
    requires rows != []
    ensures Tagged(rows, o) == [rows[0].(tipo := Some(OriginTag(o)))] + Tagged(rows[1..], o)
  {
    var t := Tagged(rows, o);
    assert t[1..] == Tagged(rows[1..], o);
  }

  lemma TaggedAsConcat(a: seq<Requisicion>, b: seq<Requisicion>, o: Origin)
    ensures TaggedAs(a + b, o) == TaggedAs(a, o) + TaggedAs(b, o)
  {
    FilterConcat(a, b, r => HasTag(o, r));
  }

  lemma TaggedAsConcatenated(tables: Tables, o: Origin)
    ensures TaggedAs(Concatenated(tables), o) == Tagged(tables.Of(o), o)
  {
    var t, l, c := Tagged(tables.tic, Tic), Tagged(tables.logistica, Logistica), Tagged(tables.compras, Compras);
    TaggedAsConcat(t + l, c, o);
    TaggedAsConcat(t, l, o);
    TaggedAsOwnOrigin(tables.tic, Tic, o);
    TaggedAsOwnOrigin(tables.logistica, Logistica, o);
    TaggedAsOwnOrigin(tables.compras, Compras, o);
  }

  lemma TaggedAsPermutation(a: seq<Requisicion>, b: seq<Requisicion>, o: Origin)
    requires multiset(a) == multiset(b)
    ensures multiset(TaggedAs(a, o)) == multiset(TaggedAs(b, o))
  {
    FilterPreservesPermutation(a, b, r => HasTag(o, r));
  }

  /** Every row of the combined list carries one of the three tags. */
  lemma CombinedRowsAreTagged(tables: Tables)
    ensures forall r :: r in Combined(tables) ==> HasTag(Tic, r) || HasTag(Logistica, r) || HasTag(Compras, r)
  {
    var c := Concatenated(tables);
    forall r | r in Combined(tables) ensures HasTag(Tic, r) || HasTag(Logistica, r) || HasTag(Compras, r) {
      assert r in multiset(c);
    }
  }

  /** The rows of the combined list tagged with an origin are exactly that table's rows. */
  lemma CombinedRowsByOrigin(tables: Tables, o: Origin)
    ensures multiset(TaggedAs(Combined(tables), o)) == multiset(Tagged(tables.Of(o), o))
    ensures |TaggedAs(Combined(tables), o)| == |tables.Of(o)|
  {
    TaggedAsPermutation(Combined(tables), Concatenated(tables), o);
    TaggedAsConcatenated(tables, o);
    assert |multiset(TaggedAs(Combined(tables), o))| == |TaggedAs(Combined(tables), o)|;
  }

  /** What a requisitions route serves. */
  datatype RequisitionView = AllOrigins | OneOrigin(origin: Origin)

  const RequisitionsPrefix := "/api/requisiciones/"

  /** The route's last path segment. */
  function RouteSegment(v: RequisitionView): string {
    match v
    case AllOrigins => "todas"
    case OneOrigin(Tic) => "tic"
    case OneOrigin(Logistica) => "logistica"
    case OneOrigin(Compras) => "compras"
  }

  /** The path with one trailing slash removed, if it has one. */
  function WithoutTrailingSlash(path: string): string {
    if |path| > 0 && path[|path| - 1] == '/' then path[..|path| - 1] else path
  }

  /**
   * What Express compares with a registered path. Its routing is neither
   * case-sensitive nor strict by default, so case is folded and one
   * trailing slash is ignored. Only ASCII letters can fold to the ASCII
   * paths registered here.
   */
  function RouteKey(path: string): string {
    Text.Lower(WithoutTrailingSlash(path))
  }

  /** The handler registered under a last path segment. */
  function ViewForSegment(segment: string): (v: Option<RequisitionView>)
    ensures v.Some? ==> segment == RouteSegment(v.value)
    ensures v.None? ==> forall w :: segment != RouteSegment(w)
  {
    if segment == "tic" then Some(OneOrigin(Tic))
    else if segment == "logistica" then Some(OneOrigin(Logistica))
    else if segment == "compras" then Some(OneOrigin(Compras))
    else if segment == "todas" then Some(AllOrigins)
    else None
  }

  /** The handler the four registered GET routes select for a pathname. */
  function Route(path: string): (v: Option<RequisitionView>)
    ensures v.Some? ==> RouteKey(path) == RequisitionsPrefix + RouteSegment(v.value)
    ensures v.None? ==> forall w :: RouteKey(path) != RequisitionsPrefix + RouteSegment(w)
  {
    var key := RouteKey(path);
    var n := |RequisitionsPrefix|;
    if n <= |key| && key[..n] == RequisitionsPrefix then
      assert key == RequisitionsPrefix + key[n..];
      assert forall w :: key == RequisitionsPrefix + RouteSegment(w) ==> key[n..] == RouteSegment(w);
      ViewForSegment(key[n..])
    else
      None
  }

  /** The rows a route's handler answers with. */
  function Serve(tables: Tables, v: RequisitionView): seq<Requisicion> {
    match v
    case AllOrigins => Combined(tables)
    case OneOrigin(o) => ByOrigin(tables, o)
  }

  /** Each view's path reaches that view's handler. */
  lemma RouteFindsEveryView(v: RequisitionView)
    ensures Route(RequisitionsPrefix + RouteSegment(v)) == Some(v)
  {
    var p := RequisitionsPrefix + RouteSegment(v);
    RegisteredPathIsItsOwnKey(v);
    assert p[..19] == RequisitionsPrefix && p[19..] == RouteSegment(v);
  }

  /** A registered path has no upper-case letter and no trailing slash. */
  lemma RegisteredPathIsItsOwnKey(v: RequisitionView)
    ensures RouteKey(RequisitionsPrefix + RouteSegment(v)) == RequisitionsPrefix + RouteSegment(v)
  {
    var p := RequisitionsPrefix + RouteSegment(v);
    assert p[|p| - 1] == RouteSegment(v)[|RouteSegment(v)| - 1];
    assert WithoutTrailingSlash(p) == p;
    PrefixIsLowerCase();
    Text.LowerKeepsLowerCase(RouteSegment(v));
    Text.LowerConcat(RequisitionsPrefix, RouteSegment(v));
  }

  lemma PrefixIsLowerCase()
    ensures Text.Lower(RequisitionsPrefix) == RequisitionsPrefix
  {
    Text.LowerKeepsLowerCase(RequisitionsPrefix);
  }

  /** Upper-case letters in the path select the same handler. */
  lemma RouteIgnoresCase(path: string)
    ensures Route(Text.Lower(path)) == Route(path)
  {
    var q := WithoutTrailingSlash(path);
    assert WithoutTrailingSlash(Text.Lower(path)) == Text.Lower(q);
    Text.LowerIsIdempotent(q);
  }

  /** One trailing slash selects the same handler. */
  lemma RouteIgnoresTrailingSlash(path: string)
    requires path == [] || path[|path| - 1] != '/'
    ensures Route(path + "/") == Route(path)
  {
    assert (path + "/")[..|path|] == path;
  }
}
