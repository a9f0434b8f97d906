/**
 * The read-side views that query sales: `ventas_filtradas` (optional criteria and
 * their sum), `estadisticas_ventas` (totals per month and per quarter) and the
 * grouping query of `productos_mas_vendidos` (quantity sold per product name).
 */
module Queries {
  import opened Wrappers
  import opened Dates
  import opened Sequences
  import opened Models
  import opened Forms
  import opened Grouping

  // ---------------------------------------------------------------- ventas_filtradas

  /** One `.filter(...)` lookup of the view. */
  datatype Criterion =
    | ProductoIs(id: nat)       // producto=producto
    | FechaDesde(desde: Date)   // fecha__gte
    | FechaHasta(hasta: Date)   // fecha__lte
    | TotalDesde(minimo: int)   // total__gte
    | TotalHasta(maximo: int)   // total__lte
    | EstadoIs(code: string)    // estado=estado

  predicate Holds(c: Criterion, v: Venta) {
    match c
    case ProductoIs(id) => v.producto == id
    case FechaDesde(d) => OnOrBefore(d, v.fecha)
    case FechaHasta(d) => OnOrBefore(v.fecha, d)
    case TotalDesde(m) => v.total >= m
    case TotalHasta(m) => v.total <= m
    case EstadoIs(code) => Code(v.estado) == code
  }

  function HoldsFn(c: Criterion): Venta -> bool {
    (v: Venta) => Holds(c, v)
  }

  predicate MatchesAll(cs: seq<Criterion>, v: Venta) {
    forall i :: 0 <= i < |cs| ==> Holds(cs[i], v)
  }

  function MatchesAllFn(cs: seq<Criterion>): Venta -> bool {
    (v: Venta) => MatchesAll(cs, v)
  }

  /** `ventas.filter(<c>)`. */
  function Select(s: seq<Venta>, c: Criterion): seq<Venta> {
    Filter(s, HoldsFn(c))
  }

  /** The sales of `s` that pass every criterion of `cs`, in order. */
  function Filtered(s: seq<Venta>, cs: seq<Criterion>): seq<Venta> {
    Filter(s, MatchesAllFn(cs))
  }

  /** Chaining one more `.filter` onto a filtered queryset adds its lookup to the conjunction. */
  lemma SelectExtends(s: seq<Venta>, cs: seq<Criterion>, c: Criterion)
    ensures Select(Filtered(s, cs), c) == Filtered(s, cs + [c])
  {
    forall x ensures MatchesAllFn(cs + [c])(x) == (MatchesAllFn(cs)(x) && HoldsFn(c)(x)) {
      assert forall i :: 0 <= i < |cs| ==> (cs + [c])[i] == cs[i];
      assert (cs + [c])[|cs|] == c;
    }
    FilterCompose(s, MatchesAllFn(cs), HoldsFn(c), MatchesAllFn(cs + [c]));
  }

  /** With no criterion the queryset is `Venta.objects.all()` unchanged. */
  lemma FilteredNone(s: seq<Venta>)
    ensures Filtered(s, []) == s
  {
    FilterKeepsAll(s, MatchesAllFn([]));
  }

  function When(b: bool, c: Criterion): seq<Criterion> {
    if b then [c] else []
  }

  /**
   * The lookups the view applies, in its order: product, dates and status only
   * when truthy (a missing product or date, or status ""), the two bounds on
   * `total` whenever they are not `None`, so a bound of 0 still filters.
   */
  function Active(f: FiltroCriteria): seq<Criterion> {
    When(f.producto.Some?, ProductoIs(f.producto.GetOr(0)))
    + When(f.fechaInicio.Some?, FechaDesde(f.fechaInicio.GetOr(Date(1, 1, 1))))
    + When(f.fechaFin.Some?, FechaHasta(f.fechaFin.GetOr(Date(1, 1, 1))))
    + When(f.precioMinimo.Some?, TotalDesde(f.precioMinimo.GetOr(0)))
    + When(f.precioMaximo.Some?, TotalHasta(f.precioMaximo.GetOr(0)))
    + When(f.estado != "", EstadoIs(f.estado))
  }

  /**
   * What the filter means, criterion by criterion: each present criterion
   * constrains the sale, with inclusive bounds, and the price bounds apply to
   * the sale's `total`, not to the product's `precio`.
   */
  predicate Matches(f: FiltroCriteria, v: Venta) {
    && (f.producto.Some? ==> v.producto == f.producto.value)
    && (f.fechaInicio.Some? ==> OnOrBefore(f.fechaInicio.value, v.fecha))
    && (f.fechaFin.Some? ==> OnOrBefore(v.fecha, f.fechaFin.value))
    && (f.precioMinimo.Some? ==> f.precioMinimo.value <= v.total)
    && (f.precioMaximo.Some? ==> v.total <= f.precioMaximo.value)
    && (f.estado != "" ==> Code(v.estado) == f.estado)
  }

  function MatchesFn(f: FiltroCriteria): Venta -> bool {
    (v: Venta) => Matches(f, v)
  }

  lemma MatchesWhen(b: bool, c: Criterion, v: Venta)
    ensures MatchesAll(When(b, c), v) <==> (b ==> Holds(c, v))
  {
    if b { assert When(b, c)[0] == c; }
  }

  lemma MatchesAllConcat(a: seq<Criterion>, b: seq<Criterion>, v: Venta)
    ensures MatchesAll(a + b, v) <==> MatchesAll(a, v) && MatchesAll(b, v)
  {
    if MatchesAll(a, v) && MatchesAll(b, v) {
      forall i | 0 <= i < |a + b| ensures Holds((a + b)[i], v) {
        if i < |a| { assert (a + b)[i] == a[i]; } else { assert (a + b)[i] == b[i - |a|]; }
      }
    }
    if MatchesAll(a + b, v) {
      forall i | 0 <= i < |a| ensures Holds(a[i], v) { assert (a + b)[i] == a[i]; }
      forall i | 0 <= i < |b| ensures Holds(b[i], v) { assert (a + b)[|a| + i] == b[i]; }
    }
  }

  /** The chain of active lookups accepts a sale exactly when the sale matches the criteria. */
  lemma ActiveMatches(f: FiltroCriteria, v: Venta)
    ensures MatchesAll(Active(f), v) <==> Matches(f, v)
  {
    var p := When(f.producto.Some?, ProductoIs(f.producto.GetOr(0)));
    var fi := When(f.fechaInicio.Some?, FechaDesde(f.fechaInicio.GetOr(Date(1, 1, 1))));
    var ff := When(f.fechaFin.Some?, FechaHasta(f.fechaFin.GetOr(Date(1, 1, 1))));
    var mn := When(f.precioMinimo.Some?, TotalDesde(f.precioMinimo.GetOr(0)));
    var mx := When(f.precioMaximo.Some?, TotalHasta(f.precioMaximo.GetOr(0)));
    var e := When(f.estado != "", EstadoIs(f.estado));
    MatchesAllConcat(p + fi + ff + mn + mx, e, v);
    MatchesAllConcat(p + fi + ff + mn, mx, v);
    MatchesAllConcat(p + fi + ff, mn, v);
    MatchesAllConcat(p + fi, ff, v);
    MatchesAllConcat(p, fi, v);
    MatchesWhen(f.producto.Some?, ProductoIs(f.producto.GetOr(0)), v);
    MatchesWhen(f.fechaInicio.Some?, FechaDesde(f.fechaInicio.GetOr(Date(1, 1, 1))), v);
    MatchesWhen(f.fechaFin.Some?, FechaHasta(f.fechaFin.GetOr(Date(1, 1, 1))), v);
    MatchesWhen(f.precioMinimo.Some?, TotalDesde(f.precioMinimo.GetOr(0)), v);
    MatchesWhen(f.precioMaximo.Some?, TotalHasta(f.precioMaximo.GetOr(0)), v);
    MatchesWhen(f.estado != "", EstadoIs(f.estado), v);
  }

  /** The listing `ventas_filtradas` shows for a request. */
  function FiltroResultado(db: Store, query: Option<FiltroInput>): seq<Venta> {
    var form := CleanFiltro(query, db.productos);
    if form.Some? then Filtered(db.ventas, Active(form.value)) else db.ventas
  }

  /**
   * A valid form yields exactly the sales matching its criteria, in their
   * original order (duplicates included); an invalid or unbound form yields all sales.
   */
  lemma FiltroResultadoExactly(db: Store, query: Option<FiltroInput>, v: Venta)
    ensures var form := CleanFiltro(query, db.productos);
      form.Some? ==> FiltroResultado(db, query) == Filter(db.ventas, MatchesFn(form.value))
    ensures var form := CleanFiltro(query, db.productos);
      form.Some? ==> (v in FiltroResultado(db, query) <==> v in db.ventas && Matches(form.value, v))
    ensures CleanFiltro(query, db.productos).None? ==> FiltroResultado(db, query) == db.ventas
    ensures Subsequence(FiltroResultado(db, query), db.ventas)
  {
    var form := CleanFiltro(query, db.productos);
    if form.Some? {
      var f := form.value;
      forall x ensures MatchesAllFn(Active(f))(x) == MatchesFn(f)(x) {
        ActiveMatches(f, x);
      }
      FilterExt(db.ventas, MatchesAllFn(Active(f)), MatchesFn(f));
      FilterIsSubsequence(db.ventas, MatchesAllFn(Active(f)));
    } else {
      FilterIsSubsequence(db.ventas, MatchesAllFn([]));
      FilteredNone(db.ventas);
    }
  }

  /** With an empty query string, and with a form whose criteria are all empty, every sale is listed. */
  lemma EmptyCriteriaListAll(db: Store)
    ensures FiltroResultado(db, None) == db.ventas
    ensures FiltroResultado(db, Some(BlankFiltro)) == db.ventas
  {
    BlankFiltroValid(db.productos);
    assert Active(NoCriteria) == [];
    FilteredNone(db.ventas);
  }

  /** The sum of `total` over a sequence of sales. */
  function SumTotales(s: seq<Venta>): int {
    if s == [] then 0 else s[0].total + SumTotales(s[1..])
  }

  /** `aggregate(total=Sum('total'))['total']`: SQL's SUM, which is NULL over no rows. */
  function AggregateSum(s: seq<Venta>): (r: Option<int>)
    ensures r.None? <==> s == []
  {
    if s == [] then None else Some(SumTotales(s))
  }

  /** Python's `x or 0`: `None` and a zero decimal both give 0. */
  function OrZero(o: Option<int>): int {
    if o.None? || o.value == 0 then 0 else o.value
  }

  /**
   * `ventas_filtradas`: rebinds the queryset through the chain of conditional
   * `.filter` calls the valid form activates, then reports the sum of `total`.
   */
  method VentasFiltradas(db: Store, query: Option<FiltroInput>) returns (ventas: seq<Venta>, totalVentas: int)
    ensures ventas == FiltroResultado(db, query)
    ensures totalVentas == SumTotales(ventas)
    ensures ventas == [] ==> totalVentas == 0
  {
    var form := CleanFiltro(query, db.productos);
    ventas := db.ventas;
    if form.Some? {
      var f := form.value;
      var p := When(f.producto.Some?, ProductoIs(f.producto.GetOr(0)));
      var fi := When(f.fechaInicio.Some?, FechaDesde(f.fechaInicio.GetOr(Date(1, 1, 1))));
      var ff := When(f.fechaFin.Some?, FechaHasta(f.fechaFin.GetOr(Date(1, 1, 1))));
      var mn := When(f.precioMinimo.Some?, TotalDesde(f.precioMinimo.GetOr(0)));
      var mx := When(f.precioMaximo.Some?, TotalHasta(f.precioMaximo.GetOr(0)));
      var e := When(f.estado != "", EstadoIs(f.estado));
      FilteredNone(db.ventas);
      assert ventas == Filtered(db.ventas, []);
      if f.producto.Some? {
        assert p == [] + [ProductoIs(f.producto.value)];
        SelectExtends(db.ventas, [], ProductoIs(f.producto.value));
        ventas := Select(ventas, ProductoIs(f.producto.value));
      }
      assert ventas == Filtered(db.ventas, p);
      if f.fechaInicio.Some? {
        assert fi == [FechaDesde(f.fechaInicio.value)];
        SelectExtends(db.ventas, p, FechaDesde(f.fechaInicio.value));
        ventas := Select(ventas, FechaDesde(f.fechaInicio.value));
      } else {
        assert p + fi == p;
      }
      assert ventas == Filtered(db.ventas, p + fi);
      if f.fechaFin.Some? {
        assert ff == [FechaHasta(f.fechaFin.value)];
        SelectExtends(db.ventas, p + fi, FechaHasta(f.fechaFin.value));
        ventas := Select(ventas, FechaHasta(f.fechaFin.value));
      } else {
        assert p + fi + ff == p + fi;
      }
      assert ventas == Filtered(db.ventas, p + fi + ff);
      if f.precioMinimo.Some? {
        assert mn == [TotalDesde(f.precioMinimo.value)];
        SelectExtends(db.ventas, p + fi + ff, TotalDesde(f.precioMinimo.value));
        ventas := Select(ventas, TotalDesde(f.precioMinimo.value));
      } else {
        assert p + fi + ff + mn == p + fi + ff;
      }
      assert ventas == Filtered(db.ventas, p + fi + ff + mn);
      if f.precioMaximo.Some? {
        assert mx == [TotalHasta(f.precioMaximo.value)];
        SelectExtends(db.ventas, p + fi + ff + mn, TotalHasta(f.precioMaximo.value));
        ventas := Select(ventas, TotalHasta(f.precioMaximo.value));
      } else {
        assert p + fi + ff + mn + mx == p + fi + ff + mn;
      }
      assert ventas == Filtered(db.ventas, p + fi + ff + mn + mx);
      if f.estado != "" {
        SelectExtends(db.ventas, p + fi + ff + mn + mx, EstadoIs(f.estado));
        ventas := Select(ventas, EstadoIs(f.estado));
      } else {
        assert p + fi + ff + mn + mx + e == p + fi + ff + mn + mx;
      }
      assert ventas == Filtered(db.ventas, Active(f));
    }
    totalVentas := OrZero(AggregateSum(ventas));
  }

  /** The `is not None` test: a minimum of 0 drops a sale with a negative total. */
  lemma ZeroBoundStillFilters(v: Venta)
    requires v.total < 0
    ensures !Matches(NoCriteria.(precioMinimo := Some(0)), v)
    ensures Matches(NoCriteria.(precioMaximo := Some(0)), v)
  {
  }

  /** Both bounds are inclusive, for dates and for totals. */
  lemma BoundsInclusive(v: Venta)
    ensures Matches(FiltroCriteria(None, Some(v.fecha), Some(v.fecha), Some(v.total), Some(v.total), ""), v)
  {
  }

  // ---------------------------------------------------------------- estadisticas_ventas

  datatype Granularity = Month | Quarter

  function Trunc(g: Granularity, d: Date): Date {
    match g
    case Month => TruncMonth(d)
    case Quarter => TruncQuarter(d)
  }

  /** `annotate(mes=TruncMonth('fecha'))` (or the quarter): one (period, total) row per sale. */
  function PeriodRows(s: seq<Venta>, g: Granularity): (r: seq<Bucket<Date>>)
    ensures |r| == |s|
  {
    if s == [] then [] else [Bucket(Trunc(g, s[0].fecha), s[0].total)] + PeriodRows(s[1..], g)
  }

  /** The sum of the totals of the sales that fall in period `p`. */
  function PeriodTotal(s: seq<Venta>, g: Granularity, p: Date): int {
    if s == [] then 0
    else (if Trunc(g, s[0].fecha) == p then s[0].total else 0) + PeriodTotal(s[1..], g, p)
  }

  function Periods(s: seq<Venta>, g: Granularity): set<Date> {
    set i | 0 <= i < |s| :: Trunc(g, s[i].fecha)
  }

  /** Helper: the periods of a non-empty sequence of sales. */
  lemma PeriodsCons(s: seq<Venta>, g: Granularity)
    requires s != []
    ensures Periods(s, g) == {Trunc(g, s[0].fecha)} + Periods(s[1..], g)
  {
    forall x | x in Periods(s, g) ensures x in {Trunc(g, s[0].fecha)} + Periods(s[1..], g) {
      var i :| 0 <= i < |s| && Trunc(g, s[i].fecha) == x;
      if i > 0 { assert s[1..][i - 1] == s[i]; }
    }
    forall x | x in Periods(s[1..], g) ensures x in Periods(s, g) {
      var i :| 0 <= i < |s[1..]| && Trunc(g, s[1..][i].fecha) == x;
      assert s[i + 1] == s[1..][i];
    }
  }

  lemma {:induction false} PeriodRowsAgree(s: seq<Venta>, g: Granularity)
    ensures forall p :: SumFor(PeriodRows(s, g), p) == PeriodTotal(s, g, p)
    ensures Total(PeriodRows(s, g)) == SumTotales(s)
    ensures Keys(PeriodRows(s, g)) == Periods(s, g)
    ensures forall i :: 0 <= i < |s| ==> PeriodRows(s, g)[i].key == Trunc(g, s[i].fecha)
  {
    if s != [] {
      PeriodRowsAgree(s[1..], g);
      var r := PeriodRows(s, g);
      assert r[1..] == PeriodRows(s[1..], g);
      KeysCons(r[0], r[1..]);
      assert r == [r[0]] + r[1..];
      PeriodsCons(s, g);
      forall i | 0 < i < |s| ensures r[i].key == Trunc(g, s[i].fecha) {
        assert r[i] == PeriodRows(s[1..], g)[i - 1] && s[1..][i - 1] == s[i];
      }
    }
  }

  /**
   * `values(periodo).annotate(total=Sum('total'))`: one entry per distinct
   * period the sales fall in, each with the sum of that period's totals; the
   * entries add up to the sum of all totals.  No order is promised.
   */
  function TotalesPorPeriodo(s: seq<Venta>, g: Granularity): (r: seq<Bucket<Date>>)
    ensures DistinctKeys(r)
    ensures Keys(r) == Periods(s, g)
    ensures forall j :: 0 <= j < |r| ==> r[j].sum == PeriodTotal(s, g, r[j].key)
    ensures Total(r) == SumTotales(s)
  {
    var r := GroupSum(PeriodRows(s, g));
    PeriodRowsAgree(s, g);
    forall j | 0 <= j < |r| ensures r[j].sum == PeriodTotal(s, g, r[j].key) {
      GroupSumAt(PeriodRows(s, g), j);
    }
    r
  }

  /** Each sale falls into exactly one entry: the one for its truncated date. */
  lemma ExactlyOnePeriod(s: seq<Venta>, g: Granularity, i: nat)
    requires i < |s|
    ensures var r := TotalesPorPeriodo(s, g);
      exists j :: 0 <= j < |r| && r[j].key == Trunc(g, s[i].fecha)
    ensures var r := TotalesPorPeriodo(s, g);
      forall j, j' :: 0 <= j < |r| && 0 <= j' < |r| && r[j].key == Trunc(g, s[i].fecha) && r[j'].key == r[j].key ==> j == j'
  {
    var r := TotalesPorPeriodo(s, g);
    assert Trunc(g, s[i].fecha) in Periods(s, g);
    var b :| b in r && b.key == Trunc(g, s[i].fecha);
  }

  /** `estadisticas_ventas`: the monthly and the quarterly totals. */
  function EstadisticasVentas(db: Store): (r: (seq<Bucket<Date>>, seq<Bucket<Date>>))
    ensures Total(r.0) == SumTotales(db.ventas) && Total(r.1) == SumTotales(db.ventas)
    ensures DistinctKeys(r.0) && DistinctKeys(r.1)
    ensures Keys(r.0) == Periods(db.ventas, Month) && Keys(r.1) == Periods(db.ventas, Quarter)
    ensures forall j :: 0 <= j < |r.0| ==> r.0[j].sum == PeriodTotal(db.ventas, Month, r.0[j].key)
    ensures forall j :: 0 <= j < |r.1| ==> r.1[j].sum == PeriodTotal(db.ventas, Quarter, r.1[j].key)
    ensures db.Valid() ==> forall j :: 0 <= j < |r.0| ==> ValidDate(r.0[j].key) && r.0[j].key.day == 1
    ensures db.Valid() ==> forall j :: 0 <= j < |r.1| ==> ValidDate(r.1[j].key) && r.1[j].key.day == 1 && r.1[j].key.month in {1, 4, 7, 10}
  {
    var mensual := TotalesPorPeriodo(db.ventas, Month);
    var trimestral := TotalesPorPeriodo(db.ventas, Quarter);
    PeriodKeysAreStarts(db.ventas, Month);
    PeriodKeysAreStarts(db.ventas, Quarter);
    (mensual, trimestral)
  }

  /** Over real dates, every period key is a real date that starts its month or quarter. */
  lemma PeriodKeysAreStarts(s: seq<Venta>, g: Granularity)
    ensures var r := TotalesPorPeriodo(s, g);
      forall j :: 0 <= j < |r| ==> r[j].key.day == 1
    ensures var r := TotalesPorPeriodo(s, g);
      (forall i :: 0 <= i < |s| ==> ValidDate(s[i].fecha)) ==>
      forall j :: 0 <= j < |r| ==> ValidDate(r[j].key) && (g == Quarter ==> r[j].key.month in {1, 4, 7, 10})
  {
    var r := TotalesPorPeriodo(s, g);
    forall j | 0 <= j < |r| ensures r[j].key in Periods(s, g) {
      assert r[j] in r;
    }
  }

  /** Two sales dated 2024-01-05 and 2024-01-28, totals 100 and 50, give one January entry of 150. */
  lemma JanuaryExample(a: Venta, b: Venta)
    requires a.fecha == Date(2024, 1, 5) && a.total == 100
    requires b.fecha == Date(2024, 1, 28) && b.total == 50
    ensures TotalesPorPeriodo([a, b], Month) == [Bucket(Date(2024, 1, 1), 150)]
  {
    var jan := Date(2024, 1, 1);
    var rows := PeriodRows([a, b], Month);
    assert [a, b][1..] == [b] && [b][1..] == [];
    assert Trunc(Month, a.fecha) == jan && Trunc(Month, b.fecha) == jan;
    assert PeriodRows([b], Month) == [Bucket(jan, 50)];
    assert rows == [Bucket(jan, 100), Bucket(jan, 50)];
    assert rows[..1] == [Bucket(jan, 100)] && rows[..1][..0] == [];
    assert GroupSum(rows[..1]) == Accumulate([], Bucket(jan, 100)) == [Bucket(jan, 100)];
    assert GroupSum(rows) == Accumulate([Bucket(jan, 100)], Bucket(jan, 50));
    assert [Bucket(jan, 100)][1..] == [];
  }

  // ---------------------------------------------------------------- productos_mas_vendidos

  /** `values('producto__nombre')`: one (product name, cantidad) row per sale. */
  function NameRows(s: seq<Venta>, productos: map<nat, Producto>): (r: seq<Bucket<string>>)
    requires References(productos, s)
    ensures |r| == |s|
  {
    if s == [] then []
    else
      assert s[0].producto in productos;
      assert References(productos, s[1..]) by {
        forall i | 0 <= i < |s[1..]| ensures s[1..][i].producto in productos {
          assert s[1..][i] == s[i + 1];
        }
      }
      [Bucket(productos[s[0].producto].nombre, s[0].cantidad)] + NameRows(s[1..], productos)
  }

  /** The quantity sold of products called `nombre`, whatever their ids. */
  function QuantityFor(s: seq<Venta>, productos: map<nat, Producto>, nombre: string): int
    requires References(productos, s)
  {
    if s == [] then 0
    else
      assert s[0].producto in productos;
      assert References(productos, s[1..]) by {
        forall i | 0 <= i < |s[1..]| ensures s[1..][i].producto in productos {
          assert s[1..][i] == s[i + 1];
        }
      }
      (if productos[s[0].producto].nombre == nombre then s[0].cantidad else 0) + QuantityFor(s[1..], productos, nombre)
  }

  function Names(s: seq<Venta>, productos: map<nat, Producto>): set<string>
    requires References(productos, s)
  {
    set i | 0 <= i < |s| :: productos[s[i].producto].nombre
  }

  lemma {:induction false} NameRowsAgree(s: seq<Venta>, productos: map<nat, Producto>)
    requires References(productos, s)
    ensures forall n :: SumFor(NameRows(s, productos), n) == QuantityFor(s, productos, n)
    ensures Keys(NameRows(s, productos)) == Names(s, productos)
  {
    if s != [] {
      assert References(productos, s[1..]) by {
        forall i | 0 <= i < |s[1..]| ensures s[1..][i].producto in productos {
          assert s[1..][i] == s[i + 1];
        }
      }
      NameRowsAgree(s[1..], productos);
      var r := NameRows(s, productos);
      assert r[1..] == NameRows(s[1..], productos);
      KeysCons(r[0], r[1..]);
      assert r == [r[0]] + r[1..];
      assert Names(s, productos) == {productos[s[0].producto].nombre} + Names(s[1..], productos) by {
        forall x | x in Names(s, productos) ensures x in {productos[s[0].producto].nombre} + Names(s[1..], productos) {
          var i :| 0 <= i < |s| && productos[s[i].producto].nombre == x;
          if i > 0 { assert s[1..][i - 1] == s[i]; }
        }
        forall x | x in Names(s[1..], productos) ensures x in Names(s, productos) {
          var i :| 0 <= i < |s[1..]| && productos[s[1..][i].producto].nombre == x;
          assert s[i + 1] == s[1..][i];
        }
      }
    }
  }

  /**
   * The query of `productos_mas_vendidos`: one entry per distinct product NAME
   * (two products sharing a name share an entry), holding the summed
   * `cantidad`, ordered by that sum, largest first.  Ties keep the order in
   * which the names first appear; the database promises no tie order.
   */
  function ProductosMasVendidos(db: Store): (r: seq<Bucket<string>>)
    requires References(db.productos, db.ventas)
    ensures NonIncreasing(r)
    ensures DistinctKeys(r)
    ensures Keys(r) == Names(db.ventas, db.productos)
    ensures forall j :: 0 <= j < |r| ==> r[j].sum == QuantityFor(db.ventas, db.productos, r[j].key)
  {
    var rows := NameRows(db.ventas, db.productos);
    var g := GroupSum(rows);
    var r := SortBySumDesc(g);
    NameRowsAgree(db.ventas, db.productos);
    forall j | 0 <= j < |r| ensures r[j].sum == QuantityFor(db.ventas, db.productos, r[j].key) {
      SortKeepsGroups(g, r[j]);
      assert r[j] in r;
      var k :| 0 <= k < |g| && g[k] == r[j];
      GroupSumAt(rows, k);
    }
    r
  }

  /**
   * Quantities 3 and 5 of products named "A" (two different products that share
   * the name) and 2 of product "B" give "A" with 8 before "B" with 2.
   */
  lemma TopProductsExample(x: Venta, y: Venta, z: Venta, fecha: Date)
    requires x == Venta(0, 0, 3, fecha, 0, Pendiente)
    requires y == Venta(1, 1, 2, fecha, 0, Pendiente)
    requires z == Venta(2, 2, 5, fecha, 0, Pendiente)
    ensures var db := Store(map[0 := Producto("A", 100), 1 := Producto("B", 100), 2 := Producto("A", 250)], [x, y, z], 3, 3);
      ProductosMasVendidos(db) == [Bucket("A", 8), Bucket("B", 2)]
  {
    var productos := map[0 := Producto("A", 100), 1 := Producto("B", 100), 2 := Producto("A", 250)];
    TopProductsRows(x, y, z, fecha, productos);
    TopProductsGroups();
    TopProductsSorted();
  }

  /** Helper: the example's one row per sale, named by product. */
  lemma TopProductsRows(x: Venta, y: Venta, z: Venta, fecha: Date, productos: map<nat, Producto>)
    requires x == Venta(0, 0, 3, fecha, 0, Pendiente)
    requires y == Venta(1, 1, 2, fecha, 0, Pendiente)
    requires z == Venta(2, 2, 5, fecha, 0, Pendiente)
    requires productos == map[0 := Producto("A", 100), 1 := Producto("B", 100), 2 := Producto("A", 250)]
    ensures NameRows([x, y, z], productos) == [Bucket("A", 3), Bucket("B", 2), Bucket("A", 5)]
  {
    assert [x, y, z][1..] == [y, z] && [y, z][1..] == [z] && [z][1..] == [];
    assert NameRows([z], productos) == [Bucket("A", 5)];
    assert NameRows([y, z], productos) == [Bucket("B", 2), Bucket("A", 5)];
  }

  /** Helper: the example's rows grouped by name. */
  lemma TopProductsGroups()
    ensures GroupSum([Bucket("A", 3), Bucket("B", 2), Bucket("A", 5)]) == [Bucket("A", 8), Bucket("B", 2)]
  {
    var a3, b2, a5 := Bucket("A", 3), Bucket("B", 2), Bucket("A", 5);
    var rows := [a3, b2, a5];
    assert rows[..1] == [a3] && rows[..2] == [a3, b2] && rows[..1][..0] == [] && rows[..2][..1] == [a3];
    assert GroupSum(rows[..1]) == [a3];
    assert [a3][1..] == [];
    assert GroupSum(rows[..2]) == Accumulate([a3], b2) == [a3, b2];
    assert [a3, b2][1..] == [b2];
    assert GroupSum(rows) == Accumulate([a3, b2], a5) == [Bucket("A", 8), b2];
  }

  /** Helper: the example's groups ordered largest first. */
  lemma TopProductsSorted()
    ensures SortBySumDesc([Bucket("A", 8), Bucket("B", 2)]) == [Bucket("A", 8), Bucket("B", 2)]
  {
    var a8, b2 := Bucket("A", 8), Bucket("B", 2);
    assert [a8, b2][1..] == [b2] && [b2][1..] == [];
    assert SortBySumDesc([b2]) == Insert(b2, []) == [b2];
    assert SortBySumDesc([a8, b2]) == Insert(a8, [b2]) == [a8, b2];
  }
}
