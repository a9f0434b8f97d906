/**
 * The three forms: `ProductoForm`, `VentaForm` (fields producto, cantidad, fecha,
 * total) and `FiltroVentasForm` (six optional criteria).  A submitted field is an
 * `Entry`: left blank, given as a value of the field's type, or text the field
 * cannot parse.  Cleaning a form yields its `cleaned_data`, or `None` when
 * `is_valid()` is false.
 */
module Forms {
  import opened Wrappers
  import opened Dates
  import opened Models

  datatype Entry<T> = Blank | Given(value: T) | Unparseable

  /** A decimal as typed: `unscaled / 10^places` (so "19.99" is DecimalInput(1999, 2)). */
  datatype DecimalInput = DecimalInput(unscaled: int, places: nat)

  /** `decimal_places=2`. */
  const DecimalPlaces := 2

  function TenTo(n: nat): (r: nat)
    ensures r >= 1
  {
    if n == 0 then 1 else 10 * TenTo(n - 1)
  }

  /** The decimal's value in cents; exact because it has at most two decimal places. */
  function Cents(d: DecimalInput): (r: int)
    requires d.places <= DecimalPlaces
    ensures r * TenTo(d.places) == d.unscaled * 100
  {
    if d.places == 0 then d.unscaled * 100
    else if d.places == 1 then d.unscaled * 10
    else d.unscaled
  }

  /**
   * `DecimalField(max_digits=10, decimal_places=2)`: at most two digits after the
   * point, and at most 10 - 2 = 8 before it.
   */
  predicate ValidDecimal(d: DecimalInput) {
    d.places <= DecimalPlaces && FitsDecimalField(Cents(d))
  }

  /** A decimal with more than two places is refused even when its value would fit ("1.500"). */
  lemma ThreePlacesRefused()
    ensures !ValidDecimal(DecimalInput(1500, 3))
    ensures ValidDecimal(DecimalInput(150, 2))
  {
  }

  /** The bound in whole digits: 99999999.99 is the largest value the field admits. */
  lemma LargestDecimal()
    ensures ValidDecimal(DecimalInput(9999999999, 2))
    ensures !ValidDecimal(DecimalInput(100000000, 0))
  {
  }

  // ---------------------------------------------------------------- ProductoForm

  datatype ProductoInput = ProductoInput(nombre: string, precio: Entry<DecimalInput>)

  /**
   * `ProductoForm` (fields nombre, precio): both required, with the model's limits;
   * a form `CharField` also refuses the NUL character.
   */
  function CleanProducto(i: ProductoInput): (r: Option<Producto>)
    ensures r.Some? <==> 0 < |i.nombre| <= NombreMaxLength && '\0' !in i.nombre && i.precio.Given? && ValidDecimal(i.precio.value)
    ensures r.Some? ==> ValidProducto(r.value) && r.value.nombre == i.nombre && '\0' !in r.value.nombre
    ensures r.Some? ==> r.value.precio * TenTo(i.precio.value.places) == i.precio.value.unscaled * 100
  {
    if 0 < |i.nombre| <= NombreMaxLength && '\0' !in i.nombre && i.precio.Given? && ValidDecimal(i.precio.value)
    then Some(Producto(i.nombre, Cents(i.precio.value)))
    else None
  }

  // ---------------------------------------------------------------- VentaForm

  /** The four fields of `VentaForm`; `estado` is not among them. */
  datatype VentaInput = VentaInput(producto: Entry<nat>, cantidad: Entry<int>, fecha: Entry<Date>, total: Entry<DecimalInput>)

  datatype VentaData = VentaData(producto: nat, cantidad: nat, fecha: Date, total: int)

  predicate ProductoChosen(e: Entry<nat>, productos: map<nat, Producto>) {
    e.Given? && e.value in productos
  }

  /**
   * The largest `PositiveIntegerField` value the SQLite backend admits (a signed
   * 64-bit integer); the model form enforces it on validation.
   */
  const MaxCantidad: int := 9_223_372_036_854_775_807

  /** `PositiveIntegerField`'s form field has `min_value=0`, and the backend's range caps it. */
  predicate CantidadGiven(e: Entry<int>) {
    e.Given? && 0 <= e.value <= MaxCantidad
  }

  predicate FechaGiven(e: Entry<Date>) {
    e.Given? && ValidDate(e.value)
  }

  predicate DecimalGiven(e: Entry<DecimalInput>) {
    e.Given? && ValidDecimal(e.value)
  }

  /**
   * `VentaForm.is_valid()` and its cleaned data.  Every field is required: the
   * product must exist, the quantity must be a non-negative integer (0 is
   * admitted), the date a real date and the submitted total a valid decimal,
   * although the write path later overwrites it.
   */
  function CleanVenta(i: VentaInput, productos: map<nat, Producto>): (r: Option<VentaData>)
    ensures r.Some? <==> ProductoChosen(i.producto, productos) && CantidadGiven(i.cantidad) && FechaGiven(i.fecha) && DecimalGiven(i.total)
    ensures r.Some? ==> r.value.producto in productos && ValidDate(r.value.fecha) && FitsDecimalField(r.value.total)
    ensures r.Some? ==> r.value.producto == i.producto.value && r.value.cantidad == i.cantidad.value && r.value.fecha == i.fecha.value
  {
    if ProductoChosen(i.producto, productos) && CantidadGiven(i.cantidad) && FechaGiven(i.fecha) && DecimalGiven(i.total)
    then Some(VentaData(i.producto.value, i.cantidad.value, i.fecha.value, Cents(i.total.value)))
    else None
  }

  /**
   * `form.save(commit=False)`: the unsaved instance carries the submitted total,
   * and its `estado` is the model default because the form has no such field.
   */
  function Unsaved(d: VentaData, id: nat): (v: Venta)
    ensures v.estado == Pendiente
    ensures v.total == d.total && v.producto == d.producto && v.cantidad == d.cantidad && v.fecha == d.fecha && v.id == id
  {
    NewVenta(id, d.producto, d.cantidad, d.fecha, d.total, None)
  }

  /** A quantity of 0 passes validation: the field does not demand at least one unit. */
  lemma ZeroQuantityAccepted(productos: map<nat, Producto>, id: nat, fecha: Date)
    requires id in productos && ValidDate(fecha)
    ensures CleanVenta(VentaInput(Given(id), Given(0), Given(fecha), Given(DecimalInput(0, 0))), productos).Some?
  {
  }

  /** A quantity beyond the backend's integer range, or a name with a NUL character, is refused. */
  lemma FormRangeRefused(productos: map<nat, Producto>, id: nat, fecha: Date)
    ensures CleanVenta(VentaInput(Given(id), Given(MaxCantidad + 1), Given(fecha), Given(DecimalInput(0, 0))), productos).None?
    ensures CleanProducto(ProductoInput("a\0b", Given(DecimalInput(100, 2)))).None?
  {
  }

  // ---------------------------------------------------------------- FiltroVentasForm

  /** The raw criteria; a missing `estado` arrives as "". */
  datatype FiltroInput = FiltroInput(
    producto: Entry<nat>,
    fechaInicio: Entry<Date>,
    fechaFin: Entry<Date>,
    precioMinimo: Entry<DecimalInput>,
    precioMaximo: Entry<DecimalInput>,
    estado: string)

  /** A submission that leaves every criterion empty. */
  const BlankFiltro := FiltroInput(Blank, Blank, Blank, Blank, Blank, "")

  /** The cleaned criteria; bounds in cents, `estado` "" for "no status". */
  datatype FiltroCriteria = FiltroCriteria(
    producto: Option<nat>,
    fechaInicio: Option<Date>,
    fechaFin: Option<Date>,
    precioMinimo: Option<int>,
    precioMaximo: Option<int>,
    estado: string)

  const NoCriteria := FiltroCriteria(None, None, None, None, None, "")

  /** `[('', '------')] + Venta.ESTADO_CHOICES`. */
  predicate EstadoChoice(s: string) {
    s == "" || ParseEstado(s).Some?
  }

  predicate OptionalProducto(e: Entry<nat>, productos: map<nat, Producto>) {
    e.Blank? || ProductoChosen(e, productos)
  }

  predicate OptionalFecha(e: Entry<Date>) {
    e.Blank? || FechaGiven(e)
  }

  predicate OptionalDecimal(e: Entry<DecimalInput>) {
    e.Blank? || DecimalGiven(e)
  }

  function GivenOrNone<T>(e: Entry<T>): (r: Option<T>)
    ensures r.Some? <==> e.Given?
    ensures r.Some? ==> r.value == e.value
  {
    if e.Given? then Some(e.value) else None
  }

  function OptionalCents(e: Entry<DecimalInput>): (r: Option<int>)
    requires OptionalDecimal(e)
    ensures r.Some? <==> e.Given?
    ensures r.Some? ==> FitsDecimalField(r.value) && r.value * TenTo(e.value.places) == e.value.unscaled * 100
  {
    if e.Given? then Some(Cents(e.value)) else None
  }

  predicate FiltroAcceptable(i: FiltroInput, productos: map<nat, Producto>) {
    && OptionalProducto(i.producto, productos)
    && OptionalFecha(i.fechaInicio)
    && OptionalFecha(i.fechaFin)
    && OptionalDecimal(i.precioMinimo)
    && OptionalDecimal(i.precioMaximo)
    && EstadoChoice(i.estado)
  }

  /**
   * `FiltroVentasForm(request.GET or None).is_valid()` and its cleaned data.
   * `query` is `None` when the query string is empty: the form is then unbound,
   * and an unbound form is never valid.  Every criterion is optional.
   */
  function CleanFiltro(query: Option<FiltroInput>, productos: map<nat, Producto>): (r: Option<FiltroCriteria>)
    ensures query.None? ==> r.None?
    ensures query.Some? ==> (r.Some? <==> FiltroAcceptable(query.value, productos))
    ensures r.Some? ==> var c := r.value;
      && (c.producto.Some? ==> c.producto.value in productos)
      && (c.fechaInicio.Some? ==> ValidDate(c.fechaInicio.value))
      && (c.fechaFin.Some? ==> ValidDate(c.fechaFin.value))
      && (c.precioMinimo.Some? ==> FitsDecimalField(c.precioMinimo.value))
      && (c.precioMaximo.Some? ==> FitsDecimalField(c.precioMaximo.value))
      && (c.estado == "" || ParseEstado(c.estado).Some?)
    ensures r.Some? ==> var i := query.value; var c := r.value;
      && (c.producto.Some? <==> i.producto.Given?)
      && (c.fechaInicio.Some? <==> i.fechaInicio.Given?)
      && (c.fechaFin.Some? <==> i.fechaFin.Given?)
      && (c.precioMinimo.Some? <==> i.precioMinimo.Given?)
      && (c.precioMaximo.Some? <==> i.precioMaximo.Given?)
      && (c.producto.Some? ==> c.producto.value == i.producto.value)
      && (c.fechaInicio.Some? ==> c.fechaInicio.value == i.fechaInicio.value)
      && (c.fechaFin.Some? ==> c.fechaFin.value == i.fechaFin.value)
      && (c.precioMinimo.Some? ==> c.precioMinimo.value * TenTo(i.precioMinimo.value.places) == i.precioMinimo.value.unscaled * 100)
      && (c.precioMaximo.Some? ==> c.precioMaximo.value * TenTo(i.precioMaximo.value.places) == i.precioMaximo.value.unscaled * 100)
      && c.estado == i.estado
  {
    if query.None? || !FiltroAcceptable(query.value, productos) then None
    else
      var i := query.value;
      Some(FiltroCriteria(
        GivenOrNone(i.producto),
        GivenOrNone(i.fechaInicio),
        GivenOrNone(i.fechaFin),
        OptionalCents(i.precioMinimo),
        OptionalCents(i.precioMaximo),
        i.estado))
  }

  /** A submitted form with every criterion empty is valid and imposes nothing. */
  lemma BlankFiltroValid(productos: map<nat, Producto>)
    ensures CleanFiltro(Some(BlankFiltro), productos) == Some(NoCriteria)
  {
  }

  /** A status outside the choices, or a product not in the catalog, makes the form invalid. */
  lemma FiltroRejects(productos: map<nat, Producto>, id: nat)
    requires id !in productos
    ensures CleanFiltro(Some(BlankFiltro.(estado := "enviada")), productos).None?
    ensures CleanFiltro(Some(BlankFiltro.(producto := Given(id))), productos).None?
  {
  }
}
