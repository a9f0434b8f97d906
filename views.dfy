/**
 * The state-changing views: `agregar_producto`, `agregar_venta` (the write path
 * with its cache invalidation) and the read-through cache of `lista_ventas`, over
 * an in-memory database and a single-key cache.
 */
module Views {
  import opened Wrappers
  import opened Dates
  import opened Models
  import opened Forms

  /** The process-wide cache as the views use it: the one key 'ventas_list'. */
  class ListingCache {
    var entry: Option<seq<Venta>>

    constructor ()
      ensures entry == None
    {
      entry := None;
    }

    /** `cache.get('ventas_list')`: `None` on a miss. */
    method Get() returns (v: Option<seq<Venta>>)
      ensures v == entry
    {
      v := entry;
    }

    /** `cache.set('ventas_list', l, timeout=60*15)`. */
    method Set(l: seq<Venta>)
      modifies this
      ensures entry == Some(l)
    {
      entry := Some(l);
    }

    /** `cache.delete('ventas_list')`; also what the key's expiry amounts to. */
    method Delete()
      modifies this
      ensures entry == None
    {
      entry := None;
    }
  }

  /** `not ventas_list` is false: a value is cached and it is not an empty list. */
  predicate Truthy(entry: Option<seq<Venta>>) {
    entry.Some? && entry.value != []
  }

  /**
   * One `lista_ventas` read: the listing it shows and the cache entry it leaves.
   * A truthy cached value is served as is; a miss or a falsy value recomputes
   * the listing from all sales and stores it.
   */
  function ReadThrough(entry: Option<seq<Venta>>, ventas: seq<Venta>): (seq<Venta>, Option<seq<Venta>>) {
    if Truthy(entry) then (entry.value, entry) else (ventas, Some(ventas))
  }

  /** A hit on a non-empty cached listing returns it unchanged and leaves the cache alone, even if the table has changed. */
  lemma ReadHit(cached: seq<Venta>, ventas: seq<Venta>)
    requires cached != []
    ensures ReadThrough(Some(cached), ventas) == (cached, Some(cached))
  {
  }

  /** A miss, or a cached empty list, recomputes from all sales and stores the result. */
  lemma ReadMiss(entry: Option<seq<Venta>>, ventas: seq<Venta>)
    requires entry.None? || entry == Some([])
    ensures ReadThrough(entry, ventas) == (ventas, Some(ventas))
  {
  }

  /** Two reads with no write in between show the same listing, and the second changes nothing. */
  lemma ReadIdempotent(entry: Option<seq<Venta>>, ventas: seq<Venta>)
    ensures var (l1, e1) := ReadThrough(entry, ventas);
      ReadThrough(e1, ventas) == (l1, e1)
  {
  }

  /** When the entry is absent or equal to the table, every read shows the current table. */
  lemma ReadCoherent(entry: Option<seq<Venta>>, ventas: seq<Venta>)
    requires entry.None? || entry == Some(ventas)
    ensures ReadThrough(entry, ventas) == (ventas, Some(ventas))
  {
  }

  /**
   * The sale `agregar_venta` persists for a submission, if the form is valid:
   * the checked fields, total = product price x quantity whatever total was
   * submitted, status `pendiente`, and the next primary key.
   */
  function SaleFromForm(db: Store, input: VentaInput): (r: Option<Venta>)
    ensures r.Some? <==> CleanVenta(input, db.productos).Some?
    ensures r.Some? ==> var v := r.value;
      && v.producto in db.productos
      && v.total == db.productos[v.producto].precio * v.cantidad
      && v.estado == Pendiente
      && v.id == db.nextVenta
      && v.producto == input.producto.value && v.cantidad == input.cantidad.value && v.fecha == input.fecha.value
  {
    var form := CleanVenta(input, db.productos);
    if form.None? then None
    else
      var d := form.value;
      Some(Venta(db.nextVenta, d.producto, d.cantidad, d.fecha, db.productos[d.producto].precio * d.cantidad, DefaultEstado))
  }

  /** The submitted total has no effect on the saved sale, as long as it passes validation. */
  lemma SubmittedTotalIgnored(db: Store, input: VentaInput, other: DecimalInput)
    requires ValidDecimal(other) && DecimalGiven(input.total)
    ensures SaleFromForm(db, input.(total := Given(other))) == SaleFromForm(db, input)
  {
  }

  /** The app's state: the database and the listing cache. */
  class VentasApp {
    var db: Store
    const cache: ListingCache

    ghost predicate Valid()
      reads this
    {
      db.Valid()
    }

    /** The cached listing, when there is one, is the current table. */
    ghost predicate ListingCoherent()
      reads this, cache
    {
      cache.entry.None? || cache.entry == Some(db.ventas)
    }

    constructor ()
      ensures Valid() && db == EmptyStore
      ensures fresh(cache) && cache.entry == None
    {
      db := EmptyStore;
      cache := new ListingCache();
    }

    /** `agregar_producto`: save a valid product under the next primary key; an invalid form saves nothing. */
    method AgregarProducto(input: ProductoInput) returns (id: Option<nat>)
      requires Valid()
      modifies this
      ensures Valid()
      ensures CleanProducto(input).None? ==> id.None? && db == old(db)
      ensures CleanProducto(input).Some? ==>
        && id == Some(old(db.nextProducto))
        && db == old(db).(productos := old(db.productos)[old(db.nextProducto) := CleanProducto(input).value],
                          nextProducto := old(db.nextProducto) + 1)
      ensures old(ListingCoherent()) ==> ListingCoherent()
    {
      var form := CleanProducto(input);
      if form.None? {
        id := None;
        return;
      }
      id := Some(db.nextProducto);
      db := db.(productos := db.productos[db.nextProducto := form.value], nextProducto := db.nextProducto + 1);
    }

    /**
     * `agregar_venta`: for a valid form, take the unsaved instance, overwrite its
     * total with price x quantity, save it, then delete the cached listing.  An
     * invalid form saves nothing and leaves the cache as it was.
     */
    method AgregarVenta(input: VentaInput) returns (saved: Option<Venta>)
      requires Valid()
      modifies this, cache
      ensures Valid()
      ensures saved == SaleFromForm(old(db), input)
      ensures saved.None? ==> db == old(db) && cache.entry == old(cache.entry)
      ensures saved.Some? ==>
        && db == old(db).(ventas := old(db.ventas) + [saved.value], nextVenta := old(db.nextVenta) + 1)
        && cache.entry == None
      ensures saved.Some? ==> ListingCoherent()
    {
      var form := CleanVenta(input, db.productos);
      if form.None? {
        saved := None;
        return;
      }
      var venta := Unsaved(form.value, db.nextVenta);
      var producto := db.productos[venta.producto];
      venta := venta.(total := producto.precio * venta.cantidad);
      db := db.(ventas := db.ventas + [venta], nextVenta := db.nextVenta + 1);
      cache.Delete();
      saved := Some(venta);
    }

    /** `lista_ventas` before pagination: the read-through listing. */
    method ListaVentas() returns (listing: seq<Venta>)
      modifies cache
      ensures (listing, cache.entry) == ReadThrough(old(cache.entry), db.ventas)
      ensures old(ListingCoherent()) ==> listing == db.ventas && ListingCoherent()
    {
      var cached := cache.Get();
      if !Truthy(cached) {
        listing := db.ventas;
        cache.Set(listing);
      } else {
        listing := cached.value;
      }
    }

    /** The 15-minute timeout elapsing, as an event: the key is gone. */
    method ExpireCache()
      modifies cache
      ensures cache.entry == None && ListingCoherent()
    {
      cache.Delete();
    }

    /**
     * Deleting a product, by a deletion made outside these views: the database
     * cascades, but nothing deletes the cached listing.
     */
    method EliminarProducto(id: nat)
      requires Valid()
      modifies this
      ensures Valid()
      ensures db == DeleteProducto(old(db), id)
      ensures cache.entry == old(cache.entry)
    {
      db := DeleteProducto(db, id);
    }
  }

  /**
   * A cascading delete within the cache's lifetime leaves the listing showing
   * the deleted sale: the 'ventas_list' key is deleted only by the sale write path.
   */
  lemma CascadeKeepsCachedListing(v: Venta)
    requires v == Venta(1, 1, 3, Date(2024, 1, 5), 5997, Pendiente)
    ensures var before := Store(map[1 := Producto("Widget", 1999)], [v], 2, 2);
      var after := DeleteProducto(before, 1);
      after.ventas == [] && ReadThrough(Some(before.ventas), after.ventas).0 == [v]
  {
    var before := Store(map[1 := Producto("Widget", 1999)], [v], 2, 2);
    var after := DeleteProducto(before, 1);
    assert after.ventas == [];
  }

  /**
   * "Widget" at 19.99, sold three times with a bogus submitted total, is saved
   * with total 59.97 and status pendiente; a second sale made while the listing
   * is cached shows up on the next read.
   */
  method WidgetScenario() returns (venta: Venta, listing: seq<Venta>)
    ensures venta.total == 5997 && venta.estado == Pendiente && venta.cantidad == 3
    ensures venta in listing && |listing| == 2
  {
    var app := new VentasApp();
    var p := app.AgregarProducto(ProductoInput("Widget", Given(DecimalInput(1999, 2))));
    assert p == Some(1);
    var first := app.AgregarVenta(VentaInput(Given(1), Given(1), Given(Date(2024, 1, 5)), Given(DecimalInput(1999, 2))));
    var cachedListing := app.ListaVentas();
    assert cachedListing == [first.value] && Truthy(app.cache.entry);
    var second := app.AgregarVenta(VentaInput(Given(1), Given(3), Given(Date(2024, 1, 6)), Given(DecimalInput(0, 0))));
    venta := second.value;
    listing := app.ListaVentas();
    assert listing == [first.value, venta];
  }
}
