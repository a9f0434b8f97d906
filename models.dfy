/**
 * The two records of the sales app, `Producto` and `Venta`, their field rules,
 * and the database that holds them.  Money (`precio`, `total`) is kept in integer
 * cents, which is exact for `DecimalField(max_digits=10, decimal_places=2)`.
 */
module Models {
  import opened Wrappers
  import opened Dates
  import opened Sequences

  /** The three `ESTADO_CHOICES` of a sale. */
  datatype Estado = Completada | Pendiente | Cancelada

  /** The value stored in the `estado` column for each choice. */
  function Code(e: Estado): string {
    match e
    case Completada => "completada"
    case Pendiente => "pendiente"
    case Cancelada => "cancelada"
  }

  /** The choice a stored `estado` value stands for, if any. */
  function ParseEstado(s: string): (r: Option<Estado>)
    ensures r.Some? ==> Code(r.value) == s
    ensures r.None? ==> forall e: Estado :: Code(e) != s
  {
    if s == "completada" then Some(Completada)
    else if s == "pendiente" then Some(Pendiente)
    else if s == "cancelada" then Some(Cancelada)
    else None
  }

  /** Every stored status reads back as itself, so the column always holds one of the three codes. */
  lemma ParseCode(e: Estado)
    ensures ParseEstado(Code(e)) == Some(e)
  {
  }

  /** `default='pendiente'`. */
  const DefaultEstado: Estado := Pendiente

  /** `max_length=100` on `Producto.nombre`. */
  const NombreMaxLength := 100

  /** At most 10 digits, 2 of them after the point: |cents| < 10^10. */
  const CentsBound: int := 10_000_000_000

  predicate FitsDecimalField(cents: int) {
    -CentsBound < cents < CentsBound
  }

  /** A catalog entry; `precio` is in cents.  The app enforces no sign on it. */
  datatype Producto = Producto(nombre: string, precio: int)

  predicate ValidProducto(p: Producto) {
    0 < |p.nombre| <= NombreMaxLength && FitsDecimalField(p.precio)
  }

  /**
   * A sale.  `producto` is the foreign key (the referenced product's id);
   * `cantidad` is a `PositiveIntegerField`, which admits 0; `total` is in cents.
   */
  datatype Venta = Venta(id: nat, producto: nat, cantidad: nat, fecha: Date, total: int, estado: Estado)

  /** A `Venta` built with `estado` given or left to its default. */
  function NewVenta(id: nat, producto: nat, cantidad: nat, fecha: Date, total: int, estado: Option<Estado>): (v: Venta)
    ensures estado.None? ==> v.estado == Pendiente
    ensures estado.Some? ==> v.estado == estado.value
    ensures v.id == id && v.producto == producto && v.cantidad == cantidad && v.fecha == fecha && v.total == total
  {
    Venta(id, producto, cantidad, fecha, total, estado.GetOr(DefaultEstado))
  }

  /** Every sale's foreign key resolves to a product of the catalog. */
  predicate References(productos: map<nat, Producto>, ventas: seq<Venta>) {
    forall i :: 0 <= i < |ventas| ==> ventas[i].producto in productos
  }

  /**
   * The database: products by primary key, sales in table order, and the next
   * primary key of each table.  SQLite hands out keys from 1 upwards and does
   * not reuse the largest one.
   */
  datatype Store = Store(productos: map<nat, Producto>, ventas: seq<Venta>, nextProducto: nat, nextVenta: nat) {

    ghost predicate Valid() {
      && (forall id :: id in productos ==> id < nextProducto && ValidProducto(productos[id]))
      && References(productos, ventas)
      && (forall i :: 0 <= i < |ventas| ==> ventas[i].id < nextVenta && ValidDate(ventas[i].fecha))
      && (forall i, j :: 0 <= i < j < |ventas| ==> ventas[i].id != ventas[j].id)
    }
  }

  const EmptyStore := Store(map[], [], 1, 1)

  /** The sales that survive deleting product `id`. */
  function NotReferencing(id: nat): Venta -> bool {
    (v: Venta) => v.producto != id
  }

  /**
   * Deleting a product (`on_delete=models.CASCADE`): the product goes, and so does
   * every sale that references it; nothing else changes.
   */
  function DeleteProducto(s: Store, id: nat): (r: Store)
    ensures r.productos.Keys == s.productos.Keys - {id}
    ensures forall k :: k in r.productos ==> r.productos[k] == s.productos[k]
    ensures forall v :: v in r.ventas <==> v in s.ventas && v.producto != id
    ensures Subsequence(r.ventas, s.ventas)
    ensures r.nextProducto == s.nextProducto && r.nextVenta == s.nextVenta
    ensures s.Valid() ==> r.Valid()
  {
    var ventas := Filter(s.ventas, NotReferencing(id));
    FilterIsSubsequence(s.ventas, NotReferencing(id));
    var r := Store(s.productos - {id}, ventas, s.nextProducto, s.nextVenta);
    assert s.Valid() ==> r.Valid() by {
      if s.Valid() {
        SubsequenceKeeps(ventas, s.ventas, s);
        forall i | 0 <= i < |ventas| ensures ventas[i].producto in r.productos {
          assert ventas[i] in ventas;
          var k :| 0 <= k < |s.ventas| && s.ventas[k] == ventas[i];
        }
      }
    }
    r
  }

  /** Helper: a subsequence of a valid database's sales keeps distinct ids and valid dates. */
  lemma {:induction false} SubsequenceKeeps(a: seq<Venta>, b: seq<Venta>, s: Store)
    requires Subsequence(a, b)
    requires forall i :: 0 <= i < |b| ==> b[i].id < s.nextVenta && ValidDate(b[i].fecha)
    requires forall i, j :: 0 <= i < j < |b| ==> b[i].id != b[j].id
    ensures forall i :: 0 <= i < |a| ==> a[i].id < s.nextVenta && ValidDate(a[i].fecha)
    ensures forall i, j :: 0 <= i < j < |a| ==> a[i].id != a[j].id
    decreases |b|
  {
    if a != [] && b != [] {
      if a[0] == b[0] {
        SubsequenceKeeps(a[1..], b[1..], s);
        SubsequenceMembers(a[1..], b[1..]);
        forall j | 0 < j < |a| ensures a[0].id != a[j].id {
          assert a[j] == a[1..][j - 1];
          assert a[j] in b[1..];
          var k :| 0 <= k < |b[1..]| && b[1..][k] == a[j];
          assert b[k + 1] == a[j];
        }
        forall i, j | 0 <= i < j < |a| ensures a[i].id != a[j].id {
          if i > 0 {
            assert a[i] == a[1..][i - 1] && a[j] == a[1..][j - 1];
          }
        }
        forall i | 0 <= i < |a| ensures a[i].id < s.nextVenta && ValidDate(a[i].fecha) {
          if i > 0 {
            assert a[i] == a[1..][i - 1];
          }
        }
      } else {
        SubsequenceKeeps(a, b[1..], s);
      }
    }
  }

  /** Helper: every element of a subsequence is an element of the sequence. */
  lemma {:induction false} SubsequenceMembers<T>(a: seq<T>, b: seq<T>)
    requires Subsequence(a, b)
    ensures forall x :: x in a ==> x in b
    decreases |b|
  {
    if a != [] && b != [] {
      if a[0] == b[0] {
        SubsequenceMembers(a[1..], b[1..]);
        assert forall x :: x in a ==> x == a[0] || x in a[1..];
      } else {
        SubsequenceMembers(a, b[1..]);
      }
    }
  }

  /** Deleting a product removes exactly the sales that reference it and keeps every other sale in order. */
  lemma CascadeRemovesExactly(s: Store, id: nat, v: Venta)
    requires s.Valid()
    ensures v in DeleteProducto(s, id).ventas <==> v in s.ventas && v.producto != id
    ensures DeleteProducto(s, id).Valid()
    ensures id !in DeleteProducto(s, id).productos
  {
  }
}
