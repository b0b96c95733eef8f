/** The fabric lot (entity Tela): the stored row, the loaded object and its
    two stock mutators. */
module TelaEntity {
  import opened Common

  /** One row of the `telas` table. The id is the row's position in the
      table (see Store). Audit timestamps are not modelled. */
  datatype TelaRow = TelaRow(
    numGuia: Option<string>,
    partida: Option<string>,
    os: Option<string>,
    proveedor: Option<string>,
    fechaIngreso: Option<Date>,
    cliente: Option<string>,
    marca: Option<string>,
    op: Option<string>,
    tipoTela: Option<string>,
    descripcion: Option<string>,
    ench: Option<string>,
    cantRolloIngresado: int,
    pesoIngresado: Decimal,
    stockReal: Decimal,
    estado: Option<string>,
    almacen: Option<string>)

  /** The row after aumentarStock(cantidad). */
  function Aumentar(t: TelaRow, cantidad: Decimal): (r: TelaRow)
    ensures r.stockReal == t.stockReal + cantidad
    ensures r.pesoIngresado == t.pesoIngresado + cantidad
    ensures r.stockReal - r.pesoIngresado == t.stockReal - t.pesoIngresado
    ensures r.(stockReal := t.stockReal, pesoIngresado := t.pesoIngresado) == t
  {
    t.(stockReal := t.stockReal + cantidad, pesoIngresado := t.pesoIngresado + cantidad)
  }

  /** The row after disminuirStock(cantidad): nothing is checked, so the
      quantities may go below zero unless the caller checked first. */
  function Disminuir(t: TelaRow, cantidad: Decimal): (r: TelaRow)
    ensures r.stockReal == t.stockReal - cantidad
    ensures r.pesoIngresado == t.pesoIngresado - cantidad
    ensures r.stockReal - r.pesoIngresado == t.stockReal - t.pesoIngresado
    ensures r.(stockReal := t.stockReal, pesoIngresado := t.pesoIngresado) == t
  {
    t.(stockReal := t.stockReal - cantidad, pesoIngresado := t.pesoIngresado - cantidad)
  }

  /** Each mutator undoes the other. */
  lemma AumentarDisminuirInverse(t: TelaRow, cantidad: Decimal)
    ensures Disminuir(Aumentar(t, cantidad), cantidad) == t
    ensures Aumentar(Disminuir(t, cantidad), cantidad) == t
  {
  }

  /** Decreasing by more than the stock goes negative: the mutator itself
      guards nothing. */
  lemma DisminuirUnguarded(t: TelaRow, cantidad: Decimal)
    requires cantidad > t.stockReal
    ensures Disminuir(t, cantidad).stockReal < 0
  {
  }

  /** A lot loaded from the repository, whose fields the services update in
      place before saving it back. */
  class Tela {
    var numGuia: Option<string>
    var partida: Option<string>
    var os: Option<string>
    var proveedor: Option<string>
    var fechaIngreso: Option<Date>
    var cliente: Option<string>
    var marca: Option<string>
    var op: Option<string>
    var tipoTela: Option<string>
    var descripcion: Option<string>
    var ench: Option<string>
    var cantRolloIngresado: int
    var pesoIngresado: Decimal
    var stockReal: Decimal
    var estado: Option<string>
    var almacen: Option<string>

    /** The row this object saves as. */
    function Row(): TelaRow
      reads this
    {
      TelaRow(numGuia, partida, os, proveedor, fechaIngreso, cliente, marca, op,
              tipoTela, descripcion, ench, cantRolloIngresado, pesoIngresado,
              stockReal, estado, almacen)
    }

    /** The object findById materialises from a stored row. */
    constructor FromRow(r: TelaRow)
      ensures Row() == r
    {
      numGuia, partida, os, proveedor := r.numGuia, r.partida, r.os, r.proveedor;
      fechaIngreso, cliente, marca, op := r.fechaIngreso, r.cliente, r.marca, r.op;
      tipoTela, descripcion, ench := r.tipoTela, r.descripcion, r.ench;
      cantRolloIngresado, pesoIngresado, stockReal := r.cantRolloIngresado, r.pesoIngresado, r.stockReal;
      estado, almacen := r.estado, r.almacen;
    }

    /** setStockReal. */
    method SetStockReal(v: Decimal)
      modifies this`stockReal
      ensures Row() == old(Row()).(stockReal := v)
    {
      stockReal := v;
    }

    /** setPesoIngresado. */
    method SetPesoIngresado(v: Decimal)
      modifies this`pesoIngresado
      ensures Row() == old(Row()).(pesoIngresado := v)
    {
      pesoIngresado := v;
    }

    /** aumentarStock: both quantities grow by `cantidad`, in lockstep. */
    method AumentarStock(cantidad: Decimal)
      modifies this`stockReal, this`pesoIngresado
      ensures stockReal == old(stockReal) + cantidad
      ensures pesoIngresado == old(pesoIngresado) + cantidad
      ensures Row() == Aumentar(old(Row()), cantidad)
    {
      stockReal := stockReal + cantidad;
      pesoIngresado := pesoIngresado + cantidad;
    }

    /** disminuirStock: both quantities shrink by `cantidad`, unchecked. */
    method DisminuirStock(cantidad: Decimal)
      modifies this`stockReal, this`pesoIngresado
      ensures stockReal == old(stockReal) - cantidad
      ensures pesoIngresado == old(pesoIngresado) - cantidad
      ensures Row() == Disminuir(old(Row()), cantidad)
    {
      stockReal := stockReal - cantidad;
      pesoIngresado := pesoIngresado - cantidad;
    }
  }
}
