/** The repositories as one in-memory database: a table per entity, each a
    sequence whose positions are the ids. Nothing is ever deleted, so an id
    below a table's length always finds its row. */
module Store {
  import opened Common
  import opened TelaEntity
  import opened Entities

  /** A snapshot of every table. */
  datatype DbState = DbState(
    telas: seq<TelaRow>,
    movimientos: seq<Movimiento>,
    salidas: seq<SalidaCorte>,
    almacenes: seq<Almacen>,
    almacenTelas: seq<AlmacenTela>)
  {
    /** findById on the lot table. */
    predicate HasTela(id: int) {
      0 <= id < |telas|
    }
  }

  /** What an operation leaves behind: the new tables and what it returns.
      A failed operation writes nothing. */
  datatype Outcome<T> = Outcome(state: DbState, result: Result<T>)

  /** The database the service methods update. */
  class Database {
    var telas: seq<TelaRow>
    var movimientos: seq<Movimiento>
    var salidas: seq<SalidaCorte>
    var almacenes: seq<Almacen>
    var almacenTelas: seq<AlmacenTela>

    function State(): DbState
      reads this
    {
      DbState(telas, movimientos, salidas, almacenes, almacenTelas)
    }

    constructor (st: DbState)
      ensures State() == st
    {
      telas, movimientos, salidas := st.telas, st.movimientos, st.salidas;
      almacenes, almacenTelas := st.almacenes, st.almacenTelas;
    }
  }
}
