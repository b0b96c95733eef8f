/** AlmacenTelaService: the per-warehouse assignment ledger (assign, update
    weight, transfer) and the paged search over one warehouse's lots. */
module AlmacenTelaService {
  import opened Common
  import opened Text
  import opened Sorting
  import opened Paginacion
  import opened TelaEntity
  import opened Entities
  import opened Store
  import TelaService

  /** The rows findByAlmacenIdAndTelaIdAndEstado (or, with `estado` None,
      findByAlmacenIdAndTelaId) matches. */
  predicate EsFila(r: AlmacenTela, almacenId: int, telaId: int, estado: Option<EstadoAlmacenTela>) {
    r.almacenId == almacenId && r.telaId == telaId && (estado.None? || r.estado == estado.value)
  }

  /** The row a Mono finder yields: none, the only match, or an
      IncorrectResultSize error when several rows match. */
  function Buscar(filas: seq<AlmacenTela>, almacenId: int, telaId: int, estado: Option<EstadoAlmacenTela>): (r: Result<Option<nat>>)
    ensures r.Err? ==> r.error == IncorrectResultSize
    ensures r == Ok(None) <==> forall k :: 0 <= k < |filas| ==> !EsFila(filas[k], almacenId, telaId, estado)
    ensures r.Ok? && r.value.Some? ==>
      && r.value.value < |filas| && EsFila(filas[r.value.value], almacenId, telaId, estado)
      && forall k :: 0 <= k < |filas| && k != r.value.value ==> !EsFila(filas[k], almacenId, telaId, estado)
    ensures r.Err? <==>
      exists j, k :: 0 <= j < k < |filas| && EsFila(filas[j], almacenId, telaId, estado) && EsFila(filas[k], almacenId, telaId, estado)
  {
    SingleIndex(filas, (f: AlmacenTela) => EsFila(f, almacenId, telaId, estado))
  }

  // ---------------------------------------------------------------------
  // asignarTelaAAlmacen
  // ---------------------------------------------------------------------

  /** asignarTelaAAlmacen: a weight that is null or not positive is an
      IllegalArgumentException checked first; a missing warehouse or lot
      is NOT_FOUND; otherwise one new ACTIVO row with exactly that weight. */
  function Asignar(st: DbState, almacenId: int, telaId: int, peso: Option<Decimal>, now: Timestamp): (o: Outcome<AlmacenTela>)
    ensures peso.None? || peso.value <= 0 ==> o == Outcome(st, Err(IllegalArgument))
    ensures peso.Some? && peso.value > 0 && !(0 <= almacenId < |st.almacenes| && st.HasTela(telaId)) ==>
      o == Outcome(st, Err(NotFound))
    ensures o.result.Ok? <==> peso.Some? && peso.value > 0 && 0 <= almacenId < |st.almacenes| && st.HasTela(telaId)
    ensures o.result.Ok? ==>
      && o.result.value == AlmacenTela(almacenId, telaId, peso, now, ACTIVO)
      && o.state == st.(almacenTelas := st.almacenTelas + [o.result.value])
  {
    if peso.None? || peso.value <= 0 then Outcome(st, Err(IllegalArgument))
    else if !(0 <= almacenId < |st.almacenes|) then Outcome(st, Err(NotFound))
    else if !st.HasTela(telaId) then Outcome(st, Err(NotFound))
    else
      var a := AlmacenTela(almacenId, telaId, peso, now, ACTIVO);
      Outcome(st.(almacenTelas := st.almacenTelas + [a]), Ok(a))
  }

  method AsignarTelaAAlmacen(db: Database, almacenId: int, telaId: int, peso: Option<Decimal>, now: Timestamp)
    returns (r: Result<AlmacenTela>)
    modifies db
    ensures db.State() == Asignar(old(db.State()), almacenId, telaId, peso, now).state
    ensures r == Asignar(old(db.State()), almacenId, telaId, peso, now).result
  {
    if peso.None? || peso.value <= 0 {
      return Err(IllegalArgument);
    }
    if !(0 <= almacenId < |db.almacenes|) || !(0 <= telaId < |db.telas|) {
      return Err(NotFound);
    }
    var a := AlmacenTela(almacenId, telaId, peso, now, ACTIVO);
    db.almacenTelas := db.almacenTelas + [a];
    r := Ok(a);
  }

  /** asignarTelaAAlmacen does not look for an existing relation, so
      assigning a lot that already has an ACTIVO row in the warehouse leaves
      two of them, and the single-row ACTIVO lookup that transferirTela
      starts with then fails. */
  lemma AsignarRepetidoAmbiguo(st: DbState, almacenId: int, telaId: int, peso: Option<Decimal>, now: Timestamp)
    requires Buscar(st.almacenTelas, almacenId, telaId, Some(ACTIVO)).Ok?
    requires Buscar(st.almacenTelas, almacenId, telaId, Some(ACTIVO)).value.Some?
    requires Asignar(st, almacenId, telaId, peso, now).result.Ok?
    ensures Buscar(Asignar(st, almacenId, telaId, peso, now).state.almacenTelas, almacenId, telaId, Some(ACTIVO)) ==
      Err(IncorrectResultSize)
  {
    var filas := Asignar(st, almacenId, telaId, peso, now).state.almacenTelas;
    var j := Buscar(st.almacenTelas, almacenId, telaId, Some(ACTIVO)).value.value;
    assert filas[j] == st.almacenTelas[j];
    assert EsFila(filas[j], almacenId, telaId, Some(ACTIVO)) && EsFila(filas[|st.almacenTelas|], almacenId, telaId, Some(ACTIVO));
  }

  // ---------------------------------------------------------------------
  // actualizarPeso
  // ---------------------------------------------------------------------

  /** actualizarPeso: null or negative is rejected (zero is allowed); the
      relation is looked up in any state, and must be the only one of its
      warehouse and lot; only its weight changes. */
  function ActualizarPeso(st: DbState, almacenId: int, telaId: int, nuevoPeso: Option<Decimal>): (o: Outcome<AlmacenTela>)
    ensures nuevoPeso.None? || nuevoPeso.value < 0 ==> o == Outcome(st, Err(IllegalArgument))
    ensures nuevoPeso.Some? && nuevoPeso.value >= 0 && Buscar(st.almacenTelas, almacenId, telaId, None) == Ok(None) ==>
      o == Outcome(st, Err(NotFound))
    ensures nuevoPeso.Some? && nuevoPeso.value >= 0 && Buscar(st.almacenTelas, almacenId, telaId, None).Err? ==>
      o == Outcome(st, Err(IncorrectResultSize))
    ensures o.result.Ok? <==>
      && nuevoPeso.Some? && nuevoPeso.value >= 0
      && Buscar(st.almacenTelas, almacenId, telaId, None).Ok? && Buscar(st.almacenTelas, almacenId, telaId, None).value.Some?
    ensures o.result.Ok? ==>
      var i := Buscar(st.almacenTelas, almacenId, telaId, None).value.value;
      && o.result.value == st.almacenTelas[i].(peso := nuevoPeso)
      && o.result.value.estado == st.almacenTelas[i].estado
      && o.state == st.(almacenTelas := st.almacenTelas[i := o.result.value])
  {
    if nuevoPeso.None? || nuevoPeso.value < 0 then Outcome(st, Err(IllegalArgument))
    else match Buscar(st.almacenTelas, almacenId, telaId, None)
      case Err(e) => Outcome(st, Err(e))
      case Ok(None) => Outcome(st, Err(NotFound))
      case Ok(Some(i)) =>
        var a := st.almacenTelas[i].(peso := nuevoPeso);
        Outcome(st.(almacenTelas := st.almacenTelas[i := a]), Ok(a))
  }

  method ActualizarPesoEnAlmacen(db: Database, almacenId: int, telaId: int, nuevoPeso: Option<Decimal>)
    returns (r: Result<AlmacenTela>)
    modifies db
    ensures db.State() == ActualizarPeso(old(db.State()), almacenId, telaId, nuevoPeso).state
    ensures r == ActualizarPeso(old(db.State()), almacenId, telaId, nuevoPeso).result
  {
    if nuevoPeso.None? || nuevoPeso.value < 0 {
      return Err(IllegalArgument);
    }
    var i := Buscar(db.almacenTelas, almacenId, telaId, None);
    if i.Err? {
      return Err(i.error);
    }
    if i.value.None? {
      return Err(NotFound);
    }
    var k := i.value.value;
    var a := db.almacenTelas[k].(peso := nuevoPeso);
    db.almacenTelas := db.almacenTelas[k := a];
    r := Ok(a);
  }

  // ---------------------------------------------------------------------
  // transferirTela
  // ---------------------------------------------------------------------

  /** The source row after giving up `cantidad`: CONSUMIDO once its weight
      reaches zero. */
  function Descontar(origen: AlmacenTela, cantidad: Decimal): (r: AlmacenTela)
    requires origen.peso.Some?
    ensures r.peso == Some(origen.peso.value - cantidad)
    ensures r.estado == if origen.peso.value - cantidad <= 0 then CONSUMIDO else origen.estado
    ensures r.(peso := origen.peso, estado := origen.estado) == origen
  {
    var resto := origen.peso.value - cantidad;
    origen.(peso := Some(resto), estado := if resto <= 0 then CONSUMIDO else origen.estado)
  }

  /** transferirTela. Both lookups read the stored rows, so the destination
      row is found before the source's change is saved; either lookup fails
      when several ACTIVO rows match, and then nothing is saved. The two
      saves happen in order, the second winning when both are the same row. */
  function Transferir(st: DbState, origenId: int, destinoId: int, telaId: int, cantidad: Decimal, now: Timestamp): Outcome<()>
  {
    if cantidad <= 0 then Outcome(st, Err(IllegalArgument))
    else match Buscar(st.almacenTelas, origenId, telaId, Some(ACTIVO))
      case Err(e) => Outcome(st, Err(e))
      case Ok(None) => Outcome(st, Err(NotFound))
      case Ok(Some(i)) =>
        var origen := st.almacenTelas[i];
        if origen.peso.None? then Outcome(st, Err(NullPointer))
        else if origen.peso.value < cantidad then Outcome(st, Err(BadRequest))
        else if Buscar(st.almacenTelas, destinoId, telaId, Some(ACTIVO)).Err? then Outcome(st, Err(IncorrectResultSize))
        else
          Outcome(st.(almacenTelas := Mover(st.almacenTelas, i, destinoId, telaId, cantidad, now)), Ok(()))
  }

  /** The two saves of a transfer that passed its checks: the source row
      `i` gives up `cantidad`, then the destination row the lookup found in
      the stored rows gets it, or a new ACTIVO row is appended. */
  function Mover(filas: seq<AlmacenTela>, i: int, destinoId: int, telaId: int, cantidad: Decimal, now: Timestamp): seq<AlmacenTela>
    requires 0 <= i < |filas| && filas[i].peso.Some?
    requires Buscar(filas, destinoId, telaId, Some(ACTIVO)).Ok?
  {
    var descontadas := filas[i := Descontar(filas[i], cantidad)];
    match Buscar(filas, destinoId, telaId, Some(ACTIVO)).value
    case Some(j) =>
      var destino := filas[j];
      descontadas[j := destino.(peso := Some(destino.peso.GetOr(0) + cantidad))]
    case None =>
      descontadas + [AlmacenTela(destinoId, telaId, Some(0 + cantidad), now, ACTIVO)]
  }

  /** What transferirTela promises: a non-positive amount, a missing or
      ambiguous ACTIVO source row, a null weight, too little weight or an
      ambiguous destination is rejected with nothing written; only the
      relation rows change. */
  lemma TransferirSpec(st: DbState, origenId: int, destinoId: int, telaId: int, cantidad: Decimal, now: Timestamp)
    ensures var o := Transferir(st, origenId, destinoId, telaId, cantidad, now);
      cantidad <= 0 ==> o == Outcome(st, Err(IllegalArgument))
    ensures var o := Transferir(st, origenId, destinoId, telaId, cantidad, now);
      cantidad > 0 && Buscar(st.almacenTelas, origenId, telaId, Some(ACTIVO)) == Ok(None) ==>
      o == Outcome(st, Err(NotFound))
    ensures var o := Transferir(st, origenId, destinoId, telaId, cantidad, now);
      cantidad > 0 && Buscar(st.almacenTelas, origenId, telaId, Some(ACTIVO)).Err? ==>
      o == Outcome(st, Err(IncorrectResultSize))
    ensures var o := Transferir(st, origenId, destinoId, telaId, cantidad, now);
      var origen := Buscar(st.almacenTelas, origenId, telaId, Some(ACTIVO));
      cantidad > 0 && origen.Ok? && origen.value.Some? ==>
      var peso := st.almacenTelas[origen.value.value].peso;
      && (peso.None? ==> o == Outcome(st, Err(NullPointer)))
      && (peso.Some? && peso.value < cantidad ==> o == Outcome(st, Err(BadRequest)))
      && (peso.Some? && peso.value >= cantidad && Buscar(st.almacenTelas, destinoId, telaId, Some(ACTIVO)).Err? ==>
            o == Outcome(st, Err(IncorrectResultSize)))
    ensures var o := Transferir(st, origenId, destinoId, telaId, cantidad, now);
      o.result.Err? ==>
      o.state == st && o.result.error in {IllegalArgument, NotFound, NullPointer, BadRequest, IncorrectResultSize}
    ensures var o := Transferir(st, origenId, destinoId, telaId, cantidad, now);
      var origen := Buscar(st.almacenTelas, origenId, telaId, Some(ACTIVO));
      o.result.Ok? <==>
      && cantidad > 0
      && origen.Ok? && origen.value.Some?
      && st.almacenTelas[origen.value.value].peso.Some?
      && st.almacenTelas[origen.value.value].peso.value >= cantidad
      && Buscar(st.almacenTelas, destinoId, telaId, Some(ACTIVO)).Ok?
    ensures var o := Transferir(st, origenId, destinoId, telaId, cantidad, now);
      o.result.Ok? ==>
      o.state.(almacenTelas := st.almacenTelas) == st
  {
  }

  method TransferirTela(db: Database, origenId: int, destinoId: int, telaId: int, cantidad: Decimal, now: Timestamp)
    returns (r: Result<()>)
    modifies db
    ensures db.State() == Transferir(old(db.State()), origenId, destinoId, telaId, cantidad, now).state
    ensures r == Transferir(old(db.State()), origenId, destinoId, telaId, cantidad, now).result
  {
    if cantidad <= 0 {
      return Err(IllegalArgument);
    }
    var i := Buscar(db.almacenTelas, origenId, telaId, Some(ACTIVO));
    if i.Err? {
      return Err(i.error);
    }
    if i.value.None? {
      return Err(NotFound);
    }
    var origen := db.almacenTelas[i.value.value];
    if origen.peso.None? {
      return Err(NullPointer);
    }
    if origen.peso.value < cantidad {
      return Err(BadRequest);
    }
    if Buscar(db.almacenTelas, destinoId, telaId, Some(ACTIVO)).Err? {
      return Err(IncorrectResultSize);
    }
    MoverEnAlmacen(db, i.value.value, destinoId, telaId, cantidad, now);
    r := Ok(());
  }

  /** The source row, updated in place, is saved first; the destination
      row, read before that save, is saved second. */
  method MoverEnAlmacen(db: Database, i: int, destinoId: int, telaId: int, cantidad: Decimal, now: Timestamp)
    requires 0 <= i < |db.almacenTelas| && db.almacenTelas[i].peso.Some?
    requires Buscar(db.almacenTelas, destinoId, telaId, Some(ACTIVO)).Ok?
    modifies db
    ensures db.State() == old(db.State()).(almacenTelas := Mover(old(db.almacenTelas), i, destinoId, telaId, cantidad, now))
  {
    var origen := db.almacenTelas[i];
    ghost var leida := origen;
    var resto := origen.peso.value - cantidad;
    origen := origen.(peso := Some(resto));
    if resto <= 0 {
      origen := origen.(estado := CONSUMIDO);
    }
    assert origen == Descontar(leida, cantidad);
    var j := Buscar(db.almacenTelas, destinoId, telaId, Some(ACTIVO)).value;
    var destino := if j.Some? then db.almacenTelas[j.value]
                   else AlmacenTela(destinoId, telaId, Some(0), now, ACTIVO);
    destino := destino.(peso := Some(destino.peso.GetOr(0) + cantidad));
    // save(origen), then save(destino)
    db.almacenTelas := db.almacenTelas[i := origen];
    if j.Some? {
      db.almacenTelas := db.almacenTelas[j.value := destino];
    } else {
      db.almacenTelas := db.almacenTelas + [destino];
    }
  }

  /** What a row contributes to the weight of lot `telaId` held across all
      warehouses; a null weight counts as nothing. */
  function Aporte(telaId: int): AlmacenTela -> int {
    (f: AlmacenTela) => if f.telaId == telaId then f.peso.GetOr(0) else 0
  }

  function PesoDeTela(filas: seq<AlmacenTela>, telaId: int): int {
    SumOf(filas, Aporte(telaId))
  }

  /** Rewriting one row of lot `telaId` to weight `p` changes the lot's
      total weight by the difference. */
  lemma PesoReemplazo(filas: seq<AlmacenTela>, k: int, telaId: int, x: AlmacenTela, p: int)
    requires 0 <= k < |filas| && filas[k].telaId == telaId
    requires x.telaId == telaId && x.peso == Some(p)
    ensures PesoDeTela(filas[k := x], telaId) == PesoDeTela(filas, telaId) - filas[k].peso.GetOr(0) + p
  {
    SumOfUpdate(filas, k, x, Aporte(telaId));
  }

  /** The two saves move weight without creating or losing any, when the
      destination row is not the source row. */
  lemma MoverConservaPeso(filas: seq<AlmacenTela>, i: int, destinoId: int, telaId: int, cantidad: Decimal, now: Timestamp)
    requires 0 <= i < |filas| && filas[i].peso.Some? && filas[i].telaId == telaId
    requires Buscar(filas, destinoId, telaId, Some(ACTIVO)).Ok?
    requires Buscar(filas, destinoId, telaId, Some(ACTIVO)).value != Some(i)
    ensures PesoDeTela(Mover(filas, i, destinoId, telaId, cantidad, now), telaId) == PesoDeTela(filas, telaId)
  {
    var origen := filas[i];
    var d := Descontar(origen, cantidad);
    var f1 := filas[i := d];
    PesoReemplazo(filas, i, telaId, d, origen.peso.value - cantidad);
    match Buscar(filas, destinoId, telaId, Some(ACTIVO)).value
    case Some(j) =>
      var destino := filas[j];
      var nd := destino.(peso := Some(destino.peso.GetOr(0) + cantidad));
      assert f1[j] == destino;
      PesoReemplazo(f1, j, telaId, nd, destino.peso.GetOr(0) + cantidad);
    case None =>
      SumOfAppend(f1, AlmacenTela(destinoId, telaId, Some(0 + cantidad), now, ACTIVO), Aporte(telaId));
  }

  /** A transfer between two different warehouses moves weight without
      creating or losing any: the lot's total weight over all warehouses is
      unchanged. */
  lemma TransferirConservaPeso(st: DbState, origenId: int, destinoId: int, telaId: int, cantidad: Decimal, now: Timestamp)
    requires origenId != destinoId
    requires Transferir(st, origenId, destinoId, telaId, cantidad, now).result.Ok?
    ensures var o := Transferir(st, origenId, destinoId, telaId, cantidad, now);
      PesoDeTela(o.state.almacenTelas, telaId) == PesoDeTela(st.almacenTelas, telaId)
  {
    var i := Buscar(st.almacenTelas, origenId, telaId, Some(ACTIVO)).value.value;
    MoverConservaPeso(st.almacenTelas, i, destinoId, telaId, cantidad, now);
  }

  /** The rows after a successful transfer between two warehouses: the
      source row has `cantidad` less, and is CONSUMIDO exactly when nothing
      is left; the destination row is the earlier ACTIVO one with `cantidad`
      more, or a new ACTIVO row holding `cantidad` appended at the end;
      every other row, and every other field of those two rows, is as it
      was. */
  lemma TransferirFilas(st: DbState, origenId: int, destinoId: int, telaId: int, cantidad: Decimal, now: Timestamp)
    requires origenId != destinoId
    requires Transferir(st, origenId, destinoId, telaId, cantidad, now).result.Ok?
    ensures var o := Transferir(st, origenId, destinoId, telaId, cantidad, now);
      var i := Buscar(st.almacenTelas, origenId, telaId, Some(ACTIVO)).value.value;
      var p := st.almacenTelas[i].peso.value;
      && o.state.almacenTelas[i].peso == Some(p - cantidad)
      && (o.state.almacenTelas[i].estado == CONSUMIDO <==> p == cantidad)
      && match Buscar(st.almacenTelas, destinoId, telaId, Some(ACTIVO)).value
         case Some(j) =>
           && j != i
           && o.state.almacenTelas[j].peso == Some(st.almacenTelas[j].peso.GetOr(0) + cantidad)
           && o.state.almacenTelas[j].estado == ACTIVO
           && o.state.almacenTelas ==
                st.almacenTelas[i := Descontar(st.almacenTelas[i], cantidad)]
                               [j := st.almacenTelas[j].(peso := o.state.almacenTelas[j].peso)]
         case None =>
           o.state.almacenTelas == st.almacenTelas[i := Descontar(st.almacenTelas[i], cantidad)]
             + [AlmacenTela(destinoId, telaId, Some(cantidad), now, ACTIVO)]
  {
  }

  /** The source does not exclude a transfer from a warehouse to itself:
      the destination lookup finds the same row before the decrement is
      saved, and its save overwrites it, so the row ends ACTIVO with
      `cantidad` more than it started with. */
  lemma TransferirMismoAlmacen(st: DbState, almacenId: int, telaId: int, cantidad: Decimal, now: Timestamp)
    requires Transferir(st, almacenId, almacenId, telaId, cantidad, now).result.Ok?
    ensures var o := Transferir(st, almacenId, almacenId, telaId, cantidad, now);
      var i := Buscar(st.almacenTelas, almacenId, telaId, Some(ACTIVO)).value.value;
      && o.state.almacenTelas == st.almacenTelas[i := st.almacenTelas[i].(peso := Some(st.almacenTelas[i].peso.value + cantidad))]
      && PesoDeTela(o.state.almacenTelas, telaId) == PesoDeTela(st.almacenTelas, telaId) + cantidad
  {
    var filas := st.almacenTelas;
    var i := Buscar(filas, almacenId, telaId, Some(ACTIVO)).value.value;
    var nueva := filas[i].(peso := Some(filas[i].peso.value + cantidad));
    MoverMismaFila(filas, i, almacenId, telaId, cantidad, now);
    SumOfUpdate(filas, i, nueva, Aporte(telaId));
  }

  /** When the destination lookup finds the source row itself, the second
      save overwrites the first with the weight read before the decrement. */
  lemma MoverMismaFila(filas: seq<AlmacenTela>, i: int, destinoId: int, telaId: int, cantidad: Decimal, now: Timestamp)
    requires 0 <= i < |filas| && filas[i].peso.Some?
    requires Buscar(filas, destinoId, telaId, Some(ACTIVO)) == Ok(Some(i))
    ensures Mover(filas, i, destinoId, telaId, cantidad, now) == filas[i := filas[i].(peso := Some(filas[i].peso.value + cantidad))]
  {
    var nueva := filas[i].(peso := Some(filas[i].peso.value + cantidad));
    assert filas[i := Descontar(filas[i], cantidad)][i := nueva] == filas[i := nueva];
  }


  /** A relation created by the import has a null weight, so a transfer out
      of it dereferences null. */
  lemma TransferirSinPeso(st: DbState, origenId: int, destinoId: int, telaId: int, cantidad: Decimal, now: Timestamp)
    requires cantidad > 0
    requires Buscar(st.almacenTelas, origenId, telaId, Some(ACTIVO)).Ok?
    requires Buscar(st.almacenTelas, origenId, telaId, Some(ACTIVO)).value.Some?
    requires st.almacenTelas[Buscar(st.almacenTelas, origenId, telaId, Some(ACTIVO)).value.value].peso.None?
    ensures Transferir(st, origenId, destinoId, telaId, cantidad, now) == Outcome(st, Err(NullPointer))
  {
  }

  // ---------------------------------------------------------------------
  // buscarTelasEnAlmacen
  // ---------------------------------------------------------------------

  /** One search result: the relation and its lot. */
  datatype Item = Item(almacenTela: AlmacenTela, tela: TelaRow)

  /** obtenerTelasDelAlmacen: the ACTIVO relations of the warehouse whose
      lot is found, each paired with its lot. */
  function ItemsDelAlmacen(filas: seq<AlmacenTela>, telas: seq<TelaRow>, almacenId: int): (r: seq<Item>)
    ensures |r| <= |filas|
    ensures forall x :: x in r ==>
      && x.almacenTela in filas
      && x.almacenTela.almacenId == almacenId && x.almacenTela.estado == ACTIVO
      && 0 <= x.almacenTela.telaId < |telas| && x.tela == telas[x.almacenTela.telaId]
    ensures forall f :: f in filas && f.almacenId == almacenId && f.estado == ACTIVO && 0 <= f.telaId < |telas| ==>
      Item(f, telas[f.telaId]) in r
  {
    if filas == [] then []
    else
      var f := filas[0];
      assert filas == [f] + filas[1..];
      var resto := ItemsDelAlmacen(filas[1..], telas, almacenId);
      if f.almacenId == almacenId && f.estado == ACTIVO && 0 <= f.telaId < |telas|
      then [Item(f, telas[f.telaId])] + resto
      else resto
  }

  /** contieneCadena, as this service writes it. */
  predicate ContieneCadena(cadena: Option<string>, subcadena: string) {
    cadena.Some? && Contains(Lower(cadena.value), subcadena)
  }

  /** filtrarPorCampoEspecifico: four searchable fields, nothing else
      matches. */
  predicate FiltrarPorCampoEspecifico(t: TelaRow, campo: string, termino: string) {
    if campo == "numGuia" then ContieneCadena(t.numGuia, termino)
    else if campo == "partida" then ContieneCadena(t.partida, termino)
    else if campo == "proveedor" then ContieneCadena(t.proveedor, termino)
    else if campo == "cliente" then ContieneCadena(t.cliente, termino)
    else false
  }

  /** filtrarPorTodosCampos. */
  predicate FiltrarPorTodosCampos(t: TelaRow, termino: string) {
    ContieneCadena(t.numGuia, termino) || ContieneCadena(t.partida, termino) ||
    ContieneCadena(t.proveedor, termino) || ContieneCadena(t.cliente, termino)
  }

  /** The test the filter applies to one lot once the field is known. */
  predicate CumpleFiltro(t: TelaRow, campo: string, termino: string) {
    if campo == "todos" then FiltrarPorTodosCampos(t, termino)
    else FiltrarPorCampoEspecifico(t, campo, termino)
  }

  /** aplicarFiltro. A blank or null term keeps everything. Otherwise the
      term is lower-cased (not trimmed); a null field reaches the `switch`
      and throws as soon as there is a lot to test. */
  function AplicarFiltro(items: seq<Item>, termino: Option<string>, campo: Option<string>): (r: Result<seq<Item>>)
    ensures termino.None? || IsBlank(termino.value) ==> r == Ok(items)
    ensures termino.Some? && !IsBlank(termino.value) && campo.None? ==>
      (r.Err? <==> items != []) && (r.Err? ==> r.error == NullPointer)
    ensures termino.Some? && !IsBlank(termino.value) && campo.Some? ==>
      && r.Ok?
      && (forall x :: x in r.value <==> x in items && CumpleFiltro(x.tela, campo.value, Lower(termino.value)))
      && multiset(r.value) <= multiset(items)
  {
    if termino.None? || IsBlank(termino.value) then Ok(items)
    else
      var terminoLower := Lower(termino.value);
      if campo.None? then (if items == [] then Ok([]) else Err(NullPointer))
      else Ok(Filter(items, (x: Item) => CumpleFiltro(x.tela, campo.value, terminoLower)))
  }

  /** A field this filter does not know matches no lot. */
  lemma CampoDesconocidoNoCoincide(items: seq<Item>, termino: string, campo: string)
    requires !IsBlank(termino)
    requires campo !in ["todos", "numGuia", "partida", "proveedor", "cliente"]
    ensures AplicarFiltro(items, Some(termino), Some(campo)) == Ok([])
  {
    FilterNone(items, (x: Item) => CumpleFiltro(x.tela, campo, Lower(termino)));
  }

  /** compareNullableStrings: null first, then compareToIgnoreCase. */
  function CompareNullableStrings(s1: Option<string>, s2: Option<string>): (r: int)
    ensures s1.None? && s2.None? ==> r == 0
    ensures s1.None? && s2.Some? ==> r < 0
    ensures s1.Some? && s2.None? ==> r > 0
    ensures s1.Some? && s2.Some? ==> r == CompareIgnoreCase(s1.value, s2.value)
    ensures s1.Some? && s2.Some? ==> (r == 0 <==> Fold(s1.value) == Fold(s2.value))
  {
    if s1.None? && s2.None? then 0
    else if s1.None? then -1
    else if s2.None? then 1
    else CompareIgnoreCaseProperties(s1.value, s2.value); CompareIgnoreCase(s1.value, s2.value)
  }

  lemma CompareNullableStringsAntisymmetric(s1: Option<string>, s2: Option<string>)
    ensures CompareNullableStrings(s1, s2) == -CompareNullableStrings(s2, s1)
  {
    if s1.Some? && s2.Some? {
      CompareIgnoreCaseProperties(s1.value, s2.value);
    }
  }

  /** compareNullableDates: null first, then chronological. */
  function CompareNullableDates(d1: Option<Date>, d2: Option<Date>): (r: int)
    ensures d1.None? && d2.None? ==> r == 0
    ensures d1.None? && d2.Some? ==> r < 0
    ensures d1.Some? && d2.None? ==> r > 0
    ensures d1.Some? && d2.Some? ==> (r < 0 <==> d1.value < d2.value) && (r == 0 <==> d1.value == d2.value)
  {
    if d1.None? && d2.None? then 0
    else if d1.None? then -1
    else if d2.None? then 1
    else d1.value - d2.value
  }

  /** The comparator crearComparador builds for a non-null field: an unknown
      field sorts by fechaIngreso, and "desc" reverses the order. */
  function Comparar(ordenCampo: string, ordenDir: Option<string>, i1: Item, i2: Item): (r: int)
    ensures var asc := if ordenCampo == "numGuia" then CompareNullableStrings(i1.tela.numGuia, i2.tela.numGuia)
        else if ordenCampo == "partida" then CompareNullableStrings(i1.tela.partida, i2.tela.partida)
        else if ordenCampo == "proveedor" then CompareNullableStrings(i1.tela.proveedor, i2.tela.proveedor)
        else if ordenCampo == "cliente" then CompareNullableStrings(i1.tela.cliente, i2.tela.cliente)
        else CompareNullableDates(i1.tela.fechaIngreso, i2.tela.fechaIngreso);
      r == if ordenDir == Some("desc") then -asc else asc
  {
    var resultado :=
      match ordenCampo
      case "numGuia" => CompareNullableStrings(i1.tela.numGuia, i2.tela.numGuia)
      case "partida" => CompareNullableStrings(i1.tela.partida, i2.tela.partida)
      case "proveedor" => CompareNullableStrings(i1.tela.proveedor, i2.tela.proveedor)
      case "cliente" => CompareNullableStrings(i1.tela.cliente, i2.tela.cliente)
      case "fechaIngreso" => CompareNullableDates(i1.tela.fechaIngreso, i2.tela.fechaIngreso)
      case _ => CompareNullableDates(i1.tela.fechaIngreso, i2.tela.fechaIngreso);
    if ordenDir == Some("desc") then -resultado else resultado
  }

  function Comparador(ordenCampo: string, ordenDir: Option<string>): (Item, Item) -> int {
    (i1: Item, i2: Item) => Comparar(ordenCampo, ordenDir, i1, i2)
  }

  lemma ComparadorAntisymmetric(ordenCampo: string, ordenDir: Option<string>)
    ensures Antisymmetric(Comparador(ordenCampo, ordenDir))
  {
    forall a: Item, b: Item
      ensures Comparador(ordenCampo, ordenDir)(a, b) == -Comparador(ordenCampo, ordenDir)(b, a)
    {
      CompareNullableStringsAntisymmetric(a.tela.numGuia, b.tela.numGuia);
      CompareNullableStringsAntisymmetric(a.tela.partida, b.tela.partida);
      CompareNullableStringsAntisymmetric(a.tela.proveedor, b.tela.proveedor);
      CompareNullableStringsAntisymmetric(a.tela.cliente, b.tela.cliente);
    }
  }

  /** The sort step: the `switch` on a null field throws once the sort has
      two lots to compare. */
  function Ordenar(items: seq<Item>, ordenCampo: Option<string>, ordenDir: Option<string>): (r: Result<seq<Item>>)
    ensures r.Err? <==> ordenCampo.None? && |items| >= 2
    ensures r.Err? ==> r.error == NullPointer
    ensures r.Ok? ==> multiset(r.value) == multiset(items)
    ensures r.Ok? && ordenCampo.Some? ==> r.value == Sort(items, Comparador(ordenCampo.value, ordenDir))
  {
    if ordenCampo.None? then (if |items| >= 2 then Err(NullPointer) else Ok(items))
    else Ok(Sort(items, Comparador(ordenCampo.value, ordenDir)))
  }

  /** buscarTelasEnAlmacen: the filter, then the sort, then the page, with
      the count taken over the whole filtered set. The pipeline is built
      before any lot is read, so `skip` rejects a negative (overflowed)
      `pagina * tamanoPagina` before the filter or the sort can throw. */
  function BuscarTelasEnAlmacen(st: DbState, almacenId: int, b: TelaService.TelaBusqueda): (r: Result<PaginacionResultado<Item>>)
    requires IsInt(b.pagina) && IsInt(b.tamanoPagina)
    ensures b.pagina < 0 || b.tamanoPagina <= 0 ==> r == Err(IllegalArgument)
    ensures WrapInt(b.pagina * b.tamanoPagina) < 0 ==> r == Err(IllegalArgument)
    ensures r.Ok? ==>
      var filtrados := AplicarFiltro(ItemsDelAlmacen(st.almacenTelas, st.telas, almacenId), b.termino, b.campo);
      && b.pagina >= 0 && b.tamanoPagina > 0
      && filtrados.Ok?
      && r.value.total == |filtrados.value|
      && r.value.pagina == b.pagina && r.value.tamanoPagina == b.tamanoPagina
      && |r.value.datos| <= b.tamanoPagina
      && (forall x :: x in r.value.datos ==> x in filtrados.value)
      && (b.ordenCampo.Some? ==> Sorted(r.value.datos, Comparador(b.ordenCampo.value, b.ordenDir)))
  {
    if b.pagina < 0 then Err(IllegalArgument)
    else if b.tamanoPagina <= 0 then Err(IllegalArgument)
    else if WrapInt(b.pagina * b.tamanoPagina) < 0 then Err(IllegalArgument)
    else
      var items := ItemsDelAlmacen(st.almacenTelas, st.telas, almacenId);
      match AplicarFiltro(items, b.termino, b.campo)
      case Err(e) => Err(e)
      case Ok(filtrados) =>
        match Ordenar(filtrados, b.ordenCampo, b.ordenDir)
        case Err(e) => Err(e)
        case Ok(ordenados) =>
          var datos := Pagina(ordenados, b.pagina, b.tamanoPagina).value;
          PaginaOrdenada(filtrados, ordenados, b.pagina, b.tamanoPagina, b.ordenCampo, b.ordenDir);
          assert forall x :: x in datos ==> x in ordenados by {
            forall x | x in datos ensures x in ordenados {
              var k :| 0 <= k < |datos| && datos[k] == x;
              assert multiset(ordenados) == multiset(filtrados);
              assert ordenados[WrapInt(b.pagina * b.tamanoPagina) + k] == x;
            }
          }
          assert forall x :: x in ordenados ==> x in filtrados by {
            forall x | x in ordenados ensures x in filtrados {
              assert x in multiset(ordenados);
            }
          }
          Ok(PaginacionResultado(datos, |filtrados|, b.pagina, b.tamanoPagina))
  }

  /** The whole outcome of the warehouse search: it fails exactly when a
      paging argument is rejected, the filter throws or the sort throws,
      and otherwise its page is the run of the sorted filtered lots that
      starts at the (int) offset `pagina * tamanoPagina`, empty past the
      end. */
  lemma BuscarTelasEnAlmacenSpec(st: DbState, almacenId: int, b: TelaService.TelaBusqueda)
    requires IsInt(b.pagina) && IsInt(b.tamanoPagina)
    ensures var r := BuscarTelasEnAlmacen(st, almacenId, b);
      var filtrados := AplicarFiltro(ItemsDelAlmacen(st.almacenTelas, st.telas, almacenId), b.termino, b.campo);
      r.Err? <==>
        || b.pagina < 0 || b.tamanoPagina <= 0 || WrapInt(b.pagina * b.tamanoPagina) < 0
        || filtrados.Err?
        || Ordenar(filtrados.value, b.ordenCampo, b.ordenDir).Err?
    ensures var r := BuscarTelasEnAlmacen(st, almacenId, b);
      var filtrados := AplicarFiltro(ItemsDelAlmacen(st.almacenTelas, st.telas, almacenId), b.termino, b.campo);
      b.pagina >= 0 && b.tamanoPagina > 0 && WrapInt(b.pagina * b.tamanoPagina) >= 0 ==>
      && (filtrados.Err? ==> r == Err(filtrados.error))
      && (filtrados.Ok? && Ordenar(filtrados.value, b.ordenCampo, b.ordenDir).Err? ==>
            r == Err(Ordenar(filtrados.value, b.ordenCampo, b.ordenDir).error))
    ensures var r := BuscarTelasEnAlmacen(st, almacenId, b);
      var filtrados := AplicarFiltro(ItemsDelAlmacen(st.almacenTelas, st.telas, almacenId), b.termino, b.campo);
      r.Ok? ==>
      var ordenados := Ordenar(filtrados.value, b.ordenCampo, b.ordenDir).value;
      var n := WrapInt(b.pagina * b.tamanoPagina);
      && (IsInt(b.pagina * b.tamanoPagina) ==> n == b.pagina * b.tamanoPagina)
      && r.value.datos == if n >= |ordenados| then [] else ordenados[n..Min(n + b.tamanoPagina, |ordenados|)]
  {
    var r := BuscarTelasEnAlmacen(st, almacenId, b);
    if r.Ok? {
      var filtrados := AplicarFiltro(ItemsDelAlmacen(st.almacenTelas, st.telas, almacenId), b.termino, b.campo).value;
      var ordenados := Ordenar(filtrados, b.ordenCampo, b.ordenDir).value;
      var n := WrapInt(b.pagina * b.tamanoPagina);
      var datos := Pagina(ordenados, b.pagina, b.tamanoPagina).value;
      assert r.value.datos == datos;
      if n < |ordenados| {
        assert datos == ordenados[n..Min(n + b.tamanoPagina, |ordenados|)];
      }
    }
  }

  /** A contiguous run of a sorted list is sorted. */
  lemma PaginaDeOrdenada<T>(s: seq<T>, pagina: int, tamano: int, cmp: (T, T) -> int)
    requires IsInt(pagina) && IsInt(tamano)
    requires Sorted(s, cmp) && Pagina(s, pagina, tamano).Ok?
    ensures Sorted(Pagina(s, pagina, tamano).value, cmp)
  {
    var datos := Pagina(s, pagina, tamano).value;
    var n := WrapInt(pagina * tamano);
    forall k | 0 <= k < |datos| - 1
      ensures cmp(datos[k], datos[k + 1]) <= 0
    {
      assert datos[k] == s[n + k] && datos[k + 1] == s[n + k + 1];
    }
  }

  /** The page of a sorted search is sorted by the same comparator. */
  lemma PaginaOrdenada(filtrados: seq<Item>, ordenados: seq<Item>, pagina: int, tamano: int, ordenCampo: Option<string>, ordenDir: Option<string>)
    requires IsInt(pagina) && IsInt(tamano)
    requires ordenCampo.Some? ==> ordenados == Sort(filtrados, Comparador(ordenCampo.value, ordenDir))
    requires Pagina(ordenados, pagina, tamano).Ok?
    ensures |Pagina(ordenados, pagina, tamano).value| <= tamano
    ensures ordenCampo.Some? ==> Sorted(Pagina(ordenados, pagina, tamano).value, Comparador(ordenCampo.value, ordenDir))
  {
    if ordenCampo.Some? {
      var cmp := Comparador(ordenCampo.value, ordenDir);
      ComparadorAntisymmetric(ordenCampo.value, ordenDir);
      SortSorted(filtrados, cmp);
      PaginaDeOrdenada(ordenados, pagina, tamano, cmp);
    }
  }

  /** Without overflow, a page of the warehouse search is non-empty exactly
      when its number is below the page count of the result. */
  lemma BuscarTelasEnAlmacenPagina(st: DbState, almacenId: int, b: TelaService.TelaBusqueda)
    requires IsInt(b.pagina) && IsInt(b.tamanoPagina) && IsInt(b.pagina * b.tamanoPagina)
    requires BuscarTelasEnAlmacen(st, almacenId, b).Ok?
    ensures var r := BuscarTelasEnAlmacen(st, almacenId, b).value;
      |r.datos| > 0 <==> b.pagina < TotalPaginas(r.total, r.tamanoPagina)
  {
    var items := ItemsDelAlmacen(st.almacenTelas, st.telas, almacenId);
    var filtrados := AplicarFiltro(items, b.termino, b.campo).value;
    var ordenados := Ordenar(filtrados, b.ordenCampo, b.ordenDir).value;
    PaginaNonEmptyIff(ordenados, b.pagina, b.tamanoPagina);
  }
}
