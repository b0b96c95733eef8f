/** MovimientoTelaService: the general movement ledger. Registering a
    movement adjusts the lot's stock by movement type and appends a
    COMPLETADO record; annulling one writes a compensating record and marks
    the original ANULADO. The paged search and the statistics are pure
    pipelines over the ledger. */
module MovimientoTelaService {
  import opened Common
  import opened Text
  import opened Sorting
  import opened Paginacion
  import opened TelaEntity
  import opened Entities
  import opened Store

  /** The validated request body of registrarMovimiento. */
  datatype MovimientoTelaDTO = MovimientoTelaDTO(
    telaId: int,
    areaOrigen: string,
    areaDestino: string,
    cantidad: Decimal,
    tipoMovimiento: string,
    referenciaDocumento: Option<string>,
    usuarioResponsable: string,
    observaciones: Option<string>)

  /** The movement types that take fabric out of the lot. */
  predicate RestaStock(tipo: string) {
    tipo == "SALIDA" || tipo == "TRASLADO"
  }

  /** How registering a movement of `tipo` and `cantidad` changes both stock
      fields: out for SALIDA and TRASLADO, in for ENTRADA, nothing for any
      other type. */
  function Delta(tipo: string, cantidad: Decimal): int {
    if RestaStock(tipo) then -cantidad
    else if tipo == "ENTRADA" then cantidad
    else 0
  }

  /** registrarMovimiento. */
  function Registrar(st: DbState, dto: MovimientoTelaDTO, now: Timestamp): (o: Outcome<Movimiento>)
    ensures !st.HasTela(dto.telaId) ==> o == Outcome(st, Err(NotFound))
    ensures st.HasTela(dto.telaId) && RestaStock(dto.tipoMovimiento) ==>
      (o.result.Err? <==>
        st.telas[dto.telaId].pesoIngresado < dto.cantidad || st.telas[dto.telaId].stockReal < dto.cantidad)
    ensures st.HasTela(dto.telaId) && !RestaStock(dto.tipoMovimiento) ==> o.result.Ok?
    ensures o.result.Err? ==> o.state == st && o.result.error in {NotFound, BadRequest}
    ensures o.result.Ok? ==>
      && st.HasTela(dto.telaId)
      && |o.state.telas| == |st.telas|
      && var id := dto.telaId;
      var antes, despues := st.telas[id], o.state.telas[id];
      && despues.stockReal == antes.stockReal + Delta(dto.tipoMovimiento, dto.cantidad)
      && despues.pesoIngresado == antes.pesoIngresado + Delta(dto.tipoMovimiento, dto.cantidad)
      && despues.(stockReal := antes.stockReal, pesoIngresado := antes.pesoIngresado) == antes
      && (RestaStock(dto.tipoMovimiento) ==> despues.stockReal >= 0 && despues.pesoIngresado >= 0)
      && (forall k :: 0 <= k < |st.telas| && k != id ==> o.state.telas[k] == st.telas[k])
    ensures o.result.Ok? ==>
      var m := o.result.value;
      && o.state.movimientos == st.movimientos + [m]
      && m.telaId == dto.telaId && m.areaOrigen == dto.areaOrigen && m.areaDestino == dto.areaDestino
      && m.cantidad == dto.cantidad && m.tipoMovimiento == dto.tipoMovimiento
      && m.referenciaDocumento == dto.referenciaDocumento
      && m.usuarioResponsable == Some(dto.usuarioResponsable)
      && m.observaciones == dto.observaciones && m.fechaMovimiento == now
      && m.estado == COMPLETADO
    ensures o.state.salidas == st.salidas && o.state.almacenes == st.almacenes
    ensures o.state.almacenTelas == st.almacenTelas
  {
    if !st.HasTela(dto.telaId) then Outcome(st, Err(NotFound))
    else
      var t := st.telas[dto.telaId];
      var c := dto.cantidad;
      if RestaStock(dto.tipoMovimiento) && (t.pesoIngresado < c || t.stockReal < c) then
        Outcome(st, Err(BadRequest))
      else
        var t' :=
          if RestaStock(dto.tipoMovimiento) then Disminuir(t, c)
          else if dto.tipoMovimiento == "ENTRADA" then Aumentar(t, c)
          else t;
        var m := Movimiento(dto.telaId, dto.areaOrigen, dto.areaDestino, c, now,
                            dto.tipoMovimiento, dto.referenciaDocumento,
                            Some(dto.usuarioResponsable), COMPLETADO, dto.observaciones);
        Outcome(st.(telas := st.telas[dto.telaId := t'], movimientos := st.movimientos + [m]), Ok(m))
  }

  /** registrarMovimiento on the database: the lot is loaded, its fields are
      updated in place, and the lot and the new movement are saved. */
  method RegistrarMovimiento(db: Database, dto: MovimientoTelaDTO, now: Timestamp) returns (r: Result<Movimiento>)
    modifies db
    ensures db.State() == Registrar(old(db.State()), dto, now).state
    ensures r == Registrar(old(db.State()), dto, now).result
  {
    if !(0 <= dto.telaId < |db.telas|) {
      return Err(NotFound);
    }
    var tela := new Tela.FromRow(db.telas[dto.telaId]);
    if RestaStock(dto.tipoMovimiento) {
      if tela.pesoIngresado < dto.cantidad || tela.stockReal < dto.cantidad {
        return Err(BadRequest);
      }
      tela.SetPesoIngresado(tela.pesoIngresado - dto.cantidad);
      tela.SetStockReal(tela.stockReal - dto.cantidad);
    } else if dto.tipoMovimiento == "ENTRADA" {
      tela.SetPesoIngresado(tela.pesoIngresado + dto.cantidad);
      tela.SetStockReal(tela.stockReal + dto.cantidad);
    }
    var m := Movimiento(dto.telaId, dto.areaOrigen, dto.areaDestino, dto.cantidad, now,
                        dto.tipoMovimiento, dto.referenciaDocumento,
                        Some(dto.usuarioResponsable), COMPLETADO, dto.observaciones);
    db.telas := db.telas[dto.telaId := tela.Row()];
    db.movimientos := db.movimientos + [m];
    r := Ok(m);
  }

  /** The observation the compensating record carries. */
  function ObservacionAnulacion(movimientoId: int, motivo: string): string {
    "Anulación de movimiento ID: " + IntToString(movimientoId) + ". Motivo: " + motivo
  }

  /** anularMovimiento. An empty result (Ok(None)) is the case where the
      movement's lot no longer resolves: the chain then completes empty and
      nothing is written. */
  function Anular(st: DbState, id: int, motivo: string, usuario: string, now: Timestamp): Outcome<Option<Movimiento>>
  {
    if !(0 <= id < |st.movimientos|) then Outcome(st, Err(NotFound))
    else
      var m := st.movimientos[id];
      if m.estado != COMPLETADO then Outcome(st, Err(BadRequest))
      else if !st.HasTela(m.telaId) then Outcome(st, Ok(None))
      else Revertir(st, id, motivo, usuario, now)
  }

  /** The part of anularMovimiento that runs once the COMPLETADO movement
      and its lot are loaded: the lot's stock moves back (an ENTRADA only
      when enough is left), the original is marked ANULADO and the mirrored
      record is appended. */
  function Revertir(st: DbState, id: int, motivo: string, usuario: string, now: Timestamp): Outcome<Option<Movimiento>>
    requires 0 <= id < |st.movimientos| && st.HasTela(st.movimientos[id].telaId)
  {
    var m := st.movimientos[id];
    var t := st.telas[m.telaId];
    var c := m.cantidad;
    if m.tipoMovimiento == "ENTRADA" && (t.stockReal < c || t.pesoIngresado < c) then
      Outcome(st, Err(BadRequest))
    else
      var t' :=
        if RestaStock(m.tipoMovimiento) then Aumentar(t, c)
        else if m.tipoMovimiento == "ENTRADA" then Disminuir(t, c)
        else t;
      var a := Movimiento(m.telaId, m.areaDestino, m.areaOrigen, c, now,
                          "ANULACION_" + m.tipoMovimiento, m.referenciaDocumento,
                          Some(usuario), COMPLETADO, Some(ObservacionAnulacion(id, motivo)));
      Outcome(st.(telas := st.telas[m.telaId := t'],
                  movimientos := st.movimientos[id := m.(estado := ANULADO)] + [a]),
              Ok(Some(a)))
  }

  /** What anularMovimiento promises: a missing or non-COMPLETADO movement
      is rejected with nothing written; otherwise the original is marked
      ANULADO, a mirrored compensating record is appended, and the lot's
      stock moves back by the original's delta, rejected only when an
      ENTRADA would leave too little stock. */
  lemma AnularSpec(st: DbState, id: int, motivo: string, usuario: string, now: Timestamp)
    ensures var o := Anular(st, id, motivo, usuario, now);
      !(0 <= id < |st.movimientos|) ==> o == Outcome(st, Err(NotFound))
    ensures var o := Anular(st, id, motivo, usuario, now);
      0 <= id < |st.movimientos| && st.movimientos[id].estado != COMPLETADO ==>
      o == Outcome(st, Err(BadRequest))
    ensures var o := Anular(st, id, motivo, usuario, now);
      o.result.Err? || o.result.value.None? ==> o.state == st
    ensures var o := Anular(st, id, motivo, usuario, now);
      o.result.Ok? && o.result.value.Some? ==>
      var m, a := st.movimientos[id], o.result.value.value;
      && m.estado == COMPLETADO
      && a.telaId == m.telaId
      && a.areaOrigen == m.areaDestino && a.areaDestino == m.areaOrigen
      && a.cantidad == m.cantidad && a.fechaMovimiento == now
      && a.tipoMovimiento == "ANULACION_" + m.tipoMovimiento
      && a.referenciaDocumento == m.referenciaDocumento
      && a.usuarioResponsable == Some(usuario)
      && a.estado == COMPLETADO
      && a.observaciones == Some(ObservacionAnulacion(id, motivo))
      && o.state.movimientos == st.movimientos[id := m.(estado := ANULADO)] + [a]
    ensures var o := Anular(st, id, motivo, usuario, now);
      o.result.Ok? && o.result.value.Some? ==>
      var m := st.movimientos[id];
      && st.HasTela(m.telaId)
      && |o.state.telas| == |st.telas|
      && var antes, despues := st.telas[m.telaId], o.state.telas[m.telaId];
      && despues.stockReal == antes.stockReal - Delta(m.tipoMovimiento, m.cantidad)
      && despues.pesoIngresado == antes.pesoIngresado - Delta(m.tipoMovimiento, m.cantidad)
      && despues.(stockReal := antes.stockReal, pesoIngresado := antes.pesoIngresado) == antes
      && (m.tipoMovimiento == "ENTRADA" ==> despues.stockReal >= 0 && despues.pesoIngresado >= 0)
      && (forall k :: 0 <= k < |st.telas| && k != m.telaId ==> o.state.telas[k] == st.telas[k])
    ensures var o := Anular(st, id, motivo, usuario, now);
      0 <= id < |st.movimientos| && st.movimientos[id].estado == COMPLETADO ==>
      var m := st.movimientos[id];
      (o.result.Err? <==>
        st.HasTela(m.telaId) && m.tipoMovimiento == "ENTRADA" &&
        (st.telas[m.telaId].stockReal < m.cantidad || st.telas[m.telaId].pesoIngresado < m.cantidad))
    ensures var o := Anular(st, id, motivo, usuario, now);
      0 <= id < |st.movimientos| && st.movimientos[id].estado == COMPLETADO ==>
      var m := st.movimientos[id];
      && (!st.HasTela(m.telaId) ==> o == Outcome(st, Ok(None)))
      && (st.HasTela(m.telaId) &&
          !(m.tipoMovimiento == "ENTRADA" &&
            (st.telas[m.telaId].stockReal < m.cantidad || st.telas[m.telaId].pesoIngresado < m.cantidad)) ==>
          o.result.Ok? && o.result.value.Some?)
    ensures var o := Anular(st, id, motivo, usuario, now);
      o.state.salidas == st.salidas && o.state.almacenes == st.almacenes
    ensures var o := Anular(st, id, motivo, usuario, now);
      o.state.almacenTelas == st.almacenTelas
  {
  }

  /** anularMovimiento on the database: the lot and the original movement
      are updated in place, then the lot, the original and the compensating
      record are saved in that order. */
  method AnularMovimiento(db: Database, id: int, motivo: string, usuario: string, now: Timestamp)
    returns (r: Result<Option<Movimiento>>)
    modifies db
    ensures db.State() == Anular(old(db.State()), id, motivo, usuario, now).state
    ensures r == Anular(old(db.State()), id, motivo, usuario, now).result
  {
    if !(0 <= id < |db.movimientos|) {
      return Err(NotFound);
    }
    var movimiento := db.movimientos[id];
    if movimiento.estado != COMPLETADO {
      return Err(BadRequest);
    }
    if !(0 <= movimiento.telaId < |db.telas|) {
      return Ok(None);
    }
    r := RevertirEnBase(db, id, motivo, usuario, now);
  }

  /** The lot and the original movement updated in place, then the lot, the
      original and the compensating record saved in that order. */
  method RevertirEnBase(db: Database, id: int, motivo: string, usuario: string, now: Timestamp)
    returns (r: Result<Option<Movimiento>>)
    requires 0 <= id < |db.movimientos| && 0 <= db.movimientos[id].telaId < |db.telas|
    modifies db
    ensures db.State() == Revertir(old(db.State()), id, motivo, usuario, now).state
    ensures r == Revertir(old(db.State()), id, motivo, usuario, now).result
  {
    var movimiento := db.movimientos[id];
    var tela := new Tela.FromRow(db.telas[movimiento.telaId]);
    var c := movimiento.cantidad;
    if RestaStock(movimiento.tipoMovimiento) {
      tela.SetStockReal(tela.stockReal + c);
      tela.SetPesoIngresado(tela.pesoIngresado + c);
    } else if movimiento.tipoMovimiento == "ENTRADA" {
      if tela.stockReal < c || tela.pesoIngresado < c {
        return Err(BadRequest);
      }
      tela.SetStockReal(tela.stockReal - c);
      tela.SetPesoIngresado(tela.pesoIngresado - c);
    }
    var anulacion := Movimiento(movimiento.telaId, movimiento.areaDestino, movimiento.areaOrigen, c, now,
                                "ANULACION_" + movimiento.tipoMovimiento, movimiento.referenciaDocumento,
                                Some(usuario), COMPLETADO, Some(ObservacionAnulacion(id, motivo)));
    var fila := tela.Row();
    movimiento := movimiento.(estado := ANULADO);
    // save(tela), save(movimiento), save(anulacion)
    var telas := db.telas[movimiento.telaId := fila];
    var movimientos := db.movimientos[id := movimiento] + [anulacion];
    db.telas, db.movimientos := telas, movimientos;
    r := Ok(Some(anulacion));
  }

  /** Registering a movement and then annulling it leaves the lot exactly as
      it was. Annulling an ENTRADA checks the stock again, which passes when
      the quantities were not negative to begin with. */
  lemma RegistrarAnularRestores(st: DbState, dto: MovimientoTelaDTO, now: Timestamp,
                                motivo: string, usuario: string, later: Timestamp)
    requires Registrar(st, dto, now).result.Ok?
    requires dto.tipoMovimiento == "ENTRADA" ==>
      st.telas[dto.telaId].stockReal >= 0 && st.telas[dto.telaId].pesoIngresado >= 0
    ensures var st1 := Registrar(st, dto, now).state;
      var o := Anular(st1, |st.movimientos|, motivo, usuario, later);
      && o.result.Ok? && o.result.value.Some?
      && o.state.telas == st.telas
  {
    var st1 := Registrar(st, dto, now).state;
    var o := Anular(st1, |st.movimientos|, motivo, usuario, later);
    assert st1.movimientos[|st.movimientos|] == Registrar(st, dto, now).result.value;
    var id := dto.telaId;
    assert o.state.telas[id] == st.telas[id];
    assert o.state.telas == st.telas;
  }

  /** A movement can be annulled once: the second attempt finds it ANULADO. */
  lemma AnularTwiceRejected(st: DbState, id: int, motivo: string, usuario: string, now: Timestamp,
                            motivo2: string, usuario2: string, later: Timestamp)
    requires Anular(st, id, motivo, usuario, now).result.Ok?
    requires Anular(st, id, motivo, usuario, now).result.value.Some?
    ensures Anular(Anular(st, id, motivo, usuario, now).state, id, motivo2, usuario2, later).result == Err(BadRequest)
  {
    var st1 := Anular(st, id, motivo, usuario, now).state;
    assert st1.movimientos[id].estado == ANULADO;
  }

  /** The compensating record is itself COMPLETADO and may be annulled in
      turn, but its type "ANULACION_..." is none of the stock-moving types,
      so annulling it leaves every lot untouched. */
  lemma AnularAnulacionKeepsStock(st: DbState, id: int, motivo: string, usuario: string, now: Timestamp,
                                  motivo2: string, usuario2: string, later: Timestamp)
    requires Anular(st, id, motivo, usuario, now).result.Ok?
    requires Anular(st, id, motivo, usuario, now).result.value.Some?
    ensures var st1 := Anular(st, id, motivo, usuario, now).state;
      var o := Anular(st1, |st.movimientos|, motivo2, usuario2, later);
      o.result.Ok? && o.state.telas == st1.telas
  {
    var st1 := Anular(st, id, motivo, usuario, now).state;
    var a := st1.movimientos[|st.movimientos|];
    assert a.tipoMovimiento == "ANULACION_" + st.movimientos[id].tipoMovimiento;
    assert a.tipoMovimiento[..10] == "ANULACION_";
    assert Delta(a.tipoMovimiento, a.cantidad) == 0;
  }

  // ---------------------------------------------------------------------
  // Paged search and statistics
  // ---------------------------------------------------------------------

  /** MovimientoTelaFiltroDTO. */
  datatype MovimientoFiltro = MovimientoFiltro(
    telaId: Option<int>,
    tipoMovimiento: Option<string>,
    areaOrigen: Option<string>,
    areaDestino: Option<string>,
    fechaInicio: Option<Timestamp>,
    fechaFin: Option<Timestamp>,
    usuarioResponsable: Option<string>,
    estado: Option<string>)

  /** The repository finder the search starts from. */
  datatype Criterio =
    | PorTela(telaId: int)
    | PorTipo(tipo: string)
    | PorOrigen(origen: string)
    | PorDestino(destino: string)
    | PorFecha(inicio: Timestamp, fin: Timestamp)
    | PorUsuario(usuario: string)
    | PorEstado(estado: string)
    | Todos

  /** The first criterion set, in the order lot, type, origin, destination,
      date range (both bounds needed), user, state. */
  function CriterioDe(f: MovimientoFiltro): (c: Criterio)
    ensures c.Todos? <==>
      f.telaId.None? && !Activo(f.tipoMovimiento) && !Activo(f.areaOrigen) && !Activo(f.areaDestino)
      && !(f.fechaInicio.Some? && f.fechaFin.Some?) && !Activo(f.usuarioResponsable) && !Activo(f.estado)
    ensures f.telaId.Some? ==> c == PorTela(f.telaId.value)
    ensures c.PorEstado? ==>
      && f.telaId.None? && !Activo(f.tipoMovimiento) && !Activo(f.areaOrigen)
      && !Activo(f.areaDestino) && !(f.fechaInicio.Some? && f.fechaFin.Some?)
      && !Activo(f.usuarioResponsable) && c.estado == f.estado.value
  {
    if f.telaId.Some? then PorTela(f.telaId.value)
    else if Activo(f.tipoMovimiento) then PorTipo(f.tipoMovimiento.value)
    else if Activo(f.areaOrigen) then PorOrigen(f.areaOrigen.value)
    else if Activo(f.areaDestino) then PorDestino(f.areaDestino.value)
    else if f.fechaInicio.Some? && f.fechaFin.Some? then PorFecha(f.fechaInicio.value, f.fechaFin.value)
    else if Activo(f.usuarioResponsable) then PorUsuario(f.usuarioResponsable.value)
    else if Activo(f.estado) then PorEstado(f.estado.value)
    else Todos
  }

  /** Whether the finder for `c` returns `m`; `Between` is inclusive. */
  predicate Cumple(c: Criterio, m: Movimiento) {
    match c
    case PorTela(id) => m.telaId == id
    case PorTipo(t) => m.tipoMovimiento == t
    case PorOrigen(a) => m.areaOrigen == a
    case PorDestino(a) => m.areaDestino == a
    case PorFecha(i, f) => i <= m.fechaMovimiento <= f
    case PorUsuario(u) => m.usuarioResponsable == Some(u)
    case PorEstado(e) => m.estado == e
    case Todos => true
  }

  /** LocalDateTime.compareTo, reversed: the most recent first. */
  function FechaDesc(m1: Movimiento, m2: Movimiento): int {
    m2.fechaMovimiento - m1.fechaMovimiento
  }

  lemma FechaDescAntisymmetric()
    ensures Antisymmetric(FechaDesc)
  {
  }

  /** In a sequence ordered by FechaDesc, every movement is at least as
      recent as every later one. */
  lemma {:induction false} SortedFechaDescAll(s: seq<Movimiento>, i: int, j: int)
    requires Sorted(s, FechaDesc)
    requires 0 <= i <= j < |s|
    ensures s[j].fechaMovimiento <= s[i].fechaMovimiento
    decreases j - i
  {
    if i < j {
      SortedFechaDescAll(s, i + 1, j);
      assert FechaDesc(s[i], s[i + 1]) <= 0;
    }
  }

  /** The movements the search pages through: the finder's rows in id order,
      or the whole ledger newest first when no criterion is set. */
  function Seleccion(movs: seq<Movimiento>, f: MovimientoFiltro): (r: seq<Movimiento>)
    ensures forall m :: m in r <==> m in movs && Cumple(CriterioDe(f), m)
    ensures CriterioDe(f).Todos? ==> multiset(r) == multiset(movs) && Sorted(r, FechaDesc)
  {
    var c := CriterioDe(f);
    if c.Todos? then
      SortFechaDesc(movs);
      Sort(movs, FechaDesc)
    else Filter(movs, m => Cumple(c, m))
  }

  /** The ledger newest first holds exactly the ledger's movements. */
  lemma SortFechaDesc(movs: seq<Movimiento>)
    ensures Sorted(Sort(movs, FechaDesc), FechaDesc)
    ensures forall m :: m in Sort(movs, FechaDesc) <==> m in movs
    ensures multiset(Sort(movs, FechaDesc)) == multiset(movs)
  {
    FechaDescAntisymmetric();
    SortSorted(movs, FechaDesc);
    var r := Sort(movs, FechaDesc);
    assert forall m :: m in r <==> m in multiset(r);
    assert forall m :: m in movs <==> m in multiset(movs);
  }

  /** A criterion higher in the order hides every lower one: the lot id alone
      decides the selection when it is set. */
  lemma SeleccionPorTelaIgnoresRest(movs: seq<Movimiento>, f: MovimientoFiltro, g: MovimientoFiltro)
    requires f.telaId.Some? && g.telaId == f.telaId
    ensures Seleccion(movs, f) == Seleccion(movs, g)
  {
  }

  /** The map buscarMovimientosPaginados returns. */
  datatype PaginaMovimientos = PaginaMovimientos(content: seq<Movimiento>, totalElements: int)

  /** buscarMovimientosPaginados: `totalElements` counts the whole selection
      and `content` is `skip(page * size).take(size)` of it. */
  function BuscarMovimientosPaginados(movs: seq<Movimiento>, f: MovimientoFiltro, page: int, size: int)
    : (r: Result<PaginaMovimientos>)
    requires IsInt(page) && IsInt(size)
    ensures r.Err? <==> WrapInt(page * size) < 0 || size < 0
    ensures r.Ok? ==> r.value.totalElements == |Seleccion(movs, f)|
    ensures r.Ok? ==> forall m :: m in r.value.content ==> m in movs && Cumple(CriterioDe(f), m)
  {
    var sel := Seleccion(movs, f);
    match Pagina(sel, page, size)
    case Err(e) => Err(e)
    case Ok(content) =>
      assert forall k :: 0 <= k < |content| ==> content[k] in sel;
      Ok(PaginaMovimientos(content, |sel|))
  }

  /** A request with a non-negative page, a positive size and no overflow
      gets the slice of at most `size` movements starting at `page * size`,
      and that slice is empty exactly past the last page. */
  lemma BuscarMovimientosPage(movs: seq<Movimiento>, f: MovimientoFiltro, page: int, size: int)
    requires IsInt(page) && IsInt(size) && IsInt(page * size)
    requires page >= 0 && size > 0
    ensures var r, sel := BuscarMovimientosPaginados(movs, f, page, size), Seleccion(movs, f);
      && r.Ok? && |r.value.content| <= size
      && r.value.content == (if page * size >= |sel| then [] else sel[page * size..Min(page * size + size, |sel|)])
      && (|r.value.content| > 0 <==> page < TotalPaginas(r.value.totalElements, size))
  {
    var sel := Seleccion(movs, f);
    PaginaSlice(sel, page, size);
    PaginaNonEmptyIff(sel, page, size);
  }

  /** The map obtenerEstadisticas returns. */
  datatype Estadisticas = Estadisticas(
    totalMovimientos: int,
    ultimosMovimientos: seq<Movimiento>,
    movimientosPorTipo: map<string, int>)

  /** The movement types present in the ledger. */
  function Tipos(movs: seq<Movimiento>): set<string> {
    set m | m in movs :: m.tipoMovimiento
  }

  /** The number of movements of type `t`. */
  function ContarTipo(movs: seq<Movimiento>, t: string): int {
    Count(movs, (m: Movimiento) => m.tipoMovimiento == t)
  }

  /** obtenerEstadisticas: the ledger size, the ten most recent movements
      and the number of movements of each type. */
  function ObtenerEstadisticas(movs: seq<Movimiento>): Estadisticas {
    var ordenados := Sort(movs, FechaDesc);
    var ultimos := ordenados[..Min(10, |movs|)];
    var porTipo := map t | t in Tipos(movs) :: ContarTipo(movs, t);
    Estadisticas(|movs|, ultimos, porTipo)
  }

  /** The ten latest movements are taken from the ledger, newest first. */
  lemma UltimosSpec(movs: seq<Movimiento>)
    ensures var u := ObtenerEstadisticas(movs).ultimosMovimientos;
      && |u| == Min(10, |movs|)
      && multiset(u) <= multiset(movs)
      && forall i, j :: 0 <= i <= j < |u| ==> u[j].fechaMovimiento <= u[i].fechaMovimiento
  {
    var ordenados := Sort(movs, FechaDesc);
    SortFechaDesc(movs);
    SortedFechaDescPairs(ordenados);
    var k := Min(10, |movs|);
    assert ordenados == ordenados[..k] + ordenados[k..];
  }

  /** The per-type map has exactly the types present in the ledger, each
      mapped to its count, which is at least one. */
  lemma PorTipoSpec(movs: seq<Movimiento>)
    ensures var p := ObtenerEstadisticas(movs).movimientosPorTipo;
      && (forall t :: t in p <==> exists m :: m in movs && m.tipoMovimiento == t)
      && (forall t :: t in p ==> p[t] == ContarTipo(movs, t) && p[t] >= 1)
  {
    CountTiposPositive(movs);
  }

  /** obtenerEstadisticas reports the ledger size, the min(10, n) newest
      movements and the count of each type present. */
  lemma ObtenerEstadisticasSpec(movs: seq<Movimiento>)
    ensures var e := ObtenerEstadisticas(movs);
      && e.totalMovimientos == |movs|
      && |e.ultimosMovimientos| == Min(10, |movs|)
      && multiset(e.ultimosMovimientos) <= multiset(movs)
      && (forall i, j :: 0 <= i <= j < |e.ultimosMovimientos| ==>
            e.ultimosMovimientos[j].fechaMovimiento <= e.ultimosMovimientos[i].fechaMovimiento)
      && (forall t :: t in e.movimientosPorTipo <==> exists m :: m in movs && m.tipoMovimiento == t)
      && (forall t :: t in e.movimientosPorTipo ==>
            e.movimientosPorTipo[t] == ContarTipo(movs, t) && e.movimientosPorTipo[t] >= 1)
  {
    UltimosSpec(movs);
    PorTipoSpec(movs);
  }

  lemma SortedFechaDescPairs(s: seq<Movimiento>)
    requires Sorted(s, FechaDesc)
    ensures forall i, j :: 0 <= i <= j < |s| ==> s[j].fechaMovimiento <= s[i].fechaMovimiento
  {
    forall i, j | 0 <= i <= j < |s|
      ensures s[j].fechaMovimiento <= s[i].fechaMovimiento
    {
      SortedFechaDescAll(s, i, j);
    }
  }

  /** Every type present in the ledger is counted at least once. */
  lemma CountTiposPositive(movs: seq<Movimiento>)
    ensures forall t :: t in Tipos(movs) ==> ContarTipo(movs, t) >= 1
  {
    forall t | t in Tipos(movs)
      ensures ContarTipo(movs, t) >= 1
    {
      var m :| m in movs && m.tipoMovimiento == t;
      assert m in Filter(movs, (m: Movimiento) => m.tipoMovimiento == t);
    }
  }

  /** The ten movements reported as the latest are at least as recent as
      every movement left out of them. */
  lemma UltimosAreMostRecent(movs: seq<Movimiento>, i: int, j: int)
    requires 0 <= i < Min(10, |movs|) <= j < |movs|
    ensures Sort(movs, FechaDesc)[j].fechaMovimiento <= ObtenerEstadisticas(movs).ultimosMovimientos[i].fechaMovimiento
  {
    FechaDescAntisymmetric();
    SortSorted(movs, FechaDesc);
    SortedFechaDescAll(Sort(movs, FechaDesc), i, j);
  }
}
