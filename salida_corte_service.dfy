/** SalidaCorteService: issuing fabric from a lot to a cutting service,
    reversing an issuance, and recording the quantity actually consumed.
    An issuance is created COMPLETADO; the only state change is
    COMPLETADO -> ANULADO. Every stock change is paired with a movement
    record in the general ledger. */
module SalidaCorteService {
  import opened Common
  import opened Text
  import opened Sorting
  import opened Paginacion
  import opened TelaEntity
  import opened Entities
  import opened Store

  const AREA_ALMACEN: string := "ALMACEN"
  const TIPO_MOVIMIENTO_SALIDA: string := "SALIDA"
  const TIPO_MOVIMIENTO_ANULACION: string := "ANULACION"
  const TIPO_MOVIMIENTO_DEVOLUCION: string := "DEVOLUCION_SOBRANTE"

  /** The validated request body of registrarSalidaCorte. */
  datatype SalidaCorteDTO = SalidaCorteDTO(
    telaId: int,
    servicioCorte: string,
    fechaSalida: Date,
    notaSalida: string,
    op: string,
    salidaCorte: Decimal,
    areaDestino: string,
    usuarioResponsable: Option<string>)

  /** registrarSalidaCorte. The new issuance takes the next id of its table,
      and the movement refers to it by that id. */
  function Registrar(st: DbState, dto: SalidaCorteDTO, now: Timestamp): (o: Outcome<SalidaCorte>)
    ensures !st.HasTela(dto.telaId) ==> o == Outcome(st, Err(ResourceNotFound))
    ensures st.HasTela(dto.telaId) ==>
      (o.result == Err(InsufficientStock) <==>
        st.telas[dto.telaId].pesoIngresado < dto.salidaCorte || st.telas[dto.telaId].stockReal < dto.salidaCorte)
    ensures st.HasTela(dto.telaId) ==>
      st.telas[dto.telaId].pesoIngresado >= dto.salidaCorte && st.telas[dto.telaId].stockReal >= dto.salidaCorte ==>
      o.result.Ok?
    ensures o.result.Err? ==> o.state == st
    ensures o.result.Ok? ==>
      && st.HasTela(dto.telaId)
      && |o.state.telas| == |st.telas|
      && o.state.telas[dto.telaId] == Disminuir(st.telas[dto.telaId], dto.salidaCorte)
      && o.state.telas[dto.telaId].stockReal >= 0 && o.state.telas[dto.telaId].pesoIngresado >= 0
      && (forall k :: 0 <= k < |st.telas| && k != dto.telaId ==> o.state.telas[k] == st.telas[k])
    ensures o.result.Ok? ==>
      var s := o.result.value;
      && o.state.salidas == st.salidas + [s]
      && s.telaId == dto.telaId && s.salidaCorte == dto.salidaCorte && s.estado == COMPLETADO
      && s.areaDestino == dto.areaDestino && s.op == dto.op && s.notaSalida == dto.notaSalida
      && s.servicioCorte == dto.servicioCorte && s.fechaSalida == dto.fechaSalida
      && s.usuarioResponsable == dto.usuarioResponsable
      && s.fechaRegistro == now && s.fechaActualizacion == now
    ensures o.result.Ok? ==>
      |o.state.movimientos| == |st.movimientos| + 1 &&
      var m := o.state.movimientos[|st.movimientos|];
      && o.state.movimientos[..|st.movimientos|] == st.movimientos
      && m.telaId == dto.telaId && m.areaOrigen == AREA_ALMACEN && m.areaDestino == dto.areaDestino
      && m.cantidad == dto.salidaCorte && m.fechaMovimiento == now && m.tipoMovimiento == TIPO_MOVIMIENTO_SALIDA
      && m.referenciaDocumento == Some(IntToString(|st.salidas|))
      && m.usuarioResponsable == dto.usuarioResponsable
      && m.estado == COMPLETADO
      && m.observaciones == Some("OP: " + dto.op + ", Nota: " + dto.notaSalida)
    ensures o.state.almacenes == st.almacenes && o.state.almacenTelas == st.almacenTelas
  {
    if !st.HasTela(dto.telaId) then Outcome(st, Err(ResourceNotFound))
    else
      var t := st.telas[dto.telaId];
      var q := dto.salidaCorte;
      if t.pesoIngresado < q || t.stockReal < q then Outcome(st, Err(InsufficientStock))
      else
        var s := SalidaCorte(dto.telaId, dto.servicioCorte, dto.fechaSalida, dto.notaSalida, dto.op,
                             q, dto.areaDestino, COMPLETADO, dto.usuarioResponsable, now, now);
        var m := Movimiento(dto.telaId, AREA_ALMACEN, dto.areaDestino, q, now, TIPO_MOVIMIENTO_SALIDA,
                            Some(IntToString(|st.salidas|)), dto.usuarioResponsable, COMPLETADO,
                            Some("OP: " + dto.op + ", Nota: " + dto.notaSalida));
        Outcome(st.(telas := st.telas[dto.telaId := Disminuir(t, q)],
                    salidas := st.salidas + [s],
                    movimientos := st.movimientos + [m]),
                Ok(s))
  }

  /** registrarSalidaCorte on the database: the issuance is saved, then the
      lot (decreased in place by disminuirStock) and the SALIDA movement. */
  method RegistrarSalidaCorte(db: Database, dto: SalidaCorteDTO, now: Timestamp) returns (r: Result<SalidaCorte>)
    modifies db
    ensures db.State() == Registrar(old(db.State()), dto, now).state
    ensures r == Registrar(old(db.State()), dto, now).result
  {
    if !(0 <= dto.telaId < |db.telas|) {
      return Err(ResourceNotFound);
    }
    var tela := new Tela.FromRow(db.telas[dto.telaId]);
    if tela.pesoIngresado < dto.salidaCorte || tela.stockReal < dto.salidaCorte {
      return Err(InsufficientStock);
    }
    var salida := SalidaCorte(dto.telaId, dto.servicioCorte, dto.fechaSalida, dto.notaSalida, dto.op,
                              dto.salidaCorte, dto.areaDestino, COMPLETADO, dto.usuarioResponsable, now, now);
    tela.DisminuirStock(dto.salidaCorte);
    var salidaId := |db.salidas|;
    db.salidas := db.salidas + [salida];
    var movimiento := Movimiento(dto.telaId, AREA_ALMACEN, dto.areaDestino, dto.salidaCorte, now,
                                 TIPO_MOVIMIENTO_SALIDA, Some(IntToString(salidaId)),
                                 dto.usuarioResponsable, COMPLETADO,
                                 Some("OP: " + dto.op + ", Nota: " + dto.notaSalida));
    db.telas := db.telas[dto.telaId := tela.Row()];
    db.movimientos := db.movimientos + [movimiento];
    r := Ok(salida);
  }

  /** anularSalidaCorte. Ok(None) is the empty completion when the
      issuance's lot no longer resolves; nothing is written then. */
  function Anular(st: DbState, id: int, motivo: string, usuario: string, now: Timestamp): (o: Outcome<Option<SalidaCorte>>)
    ensures !(0 <= id < |st.salidas|) ==> o == Outcome(st, Err(ResourceNotFound))
    ensures 0 <= id < |st.salidas| && st.salidas[id].estado != COMPLETADO ==>
      o == Outcome(st, Err(InvalidOperation))
    ensures 0 <= id < |st.salidas| && st.salidas[id].estado == COMPLETADO ==>
      if st.HasTela(st.salidas[id].telaId) then o.result.Ok? && o.result.value.Some?
      else o == Outcome(st, Ok(None))
    ensures o.result.Err? || o.result.value.None? ==> o.state == st
    ensures o.result.Ok? && o.result.value.Some? ==>
      var s := st.salidas[id];
      && st.HasTela(s.telaId)
      && |o.state.telas| == |st.telas|
      && o.state.telas[s.telaId] == Aumentar(st.telas[s.telaId], s.salidaCorte)
      && (forall k :: 0 <= k < |st.telas| && k != s.telaId ==> o.state.telas[k] == st.telas[k])
      && o.result.value.value == s.(estado := ANULADO, fechaActualizacion := now)
      && o.state.salidas == st.salidas[id := o.result.value.value]
    ensures o.result.Ok? && o.result.value.Some? ==>
      var s := st.salidas[id];
      |o.state.movimientos| == |st.movimientos| + 1 &&
      var m := o.state.movimientos[|st.movimientos|];
      && o.state.movimientos[..|st.movimientos|] == st.movimientos
      && m.telaId == s.telaId && m.areaOrigen == s.areaDestino && m.areaDestino == AREA_ALMACEN
      && m.cantidad == s.salidaCorte && m.fechaMovimiento == now && m.tipoMovimiento == TIPO_MOVIMIENTO_ANULACION
      && m.referenciaDocumento == Some(IntToString(id)) && m.usuarioResponsable == Some(usuario)
      && m.estado == COMPLETADO && m.observaciones == Some("Anulación: " + motivo)
    ensures o.state.almacenes == st.almacenes && o.state.almacenTelas == st.almacenTelas
  {
    if !(0 <= id < |st.salidas|) then Outcome(st, Err(ResourceNotFound))
    else
      var s := st.salidas[id];
      if s.estado != COMPLETADO then Outcome(st, Err(InvalidOperation))
      else if !st.HasTela(s.telaId) then Outcome(st, Ok(None))
      else
        var m := Movimiento(s.telaId, s.areaDestino, AREA_ALMACEN, s.salidaCorte, now,
                            TIPO_MOVIMIENTO_ANULACION, Some(IntToString(id)), Some(usuario),
                            COMPLETADO, Some("Anulación: " + motivo));
        var s' := s.(estado := ANULADO, fechaActualizacion := now);
        Outcome(st.(telas := st.telas[s.telaId := Aumentar(st.telas[s.telaId], s.salidaCorte)],
                    movimientos := st.movimientos + [m],
                    salidas := st.salidas[id := s']),
                Ok(Some(s')))
  }

  /** anularSalidaCorte on the database: the lot is increased in place by
      aumentarStock, the issuance is marked ANULADO, and the lot, the
      ANULACION movement and the issuance are saved. */
  method AnularSalidaCorte(db: Database, id: int, motivo: string, usuario: string, now: Timestamp)
    returns (r: Result<Option<SalidaCorte>>)
    modifies db
    ensures db.State() == Anular(old(db.State()), id, motivo, usuario, now).state
    ensures r == Anular(old(db.State()), id, motivo, usuario, now).result
  {
    if !(0 <= id < |db.salidas|) {
      return Err(ResourceNotFound);
    }
    var salida := db.salidas[id];
    if salida.estado != COMPLETADO {
      return Err(InvalidOperation);
    }
    if !(0 <= salida.telaId < |db.telas|) {
      return Ok(None);
    }
    var tela := new Tela.FromRow(db.telas[salida.telaId]);
    tela.AumentarStock(salida.salidaCorte);
    var anulacion := Movimiento(salida.telaId, salida.areaDestino, AREA_ALMACEN, salida.salidaCorte, now,
                                TIPO_MOVIMIENTO_ANULACION, Some(IntToString(id)), Some(usuario),
                                COMPLETADO, Some("Anulación: " + motivo));
    salida := salida.(estado := ANULADO, fechaActualizacion := now);
    db.telas := db.telas[salida.telaId := tela.Row()];
    db.movimientos := db.movimientos + [anulacion];
    db.salidas := db.salidas[id := salida];
    r := Ok(Some(salida));
  }

  /** registrarConsumoReal. The non-positive quantity is rejected before any
      lookup. A leftover goes back to the lot and the issuance is rewritten
      to the quantity consumed; an exact consumption changes nothing. */
  function RegistrarConsumo(st: DbState, id: int, consumoReal: Decimal, observacion: Option<string>,
                            usuario: string, now: Timestamp): (o: Outcome<Option<SalidaCorte>>)
    ensures consumoReal <= 0 ==> o == Outcome(st, Err(InvalidOperation))
    ensures consumoReal > 0 && !(0 <= id < |st.salidas|) ==> o == Outcome(st, Err(ResourceNotFound))
    ensures consumoReal > 0 && 0 <= id < |st.salidas| ==>
      (o.result.Err? <==> st.salidas[id].estado != COMPLETADO || consumoReal > st.salidas[id].salidaCorte)
    ensures o.result.Err? ==> o.state == st && o.result.error in {InvalidOperation, ResourceNotFound}
    ensures o.result.Ok? && consumoReal == st.salidas[id].salidaCorte ==>
      o == Outcome(st, Ok(Some(st.salidas[id])))
    ensures 0 < consumoReal && 0 <= id < |st.salidas| && st.salidas[id].estado == COMPLETADO ==>
      consumoReal < st.salidas[id].salidaCorte && !st.HasTela(st.salidas[id].telaId) ==>
      o == Outcome(st, Ok(None))
    ensures 0 < consumoReal && 0 <= id < |st.salidas| && st.salidas[id].estado == COMPLETADO ==>
      consumoReal < st.salidas[id].salidaCorte && st.HasTela(st.salidas[id].telaId) ==>
      var s := st.salidas[id];
      var sobrante := s.salidaCorte - consumoReal;
      && o.result == Ok(Some(s.(salidaCorte := consumoReal, fechaActualizacion := now)))
      && |o.state.telas| == |st.telas|
      && o.state.telas[s.telaId] == Aumentar(st.telas[s.telaId], sobrante)
      && (forall k :: 0 <= k < |st.telas| && k != s.telaId ==> o.state.telas[k] == st.telas[k])
      && o.state.salidas == st.salidas[id := s.(salidaCorte := consumoReal, fechaActualizacion := now)]
      && o.state.movimientos == st.movimientos + [
           Movimiento(s.telaId, s.areaDestino, AREA_ALMACEN, sobrante, now, TIPO_MOVIMIENTO_DEVOLUCION,
                      Some(IntToString(id)), Some(usuario), COMPLETADO,
                      Some("Devolución de sobrante. " + JavaString(observacion)))]
    ensures o.result.Ok? ==> o.state.salidas[id].estado == COMPLETADO
    ensures o.state.almacenes == st.almacenes && o.state.almacenTelas == st.almacenTelas
  {
    if consumoReal <= 0 then Outcome(st, Err(InvalidOperation))
    else if !(0 <= id < |st.salidas|) then Outcome(st, Err(ResourceNotFound))
    else
      var s := st.salidas[id];
      if s.estado != COMPLETADO then Outcome(st, Err(InvalidOperation))
      else if consumoReal > s.salidaCorte then Outcome(st, Err(InvalidOperation))
      else
        var sobrante := s.salidaCorte - consumoReal;
        if sobrante > 0 then
          if !st.HasTela(s.telaId) then Outcome(st, Ok(None))
          else
            var m := Movimiento(s.telaId, s.areaDestino, AREA_ALMACEN, sobrante, now, TIPO_MOVIMIENTO_DEVOLUCION,
                                Some(IntToString(id)), Some(usuario), COMPLETADO,
                                Some("Devolución de sobrante. " + JavaString(observacion)));
            var s' := s.(salidaCorte := consumoReal, fechaActualizacion := now);
            Outcome(st.(telas := st.telas[s.telaId := Aumentar(st.telas[s.telaId], sobrante)],
                        movimientos := st.movimientos + [m],
                        salidas := st.salidas[id := s']),
                    Ok(Some(s')))
        else Outcome(st, Ok(Some(s)))
  }

  /** registrarConsumoReal on the database. */
  method RegistrarConsumoReal(db: Database, id: int, consumoReal: Decimal, observacion: Option<string>,
                              usuario: string, now: Timestamp) returns (r: Result<Option<SalidaCorte>>)
    modifies db
    ensures db.State() == RegistrarConsumo(old(db.State()), id, consumoReal, observacion, usuario, now).state
    ensures r == RegistrarConsumo(old(db.State()), id, consumoReal, observacion, usuario, now).result
  {
    if consumoReal <= 0 {
      return Err(InvalidOperation);
    }
    if !(0 <= id < |db.salidas|) {
      return Err(ResourceNotFound);
    }
    var salida := db.salidas[id];
    if salida.estado != COMPLETADO {
      return Err(InvalidOperation);
    }
    if consumoReal > salida.salidaCorte {
      return Err(InvalidOperation);
    }
    var sobrante := salida.salidaCorte - consumoReal;
    if sobrante > 0 {
      if !(0 <= salida.telaId < |db.telas|) {
        return Ok(None);
      }
      var tela := new Tela.FromRow(db.telas[salida.telaId]);
      tela.AumentarStock(sobrante);
      var devolucion := Movimiento(salida.telaId, salida.areaDestino, AREA_ALMACEN, sobrante, now,
                                   TIPO_MOVIMIENTO_DEVOLUCION, Some(IntToString(id)), Some(usuario),
                                   COMPLETADO, Some("Devolución de sobrante. " + JavaString(observacion)));
      salida := salida.(salidaCorte := consumoReal, fechaActualizacion := now);
      db.telas := db.telas[salida.telaId := tela.Row()];
      db.movimientos := db.movimientos + [devolucion];
      db.salidas := db.salidas[id := salida];
      r := Ok(Some(salida));
    } else {
      r := Ok(Some(salida));
    }
  }

  // ---------------------------------------------------------------------
  // The issuance life cycle
  // ---------------------------------------------------------------------

  /** One call of registrarConsumoReal on a given issuance. */
  datatype Correccion = Correccion(consumoReal: Decimal, observacion: Option<string>, usuario: string, now: Timestamp)

  /** The tables after applying the corrections in order to issuance `id`,
      whether each one succeeds or not. */
  function AplicarCorrecciones(st: DbState, id: int, cs: seq<Correccion>): DbState
    decreases |cs|
  {
    if cs == [] then st
    else
      var c := cs[0];
      AplicarCorrecciones(RegistrarConsumo(st, id, c.consumoReal, c.observacion, c.usuario, c.now).state, id, cs[1..])
  }

  /** While issuance `id` of lot `t` is pending, the lot is exactly its
      pre-issue row less the issuance's current quantity, and every other lot
      is as before the issue. */
  predicate Pendiente(st: DbState, antes: seq<TelaRow>, id: int, t: int) {
    && 0 <= id < |st.salidas|
    && st.salidas[id].estado == COMPLETADO
    && st.salidas[id].telaId == t
    && 0 <= t < |st.telas| == |antes|
    && st.telas[t] == Disminuir(antes[t], st.salidas[id].salidaCorte)
    && (forall k :: 0 <= k < |antes| && k != t ==> st.telas[k] == antes[k])
  }

  /** A consumption correction keeps the issuance pending and the lot equal
      to its pre-issue row less what is still issued. */
  lemma CorreccionKeepsPendiente(st: DbState, antes: seq<TelaRow>, id: int, t: int, c: Correccion)
    requires Pendiente(st, antes, id, t)
    ensures Pendiente(RegistrarConsumo(st, id, c.consumoReal, c.observacion, c.usuario, c.now).state, antes, id, t)
  {
    var o := RegistrarConsumo(st, id, c.consumoReal, c.observacion, c.usuario, c.now);
    if o.state != st {
      var q := st.salidas[id].salidaCorte;
      assert o.state.salidas[id].salidaCorte == c.consumoReal;
      assert o.state.telas[t] == Aumentar(Disminuir(antes[t], q), q - c.consumoReal);
    }
  }

  lemma {:induction false} CorreccionesKeepPendiente(st: DbState, antes: seq<TelaRow>, id: int, t: int, cs: seq<Correccion>)
    requires Pendiente(st, antes, id, t)
    ensures Pendiente(AplicarCorrecciones(st, id, cs), antes, id, t)
    decreases |cs|
  {
    if cs != [] {
      var c := cs[0];
      CorreccionKeepsPendiente(st, antes, id, t, c);
      CorreccionesKeepPendiente(RegistrarConsumo(st, id, c.consumoReal, c.observacion, c.usuario, c.now).state,
                                antes, id, t, cs[1..]);
    }
  }

  /** Issuing fabric, recording any number of consumption corrections on the
      issuance, and then reversing it leaves every lot exactly as it was
      before the issue: the reversal gives back the issuance's current
      quantity, which is what the corrections have not already returned. */
  lemma IssueCorrectReverseRestoresStock(st: DbState, dto: SalidaCorteDTO, now: Timestamp,
                                         cs: seq<Correccion>, motivo: string, usuario: string, later: Timestamp)
    requires Registrar(st, dto, now).result.Ok?
    ensures var id := |st.salidas|;
      var st2 := AplicarCorrecciones(Registrar(st, dto, now).state, id, cs);
      var o := Anular(st2, id, motivo, usuario, later);
      && o.result.Ok? && o.result.value.Some?
      && o.state.telas == st.telas
      && o.state.salidas[id].estado == ANULADO
  {
    var id := |st.salidas|;
    var st1 := Registrar(st, dto, now).state;
    assert Pendiente(st1, st.telas, id, dto.telaId);
    CorreccionesKeepPendiente(st1, st.telas, id, dto.telaId, cs);
    var st2 := AplicarCorrecciones(st1, id, cs);
    var o := Anular(st2, id, motivo, usuario, later);
    assert o.state.telas[dto.telaId] == Aumentar(Disminuir(st.telas[dto.telaId], st2.salidas[id].salidaCorte),
                                                st2.salidas[id].salidaCorte);
    assert o.state.telas == st.telas;
  }

  /** An issuance is reversed at most once, and takes no correction after
      its reversal. */
  lemma AnuladaIsFinal(st: DbState, id: int, motivo: string, usuario: string, now: Timestamp,
                       motivo2: string, c: Correccion)
    requires Anular(st, id, motivo, usuario, now).result.Ok?
    requires Anular(st, id, motivo, usuario, now).result.value.Some?
    ensures var st1 := Anular(st, id, motivo, usuario, now).state;
      && Anular(st1, id, motivo2, c.usuario, c.now).result == Err(InvalidOperation)
      && RegistrarConsumo(st1, id, c.consumoReal, c.observacion, c.usuario, c.now).result == Err(InvalidOperation)
  {
    var st1 := Anular(st, id, motivo, usuario, now).state;
    assert st1.salidas[id].estado == ANULADO;
  }

  // ---------------------------------------------------------------------
  // Paged search
  // ---------------------------------------------------------------------

  /** The repository finder buscarSalidasPaginadas starts from. */
  datatype CriterioSalida =
    | PorOp(op: string)
    | PorArea(area: string)
    | PorFecha(inicio: Date, fin: Date)
    | Todas

  /** The first criterion set, in the order OP, destination area, date
      range (both bounds needed). */
  function CriterioSalidaDe(op: Option<string>, areaDestino: Option<string>,
                            fechaInicio: Option<Date>, fechaFin: Option<Date>): CriterioSalida
  {
    if op.Some? && op.value != "" then PorOp(op.value)
    else if areaDestino.Some? && areaDestino.value != "" then PorArea(areaDestino.value)
    else if fechaInicio.Some? && fechaFin.Some? then PorFecha(fechaInicio.value, fechaFin.value)
    else Todas
  }

  predicate CumpleSalida(c: CriterioSalida, s: SalidaCorte) {
    match c
    case PorOp(op) => s.op == op
    case PorArea(a) => s.areaDestino == a
    case PorFecha(i, f) => i <= s.fechaSalida <= f
    case Todas => true
  }

  /** LocalDateTime.compareTo on the registration time, reversed. */
  function RegistroDesc(s1: SalidaCorte, s2: SalidaCorte): int {
    s2.fechaRegistro - s1.fechaRegistro
  }

  lemma SortRegistroDesc(salidas: seq<SalidaCorte>)
    ensures Sorted(Sort(salidas, RegistroDesc), RegistroDesc)
    ensures forall s :: s in Sort(salidas, RegistroDesc) <==> s in salidas
    ensures multiset(Sort(salidas, RegistroDesc)) == multiset(salidas)
  {
    assert Antisymmetric(RegistroDesc);
    SortSorted(salidas, RegistroDesc);
    var r := Sort(salidas, RegistroDesc);
    assert forall s :: s in r <==> s in multiset(r);
    assert forall s :: s in salidas <==> s in multiset(salidas);
  }

  /** The issuances the search pages through. */
  function SeleccionSalidas(salidas: seq<SalidaCorte>, c: CriterioSalida): (r: seq<SalidaCorte>)
    ensures forall s :: s in r <==> s in salidas && CumpleSalida(c, s)
    ensures c.Todas? ==> |r| == |salidas| && multiset(r) == multiset(salidas) && Sorted(r, RegistroDesc)
  {
    if c.Todas? then
      SortRegistroDesc(salidas);
      Sort(salidas, RegistroDesc)
    else Filter(salidas, s => CumpleSalida(c, s))
  }

  /** The map buscarSalidasPaginadas returns. */
  datatype PaginaSalidas = PaginaSalidas(content: seq<SalidaCorte>, totalElements: int)

  /** buscarSalidasPaginadas: `skip(page * size).take(size)` of the
      selection, with the selection's size as `totalElements`. */
  function BuscarSalidasPaginadas(salidas: seq<SalidaCorte>, op: Option<string>, areaDestino: Option<string>,
                                  fechaInicio: Option<Date>, fechaFin: Option<Date>, page: int, size: int)
    : (r: Result<PaginaSalidas>)
    requires IsInt(page) && IsInt(size)
    ensures r.Err? <==> WrapInt(page * size) < 0 || size < 0
    ensures var c := CriterioSalidaDe(op, areaDestino, fechaInicio, fechaFin);
      r.Ok? ==>
      && r.value.totalElements == |SeleccionSalidas(salidas, c)|
      && (forall s :: s in r.value.content ==> s in salidas && CumpleSalida(c, s))
    ensures page >= 0 && size > 0 && IsInt(page * size) ==>
      var sel := SeleccionSalidas(salidas, CriterioSalidaDe(op, areaDestino, fechaInicio, fechaFin));
      && r.Ok? && |r.value.content| <= size
      && r.value.content == (if page * size >= |sel| then [] else sel[page * size..Min(page * size + size, |sel|)])
  {
    var sel := SeleccionSalidas(salidas, CriterioSalidaDe(op, areaDestino, fechaInicio, fechaFin));
    match Pagina(sel, page, size)
    case Err(e) => Err(e)
    case Ok(content) =>
      assert forall k :: 0 <= k < |content| ==> content[k] in sel;
      PaginaSliceIfInRange(sel, page, size);
      Ok(PaginaSalidas(content, |sel|))
  }

  lemma PaginaSliceIfInRange(sel: seq<SalidaCorte>, page: int, size: int)
    requires IsInt(page) && IsInt(size)
    ensures page >= 0 && size > 0 && IsInt(page * size) ==>
      && Pagina(sel, page, size).Ok? && |Pagina(sel, page, size).value| <= size
      && Pagina(sel, page, size).value ==
           (if page * size >= |sel| then [] else sel[page * size..Min(page * size + size, |sel|)])
  {
    if page >= 0 && size > 0 && IsInt(page * size) {
      PaginaSlice(sel, page, size);
    }
  }
}
