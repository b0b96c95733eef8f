/** TelaImportacionService: importing lots from a spreadsheet into one
    warehouse. Each data row is validated and mapped to a lot; failing rows
    are counted with one message each; the lots that pass get the
    warehouse's name when they have none, are saved, and each gets one
    ACTIVO relation to the warehouse. Reading cells from the workbook is not
    modelled: a row arrives with its cells already converted. */
module TelaImportacionService {
  import opened Common
  import opened Text
  import opened TelaEntity
  import opened Entities
  import opened Store

  const ESTADO_ACTIVO: string := "ACTIVO"
  const MSG_NUM_GUIA: string := "El número de guía es obligatorio"
  const MSG_PROVEEDOR: string := "El proveedor es obligatorio"
  const MSG_FECHA: string := "La fecha de ingreso es obligatoria"
  const MSG_ROLLOS: string := "La cantidad de rollos debe ser mayor a cero"
  const MSG_PESO: string := "El peso ingresado debe ser mayor a cero"
  const MSG_VALIDACION: string := "Error en la validación de datos: "
  const MSG_SIN_DATOS: string := "El archivo no contiene datos para importar"

  /** One spreadsheet row as its fifteen cells convert: text cells are null
      when the cell is missing, the roll count is already an int (0 when
      missing), and a decimal cell is None when the cell is missing. */
  datatype FilaExcel = FilaExcel(
    numGuia: Option<string>,
    partida: Option<string>,
    os: Option<string>,
    proveedor: Option<string>,
    fechaIngreso: Option<Date>,
    cliente: Option<string>,
    marca: Option<string>,
    op: Option<string>,
    tipoTela: Option<string>,
    descripcion: Option<string>,
    ench: Option<string>,
    cantRolloIngresado: int,
    pesoIngresado: Option<Decimal>,
    stockReal: Option<Decimal>,
    almacen: Option<string>)

  /** getCellValueAsBigDecimal: a missing cell reads as ZERO, never null. */
  function ValorDecimal(celda: Option<Decimal>): (r: Decimal)
    ensures celda.None? ==> r == 0
    ensures celda.Some? ==> r == celda.value
  {
    celda.GetOr(0)
  }

  /** A required text cell that is null or blank. */
  predicate FaltaTexto(s: Option<string>) {
    s.None? || IsBlank(s.value)
  }

  /** The messages validarCamposObligatorios collects, one per failed
      check, in the order the checks run. The peso is never null here,
      since the cell reader returns ZERO for a missing cell. */
  function ErroresValidacion(numGuia: Option<string>, proveedor: Option<string>, fechaIngreso: Option<Date>,
                             cantRolloIngresado: int, pesoIngresado: Decimal): (e: seq<string>)
    ensures |e| <= 5
  {
    Mensaje(FaltaTexto(numGuia), MSG_NUM_GUIA) + Mensaje(FaltaTexto(proveedor), MSG_PROVEEDOR) +
    Mensaje(fechaIngreso.None?, MSG_FECHA) + Mensaje(cantRolloIngresado <= 0, MSG_ROLLOS) +
    Mensaje(pesoIngresado <= 0, MSG_PESO)
  }

  /** The optional part one check contributes to the message list. */
  function Mensaje(falla: bool, m: string): seq<string> {
    if falla then [m] else []
  }

  /** The five messages differ from each other. */
  lemma MensajesDistintos()
    ensures MSG_NUM_GUIA !in [MSG_PROVEEDOR, MSG_FECHA, MSG_ROLLOS, MSG_PESO]
    ensures MSG_PROVEEDOR !in [MSG_FECHA, MSG_ROLLOS, MSG_PESO]
    ensures MSG_FECHA !in [MSG_ROLLOS, MSG_PESO]
    ensures MSG_ROLLOS != MSG_PESO
  {
    assert |MSG_NUM_GUIA| == 32 && |MSG_PROVEEDOR| == 27 && |MSG_FECHA| == 34;
    assert |MSG_ROLLOS| == 43 && |MSG_PESO| == 39;
  }

  /** A message is in the list exactly when one of the checks it appears
      in fails. */
  lemma EnMensajes(x: string, b1: bool, m1: string, b2: bool, m2: string, b3: bool, m3: string,
                   b4: bool, m4: string, b5: bool, m5: string)
    ensures x in Mensaje(b1, m1) + Mensaje(b2, m2) + Mensaje(b3, m3) + Mensaje(b4, m4) + Mensaje(b5, m5)
      <==> (b1 && x == m1) || (b2 && x == m2) || (b3 && x == m3) || (b4 && x == m4) || (b5 && x == m5)
  {
    var s1 := Mensaje(b1, m1);
    var s2 := s1 + Mensaje(b2, m2);
    var s3 := s2 + Mensaje(b3, m3);
    var s4 := s3 + Mensaje(b4, m4);
    EnMensaje(x, s1, b2, m2);
    EnMensaje(x, s2, b3, m3);
    EnMensaje(x, s3, b4, m4);
    EnMensaje(x, s4, b5, m5);
  }

  lemma EnMensaje(x: string, s: seq<string>, b: bool, m: string)
    ensures x in s + Mensaje(b, m) <==> x in s || (b && x == m)
  {
  }

  /** Each message is present exactly when its check fails, and there are
      no messages exactly when every required field is valid. */
  lemma ErroresValidacionSpec(numGuia: Option<string>, proveedor: Option<string>, fechaIngreso: Option<Date>,
                              cantRolloIngresado: int, pesoIngresado: Decimal)
    ensures var e := ErroresValidacion(numGuia, proveedor, fechaIngreso, cantRolloIngresado, pesoIngresado);
      && (MSG_NUM_GUIA in e <==> FaltaTexto(numGuia))
      && (MSG_PROVEEDOR in e <==> FaltaTexto(proveedor))
      && (MSG_FECHA in e <==> fechaIngreso.None?)
      && (MSG_ROLLOS in e <==> cantRolloIngresado <= 0)
      && (MSG_PESO in e <==> pesoIngresado <= 0)
      && (e == [] <==> !FaltaTexto(numGuia) && !FaltaTexto(proveedor) && fechaIngreso.Some?
                        && cantRolloIngresado > 0 && pesoIngresado > 0)
  {
    var b1, b2, b3, b4, b5 := FaltaTexto(numGuia), FaltaTexto(proveedor), fechaIngreso.None?,
                              cantRolloIngresado <= 0, pesoIngresado <= 0;
    MensajesDistintos();
    EnMensajes(MSG_NUM_GUIA, b1, MSG_NUM_GUIA, b2, MSG_PROVEEDOR, b3, MSG_FECHA, b4, MSG_ROLLOS, b5, MSG_PESO);
    EnMensajes(MSG_PROVEEDOR, b1, MSG_NUM_GUIA, b2, MSG_PROVEEDOR, b3, MSG_FECHA, b4, MSG_ROLLOS, b5, MSG_PESO);
    EnMensajes(MSG_FECHA, b1, MSG_NUM_GUIA, b2, MSG_PROVEEDOR, b3, MSG_FECHA, b4, MSG_ROLLOS, b5, MSG_PESO);
    EnMensajes(MSG_ROLLOS, b1, MSG_NUM_GUIA, b2, MSG_PROVEEDOR, b3, MSG_FECHA, b4, MSG_ROLLOS, b5, MSG_PESO);
    EnMensajes(MSG_PESO, b1, MSG_NUM_GUIA, b2, MSG_PROVEEDOR, b3, MSG_FECHA, b4, MSG_ROLLOS, b5, MSG_PESO);
  }

  /** validarCamposObligatorios: the messages accumulate one check at a
      time; the result is the IllegalArgumentException's message when any
      check failed, and None when the row is valid. */
  method ValidarCamposObligatorios(numGuia: Option<string>, proveedor: Option<string>, fechaIngreso: Option<Date>,
                                   cantRolloIngresado: int, pesoIngresado: Decimal)
    returns (fallo: Option<string>)
    ensures var e := ErroresValidacion(numGuia, proveedor, fechaIngreso, cantRolloIngresado, pesoIngresado);
      fallo == if e == [] then None else Some(MSG_VALIDACION + Join(", ", e))
  {
    var errores: seq<string> := [];
    ghost var e1 := Mensaje(FaltaTexto(numGuia), MSG_NUM_GUIA);
    ghost var e2 := Mensaje(FaltaTexto(proveedor), MSG_PROVEEDOR);
    ghost var e3 := Mensaje(fechaIngreso.None?, MSG_FECHA);
    ghost var e4 := Mensaje(cantRolloIngresado <= 0, MSG_ROLLOS);
    if FaltaTexto(numGuia) {
      errores := errores + [MSG_NUM_GUIA];
    }
    assert errores == e1;
    if FaltaTexto(proveedor) {
      errores := errores + [MSG_PROVEEDOR];
    }
    assert errores == e1 + e2;
    if fechaIngreso.None? {
      errores := errores + [MSG_FECHA];
    }
    assert errores == e1 + e2 + e3;
    if cantRolloIngresado <= 0 {
      errores := errores + [MSG_ROLLOS];
    }
    assert errores == e1 + e2 + e3 + e4;
    if pesoIngresado <= 0 {
      errores := errores + [MSG_PESO];
    }
    assert errores == ErroresValidacion(numGuia, proveedor, fechaIngreso, cantRolloIngresado, pesoIngresado);
    if errores != [] {
      fallo := Some(MSG_VALIDACION + Join(", ", errores));
    } else {
      fallo := None;
    }
  }

  /** What mapRowToTela yields: the lot, or the validation message. */
  datatype Mapeo = Mapeada(tela: TelaRow) | Rechazada(mensaje: string)

  /** mapRowToTela: the validation, then the lot built from the row's
      cells with estado ACTIVO. */
  function MapRowToTela(f: FilaExcel): Mapeo {
    var peso := ValorDecimal(f.pesoIngresado);
    var e := ErroresValidacion(f.numGuia, f.proveedor, f.fechaIngreso, f.cantRolloIngresado, peso);
    if e != [] then Rechazada(MSG_VALIDACION + Join(", ", e))
    else
      Mapeada(TelaRow(f.numGuia, f.partida, f.os, f.proveedor, f.fechaIngreso, f.cliente, f.marca, f.op,
                      f.tipoTela, f.descripcion, f.ench, f.cantRolloIngresado, peso,
                      ValorDecimal(f.stockReal), Some(ESTADO_ACTIVO), f.almacen))
  }

  /** What an imported lot always satisfies. */
  predicate TelaValida(t: TelaRow) {
    t.estado == Some(ESTADO_ACTIVO) && t.pesoIngresado > 0 && t.cantRolloIngresado > 0
  }

  /** A lot is built only from a valid row; its estado is always ACTIVO and
      its stock is the stock cell as read, so a missing stock cell gives 0
      rather than the weight (the null fallback in the builder is never
      taken). */
  lemma MapRowToTelaSpec(f: FilaExcel)
    ensures var r := MapRowToTela(f);
      var e := ErroresValidacion(f.numGuia, f.proveedor, f.fechaIngreso, f.cantRolloIngresado, ValorDecimal(f.pesoIngresado));
      && (r.Rechazada? <==> e != [])
      && (r.Rechazada? ==> r.mensaje == MSG_VALIDACION + Join(", ", e))
      && (r.Mapeada? ==>
        && TelaValida(r.tela)
        && r.tela.stockReal == ValorDecimal(f.stockReal)
        && r.tela.pesoIngresado == ValorDecimal(f.pesoIngresado)
        && r.tela.cantRolloIngresado == f.cantRolloIngresado
        && r.tela.fechaIngreso == f.fechaIngreso && f.fechaIngreso.Some?
        && r.tela.numGuia == f.numGuia && !FaltaTexto(f.numGuia)
        && r.tela.proveedor == f.proveedor && !FaltaTexto(f.proveedor)
        && r.tela.almacen == f.almacen)
  {
    ErroresValidacionSpec(f.numGuia, f.proveedor, f.fechaIngreso, f.cantRolloIngresado, ValorDecimal(f.pesoIngresado));
  }

  /** A row without a stock cell imports with zero stock, whatever its
      weight. */
  lemma StockAusenteEsCero(f: FilaExcel)
    requires f.stockReal.None?
    requires MapRowToTela(f).Mapeada?
    ensures MapRowToTela(f).tela.stockReal == 0 < MapRowToTela(f).tela.pesoIngresado
  {
    MapRowToTelaSpec(f);
  }

  // ---------------------------------------------------------------------
  // extraerTelasDesdeExcel
  // ---------------------------------------------------------------------

  /** ImportacionResultadoDTO. */
  datatype ImportacionResultado = ImportacionResultado(
    totalRegistros: int,
    registrosImportados: int,
    registrosFallidos: int,
    errores: seq<string>,
    telasImportadas: seq<TelaRow>)

  /** ResultadoProcesamiento: the lots to save and the partial result. */
  datatype Procesamiento = Procesamiento(telasParaGuardar: seq<TelaRow>, resultado: ImportacionResultado)

  /** The loop's three accumulators. */
  datatype Acumulado = Acumulado(telas: seq<TelaRow>, fallidos: nat, errores: seq<string>)

  function MensajeFila(i: int, mensaje: string): string {
    "Error en fila " + IntToString(i + 1) + ": " + mensaje
  }

  /** In `x + ": " + a`, a colon-free `y` of the same rendering cannot run
      past the colon that ends `x`. */
  lemma ColonDelimits(x: string, y: string, a: string, b: string)
    requires forall k :: 0 <= k < |y| ==> y[k] != ':'
    requires x + ": " + a == y + ": " + b
    ensures |y| <= |x|
  {
    assert (x + ": " + a)[|x|] == ':';
    assert forall k :: 0 <= k < |y| ==> (y + ": " + b)[k] == y[k];
    if |x| < |y| {
      assert false;
    }
  }

  /** A failure message names its row and its cause unambiguously: equal
      messages come from the same row with the same cause. */
  lemma MensajeFilaInjective(i: int, j: int, a: string, b: string)
    requires MensajeFila(i, a) == MensajeFila(j, b)
    ensures i == j && a == b
  {
    var prefijo := "Error en fila ";
    var x, y := IntToString(i + 1), IntToString(j + 1);
    var l, r := x + ": " + a, y + ": " + b;
    assert MensajeFila(i, a) == prefijo + l && MensajeFila(j, b) == prefijo + r;
    assert l == MensajeFila(i, a)[|prefijo|..] == r;
    IntToStringSinDosPuntos(i + 1);
    IntToStringSinDosPuntos(j + 1);
    ColonDelimits(x, y, a, b);
    ColonDelimits(y, x, b, a);
    assert x == l[..|x|] && y == r[..|y|];
    IntToStringInjective(i + 1, j + 1);
    assert a == l[|x| + 2..] && b == r[|y| + 2..];
  }

  /** One iteration of the row loop on row `i` (0-based): a missing row is
      skipped, a valid row adds its lot, an invalid row adds one failure and
      one message naming its 1-based row number. */
  function Paso(a: Acumulado, i: int, fila: Option<FilaExcel>): Acumulado {
    match fila
    case None => a
    case Some(f) =>
      match MapRowToTela(f)
      case Mapeada(t) => a.(telas := a.telas + [t])
      case Rechazada(m) => Acumulado(a.telas, a.fallidos + 1, a.errores + [MensajeFila(i, m)])
  }

  /** The accumulators after the data rows 1 .. n - 1; row 0 is the
      header. */
  function Procesar(filas: seq<Option<FilaExcel>>, n: int): Acumulado
    requires 1 <= n <= |filas|
    decreases n
  {
    if n == 1 then Acumulado([], 0, [])
    else Paso(Procesar(filas, n - 1), n - 1, filas[n - 1])
  }

  function FilaPresente(f: Option<FilaExcel>): bool {
    f.Some?
  }

  /** getPhysicalNumberOfRows() - 1. */
  function TotalRegistros(filas: seq<Option<FilaExcel>>): int {
    Count(filas, FilaPresente) - 1
  }

  /** extraerTelasDesdeExcel for a workbook that opens. */
  function Extraccion(filas: seq<Option<FilaExcel>>): Procesamiento {
    var total := TotalRegistros(filas);
    if total <= 0 then Procesamiento([], ImportacionResultado(0, 0, 0, [MSG_SIN_DATOS], []))
    else
      CountPositive(filas, FilaPresente);
      var a := Procesar(filas, |filas|);
      Procesamiento(a.telas, ImportacionResultado(total, 0, a.fallidos, a.errores, []))
  }

  lemma CountPositive<T(!new)>(s: seq<T>, p: T -> bool)
    requires Count(s, p) > 0
    ensures |s| > 0
  {
  }

  /** The body of the row loop: the `try` maps the row and keeps its lot,
      the `catch` counts the failure and records its message. */
  method ProcesarFila(telas: seq<TelaRow>, fallidos: nat, errores: seq<string>, i: int, fila: Option<FilaExcel>)
    returns (telas': seq<TelaRow>, fallidos': nat, errores': seq<string>)
    ensures Acumulado(telas', fallidos', errores') == Paso(Acumulado(telas, fallidos, errores), i, fila)
  {
    telas', fallidos', errores' := telas, fallidos, errores;
    if fila.Some? {
      var m := MapRowToTela(fila.value);
      if m.Mapeada? {
        telas' := telas + [m.tela];
      } else {
        fallidos' := fallidos + 1;
        errores' := errores + [MensajeFila(i, m.mensaje)];
      }
    }
  }

  method ExtraerTelasDesdeExcel(filas: seq<Option<FilaExcel>>) returns (p: Procesamiento)
    ensures p == Extraccion(filas)
  {
    var totalRegistros := TotalRegistros(filas);
    if totalRegistros <= 0 {
      return Procesamiento([], ImportacionResultado(0, 0, 0, [MSG_SIN_DATOS], []));
    }
    CountPositive(filas, FilaPresente);
    var errores: seq<string> := [];
    var registrosFallidos := 0;
    var telasParaGuardar: seq<TelaRow> := [];
    var i := 1;
    while i <= |filas| - 1
      invariant 1 <= i <= |filas|
      invariant Procesar(filas, i) == Acumulado(telasParaGuardar, registrosFallidos, errores)
    {
      telasParaGuardar, registrosFallidos, errores :=
        ProcesarFila(telasParaGuardar, registrosFallidos, errores, i, filas[i]);
      i := i + 1;
    }
    p := Procesamiento(telasParaGuardar, ImportacionResultado(totalRegistros, 0, registrosFallidos, errores, []));
  }

  lemma CountAppend<T(!new)>(s: seq<T>, x: T, p: T -> bool)
    ensures Count(s + [x], p) == Count(s, p) + (if p(x) then 1 else 0)
  {
    FilterConcat(s, [x], p);
    assert [x][1..] == [];
  }

  /** Counting over a slice one element longer. */
  lemma CountUltimo<T(!new)>(s: seq<T>, i: int, j: int, p: T -> bool)
    requires 0 <= i < j <= |s|
    ensures Count(s[i..j], p) == Count(s[i..j - 1], p) + (if p(s[j - 1]) then 1 else 0)
  {
    assert s[i..j] == s[i..j - 1] + [s[j - 1]];
    CountAppend(s[i..j - 1], s[j - 1], p);
  }

  /** The loop's accounting after `k` present data rows: each was imported
      or failed, there is one message per failure, and every imported lot is
      a valid ACTIVO lot. */
  predicate Cuadra(a: Acumulado, k: int) {
    && |a.telas| + a.fallidos == k
    && |a.errores| == a.fallidos
    && forall t :: t in a.telas ==> TelaValida(t)
  }

  /** One iteration keeps the accounting: a present row adds one lot or one
      failure with its message, and any lot it adds is valid. */
  lemma PasoCuadra(a: Acumulado, k: int, i: int, fila: Option<FilaExcel>)
    requires Cuadra(a, k)
    ensures Cuadra(Paso(a, i, fila), k + if FilaPresente(fila) then 1 else 0)
  {
    if fila.Some? {
      MapRowToTelaSpec(fila.value);
    }
  }

  /** Every present data row is accounted for once: imported, or failed
      with exactly one message; every imported lot is a valid ACTIVO lot. */
  lemma {:induction false} ProcesarParticion(filas: seq<Option<FilaExcel>>, n: int)
    requires 1 <= n <= |filas|
    ensures Cuadra(Procesar(filas, n), Count(filas[1..n], FilaPresente))
  {
    if n == 1 {
      assert filas[1..1] == [];
    } else {
      var a, k := Procesar(filas, n - 1), Count(filas[1..n - 1], FilaPresente);
      CountUltimo(filas, 1, n, FilaPresente);
      ProcesarParticion(filas, n - 1);
      PasoCuadra(a, k, n - 1, filas[n - 1]);
    }
  }

  /** With the header row present, the lots to save and the failed rows
      together are exactly the rows the file declares, and there is one
      message per failed row. */
  lemma ExtraccionCuenta(filas: seq<Option<FilaExcel>>)
    requires |filas| > 0 && filas[0].Some?
    requires TotalRegistros(filas) > 0
    ensures var p := Extraccion(filas);
      && |p.telasParaGuardar| + p.resultado.registrosFallidos == p.resultado.totalRegistros
      && |p.resultado.errores| == p.resultado.registrosFallidos
  {
    ProcesarParticion(filas, |filas|);
    assert Count(filas, FilaPresente) == 1 + Count(filas[1..], FilaPresente);
    assert filas[1..|filas|] == filas[1..];
  }

  /** A file with no data rows yields one message and nothing to save. */
  lemma ExtraccionVacia(filas: seq<Option<FilaExcel>>)
    requires Count(filas, FilaPresente) <= 1
    ensures Extraccion(filas).telasParaGuardar == []
    ensures Extraccion(filas).resultado.errores == [MSG_SIN_DATOS]
    ensures Extraccion(filas).resultado.totalRegistros == 0
  {
  }

  // ---------------------------------------------------------------------
  // guardarTelasYCrearRelaciones
  // ---------------------------------------------------------------------

  /** The warehouse defaulting applied to one lot: a null or blank
      almacen takes the warehouse's name. */
  function ConAlmacen(t: TelaRow, nombreAlmacen: Option<string>): (r: TelaRow)
    ensures FaltaTexto(t.almacen) ==> r == t.(almacen := nombreAlmacen)
    ensures !FaltaTexto(t.almacen) ==> r == t
  {
    if FaltaTexto(t.almacen) then t.(almacen := nombreAlmacen) else t
  }

  /** The `forEach` over the lots to save. */
  method AsignarAlmacenPorDefecto(telas: seq<TelaRow>, nombreAlmacen: Option<string>) returns (r: seq<TelaRow>)
    ensures |r| == |telas|
    ensures forall k :: 0 <= k < |telas| ==> r[k] == ConAlmacen(telas[k], nombreAlmacen)
  {
    r := telas;
    var k := 0;
    while k < |r|
      invariant 0 <= k <= |r| == |telas|
      invariant forall j :: 0 <= j < k ==> r[j] == ConAlmacen(telas[j], nombreAlmacen)
      invariant forall j :: k <= j < |r| ==> r[j] == telas[j]
    {
      var tela := r[k];
      if FaltaTexto(tela.almacen) {
        r := r[k := tela.(almacen := nombreAlmacen)];
      }
      assert r[k] == ConAlmacen(telas[k], nombreAlmacen);
      k := k + 1;
    }
  }

  /** crearRelacionesAlmacenTelas for the lots saved with ids primerId ..
      primerId + n - 1: one ACTIVO relation each, without a weight. */
  function Relaciones(primerId: int, n: nat, almacenId: int, now: Timestamp): (r: seq<AlmacenTela>)
    ensures |r| == n
    ensures forall k :: 0 <= k < n ==> r[k] == AlmacenTela(almacenId, primerId + k, None, now, ACTIVO)
  {
    seq(n, k requires 0 <= k < n => AlmacenTela(almacenId, primerId + k, None, now, ACTIVO))
  }

  /** guardarTelasYCrearRelaciones: with nothing to save the partial result
      comes back as it is; otherwise the lots (with the warehouse default
      applied) are saved, each gets its relation, and the result reports
      how many were saved. */
  function Guardar(st: DbState, p: Procesamiento, almacenId: int, nombreAlmacen: Option<string>, now: Timestamp): (o: Outcome<ImportacionResultado>)
    ensures p.telasParaGuardar == [] ==> o == Outcome(st, Ok(p.resultado))
    ensures o.result.Ok?
    ensures p.telasParaGuardar != [] ==>
      var n := |p.telasParaGuardar|;
      && o.state.movimientos == st.movimientos && o.state.salidas == st.salidas
      && o.state.almacenes == st.almacenes
      && |o.state.telas| == |st.telas| + n
      && o.state.telas[..|st.telas|] == st.telas
      && (forall k :: 0 <= k < n ==> o.state.telas[|st.telas| + k] == ConAlmacen(p.telasParaGuardar[k], nombreAlmacen))
      && o.state.almacenTelas == st.almacenTelas + Relaciones(|st.telas|, n, almacenId, now)
      && o.result.value.registrosImportados == n
      && o.result.value.telasImportadas == o.state.telas[|st.telas|..]
      && o.result.value.(registrosImportados := 0, telasImportadas := []) == p.resultado.(registrosImportados := 0, telasImportadas := [])
  {
    var ts := p.telasParaGuardar;
    if ts == [] then Outcome(st, Ok(p.resultado))
    else
      var guardadas := seq(|ts|, k requires 0 <= k < |ts| => ConAlmacen(ts[k], nombreAlmacen));
      var st1 := st.(telas := st.telas + guardadas,
                     almacenTelas := st.almacenTelas + Relaciones(|st.telas|, |guardadas|, almacenId, now));
      assert st1.telas[..|st.telas|] == st.telas;
      assert st1.telas[|st.telas|..] == guardadas;
      Outcome(st1, Ok(p.resultado.(registrosImportados := |guardadas|, telasImportadas := guardadas)))
  }

  /** Every relation the import creates points at one of the lots it saved,
      in the warehouse imported into, one relation per lot. */
  lemma GuardarRelacionesApuntan(st: DbState, p: Procesamiento, almacenId: int, nombreAlmacen: Option<string>, now: Timestamp)
    requires p.telasParaGuardar != []
    ensures var o := Guardar(st, p, almacenId, nombreAlmacen, now);
      var nuevas := o.state.almacenTelas[|st.almacenTelas|..];
      && |nuevas| == o.result.value.registrosImportados
      && forall k :: 0 <= k < |nuevas| ==>
           && nuevas[k].almacenId == almacenId && nuevas[k].estado == ACTIVO && nuevas[k].peso.None?
           && o.state.HasTela(nuevas[k].telaId)
           && o.state.telas[nuevas[k].telaId] == o.result.value.telasImportadas[k]
  {
    var o := Guardar(st, p, almacenId, nombreAlmacen, now);
    assert o.state.almacenTelas[|st.almacenTelas|..] == Relaciones(|st.telas|, |p.telasParaGuardar|, almacenId, now);
  }

  method GuardarTelasYCrearRelaciones(db: Database, p: Procesamiento, almacenId: int, nombreAlmacen: Option<string>, now: Timestamp)
    returns (r: ImportacionResultado)
    modifies db
    ensures db.State() == Guardar(old(db.State()), p, almacenId, nombreAlmacen, now).state
    ensures Ok(r) == Guardar(old(db.State()), p, almacenId, nombreAlmacen, now).result
  {
    if p.telasParaGuardar == [] {
      return p.resultado;
    }
    var telas := AsignarAlmacenPorDefecto(p.telasParaGuardar, nombreAlmacen);
    var primerId := |db.telas|;
    db.telas := db.telas + telas;
    r := p.resultado.(registrosImportados := |telas|, telasImportadas := telas);
    db.almacenTelas := db.almacenTelas + Relaciones(primerId, |telas|, almacenId, now);
    ghost var guardadas := seq(|p.telasParaGuardar|, k requires 0 <= k < |p.telasParaGuardar| => ConAlmacen(p.telasParaGuardar[k], nombreAlmacen));
    assert telas == guardadas;
  }

  // ---------------------------------------------------------------------
  // importarTelasDesdeExcelParaAlmacen
  // ---------------------------------------------------------------------

  /** importarTelasDesdeExcelParaAlmacen for a workbook that opens: an
      unknown warehouse is ResourceNotFoudException; otherwise the rows are
      extracted and saved under the warehouse's name. */
  function Importar(st: DbState, filas: seq<Option<FilaExcel>>, almacenId: int, now: Timestamp): (o: Outcome<ImportacionResultado>)
    ensures !(0 <= almacenId < |st.almacenes|) ==> o == Outcome(st, Err(ResourceNotFound))
    ensures 0 <= almacenId < |st.almacenes| ==>
      o == Guardar(st, Extraccion(filas), almacenId, st.almacenes[almacenId].nombreAlmacen, now)
  {
    if !(0 <= almacenId < |st.almacenes|) then Outcome(st, Err(ResourceNotFound))
    else Guardar(st, Extraccion(filas), almacenId, st.almacenes[almacenId].nombreAlmacen, now)
  }

  method ImportarTelasDesdeExcelParaAlmacen(db: Database, filas: seq<Option<FilaExcel>>, almacenId: int, now: Timestamp)
    returns (r: Result<ImportacionResultado>)
    modifies db
    ensures db.State() == Importar(old(db.State()), filas, almacenId, now).state
    ensures r == Importar(old(db.State()), filas, almacenId, now).result
  {
    if !(0 <= almacenId < |db.almacenes|) {
      return Err(ResourceNotFound);
    }
    var nombre := db.almacenes[almacenId].nombreAlmacen;
    var p := ExtraerTelasDesdeExcel(filas);
    var res := GuardarTelasYCrearRelaciones(db, p, almacenId, nombre, now);
    r := Ok(res);
  }

  /** A whole import with the header row present: the lots saved plus the
      rows rejected add up to the rows the file declares. */
  lemma ImportarCuenta(st: DbState, filas: seq<Option<FilaExcel>>, almacenId: int, now: Timestamp)
    requires 0 <= almacenId < |st.almacenes|
    requires |filas| > 0 && filas[0].Some? && TotalRegistros(filas) > 0
    ensures var o := Importar(st, filas, almacenId, now);
      && o.result.Ok?
      && o.result.value.registrosImportados + o.result.value.registrosFallidos == o.result.value.totalRegistros
      && |o.state.telas| == |st.telas| + o.result.value.registrosImportados
  {
    ExtraccionCuenta(filas);
  }
}
