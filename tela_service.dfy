/** TelaService: the lot searches and the grouped statistics. The term
    search is a case-insensitive substring test on one named field or on all
    twelve text fields; the advanced filter is a case-sensitive conjunction
    of the criteria given; the statistics group the lots by one field. */
module TelaService {
  import opened Common
  import opened Text
  import opened Paginacion
  import opened TelaEntity

  /** TelaBusquedaDTO: the term search request, also used by the warehouse
      search. The Java defaults are "todos", "fechaIngreso", "desc", 0, 10. */
  datatype TelaBusqueda = TelaBusqueda(
    termino: Option<string>,
    campo: Option<string>,
    ordenCampo: Option<string>,
    ordenDir: Option<string>,
    pagina: int,
    tamanoPagina: int)

  /** contieneCadena: a present value whose lower-cased text contains the
      (already lower-cased) term. */
  predicate ContieneCadena(cadena: Option<string>, termino: string) {
    cadena.Some? && Contains(Lower(cadena.value), termino)
  }

  /** A null field never matches, not even the empty term; an empty term is
      contained in every present field. */
  lemma ContieneCadenaNull(cadena: Option<string>, termino: string)
    ensures !ContieneCadena(None, termino)
    ensures cadena.Some? ==> ContieneCadena(cadena, "")
  {
    if cadena.Some? {
      ContainsEmpty(Lower(cadena.value));
    }
  }

  /** The twelve text fields of a lot, in the order the search lists them. */
  function Campos(t: TelaRow): (r: seq<Option<string>>)
    ensures |r| == 12
  {
    [t.numGuia, t.partida, t.os, t.proveedor, t.cliente, t.marca, t.op,
     t.tipoTela, t.descripcion, t.ench, t.estado, t.almacen]
  }

  /** The names of those fields, position by position. */
  const NOMBRES_CAMPOS: seq<string> :=
    ["numGuia", "partida", "os", "proveedor", "cliente", "marca", "op",
     "tipoTela", "descripcion", "ench", "estado", "almacen"]

  /** The field a name selects, if it names one. */
  function CampoTexto(t: TelaRow, campo: string): (r: Option<Option<string>>)
    ensures r.Some? <==> campo in NOMBRES_CAMPOS
    ensures forall k :: 0 <= k < 12 && NOMBRES_CAMPOS[k] == campo ==> r == Some(Campos(t)[k])
  {
    if campo == "numGuia" then Some(t.numGuia)
    else if campo == "partida" then Some(t.partida)
    else if campo == "os" then Some(t.os)
    else if campo == "proveedor" then Some(t.proveedor)
    else if campo == "cliente" then Some(t.cliente)
    else if campo == "marca" then Some(t.marca)
    else if campo == "op" then Some(t.op)
    else if campo == "tipoTela" then Some(t.tipoTela)
    else if campo == "descripcion" then Some(t.descripcion)
    else if campo == "ench" then Some(t.ench)
    else if campo == "estado" then Some(t.estado)
    else if campo == "almacen" then Some(t.almacen)
    else None
  }

  /** Some text field of the lot contains the term. */
  predicate AlgunCampoContiene(t: TelaRow, termino: string) {
    exists k :: 0 <= k < 12 && ContieneCadena(Campos(t)[k], termino)
  }

  /** filtrarPorTerminoYCampo, with its explicit switch: one case per field
      name, and "todos" or any other name testing every field. */
  function FiltrarPorTerminoYCampo(t: TelaRow, termino: string, campo: string): (r: bool)
    ensures termino == "" ==> r
  {
    if termino == "" then true
    else if campo == "numGuia" then ContieneCadena(t.numGuia, termino)
    else if campo == "partida" then ContieneCadena(t.partida, termino)
    else if campo == "os" then ContieneCadena(t.os, termino)
    else if campo == "proveedor" then ContieneCadena(t.proveedor, termino)
    else if campo == "cliente" then ContieneCadena(t.cliente, termino)
    else if campo == "marca" then ContieneCadena(t.marca, termino)
    else if campo == "op" then ContieneCadena(t.op, termino)
    else if campo == "tipoTela" then ContieneCadena(t.tipoTela, termino)
    else if campo == "descripcion" then ContieneCadena(t.descripcion, termino)
    else if campo == "ench" then ContieneCadena(t.ench, termino)
    else if campo == "estado" then ContieneCadena(t.estado, termino)
    else if campo == "almacen" then ContieneCadena(t.almacen, termino)
    else
      ContieneCadena(t.numGuia, termino) || ContieneCadena(t.partida, termino) ||
      ContieneCadena(t.os, termino) || ContieneCadena(t.proveedor, termino) ||
      ContieneCadena(t.cliente, termino) || ContieneCadena(t.marca, termino) ||
      ContieneCadena(t.op, termino) || ContieneCadena(t.tipoTela, termino) ||
      ContieneCadena(t.descripcion, termino) || ContieneCadena(t.ench, termino) ||
      ContieneCadena(t.estado, termino) || ContieneCadena(t.almacen, termino)
  }

  /** The switch agrees with the field table: a field name tests exactly
      that field, and "todos" or an unknown name matches when any field
      contains the term. */
  lemma FiltrarPorTerminoYCampoSpec(t: TelaRow, termino: string, campo: string)
    requires termino != ""
    ensures CampoTexto(t, campo).Some? ==>
      (FiltrarPorTerminoYCampo(t, termino, campo) <==> ContieneCadena(CampoTexto(t, campo).value, termino))
    ensures CampoTexto(t, campo).None? ==>
      (FiltrarPorTerminoYCampo(t, termino, campo) <==> AlgunCampoContiene(t, termino))
  {
    var c := Campos(t);
    if CampoTexto(t, campo).None? && FiltrarPorTerminoYCampo(t, termino, campo) {
      var k := if ContieneCadena(c[0], termino) then 0
        else if ContieneCadena(c[1], termino) then 1
        else if ContieneCadena(c[2], termino) then 2
        else if ContieneCadena(c[3], termino) then 3
        else if ContieneCadena(c[4], termino) then 4
        else if ContieneCadena(c[5], termino) then 5
        else if ContieneCadena(c[6], termino) then 6
        else if ContieneCadena(c[7], termino) then 7
        else if ContieneCadena(c[8], termino) then 8
        else if ContieneCadena(c[9], termino) then 9
        else if ContieneCadena(c[10], termino) then 10
        else 11;
      assert ContieneCadena(c[k], termino);
    }
  }

  /** buscarPorTermino: a null term becomes "", a null field "todos", and
      the term is lower-cased before the filter runs. */
  function BuscarPorTermino(telas: seq<TelaRow>, b: TelaBusqueda): (r: seq<TelaRow>)
    ensures var termino := if b.termino.Some? then Lower(b.termino.value) else "";
      forall t :: t in r <==> t in telas && FiltrarPorTerminoYCampo(t, termino, b.campo.GetOr("todos"))
    ensures b.termino.None? || b.termino.value == "" ==> r == telas
  {
    var termino := if b.termino.Some? then Lower(b.termino.value) else "";
    var campo := b.campo.GetOr("todos");
    if termino == "" then FilterAll(telas, t => FiltrarPorTerminoYCampo(t, termino, campo)); Filter(telas, t => FiltrarPorTerminoYCampo(t, termino, campo))
    else Filter(telas, t => FiltrarPorTerminoYCampo(t, termino, campo))
  }

  // ---------------------------------------------------------------------
  // Advanced filter
  // ---------------------------------------------------------------------

  /** TelaFiltroDTO. */
  datatype TelaFiltro = TelaFiltro(
    numGuia: Option<string>,
    proveedor: Option<string>,
    cliente: Option<string>,
    fechaInicio: Option<Date>,
    fechaFin: Option<Date>,
    descripcion: Option<string>,
    os: Option<string>,
    partida: Option<string>,
    estado: Option<string>,
    almacen: Option<string>,
    tipoTela: Option<string>)

  /** The nine text criteria of a filter, each with the lot field it tests,
      in the order they are tested. */
  function Criterios(t: TelaRow, f: TelaFiltro): (r: seq<(Option<string>, Option<string>)>)
    ensures |r| == 9
  {
    [(f.numGuia, t.numGuia), (f.proveedor, t.proveedor), (f.cliente, t.cliente),
     (f.descripcion, t.descripcion), (f.os, t.os), (f.partida, t.partida),
     (f.estado, t.estado), (f.almacen, t.almacen), (f.tipoTela, t.tipoTela)]
  }

  /** A lot with a null entry date passes both bounds; otherwise the bounds
      are inclusive. */
  predicate DentroDeFechas(t: TelaRow, f: TelaFiltro) {
    && (f.fechaInicio.None? || t.fechaIngreso.None? || f.fechaInicio.value <= t.fechaIngreso.value)
    && (f.fechaFin.None? || t.fechaIngreso.None? || t.fechaIngreso.value <= f.fechaFin.value)
  }

  /** A case-sensitive text criterion holds: unset, or the field is present
      and contains the criterion. */
  predicate CumpleSensible(criterio: Option<string>, campo: Option<string>) {
    !Activo(criterio) || (campo.Some? && Contains(campo.value, criterio.value))
  }

  /** Every criterion set in the filter holds for the lot. */
  predicate CumpleFiltro(t: TelaRow, f: TelaFiltro) {
    && (forall k :: 0 <= k < 9 ==> CumpleSensible(Criterios(t, f)[k].0, Criterios(t, f)[k].1))
    && DentroDeFechas(t, f)
  }

  lemma CumpleFiltroUnfold(t: TelaRow, f: TelaFiltro)
    ensures CumpleFiltro(t, f) <==>
      && CumpleSensible(f.numGuia, t.numGuia) && CumpleSensible(f.proveedor, t.proveedor)
      && CumpleSensible(f.cliente, t.cliente) && CumpleSensible(f.descripcion, t.descripcion)
      && CumpleSensible(f.os, t.os) && CumpleSensible(f.partida, t.partida)
      && CumpleSensible(f.estado, t.estado) && CumpleSensible(f.almacen, t.almacen)
      && CumpleSensible(f.tipoTela, t.tipoTela) && DentroDeFechas(t, f)
  {
    var c := Criterios(t, f);
    assert c[0] == (f.numGuia, t.numGuia) && c[1] == (f.proveedor, t.proveedor);
    assert c[2] == (f.cliente, t.cliente) && c[3] == (f.descripcion, t.descripcion);
    assert c[4] == (f.os, t.os) && c[5] == (f.partida, t.partida);
    assert c[6] == (f.estado, t.estado) && c[7] == (f.almacen, t.almacen);
    assert c[8] == (f.tipoTela, t.tipoTela);
  }

  /** TelaService.aplicarFiltros, with its running `cumple` flag: each later
      criterion is evaluated only while every earlier one held. */
  function AplicarFiltros(t: TelaRow, filtro: Option<TelaFiltro>): (r: bool)
    ensures filtro.None? ==> r
    ensures filtro.Some? ==> (r <==> CumpleFiltro(t, filtro.value))
  {
    if filtro.None? then true
    else
      var f := filtro.value;
      CumpleFiltroUnfold(t, f);
      var c1 := if Activo(f.numGuia) then t.numGuia.Some? && Contains(t.numGuia.value, f.numGuia.value) else true;
      var c2 := if c1 && Activo(f.proveedor) then t.proveedor.Some? && Contains(t.proveedor.value, f.proveedor.value) else c1;
      var c3 := if c2 && Activo(f.cliente) then t.cliente.Some? && Contains(t.cliente.value, f.cliente.value) else c2;
      var c4 := if c3 && Activo(f.descripcion) then t.descripcion.Some? && Contains(t.descripcion.value, f.descripcion.value) else c3;
      var c5 := if c4 && Activo(f.os) then t.os.Some? && Contains(t.os.value, f.os.value) else c4;
      var c6 := if c5 && Activo(f.partida) then t.partida.Some? && Contains(t.partida.value, f.partida.value) else c5;
      var c7 := if c6 && Activo(f.estado) then t.estado.Some? && Contains(t.estado.value, f.estado.value) else c6;
      var c8 := if c7 && Activo(f.almacen) then t.almacen.Some? && Contains(t.almacen.value, f.almacen.value) else c7;
      var c9 := if c8 && Activo(f.tipoTela) then t.tipoTela.Some? && Contains(t.tipoTela.value, f.tipoTela.value) else c8;
      var c10 := if c9 && f.fechaInicio.Some? && t.fechaIngreso.Some? then !(t.fechaIngreso.value < f.fechaInicio.value) else c9;
      var c11 := if c10 && f.fechaFin.Some? && t.fechaIngreso.Some? then !(t.fechaIngreso.value > f.fechaFin.value) else c10;
      c11
  }

  /** The case-sensitive filter does not fold case: a criterion in upper case
      rejects a lot whose field holds it only in lower case. */
  lemma AplicarFiltrosCaseSensitive(t: TelaRow, f: TelaFiltro)
    requires f == TelaFiltro(Some("A"), None, None, None, None, None, None, None, None, None, None)
    requires t.numGuia == Some("a")
    ensures !AplicarFiltros(t, Some(f))
  {
    forall i | 0 <= i <= 1
      ensures !OccursAt("a", "A", i)
    {
      if i == 0 {
        assert "a"[0..1][0] == 'a';
      }
    }
    CumpleFiltroUnfold(t, f);
  }

  /** buscarPorFiltros. */
  function BuscarPorFiltros(telas: seq<TelaRow>, filtro: Option<TelaFiltro>): (r: seq<TelaRow>)
    ensures forall t :: t in r <==> t in telas && AplicarFiltros(t, filtro)
    ensures filtro.None? ==> r == telas
  {
    if filtro.None? then FilterAll(telas, t => AplicarFiltros(t, filtro)); Filter(telas, t => AplicarFiltros(t, filtro))
    else Filter(telas, t => AplicarFiltros(t, filtro))
  }

  // ---------------------------------------------------------------------
  // Grouped statistics
  // ---------------------------------------------------------------------

  /** The fields getEstadisticasPorCampo can group by. */
  datatype CampoGrupo = Proveedor | Cliente | Marca | TipoTela | Estado | AlmacenCampo

  /** The key getEstadisticasPorCampo accepts, compared after lower-casing,
      and the name under which the key is reported. */
  function CampoGrupoDe(campo: string): (r: Option<CampoGrupo>)
    ensures r.Some? <==> Lower(campo) in ["proveedor", "cliente", "marca", "tipotela", "estado", "almacen"]
    ensures r.Some? ==> Lower(campo) == Lower(KeyName(r.value))
  {
    var c := Lower(campo);
    if c == "proveedor" then Some(Proveedor)
    else if c == "cliente" then Some(Cliente)
    else if c == "marca" then Some(Marca)
    else if c == "tipotela" then Some(TipoTela)
    else if c == "estado" then Some(Estado)
    else if c == "almacen" then Some(AlmacenCampo)
    else None
  }

  function KeyName(c: CampoGrupo): string {
    match c
    case Proveedor => "proveedor"
    case Cliente => "cliente"
    case Marca => "marca"
    case TipoTela => "tipoTela"
    case Estado => "estado"
    case AlmacenCampo => "almacen"
  }

  const NO_ESPECIFICADO: string := "No especificado"

  /** The group a lot falls in: its field value, or "No especificado" when
      the value is null. */
  function Clave(c: CampoGrupo, t: TelaRow): string {
    var v := match c
      case Proveedor => t.proveedor
      case Cliente => t.cliente
      case Marca => t.marca
      case TipoTela => t.tipoTela
      case Estado => t.estado
      case AlmacenCampo => t.almacen;
    v.GetOr(NO_ESPECIFICADO)
  }

  /** One entry of the `groupingBy` map. */
  datatype Grupo = Grupo(clave: string, telas: seq<TelaRow>)

  /** The lots whose key under `c` is `k`, in list order. */
  function DeClave(c: CampoGrupo, telas: seq<TelaRow>, k: string): (r: seq<TelaRow>)
    ensures forall t :: t in r <==> t in telas && Clave(c, t) == k
  {
    Filter(telas, (t: TelaRow) => Clave(c, t) == k)
  }

  lemma DeClaveAppend(c: CampoGrupo, telas: seq<TelaRow>, t: TelaRow, k: string)
    ensures DeClave(c, telas + [t], k) == DeClave(c, telas, k) + (if Clave(c, t) == k then [t] else [])
  {
    FilterConcat(telas, [t], (u: TelaRow) => Clave(c, u) == k);
    assert [t][1..] == [];
  }

  lemma DeClaveEmpty(c: CampoGrupo, telas: seq<TelaRow>, k: string)
    requires forall t :: t in telas ==> Clave(c, t) != k
    ensures DeClave(c, telas, k) == []
  {
    FilterNone(telas, (t: TelaRow) => Clave(c, t) == k);
  }

  /** Adds a lot to the group of its key, opening the group if it is new. */
  function Agregar(gs: seq<Grupo>, clave: string, t: TelaRow): (r: seq<Grupo>)
    ensures |r| == |gs| || |r| == |gs| + 1
  {
    match FirstIndex(gs, (g: Grupo) => g.clave == clave)
    case Some(i) => gs[i := Grupo(clave, gs[i].telas + [t])]
    case None => gs + [Grupo(clave, [t])]
  }

  /** Collectors.groupingBy over the lots in list order. */
  function Agrupar(c: CampoGrupo, telas: seq<TelaRow>): seq<Grupo> {
    if telas == [] then []
    else
      var t := telas[|telas| - 1];
      Agregar(Agrupar(c, telas[..|telas| - 1]), Clave(c, t), t)
  }

  function TamanoTotal(gs: seq<Grupo>): int {
    SumOf(gs, (g: Grupo) => |g.telas|)
  }

  predicate ClavesDistintas(gs: seq<Grupo>) {
    forall i, j :: 0 <= i < j < |gs| ==> gs[i].clave != gs[j].clave
  }

  /** Each group holds exactly the lots of its key, and is not empty. */
  predicate GruposExactos(c: CampoGrupo, telas: seq<TelaRow>, gs: seq<Grupo>) {
    forall i :: 0 <= i < |gs| ==> gs[i].telas == DeClave(c, telas, gs[i].clave) && |gs[i].telas| > 0
  }

  /** Every lot's key has a group. */
  predicate Cubre(c: CampoGrupo, telas: seq<TelaRow>, gs: seq<Grupo>) {
    forall t :: t in telas ==> exists i :: 0 <= i < |gs| && gs[i].clave == Clave(c, t)
  }

  /** What `Agrupar` maintains: one group per key, holding exactly the lots
      of that key, every lot in some group. */
  predicate AgrupacionCorrecta(c: CampoGrupo, telas: seq<TelaRow>, gs: seq<Grupo>) {
    && ClavesDistintas(gs)
    && GruposExactos(c, telas, gs)
    && Cubre(c, telas, gs)
    && TamanoTotal(gs) == |telas|
  }

  lemma ExistenteDistintas(gs: seq<Grupo>, i: nat, g: Grupo)
    requires ClavesDistintas(gs)
    requires i < |gs| && g.clave == gs[i].clave
    ensures ClavesDistintas(gs[i := g])
  {
  }

  lemma ExistenteExactos(c: CampoGrupo, telas: seq<TelaRow>, gs: seq<Grupo>, t: TelaRow, i: nat)
    requires ClavesDistintas(gs) && GruposExactos(c, telas, gs)
    requires i < |gs| && gs[i].clave == Clave(c, t)
    ensures GruposExactos(c, telas + [t], gs[i := Grupo(Clave(c, t), gs[i].telas + [t])])
  {
    var r := gs[i := Grupo(Clave(c, t), gs[i].telas + [t])];
    forall j | 0 <= j < |r|
      ensures r[j].telas == DeClave(c, telas + [t], r[j].clave) && |r[j].telas| > 0
    {
      DeClaveAppend(c, telas, t, gs[j].clave);
      if j != i {
        assert gs[j].clave != gs[i].clave by {
          if j < i { assert gs[j].clave != gs[i].clave; } else { assert gs[i].clave != gs[j].clave; }
        }
      }
    }
  }

  lemma ExistenteCubre(c: CampoGrupo, telas: seq<TelaRow>, gs: seq<Grupo>, t: TelaRow, i: nat, g: Grupo)
    requires Cubre(c, telas, gs)
    requires i < |gs| && gs[i].clave == Clave(c, t) && g.clave == Clave(c, t)
    ensures Cubre(c, telas + [t], gs[i := g])
  {
    var r := gs[i := g];
    forall u | u in telas + [t]
      ensures exists j :: 0 <= j < |r| && r[j].clave == Clave(c, u)
    {
      if u in telas {
        var j :| 0 <= j < |gs| && gs[j].clave == Clave(c, u);
        assert r[j].clave == gs[j].clave;
      } else {
        assert r[i].clave == Clave(c, u);
      }
    }
  }

  lemma AgregarExistente(c: CampoGrupo, telas: seq<TelaRow>, gs: seq<Grupo>, t: TelaRow, i: nat)
    requires AgrupacionCorrecta(c, telas, gs)
    requires i < |gs| && gs[i].clave == Clave(c, t)
    ensures AgrupacionCorrecta(c, telas + [t], gs[i := Grupo(Clave(c, t), gs[i].telas + [t])])
  {
    var g := Grupo(Clave(c, t), gs[i].telas + [t]);
    ExistenteDistintas(gs, i, g);
    ExistenteExactos(c, telas, gs, t, i);
    ExistenteCubre(c, telas, gs, t, i, g);
    SumOfUpdate(gs, i, g, (g: Grupo) => |g.telas|);
  }

  lemma NuevoExactos(c: CampoGrupo, telas: seq<TelaRow>, gs: seq<Grupo>, t: TelaRow)
    requires GruposExactos(c, telas, gs) && Cubre(c, telas, gs)
    requires forall j :: 0 <= j < |gs| ==> gs[j].clave != Clave(c, t)
    ensures GruposExactos(c, telas + [t], gs + [Grupo(Clave(c, t), [t])])
  {
    var k := Clave(c, t);
    var r := gs + [Grupo(k, [t])];
    forall u | u in telas
      ensures Clave(c, u) != k
    {
      var j :| 0 <= j < |gs| && gs[j].clave == Clave(c, u);
    }
    DeClaveEmpty(c, telas, k);
    forall j | 0 <= j < |r|
      ensures r[j].telas == DeClave(c, telas + [t], r[j].clave) && |r[j].telas| > 0
    {
      DeClaveAppend(c, telas, t, r[j].clave);
    }
  }

  lemma NuevoCubre(c: CampoGrupo, telas: seq<TelaRow>, gs: seq<Grupo>, t: TelaRow)
    requires Cubre(c, telas, gs)
    ensures Cubre(c, telas + [t], gs + [Grupo(Clave(c, t), [t])])
  {
    var r := gs + [Grupo(Clave(c, t), [t])];
    forall u | u in telas + [t]
      ensures exists j :: 0 <= j < |r| && r[j].clave == Clave(c, u)
    {
      if u in telas {
        var j :| 0 <= j < |gs| && gs[j].clave == Clave(c, u);
        assert r[j].clave == gs[j].clave;
      } else {
        assert r[|gs|].clave == Clave(c, u);
      }
    }
  }

  lemma NuevoDistintas(gs: seq<Grupo>, g: Grupo)
    requires ClavesDistintas(gs)
    requires forall j :: 0 <= j < |gs| ==> gs[j].clave != g.clave
    ensures ClavesDistintas(gs + [g])
  {
    var r := gs + [g];
    forall i, j | 0 <= i < j < |r|
      ensures r[i].clave != r[j].clave
    {
      if j == |gs| {
        assert r[i] == gs[i];
      }
    }
  }

  lemma AgregarNuevo(c: CampoGrupo, telas: seq<TelaRow>, gs: seq<Grupo>, t: TelaRow)
    requires AgrupacionCorrecta(c, telas, gs)
    requires forall j :: 0 <= j < |gs| ==> gs[j].clave != Clave(c, t)
    ensures AgrupacionCorrecta(c, telas + [t], gs + [Grupo(Clave(c, t), [t])])
  {
    var g := Grupo(Clave(c, t), [t]);
    NuevoDistintas(gs, g);
    NuevoExactos(c, telas, gs, t);
    NuevoCubre(c, telas, gs, t);
    SumOfAppend(gs, g, (g: Grupo) => |g.telas|);
    assert TamanoTotal(gs + [g]) == TamanoTotal(gs) + 1;
  }

  lemma AgregarCorrecto(c: CampoGrupo, telas: seq<TelaRow>, gs: seq<Grupo>, t: TelaRow, s: seq<TelaRow>)
    requires AgrupacionCorrecta(c, telas, gs)
    requires s == telas + [t]
    ensures AgrupacionCorrecta(c, s, Agregar(gs, Clave(c, t), t))
  {
    match FirstIndex(gs, (g: Grupo) => g.clave == Clave(c, t))
    case Some(i) => AgregarExistente(c, telas, gs, t, i);
    case None => AgregarNuevo(c, telas, gs, t);
  }

  /** Grouping yields distinct keys, each group holding exactly the lots of
      its key (a null value under "No especificado"), every lot in a group,
      and group sizes summing to the number of lots. */
  lemma {:induction false} AgruparCorrecto(c: CampoGrupo, telas: seq<TelaRow>)
    ensures AgrupacionCorrecta(c, telas, Agrupar(c, telas))
  {
    if telas != [] {
      var n := |telas|;
      var previas, t := telas[..n - 1], telas[n - 1];
      assert previas + [t] == telas;
      AgruparCorrecto(c, previas);
      AgregarCorrecto(c, previas, Agrupar(c, previas), t, telas);
    }
  }

  /** The statistics map built for one group. */
  datatype EstadisticaGrupo = EstadisticaGrupo(
    keyName: string,
    clave: string,
    cantidadTelas: int,
    totalPeso: Decimal,
    totalRollos: int,
    stockTotal: Decimal)

  function Estadistica(keyName: string, g: Grupo): EstadisticaGrupo {
    EstadisticaGrupo(keyName, g.clave, |g.telas|,
                     SumOf(g.telas, (t: TelaRow) => t.pesoIngresado),
                     WrapInt(SumOf(g.telas, (t: TelaRow) => t.cantRolloIngresado)),
                     SumOf(g.telas, (t: TelaRow) => t.stockReal))
  }

  /** The entry reported for key `k`: the lots of that key, their number and
      the sums of weight, rolls (as an int sum) and stock. */
  predicate EstadisticaDe(c: CampoGrupo, telas: seq<TelaRow>, e: EstadisticaGrupo) {
    var g := DeClave(c, telas, e.clave);
    && e.keyName == KeyName(c)
    && e.cantidadTelas == |g| > 0
    && e.totalPeso == SumOf(g, (t: TelaRow) => t.pesoIngresado)
    && e.totalRollos == WrapInt(SumOf(g, (t: TelaRow) => t.cantRolloIngresado))
    && e.stockTotal == SumOf(g, (t: TelaRow) => t.stockReal)
  }

  /** generarEstadisticasAgrupadas: one entry per key present, with distinct
      keys. */
  function GenerarEstadisticasAgrupadas(telas: seq<TelaRow>, c: CampoGrupo): (r: seq<EstadisticaGrupo>)
    ensures forall i, j :: 0 <= i < j < |r| ==> r[i].clave != r[j].clave
    ensures forall i :: 0 <= i < |r| ==> EstadisticaDe(c, telas, r[i])
    ensures forall t :: t in telas ==> exists i :: 0 <= i < |r| && r[i].clave == Clave(c, t)
    ensures SumOf(r, (e: EstadisticaGrupo) => e.cantidadTelas) == |telas|
  {
    var gs := Agrupar(c, telas);
    AgruparCorrecto(c, telas);
    var r := EntradasDeGrupos(KeyName(c), gs);
    EstadisticasDeGrupos(c, telas, gs, r);
    r
  }

  /** One statistics entry per group, in group order. */
  function EntradasDeGrupos(keyName: string, gs: seq<Grupo>): (r: seq<EstadisticaGrupo>)
    ensures |r| == |gs| && forall i :: 0 <= i < |gs| ==> r[i] == Estadistica(keyName, gs[i])
  {
    seq(|gs|, i requires 0 <= i < |gs| => Estadistica(keyName, gs[i]))
  }

  lemma EstadisticasDeGrupos(c: CampoGrupo, telas: seq<TelaRow>, gs: seq<Grupo>, r: seq<EstadisticaGrupo>)
    requires AgrupacionCorrecta(c, telas, gs)
    requires |r| == |gs| && forall i :: 0 <= i < |gs| ==> r[i] == Estadistica(KeyName(c), gs[i])
    ensures forall i, j :: 0 <= i < j < |r| ==> r[i].clave != r[j].clave
    ensures forall i :: 0 <= i < |r| ==> EstadisticaDe(c, telas, r[i])
    ensures forall t :: t in telas ==> exists i :: 0 <= i < |r| && r[i].clave == Clave(c, t)
    ensures SumOf(r, (e: EstadisticaGrupo) => e.cantidadTelas) == |telas|
  {
    SumSizesMatch(gs, r);
  }

  lemma {:induction false} SumSizesMatch(gs: seq<Grupo>, r: seq<EstadisticaGrupo>)
    requires |r| == |gs|
    requires forall i :: 0 <= i < |gs| ==> r[i].cantidadTelas == |gs[i].telas|
    ensures SumOf(r, (e: EstadisticaGrupo) => e.cantidadTelas) == TamanoTotal(gs)
  {
    if gs != [] {
      SumSizesMatch(gs[..|gs| - 1], r[..|r| - 1]);
    }
  }

  /** getEstadisticasPorCampo: an unsupported field is an
      IllegalArgumentException. */
  function EstadisticasPorCampo(telas: seq<TelaRow>, campo: string): (r: Result<seq<EstadisticaGrupo>>)
    ensures r.Err? <==> CampoGrupoDe(campo).None?
    ensures r.Err? ==> r.error == IllegalArgument
    ensures r.Ok? ==> r.value == GenerarEstadisticasAgrupadas(telas, CampoGrupoDe(campo).value)
  {
    match CampoGrupoDe(campo)
    case None => Err(IllegalArgument)
    case Some(c) => Ok(GenerarEstadisticasAgrupadas(telas, c))
  }
}
