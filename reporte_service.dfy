/** ReporteService: the case-insensitive lot filter of the reports and the
    choice of document format. Rendering the documents is not modelled: a
    report is the list of lots it would hold. */
module ReporteService {
  import opened Common
  import opened Text
  import opened TelaEntity
  import opened TelaService

  /** A case-insensitive text criterion holds: unset, or the field is
      present and its lower-cased text contains the lower-cased criterion. */
  predicate CumpleInsensible(criterio: Option<string>, campo: Option<string>) {
    !Activo(criterio) || (campo.Some? && Contains(Lower(campo.value), Lower(criterio.value)))
  }

  /** Every criterion set in the report filter holds for the lot. */
  predicate CumpleReporte(t: TelaRow, f: TelaFiltro) {
    && (forall k :: 0 <= k < 9 ==> CumpleInsensible(Criterios(t, f)[k].0, Criterios(t, f)[k].1))
    && DentroDeFechas(t, f)
  }

  lemma CumpleReporteUnfold(t: TelaRow, f: TelaFiltro)
    ensures CumpleReporte(t, f) <==>
      && CumpleInsensible(f.numGuia, t.numGuia) && CumpleInsensible(f.proveedor, t.proveedor)
      && CumpleInsensible(f.cliente, t.cliente) && CumpleInsensible(f.descripcion, t.descripcion)
      && CumpleInsensible(f.os, t.os) && CumpleInsensible(f.partida, t.partida)
      && CumpleInsensible(f.estado, t.estado) && CumpleInsensible(f.almacen, t.almacen)
      && CumpleInsensible(f.tipoTela, t.tipoTela) && DentroDeFechas(t, f)
  {
    var c := Criterios(t, f);
    assert c[0] == (f.numGuia, t.numGuia) && c[1] == (f.proveedor, t.proveedor);
    assert c[2] == (f.cliente, t.cliente) && c[3] == (f.descripcion, t.descripcion);
    assert c[4] == (f.os, t.os) && c[5] == (f.partida, t.partida);
    assert c[6] == (f.estado, t.estado) && c[7] == (f.almacen, t.almacen);
    assert c[8] == (f.tipoTela, t.tipoTela);
  }

  /** ReporteService.aplicarFiltros, with its running `cumpleFiltros` flag
      and the date bounds written as isEqual-or-isAfter / isEqual-or-isBefore. */
  function AplicarFiltros(t: TelaRow, filtros: Option<TelaFiltro>): (r: bool)
    ensures filtros.None? ==> r
    ensures filtros.Some? ==> (r <==> CumpleReporte(t, filtros.value))
  {
    if filtros.None? then true
    else
      var f := filtros.value;
      CumpleReporteUnfold(t, f);
      var c1 := if Activo(f.numGuia) then t.numGuia.Some? && Contains(Lower(t.numGuia.value), Lower(f.numGuia.value)) else true;
      var c2 := if c1 && Activo(f.proveedor) then c1 && t.proveedor.Some? && Contains(Lower(t.proveedor.value), Lower(f.proveedor.value)) else c1;
      var c3 := if c2 && Activo(f.cliente) then c2 && t.cliente.Some? && Contains(Lower(t.cliente.value), Lower(f.cliente.value)) else c2;
      var c4 := if c3 && Activo(f.descripcion) then c3 && t.descripcion.Some? && Contains(Lower(t.descripcion.value), Lower(f.descripcion.value)) else c3;
      var c5 := if c4 && Activo(f.os) then c4 && t.os.Some? && Contains(Lower(t.os.value), Lower(f.os.value)) else c4;
      var c6 := if c5 && Activo(f.partida) then c5 && t.partida.Some? && Contains(Lower(t.partida.value), Lower(f.partida.value)) else c5;
      var c7 := if c6 && Activo(f.estado) then c6 && t.estado.Some? && Contains(Lower(t.estado.value), Lower(f.estado.value)) else c6;
      var c8 := if c7 && Activo(f.almacen) then c7 && t.almacen.Some? && Contains(Lower(t.almacen.value), Lower(f.almacen.value)) else c7;
      var c9 := if c8 && Activo(f.tipoTela) then c8 && t.tipoTela.Some? && Contains(Lower(t.tipoTela.value), Lower(f.tipoTela.value)) else c8;
      var c10 := if c9 && f.fechaInicio.Some? && t.fechaIngreso.Some?
        then c9 && (t.fechaIngreso.value == f.fechaInicio.value || t.fechaIngreso.value > f.fechaInicio.value) else c9;
      var c11 := if c10 && f.fechaFin.Some? && t.fechaIngreso.Some?
        then c10 && (t.fechaIngreso.value == f.fechaFin.value || t.fechaIngreso.value < f.fechaFin.value) else c10;
      c11
  }

  /** The report filter is the case-folding widening of the lot search's
      advanced filter: every lot that filter accepts, this one accepts. */
  lemma FiltroSensibleImplicaReporte(t: TelaRow, filtro: Option<TelaFiltro>)
    requires TelaService.AplicarFiltros(t, filtro)
    ensures AplicarFiltros(t, filtro)
  {
    if filtro.Some? {
      var f := filtro.value;
      CumpleFiltroUnfold(t, f);
      CumpleReporteUnfold(t, f);
      var c := Criterios(t, f);
      forall k | 0 <= k < 9
        ensures CumpleInsensible(c[k].0, c[k].1)
      {
        assert CumpleSensible(c[k].0, c[k].1) by {
          assert c[0] == (f.numGuia, t.numGuia) && c[1] == (f.proveedor, t.proveedor);
          assert c[2] == (f.cliente, t.cliente) && c[3] == (f.descripcion, t.descripcion);
          assert c[4] == (f.os, t.os) && c[5] == (f.partida, t.partida);
          assert c[6] == (f.estado, t.estado) && c[7] == (f.almacen, t.almacen);
          assert c[8] == (f.tipoTela, t.tipoTela);
        }
        if Activo(c[k].0) {
          ContainsLower(c[k].1.value, c[k].0.value);
        }
      }
    }
  }

  /** The report filter ignores case where the advanced filter does not: a
      lower-case guide number matches an upper-case criterion. */
  lemma ReporteIgnoraMayusculas(t: TelaRow, f: TelaFiltro)
    requires f == TelaFiltro(Some("A"), None, None, None, None, None, None, None, None, None, None)
    requires t.numGuia == Some("a")
    ensures AplicarFiltros(t, Some(f))
    ensures !TelaService.AplicarFiltros(t, Some(f))
  {
    AplicarFiltrosCaseSensitive(t, f);
    assert Lower("a") == "a" && Lower("A") == "a";
    assert OccursAt("a", "a", 0);
    CumpleReporteUnfold(t, f);
  }

  /** The document a report request produces, modelled by its lots. */
  datatype Reporte = Excel(telas: seq<TelaRow>) | Pdf(telas: seq<TelaRow>)

  /** generarReporte: the lots the filter keeps, rendered as Excel or PDF
      by a case-insensitive match on the format; any other format (null
      included) raises IllegalArgumentException, which the closing
      onErrorResume rethrows as ResourceNotFoudException. */
  function GenerarReporte(telas: seq<TelaRow>, filtros: Option<TelaFiltro>, formato: Option<string>): (r: Result<Reporte>)
    ensures r.Ok? <==> formato.Some? && (EqualsIgnoreCase("excel", formato.value) || EqualsIgnoreCase("pdf", formato.value))
    ensures r.Err? ==> r.error == ResourceNotFound
    ensures r.Ok? ==> (r.value.Excel? <==> EqualsIgnoreCase("excel", formato.value))
    ensures r.Ok? ==> forall t :: t in r.value.telas <==> t in telas && AplicarFiltros(t, filtros)
    ensures r.Ok? && filtros.None? ==> r.value.telas == telas
  {
    var seleccion := if filtros.None? then telas else Filter(telas, (t: TelaRow) => AplicarFiltros(t, filtros));
    if formato.Some? && EqualsIgnoreCase("excel", formato.value) then Ok(Excel(seleccion))
    else if formato.Some? && EqualsIgnoreCase("pdf", formato.value) then Ok(Pdf(seleccion))
    else Err(ResourceNotFound)
  }

  /** Upper-case format names are accepted. */
  lemma FormatoSinMayusculas()
    ensures GenerarReporte([], None, Some("PDF")) == Ok(Pdf([]))
    ensures GenerarReporte([], None, Some("Excel")) == Ok(Excel([]))
    ensures GenerarReporte([], None, Some("csv")) == Err(ResourceNotFound)
  {
    assert Fold("PDF") == "pdf";
    assert Fold("Excel") == "excel";
    assert Fold("csv") == "csv";
    assert Fold("excel") == "excel" && Fold("pdf") == "pdf";
  }
}
