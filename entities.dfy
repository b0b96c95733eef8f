/** The records the services read and write besides the lot itself: the
    movement ledger, cutting issuances, warehouses and the per-warehouse
    assignments of lots. Every id is the record's position in its table. */
module Entities {
  import opened Common

  /** A row of `movimientos_tela`. */
  datatype Movimiento = Movimiento(
    telaId: int,
    areaOrigen: string,
    areaDestino: string,
    cantidad: Decimal,
    fechaMovimiento: Timestamp,
    tipoMovimiento: string,
    referenciaDocumento: Option<string>,
    usuarioResponsable: Option<string>,
    estado: string,
    observaciones: Option<string>)

  /** A row of `salidas_corte`: one issuance of fabric to a cutting service. */
  datatype SalidaCorte = SalidaCorte(
    telaId: int,
    servicioCorte: string,
    fechaSalida: Date,
    notaSalida: string,
    op: string,
    salidaCorte: Decimal,
    areaDestino: string,
    estado: string,
    usuarioResponsable: Option<string>,
    fechaRegistro: Timestamp,
    fechaActualizacion: Timestamp)

  /** EstadoAlmacenTela. */
  datatype EstadoAlmacenTela = ACTIVO | CONSUMIDO

  /** A row of `almacen_telas`: a weight of one lot held in one warehouse. */
  datatype AlmacenTela = AlmacenTela(
    almacenId: int,
    telaId: int,
    peso: Option<Decimal>,
    fechaAsignacion: Timestamp,
    estado: EstadoAlmacenTela)

  /** A row of `almacenes`; only the name takes part in the modelled logic. */
  datatype Almacen = Almacen(nombreAlmacen: Option<string>)

  const COMPLETADO: string := "COMPLETADO"
  const ANULADO: string := "ANULADO"
}
