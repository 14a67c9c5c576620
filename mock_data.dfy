/** The static sample data the pages read: the executive actions, the
    calendar events that point at them, the account summary and the
    operational KPIs. Dates are day numbers counted from 1 January 2023
    (day 1). */
module MockData {
  import opened Common

  /** An executive action (corrective or preventive). */
  datatype Accion = Accion(id: int, tipo: string, descripcion: string, categoria: string,
                           usuarioAsignado: string, fechaAsignacion: int, resultadoEsperado: string,
                           fechaEvaluacion: int, estado: string, notas: string)

  /** A calendar event scheduled for the evaluation of an action. */
  datatype Evento = Evento(id: int, title: string, date: int, accionId: int, estado: string)

  /** One row of the account summary. */
  datatype CuentaResumen = CuentaResumen(cuenta: string, ingresos: int, gastos: int, saldo: int)

  const AccionesEjecutivas: seq<Accion> := [
    Accion(1, "preventiva", "Revisión general de la flota", "Mantenimiento", "Carlos González",
           130, "Reducción de incidencias", 137, "completada", "Realizado conforme al plan"),
    Accion(2, "correctiva", "Reparación urgente de unidad 003", "Reparación", "Miguel Ángel López",
           132, "Unidad operativa", 134, "pendiente", "En espera de piezas"),
    Accion(3, "preventiva", "Capacitación de operadores", "Formación", "Laura Ramírez",
           125, "Mejora en eficiencia", 140, "en progreso", "Primera sesión completada")
  ]

  const EventosCalendario: seq<Evento> := [
    Evento(1, "Evaluación de capacitación", 140, 3, "pendiente"),
    Evento(2, "Verificar reparación unidad 003", 134, 2, "vencido"),
    Evento(3, "Seguimiento de incidencias", 137, 1, "completado"),
    Evento(4, "Evaluación de nuevas rutas", 145, 4, "proximo")
  ]

  const CuentasResumen: seq<CuentaResumen> := [
    CuentaResumen("Cuenta Operativa", 750000, 580000, 170000),
    CuentaResumen("Cuenta Reservas", 120000, 45000, 75000),
    CuentaResumen("Cuenta Inversiones", 50000, 10000, 40000)
  ]

  /** The operational KPI object, as a record of its six fields. */
  const KpisOperativos: Record := [
    Field("asistencias", Num(28.0)),
    Field("kilometros", Num(45680.0)),
    Field("combustible", Num(8950.0)),
    Field("combustiblePresupuestado", Num(10000.0)),
    Field("pedidosEntregados", Num(340.0)),
    Field("pedidosProgramados", Num(380.0))
  ]

  /** The expenses-by-category series the financial drill-down shows. */
  const GastosPorCategoria: seq<Record> := [
    [Field("name", Str("Combustible")), Field("value", Num(45000.0)), Field("color", Str("#FF9900"))],
    [Field("name", Str("Mantenimiento")), Field("value", Num(28000.0)), Field("color", Str("#6F797F"))],
    [Field("name", Str("Salarios")), Field("value", Num(35000.0)), Field("color", Str("#DB0000"))],
    [Field("name", Str("Seguros")), Field("value", Num(15000.0)), Field("color", Str("#444444"))],
    [Field("name", Str("Otros")), Field("value", Num(7000.0)), Field("color", Str("#222222"))],
    [Field("name", Str("No Deducibles")), Field("value", Num(18000.0)), Field("color", Str("#666666"))]
  ]

  /** The trips-by-client series the operational drill-down shows. */
  const ViajesPorCliente: seq<Record> := [
    [Field("name", Str("Cliente A")), Field("value", Num(120.0)), Field("color", Str("#FF9900"))],
    [Field("name", Str("Cliente B")), Field("value", Num(80.0)), Field("color", Str("#6F797F"))],
    [Field("name", Str("Cliente C")), Field("value", Num(60.0)), Field("color", Str("#DB0000"))],
    [Field("name", Str("Cliente D")), Field("value", Num(40.0)), Field("color", Str("#444444"))]
  ]
}
