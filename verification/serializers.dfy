/**
 * What the serializers decide about incoming data before anything is
 * stored: field-level validation of tickets, cards and incidents, the
 * ticket serializer's balance check, the card debit its `create` performs,
 * which fields a client may write, and the driver's display name.
 */
module Serializers {
  import opened Wrappers
  import opened Text
  import opened Models

  // ---------------------------------------------------------------------
  // Tickets
  // ---------------------------------------------------------------------

  /**
   * The fields of a ticket request. For each optional field, `None` means
   * the field was not sent; for a nullable reference, `Some(None)` means it
   * was sent as null. A create is the same request with nothing partial.
   */
  datatype BoletoDatos = BoletoDatos(viaje: Option<ViajeId>, tarjeta: Option<Option<TarjetaId>>,
                                     monto: Option<int>, paradaSubida: Option<Option<ParadaId>>)

  datatype BoletoCampo = CampoViaje | CampoTarjeta | CampoMonto | CampoParadaSubida

  /**
   * Field-level errors: a required field missing (only when the request is
   * not partial), a reference to a row that does not exist, an amount that
   * does not fit its column.
   */
  function ErroresBoleto(d: BoletoDatos, parcial: bool, tarjetas: set<TarjetaId>,
                         viajes: set<ViajeId>, paradas: set<ParadaId>): (e: set<BoletoCampo>)
    ensures CampoViaje in e <==> (d.viaje.None? && !parcial) || (d.viaje.Some? && d.viaje.value !in viajes)
    ensures CampoTarjeta in e <==> d.tarjeta.Some? && d.tarjeta.value.Some? && d.tarjeta.value.value !in tarjetas
    ensures CampoMonto in e <==> (d.monto.None? && !parcial) || (d.monto.Some? && !FitsMoneyField(d.monto.value))
    ensures CampoParadaSubida in e <==>
              d.paradaSubida.Some? && d.paradaSubida.value.Some? && d.paradaSubida.value.value !in paradas
  {
    (if (d.viaje.None? && !parcial) || (d.viaje.Some? && d.viaje.value !in viajes) then {CampoViaje} else {})
    + (if d.tarjeta.Some? && d.tarjeta.value.Some? && d.tarjeta.value.value !in tarjetas then {CampoTarjeta} else {})
    + (if (d.monto.None? && !parcial) || (d.monto.Some? && !FitsMoneyField(d.monto.value)) then {CampoMonto} else {})
    + (if d.paradaSubida.Some? && d.paradaSubida.value.Some? && d.paradaSubida.value.value !in paradas
       then {CampoParadaSubida} else {})
  }

  /** The card instance the validated data carries, if the request names one. */
  function TarjetaIndicada(d: BoletoDatos, tarjetas: map<TarjetaId, Tarjeta>): Option<Tarjeta> {
    if d.tarjeta.Some? && d.tarjeta.value.Some? && d.tarjeta.value.value in tarjetas
    then Some(tarjetas[d.tarjeta.value.value])
    else None
  }

  /**
   * Outcome of `BoletoSerializer.validate`. Comparing a balance with an
   * absent amount (a partial update that names a card but no amount)
   * raises a type error rather than a validation error.
   */
  datatype Validacion = Valida | RechazoSaldo | ErrorTipo

  /**
   * The check rejects exactly when a card is given and its balance is
   * below the amount; a card without an amount cannot be compared.
   */
  function ValidarBoleto(tarjeta: Option<Tarjeta>, monto: Option<int>): (v: Validacion)
    ensures v == RechazoSaldo <==> tarjeta.Some? && monto.Some? && tarjeta.value.saldo < monto.value
    ensures v == ErrorTipo <==> tarjeta.Some? && monto.None?
  {
    match tarjeta
    case None => Valida
    case Some(t) =>
      match monto
      case None => ErrorTipo
      case Some(m) => if t.saldo < m then RechazoSaldo else Valida
  }

  /** A cash ticket always passes; so does an amount equal to the balance. */
  lemma ValidarBoletoAccepts(t: Tarjeta, monto: Option<int>)
    ensures ValidarBoleto(None, monto) == Valida
    ensures ValidarBoleto(Some(t), Some(t.saldo)) == Valida
  {
  }

  /** The check never looks at whether the card is active: an inactive card pays like an active one. */
  lemma ValidarBoletoIgnoresActiva(t: Tarjeta, monto: Option<int>, activa: bool)
    ensures ValidarBoleto(Some(t.(activa := activa)), monto) == ValidarBoleto(Some(t), monto)
  {
  }

  /** `tarjeta.saldo -= monto`: only the balance changes, by exactly the amount. */
  function Debitar(t: Tarjeta, monto: int): (r: Tarjeta)
    ensures r.saldo == t.saldo - monto
    ensures r.(saldo := t.saldo) == t
  {
    t.(saldo := t.saldo - monto)
  }

  /** A balance that was not negative and passed the check is still not negative after the debit. */
  lemma ValidatedDebitNonNegative(t: Tarjeta, m: int)
    requires t.saldo >= 0 && ValidarBoleto(Some(t), Some(m)) == Valida
    ensures Debitar(t, m).saldo >= 0
  {
  }

  /** The check ignores the sign of the amount: a negative amount passes and raises the balance. */
  lemma NegativeAmountRaisesBalance(t: Tarjeta, m: int)
    requires m < 0 && t.saldo >= 0
    ensures ValidarBoleto(Some(t), Some(m)) == Valida && Debitar(t, m).saldo > t.saldo
  {
  }

  /** The ticket `create` records: `id` and `fecha_compra` are set by the store. */
  function NuevoBoleto(id: BoletoId, d: BoletoDatos, ahora: Instante): (b: Boleto)
    requires d.viaje.Some? && d.monto.Some?
    ensures b.id == id && b.fechaCompra == ahora
    ensures b.viaje == d.viaje.value && b.monto == d.monto.value
    ensures b.tarjeta == (if d.tarjeta.Some? then d.tarjeta.value else None)
    ensures b.paradaSubida == (if d.paradaSubida.Some? then d.paradaSubida.value else None)
  {
    Boleto(id, d.viaje.value, if d.tarjeta.Some? then d.tarjeta.value else None, d.monto.value,
           ahora, if d.paradaSubida.Some? then d.paradaSubida.value else None)
  }

  /**
   * A ticket update sets the fields that were sent and keeps the others;
   * `id` and `fecha_compra` are read-only.
   */
  function AplicarBoletoDatos(b: Boleto, d: BoletoDatos): (r: Boleto)
    ensures r.id == b.id && r.fechaCompra == b.fechaCompra
    ensures r.viaje == d.viaje.GetOr(b.viaje)
    ensures r.tarjeta == d.tarjeta.GetOr(b.tarjeta)
    ensures r.monto == d.monto.GetOr(b.monto)
    ensures r.paradaSubida == d.paradaSubida.GetOr(b.paradaSubida)
  {
    Boleto(b.id, d.viaje.GetOr(b.viaje), d.tarjeta.GetOr(b.tarjeta), d.monto.GetOr(b.monto),
           b.fechaCompra, d.paradaSubida.GetOr(b.paradaSubida))
  }

  // ---------------------------------------------------------------------
  // Cards
  // ---------------------------------------------------------------------

  /** The writable fields of the card serializer, which are the ones a request can fail on. */
  datatype TarjetaCampo = CampoNumero | CampoTipo | CampoSaldo | CampoActiva

  /** The writable fields of a card request; `tipo` arrives as its stored code. */
  datatype TarjetaDatos = TarjetaDatos(numero: Option<string>, tipo: Option<string>,
                                       saldo: Option<int>, activa: Option<bool>)

  const NumeroMaxLength: nat := 50

  /** The other cards that already hold a card number. */
  predicate NumeroEnUso(tarjetas: map<TarjetaId, Tarjeta>, numero: string, excepto: Option<TarjetaId>) {
    exists k :: k in tarjetas && Some(k) != excepto && tarjetas[k].numero == numero
  }

  /**
   * Field-level errors of a card request: `numero` required, and once its
   * surrounding whitespace is stripped, non-blank, at most 50 characters,
   * free of null characters and unique; `tipo` required and one of the choices (a choice is not
   * stripped); `saldo` within its column. `excepto` is the card being
   * updated.
   */
  function ErroresTarjeta(d: TarjetaDatos, parcial: bool, tarjetas: map<TarjetaId, Tarjeta>,
                          excepto: Option<TarjetaId>): (e: set<TarjetaCampo>)
    ensures CampoNumero in e <==>
              (d.numero.None? && !parcial) ||
              (d.numero.Some? && (Strip(d.numero.value) == "" || |Strip(d.numero.value)| > NumeroMaxLength ||
                                  '\0' in Strip(d.numero.value) ||
                                  NumeroEnUso(tarjetas, Strip(d.numero.value), excepto)))
    ensures CampoTipo in e <==> (d.tipo.None? && !parcial) || (d.tipo.Some? && TipoTarjetaDesde(d.tipo.value).None?)
    ensures CampoSaldo in e <==> d.saldo.Some? && !FitsMoneyField(d.saldo.value)
    ensures e <= {CampoNumero, CampoTipo, CampoSaldo}
  {
    (if (d.numero.None? && !parcial) ||
        (d.numero.Some? && (Strip(d.numero.value) == "" || |Strip(d.numero.value)| > NumeroMaxLength ||
                            '\0' in Strip(d.numero.value) ||
                            NumeroEnUso(tarjetas, Strip(d.numero.value), excepto)))
     then {CampoNumero} else {})
    + (if (d.tipo.None? && !parcial) || (d.tipo.Some? && TipoTarjetaDesde(d.tipo.value).None?)
       then {CampoTipo} else {})
    + (if d.saldo.Some? && !FitsMoneyField(d.saldo.value) then {CampoSaldo} else {})
  }

  /** A number holding a null character is refused, whatever cards exist: `12\0` fails on `numero`. */
  lemma NumeroConNuloRechazado(tarjetas: map<TarjetaId, Tarjeta>, parcial: bool, excepto: Option<TarjetaId>)
    ensures CampoNumero in ErroresTarjeta(TarjetaDatos(Some("12\0"), None, None, None), parcial, tarjetas, excepto)
  {
    StripUnchanged("12\0");
  }

  /** A card update sets the fields that were sent, the balance included; the number is stored stripped. */
  function AplicarTarjetaDatos(t: Tarjeta, d: TarjetaDatos): (r: Tarjeta)
    requires d.tipo.Some? ==> TipoTarjetaDesde(d.tipo.value).Some?
    ensures r.id == t.id && r.fechaEmision == t.fechaEmision
    ensures d.numero.Some? ==> r.numero == Strip(d.numero.value)
    ensures d.numero.None? ==> r.numero == t.numero
    ensures r.saldo == d.saldo.GetOr(t.saldo)
    ensures r.activa == d.activa.GetOr(t.activa)
    ensures d.tipo.Some? ==> r.tipo.Codigo() == d.tipo.value
    ensures d.tipo.None? ==> r.tipo == t.tipo
  {
    Tarjeta(t.id, if d.numero.Some? then Strip(d.numero.value) else t.numero,
            if d.tipo.Some? then TipoTarjetaDesde(d.tipo.value).value else t.tipo,
            d.saldo.GetOr(t.saldo), t.fechaEmision, d.activa.GetOr(t.activa))
  }

  // ---------------------------------------------------------------------
  // Incidents
  // ---------------------------------------------------------------------

  datatype IncidenteDatos = IncidenteDatos(viaje: Option<Option<ViajeId>>, descripcion: Option<string>,
                                           gravedad: Option<string>, resuelto: Option<bool>)

  datatype IncidenteCampo = CampoIncidenteViaje | CampoDescripcion | CampoGravedad

  /**
   * Field-level errors of an incident request: the trip, when given, must
   * exist; `descripcion` required, not blank (nothing but whitespace) and
   * free of null characters; `gravedad` required and one of the choices.
   */
  function ErroresIncidente(d: IncidenteDatos, parcial: bool, viajes: set<ViajeId>): (e: set<IncidenteCampo>)
    ensures CampoIncidenteViaje in e <==> d.viaje.Some? && d.viaje.value.Some? && d.viaje.value.value !in viajes
    ensures CampoDescripcion in e <==>
              (d.descripcion.None? && !parcial) || (d.descripcion.Some? && (Strip(d.descripcion.value) == "" || '\0' in Strip(d.descripcion.value)))
    ensures CampoGravedad in e <==>
              (d.gravedad.None? && !parcial) || (d.gravedad.Some? && GravedadDesde(d.gravedad.value).None?)
  {
    (if d.viaje.Some? && d.viaje.value.Some? && d.viaje.value.value !in viajes then {CampoIncidenteViaje} else {})
    + (if (d.descripcion.None? && !parcial) || (d.descripcion.Some? && (Strip(d.descripcion.value) == "" || '\0' in Strip(d.descripcion.value)))
       then {CampoDescripcion} else {})
    + (if (d.gravedad.None? && !parcial) || (d.gravedad.Some? && GravedadDesde(d.gravedad.value).None?)
       then {CampoGravedad} else {})
  }

  /**
   * An incident update sets the fields that were sent, the description
   * stripped; `id` and `fecha` are read-only.
   */
  function AplicarIncidenteDatos(i: Incidente, d: IncidenteDatos): (r: Incidente)
    requires d.gravedad.Some? ==> GravedadDesde(d.gravedad.value).Some?
    ensures r.id == i.id && r.fecha == i.fecha
    ensures r.viaje == d.viaje.GetOr(i.viaje)
    ensures d.descripcion.Some? ==> r.descripcion == Strip(d.descripcion.value)
    ensures d.descripcion.None? ==> r.descripcion == i.descripcion
    ensures r.resuelto == d.resuelto.GetOr(i.resuelto)
    ensures d.gravedad.Some? ==> r.gravedad.Codigo() == d.gravedad.value
    ensures d.gravedad.None? ==> r.gravedad == i.gravedad
  {
    Incidente(i.id, d.viaje.GetOr(i.viaje), i.fecha,
              if d.descripcion.Some? then Strip(d.descripcion.value) else i.descripcion,
              if d.gravedad.Some? then GravedadDesde(d.gravedad.value).value else i.gravedad,
              d.resuelto.GetOr(i.resuelto))
  }

  // ---------------------------------------------------------------------
  // Drivers
  // ---------------------------------------------------------------------

  /**
   * `nombre_completo`: the surname, a comma and a space, then the first
   * name, the same text as the driver's `__str__`.
   */
  function NombreCompleto(c: Chofer): (s: string)
    ensures |s| == |c.apellido| + 2 + |c.nombre|
    ensures s[..|c.apellido|] == c.apellido && s[|c.apellido|..|c.apellido| + 2] == ", "
    ensures s[|c.apellido| + 2..] == c.nombre
    ensures s == ChoferStr(c)
  {
    c.apellido + ", " + c.nombre
  }
}
