/**
 * The transit records of the `transporte` application: field domains,
 * defaults, uniqueness constraints, the rule each foreign key follows when
 * its target is deleted, and each record's `__str__`.
 *
 * Primary keys are natural numbers; a foreign key holds the target's key.
 * Amounts are integer cents (every amount column has two decimal places).
 */
module Models {
  import opened Wrappers
  import opened Text

  type LineaId = nat
  type ParadaId = nat
  type RutaId = nat
  type RutaParadaId = nat
  type VehiculoId = nat
  type ChoferId = nat
  type HorarioId = nat
  type ViajeId = nat
  type TarjetaId = nat
  type BoletoId = nat
  type MantenimientoId = nat
  type IncidenteId = nat

  // ---------------------------------------------------------------------
  // Money: DecimalField(max_digits=10, decimal_places=2)
  // ---------------------------------------------------------------------

  const MaxDigits: nat := 10
  const DecimalPlaces: nat := 2

  /** Exclusive bound on the magnitude of an amount column, in cents. */
  const MoneyLimit: int := 10_000_000_000

  predicate FitsMoneyField(cents: int) {
    -MoneyLimit < cents < MoneyLimit
  }

  function Abs(x: int): nat {
    if x < 0 then -x else x
  }

  /**
   * An amount fits its column exactly when its whole part has at most
   * `MaxDigits - DecimalPlaces` (eight) digits.
   */
  lemma FitsMoneyFieldWholeDigits(cents: int)
    ensures FitsMoneyField(cents) <==> |NatToString(Abs(cents) / 100)| <= MaxDigits - DecimalPlaces
  {
    NatToStringLength(Abs(cents) / 100, 8);
    assert Pow10(8) == 100_000_000 by {
      assert Pow10(1) == 10;
      assert Pow10(2) == 100;
      assert Pow10(4) == 10_000 by { assert Pow10(3) == 1000; }
      assert Pow10(6) == 1_000_000 by { assert Pow10(5) == 100_000; }
      assert Pow10(7) == 10_000_000;
    }
  }

  // ---------------------------------------------------------------------
  // Dates and times
  // ---------------------------------------------------------------------

  datatype Fecha = Fecha(anio: nat, mes: nat, dia: nat)
  datatype Hora = Hora(hora: nat, minuto: nat, segundo: nat)
  datatype Instante = Instante(fecha: Fecha, hora: Hora)

  predicate Bisiesto(anio: nat) {
    (anio % 4 == 0 && anio % 100 != 0) || anio % 400 == 0
  }

  function DiasDelMes(anio: nat, mes: nat): nat {
    if mes == 2 then (if Bisiesto(anio) then 29 else 28)
    else if mes in {4, 6, 9, 11} then 30
    else 31
  }

  /** The range of Python's `date`: years 1 to 9999. */
  predicate ValidFecha(f: Fecha) {
    1 <= f.anio <= 9999 && 1 <= f.mes <= 12 && 1 <= f.dia <= DiasDelMes(f.anio, f.mes)
  }

  predicate ValidHora(h: Hora) {
    h.hora < 24 && h.minuto < 60 && h.segundo < 60
  }

  /** `str(date)`: ISO form `YYYY-MM-DD`. */
  function FechaIso(f: Fecha): (s: string)
    requires ValidFecha(f)
    ensures |s| == 10 && s[4] == '-' && s[7] == '-'
    ensures AllDigits(s[..4]) && AllDigits(s[5..7]) && AllDigits(s[8..])
    ensures ParseNat(s[..4]) == f.anio && ParseNat(s[5..7]) == f.mes && ParseNat(s[8..]) == f.dia
  {
    var s := Pad4(f.anio) + "-" + Pad2(f.mes) + "-" + Pad2(f.dia);
    assert s[..4] == Pad4(f.anio) && s[5..7] == Pad2(f.mes) && s[8..] == Pad2(f.dia);
    s
  }

  /** `strftime('%d/%m/%Y')`. */
  function FechaDmy(f: Fecha): (s: string)
    requires ValidFecha(f)
    ensures |s| == 10 && s[2] == '/' && s[5] == '/'
    ensures AllDigits(s[..2]) && AllDigits(s[3..5]) && AllDigits(s[6..])
    ensures ParseNat(s[..2]) == f.dia && ParseNat(s[3..5]) == f.mes && ParseNat(s[6..]) == f.anio
  {
    var s := Pad2(f.dia) + "/" + Pad2(f.mes) + "/" + Pad4(f.anio);
    assert s[..2] == Pad2(f.dia) && s[3..5] == Pad2(f.mes) && s[6..] == Pad4(f.anio);
    s
  }

  /** `str(time)` for a time with no microseconds: `HH:MM:SS`. */
  function HoraIso(h: Hora): (s: string)
    requires ValidHora(h)
    ensures |s| == 8 && s[2] == ':' && s[5] == ':'
    ensures AllDigits(s[..2]) && AllDigits(s[3..5]) && AllDigits(s[6..])
    ensures ParseNat(s[..2]) == h.hora && ParseNat(s[3..5]) == h.minuto && ParseNat(s[6..]) == h.segundo
  {
    var s := Pad2(h.hora) + ":" + Pad2(h.minuto) + ":" + Pad2(h.segundo);
    assert s[..2] == Pad2(h.hora) && s[3..5] == Pad2(h.minuto) && s[6..] == Pad2(h.segundo);
    s
  }

  // ---------------------------------------------------------------------
  // Choice fields: the stored code of each choice
  // ---------------------------------------------------------------------

  datatype TipoTarjeta = Normal | Estudiante | Jubilado {
    function Codigo(): string {
      match this
      case Normal => "normal"
      case Estudiante => "estudiante"
      case Jubilado => "jubilado"
    }
  }

  /** The card-type choice a stored code denotes, if it is one of the three. */
  function TipoTarjetaDesde(codigo: string): (r: Option<TipoTarjeta>)
    ensures r.Some? <==> codigo in {"normal", "estudiante", "jubilado"}
    ensures r.Some? ==> r.value.Codigo() == codigo
  {
    if codigo == "normal" then Some(Normal)
    else if codigo == "estudiante" then Some(Estudiante)
    else if codigo == "jubilado" then Some(Jubilado)
    else None
  }

  datatype EstadoViaje = Programado | EnCurso | Finalizado | Cancelado {
    function Codigo(): string {
      match this
      case Programado => "programado"
      case EnCurso => "en_curso"
      case Finalizado => "finalizado"
      case Cancelado => "cancelado"
    }
  }

  function EstadoViajeDesde(codigo: string): (r: Option<EstadoViaje>)
    ensures r.Some? <==> codigo in {"programado", "en_curso", "finalizado", "cancelado"}
    ensures r.Some? ==> r.value.Codigo() == codigo
  {
    if codigo == "programado" then Some(Programado)
    else if codigo == "en_curso" then Some(EnCurso)
    else if codigo == "finalizado" then Some(Finalizado)
    else if codigo == "cancelado" then Some(Cancelado)
    else None
  }

  datatype Gravedad = Baja | Media | Alta {
    function Codigo(): string {
      match this
      case Baja => "baja"
      case Media => "media"
      case Alta => "alta"
    }
  }

  function GravedadDesde(codigo: string): (r: Option<Gravedad>)
    ensures r.Some? <==> codigo in {"baja", "media", "alta"}
    ensures r.Some? ==> r.value.Codigo() == codigo
  {
    if codigo == "baja" then Some(Baja)
    else if codigo == "media" then Some(Media)
    else if codigo == "alta" then Some(Alta)
    else None
  }

  datatype TipoMantenimiento = Preventivo | Correctivo {
    function Codigo(): string {
      match this
      case Preventivo => "preventivo"
      case Correctivo => "correctivo"
    }
  }

  function TipoMantenimientoDesde(codigo: string): (r: Option<TipoMantenimiento>)
    ensures r.Some? <==> codigo in {"preventivo", "correctivo"}
    ensures r.Some? ==> r.value.Codigo() == codigo
  {
    if codigo == "preventivo" then Some(Preventivo)
    else if codigo == "correctivo" then Some(Correctivo)
    else None
  }

  /** Every choice reads back from its own code. */
  lemma ChoiceCodesRoundTrip(t: TipoTarjeta, e: EstadoViaje, g: Gravedad, m: TipoMantenimiento)
    ensures TipoTarjetaDesde(t.Codigo()) == Some(t)
    ensures EstadoViajeDesde(e.Codigo()) == Some(e)
    ensures GravedadDesde(g.Codigo()) == Some(g)
    ensures TipoMantenimientoDesde(m.Codigo()) == Some(m)
  {
  }

  // ---------------------------------------------------------------------
  // Records
  // ---------------------------------------------------------------------

  datatype Linea = Linea(id: LineaId, numero: int, nombre: string,
                         color: Option<string>, descripcion: Option<string>)

  /** Latitude and longitude are not part of this model. */
  datatype Parada = Parada(id: ParadaId, nombre: string, direccion: string)

  datatype Ruta = Ruta(id: RutaId, linea: LineaId, nombre: string, descripcion: Option<string>)

  datatype RutaParada = RutaParada(id: RutaParadaId, ruta: RutaId, parada: ParadaId, orden: int)

  datatype Vehiculo = Vehiculo(id: VehiculoId, patente: string, marca: Option<string>,
                               modelo: Option<string>, anio: Option<int>, capacidad: int)

  datatype Chofer = Chofer(id: ChoferId, nombre: string, apellido: string, dni: string,
                           licencia: string, telefono: Option<string>, email: Option<string>,
                           fechaContratacion: Fecha)

  datatype Horario = Horario(id: HorarioId, ruta: RutaId, horaSalida: Hora, horaLlegada: Hora,
                             diasSemana: string)

  datatype Viaje = Viaje(id: ViajeId, ruta: RutaId, vehiculo: VehiculoId, chofer: ChoferId,
                         fecha: Fecha, horaSalidaReal: Option<Hora>, horaLlegadaReal: Option<Hora>,
                         estado: EstadoViaje)

  datatype Tarjeta = Tarjeta(id: TarjetaId, numero: string, tipo: TipoTarjeta, saldo: int,
                             fechaEmision: Fecha, activa: bool)

  datatype Boleto = Boleto(id: BoletoId, viaje: ViajeId, tarjeta: Option<TarjetaId>, monto: int,
                           fechaCompra: Instante, paradaSubida: Option<ParadaId>)

  datatype Mantenimiento = Mantenimiento(id: MantenimientoId, vehiculo: VehiculoId,
                                         tipo: TipoMantenimiento, fecha: Fecha,
                                         descripcion: string, costo: Option<int>)

  datatype Incidente = Incidente(id: IncidenteId, viaje: Option<ViajeId>, fecha: Instante,
                                 descripcion: string, gravedad: Gravedad, resuelto: bool)

  // ---------------------------------------------------------------------
  // Defaults applied when a record is created without the field
  // ---------------------------------------------------------------------

  const SaldoInicial: int := 0
  const ActivaInicial: bool := true
  const EstadoInicial: EstadoViaje := Programado
  const ResueltoInicial: bool := false

  /** A card as created; `fecha_emision` is the creation day. */
  function NuevaTarjeta(id: TarjetaId, numero: string, tipo: TipoTarjeta,
                        saldo: Option<int>, activa: Option<bool>, hoy: Fecha): (t: Tarjeta)
    ensures t.id == id && t.numero == numero && t.tipo == tipo && t.fechaEmision == hoy
    ensures saldo.Some? ==> t.saldo == saldo.value
    ensures activa.Some? ==> t.activa == activa.value
  {
    Tarjeta(id, numero, tipo, saldo.GetOr(SaldoInicial), hoy, activa.GetOr(ActivaInicial))
  }

  /** A trip as created; the actual times are null unless they were sent. */
  function NuevoViaje(id: ViajeId, ruta: RutaId, vehiculo: VehiculoId, chofer: ChoferId, fecha: Fecha,
                      salidaReal: Option<Hora>, llegadaReal: Option<Hora>,
                      estado: Option<EstadoViaje>): (v: Viaje)
    ensures v.id == id && v.ruta == ruta && v.vehiculo == vehiculo && v.chofer == chofer
    ensures v.fecha == fecha && v.horaSalidaReal == salidaReal && v.horaLlegadaReal == llegadaReal
    ensures estado.Some? ==> v.estado == estado.value
  {
    Viaje(id, ruta, vehiculo, chofer, fecha, salidaReal, llegadaReal, estado.GetOr(EstadoInicial))
  }

  /** An incident as created; `fecha` is the creation instant. */
  function NuevoIncidente(id: IncidenteId, viaje: Option<ViajeId>, descripcion: string,
                          gravedad: Gravedad, resuelto: Option<bool>, ahora: Instante): (i: Incidente)
    ensures i.id == id && i.viaje == viaje && i.descripcion == descripcion
    ensures i.gravedad == gravedad && i.fecha == ahora
    ensures resuelto.Some? ==> i.resuelto == resuelto.value
  {
    Incidente(id, viaje, ahora, descripcion, gravedad, resuelto.GetOr(ResueltoInicial))
  }

  /**
   * Fields left out on creation take their defaults: a card starts with
   * balance 0 and active, a trip starts scheduled with no actual times,
   * an incident unresolved.
   */
  lemma CreationDefaults(tid: TarjetaId, numero: string, tipo: TipoTarjeta, hoy: Fecha,
                         vid: ViajeId, ruta: RutaId, vehiculo: VehiculoId, chofer: ChoferId,
                         iid: IncidenteId, descripcion: string, g: Gravedad, ahora: Instante)
    ensures NuevaTarjeta(tid, numero, tipo, None, None, hoy).saldo == 0
    ensures NuevaTarjeta(tid, numero, tipo, None, None, hoy).activa
    ensures NuevoViaje(vid, ruta, vehiculo, chofer, hoy, None, None, None).estado == Programado
    ensures NuevoViaje(vid, ruta, vehiculo, chofer, hoy, None, None, None).horaSalidaReal.None?
    ensures NuevoViaje(vid, ruta, vehiculo, chofer, hoy, None, None, None).horaLlegadaReal.None?
    ensures !NuevoIncidente(iid, Some(vid), descripcion, g, None, ahora).resuelto
  {
  }

  // ---------------------------------------------------------------------
  // Uniqueness constraints
  // ---------------------------------------------------------------------

  /** No two rows of `s` share a key. */
  predicate UniqueBy<T, K(==)>(s: seq<T>, key: T -> K) {
    forall i, j :: 0 <= i < |s| && 0 <= j < |s| && i != j ==> key(s[i]) != key(s[j])
  }

  /**
   * Inserting a row into a table with a unique constraint: the row is
   * refused (an integrity error) when its key is already present.
   */
  function InsertUnique<T, K(==)>(s: seq<T>, x: T, key: T -> K): (r: Option<seq<T>>)
    ensures r.Some? <==> forall i :: 0 <= i < |s| ==> key(s[i]) != key(x)
    ensures r.Some? ==> r.value == s + [x]
    ensures UniqueBy(s, key) && r.Some? ==> UniqueBy(r.value, key)
  {
    if exists i :: 0 <= i < |s| && key(s[i]) == key(x) then None else Some(s + [x])
  }

  function RutaParadaPar(rp: RutaParada): (RutaId, ParadaId) { (rp.ruta, rp.parada) }

  /** A stop appears at most once on a route: a second link of the pair is refused. */
  lemma RutaParadaPairRefused(s: seq<RutaParada>, a: RutaParada, b: RutaParada)
    requires a.ruta == b.ruta && a.parada == b.parada
    requires InsertUnique(s, a, RutaParadaPar).Some?
    ensures InsertUnique(InsertUnique(s, a, RutaParadaPar).value, b, RutaParadaPar).None?
  {
    var s' := s + [a];
    assert RutaParadaPar(s'[|s|]) == RutaParadaPar(b);
  }

  // ---------------------------------------------------------------------
  // What happens to a row when the row it refers to is deleted
  // ---------------------------------------------------------------------

  datatype OnDelete = Cascade | SetNull

  datatype ForeignKey =
    | RutaLinea | RutaParadaRuta | RutaParadaParada | HorarioRuta
    | ViajeRuta | ViajeVehiculo | ViajeChofer
    | BoletoViaje | BoletoTarjeta | BoletoParadaSubida
    | MantenimientoVehiculo | IncidenteViaje

  function OnDeleteRule(fk: ForeignKey): OnDelete {
    if fk == BoletoParadaSubida then SetNull else Cascade
  }

  predicate Nullable(fk: ForeignKey) {
    fk in {BoletoTarjeta, BoletoParadaSubida, IncidenteViaje}
  }

  /**
   * Only a ticket's boarding stop is cleared rather than deleted, and only
   * nullable keys may be cleared.
   */
  lemma SetNullOnlyOnBoardingStop(fk: ForeignKey)
    ensures OnDeleteRule(fk) == SetNull <==> fk == BoletoParadaSubida
    ensures OnDeleteRule(fk) == SetNull ==> Nullable(fk)
  {
  }

  // ---------------------------------------------------------------------
  // Related rows and the effect of deletions on them
  // ---------------------------------------------------------------------

  /** The rows of `s` that satisfy `keep`, in their order. */
  function Filter<T(!new)>(s: seq<T>, keep: T -> bool): (r: seq<T>)
    ensures |r| <= |s|
    ensures forall x :: x in r <==> x in s && keep(x)
  {
    if s == [] then []
    else if keep(s[0]) then [s[0]] + Filter(s[1..], keep)
    else Filter(s[1..], keep)
  }

  lemma {:induction false} FilterAppend<T(!new)>(s: seq<T>, x: T, keep: T -> bool)
    ensures Filter(s + [x], keep) == Filter(s, keep) + (if keep(x) then [x] else [])
  {
    if s != [] {
      assert (s + [x])[1..] == s[1..] + [x];
      FilterAppend(s[1..], x, keep);
    }
  }

  /** Keys strictly increase along `s`: the order in which rows were inserted. */
  predicate Increasing<T>(s: seq<T>, key: T -> int) {
    forall i, j :: 0 <= i < j < |s| ==> key(s[i]) < key(s[j])
  }

  lemma IncreasingTail<T>(s: seq<T>, key: T -> int)
    requires s != [] && Increasing(s, key)
    ensures Increasing(s[1..], key)
  {
    var t := s[1..];
    forall i, j | 0 <= i < j < |t| ensures key(t[i]) < key(t[j]) {
      assert t[i] == s[i + 1] && t[j] == s[j + 1];
    }
  }

  lemma IncreasingCons<T>(x: T, f: seq<T>, key: T -> int)
    requires Increasing(f, key)
    requires forall y :: y in f ==> key(x) < key(y)
    ensures Increasing([x] + f, key)
  {
    var r := [x] + f;
    forall i, j | 0 <= i < j < |r| ensures key(r[i]) < key(r[j]) {
      if i == 0 {
        assert r[j] == f[j - 1] && r[j] in f;
      } else {
        assert r[i] == f[i - 1] && r[j] == f[j - 1];
      }
    }
  }

  lemma {:induction false} FilterKeepsOrder<T(!new)>(s: seq<T>, keep: T -> bool, key: T -> int)
    requires Increasing(s, key)
    ensures Increasing(Filter(s, keep), key)
  {
    if s != [] {
      var t := s[1..];
      IncreasingTail(s, key);
      FilterKeepsOrder(t, keep, key);
      if keep(s[0]) {
        var f := Filter(t, keep);
        forall y | y in f ensures key(s[0]) < key(y) {
          var j :| 0 <= j < |t| && t[j] == y;
          assert s[j + 1] == y;
        }
        IncreasingCons(s[0], f, key);
      }
    }
  }

  function BoletoKey(b: Boleto): int { b.id }
  function IncidenteKey(i: Incidente): int { i.id }

  /** `tarjeta.boletos`: the tickets paid with card `t`. */
  function BoletosDeTarjeta(bs: seq<Boleto>, t: TarjetaId): (r: seq<Boleto>)
    ensures forall b :: b in r <==> b in bs && b.tarjeta == Some(t)
  {
    Filter(bs, (b: Boleto) => b.tarjeta == Some(t))
  }

  /** `viaje.boletos`: the tickets of trip `v`. */
  function BoletosDeViaje(bs: seq<Boleto>, v: ViajeId): (r: seq<Boleto>)
    ensures forall b :: b in r <==> b in bs && b.viaje == v
  {
    Filter(bs, (b: Boleto) => b.viaje == v)
  }

  /** `viaje.incidentes`: the incidents of trip `v`. */
  function IncidentesDeViaje(ins: seq<Incidente>, v: ViajeId): (r: seq<Incidente>)
    ensures forall i :: i in r <==> i in ins && i.viaje == Some(v)
  {
    Filter(ins, (i: Incidente) => i.viaje == Some(v))
  }

  /** Deleting card `t` deletes its tickets (CASCADE) and keeps every other ticket. */
  function BorrarTarjetaEnBoletos(bs: seq<Boleto>, t: TarjetaId): (r: seq<Boleto>)
    ensures forall b :: b in r <==> b in bs && b.tarjeta != Some(t)
    ensures Increasing(bs, BoletoKey) ==> Increasing(r, BoletoKey)
  {
    var keep := (b: Boleto) => b.tarjeta != Some(t);
    if Increasing(bs, BoletoKey) then FilterKeepsOrder(bs, keep, BoletoKey); Filter(bs, keep)
    else Filter(bs, keep)
  }

  /** Deleting trip `v` deletes its tickets (CASCADE). */
  function BorrarViajeEnBoletos(bs: seq<Boleto>, v: ViajeId): (r: seq<Boleto>)
    ensures forall b :: b in r <==> b in bs && b.viaje != v
    ensures Increasing(bs, BoletoKey) ==> Increasing(r, BoletoKey)
  {
    var keep := (b: Boleto) => b.viaje != v;
    if Increasing(bs, BoletoKey) then FilterKeepsOrder(bs, keep, BoletoKey); Filter(bs, keep)
    else Filter(bs, keep)
  }

  /** Deleting trip `v` deletes its incidents (CASCADE). */
  function BorrarViajeEnIncidentes(ins: seq<Incidente>, v: ViajeId): (r: seq<Incidente>)
    ensures forall i :: i in r <==> i in ins && i.viaje != Some(v)
    ensures Increasing(ins, IncidenteKey) ==> Increasing(r, IncidenteKey)
  {
    var keep := (i: Incidente) => i.viaje != Some(v);
    if Increasing(ins, IncidenteKey) then FilterKeepsOrder(ins, keep, IncidenteKey); Filter(ins, keep)
    else Filter(ins, keep)
  }

  /**
   * Deleting stop `p` keeps every ticket and clears the boarding stop of
   * those that boarded there (SET_NULL).
   */
  function AnularParadaEnBoletos(bs: seq<Boleto>, p: ParadaId): (r: seq<Boleto>)
    ensures |r| == |bs|
    ensures forall i :: 0 <= i < |bs| ==>
      r[i] == if bs[i].paradaSubida == Some(p) then bs[i].(paradaSubida := None) else bs[i]
  {
    seq(|bs|, i requires 0 <= i < |bs| =>
      if bs[i].paradaSubida == Some(p) then bs[i].(paradaSubida := None) else bs[i])
  }

  lemma AnularParadaKeepsTickets(bs: seq<Boleto>, p: ParadaId)
    ensures forall b :: b in AnularParadaEnBoletos(bs, p) ==> b.paradaSubida != Some(p)
    ensures forall i :: 0 <= i < |bs| ==>
      AnularParadaEnBoletos(bs, p)[i].(paradaSubida := bs[i].paradaSubida) == bs[i]
    ensures Increasing(bs, BoletoKey) ==> Increasing(AnularParadaEnBoletos(bs, p), BoletoKey)
  {
    var r := AnularParadaEnBoletos(bs, p);
    forall b | b in r ensures b.paradaSubida != Some(p) {
      var i :| 0 <= i < |r| && r[i] == b;
    }
  }

  /**
   * The declared rule of each key, side by side with what the deletion
   * function written for that key does (the functions are written per key
   * and do not consult the table): under CASCADE, deleting a card or a trip
   * removes every row whose key points at it; under SET_NULL, deleting a
   * stop keeps every ticket and clears the nullable key.
   */
  lemma DeletionsFollowOnDeleteRules(bs: seq<Boleto>, ins: seq<Incidente>, t: TarjetaId, v: ViajeId, p: ParadaId)
    ensures OnDeleteRule(BoletoTarjeta) == Cascade &&
            forall b :: b in bs && b.tarjeta == Some(t) ==> b !in BorrarTarjetaEnBoletos(bs, t)
    ensures OnDeleteRule(BoletoViaje) == Cascade &&
            forall b :: b in bs && b.viaje == v ==> b !in BorrarViajeEnBoletos(bs, v)
    ensures OnDeleteRule(IncidenteViaje) == Cascade &&
            forall i :: i in ins && i.viaje == Some(v) ==> i !in BorrarViajeEnIncidentes(ins, v)
    ensures OnDeleteRule(BoletoParadaSubida) == SetNull && Nullable(BoletoParadaSubida)
    ensures |AnularParadaEnBoletos(bs, p)| == |bs|
    ensures forall b :: b in AnularParadaEnBoletos(bs, p) ==> b.paradaSubida != Some(p)
  {
    AnularParadaKeepsTickets(bs, p);
  }

  /** The sum of the tickets' amounts. */
  function Total(bs: seq<Boleto>): int {
    if bs == [] then 0 else bs[0].monto + Total(bs[1..])
  }

  lemma {:induction false} TotalAppend(bs: seq<Boleto>, b: Boleto)
    ensures Total(bs + [b]) == Total(bs) + b.monto
  {
    if bs != [] {
      assert (bs + [b])[1..] == bs[1..] + [b];
      TotalAppend(bs[1..], b);
    }
  }

  /** What card `t` has paid for the tickets recorded against it. */
  function Gastado(bs: seq<Boleto>, t: TarjetaId): int {
    Total(BoletosDeTarjeta(bs, t))
  }

  /**
   * Recording a ticket adds its amount to what its card has paid and
   * leaves every other card's total unchanged.
   */
  lemma GastadoAppend(bs: seq<Boleto>, b: Boleto, t: TarjetaId)
    ensures Gastado(bs + [b], t) == Gastado(bs, t) + (if b.tarjeta == Some(t) then b.monto else 0)
  {
    var keep := (x: Boleto) => x.tarjeta == Some(t);
    FilterAppend(bs, b, keep);
    if keep(b) {
      TotalAppend(Filter(bs, keep), b);
    } else {
      assert Filter(bs + [b], keep) == Filter(bs, keep);
    }
  }

  // ---------------------------------------------------------------------
  // __str__
  // ---------------------------------------------------------------------

  /** An f-string renders a missing value as `None`. */
  function OptStr(s: Option<string>): string {
    match s
    case Some(v) => v
    case None => "None"
  }

  /** The shape `{prefix}{number} - {rest}` shared by several renderings. */
  function Labelled(prefix: string, number: string, rest: string): string {
    prefix + number + " - " + rest
  }

  function LineaStr(l: Linea): string {
    Labelled("L\U{ed}nea ", IntToString(l.numero), l.nombre)
  }

  function ParadaStr(p: Parada): string {
    p.nombre
  }

  /** `{nombre} - Línea {linea.numero}`, reading the route's line. */
  function RutaStr(r: Ruta, l: Linea): string
    requires r.linea == l.id
  {
    r.nombre + " - L\U{ed}nea " + IntToString(l.numero)
  }

  function RutaParadaStr(rp: RutaParada, r: Ruta, l: Linea, p: Parada): string
    requires rp.ruta == r.id && rp.parada == p.id && r.linea == l.id
  {
    RutaStr(r, l) + " - Parada " + IntToString(rp.orden) + ": " + ParadaStr(p)
  }

  function VehiculoStr(v: Vehiculo): string {
    v.patente + " - " + OptStr(v.marca) + " " + OptStr(v.modelo)
  }

  /** `{apellido}, {nombre}`: the surname, a comma and a space, then the first name. */
  function ChoferStr(c: Chofer): (s: string)
    ensures |s| == |c.apellido| + 2 + |c.nombre|
    ensures s[..|c.apellido|] == c.apellido && s[|c.apellido|..|c.apellido| + 2] == ", "
    ensures s[|c.apellido| + 2..] == c.nombre
  {
    c.apellido + ", " + c.nombre
  }

  function HorarioStr(h: Horario, r: Ruta, l: Linea): string
    requires h.ruta == r.id && r.linea == l.id && ValidHora(h.horaSalida) && ValidHora(h.horaLlegada)
  {
    RutaStr(r, l) + " - " + HoraIso(h.horaSalida) + " a " + HoraIso(h.horaLlegada)
  }

  function ViajeStr(v: Viaje, r: Ruta, l: Linea): string
    requires v.ruta == r.id && r.linea == l.id && ValidFecha(v.fecha)
  {
    Labelled("Viaje ", NatToString(v.id), RutaStr(r, l) + " - " + FechaIso(v.fecha))
  }

  function TarjetaStr(t: Tarjeta): string {
    "Tarjeta " + t.numero + " - " + t.tipo.Codigo()
  }

  function BoletoStr(b: Boleto): string {
    Labelled("Boleto ", NatToString(b.id), "$" + MoneyToString(b.monto))
  }

  function MantenimientoStr(m: Mantenimiento, v: Vehiculo): string
    requires m.vehiculo == v.id && ValidFecha(m.fecha)
  {
    VehiculoStr(v) + " - " + m.tipo.Codigo() + " - " + FechaIso(m.fecha)
  }

  function IncidenteStr(i: Incidente): string
    requires ValidFecha(i.fecha.fecha)
  {
    Labelled("Incidente ", NatToString(i.id), i.gravedad.Codigo() + " - " + FechaDmy(i.fecha.fecha))
  }

  /** `{prefix}{n} - {rest}` determines both `n` and `rest` when `n` holds no space. */
  lemma LabelledNumberDetermines(prefix: string, n1: string, rest1: string, n2: string, rest2: string)
    requires forall k :: 0 <= k < |n1| ==> n1[k] != ' '
    requires forall k :: 0 <= k < |n2| ==> n2[k] != ' '
    requires Labelled(prefix, n1, rest1) == Labelled(prefix, n2, rest2)
    ensures n1 == n2 && rest1 == rest2
  {
    assert Labelled(prefix, n1, rest1) == prefix + (n1 + [' '] + ("- " + rest1));
    assert Labelled(prefix, n2, rest2) == prefix + (n2 + [' '] + ("- " + rest2));
    DropCommonPrefix(prefix, n1 + [' '] + ("- " + rest1), n2 + [' '] + ("- " + rest2));
    SplitAtFirst(n1, "- " + rest1, n2, "- " + rest2, ' ');
    DropCommonPrefix("- ", rest1, rest2);
  }

  /** Two lines print alike only if they have the same number and name. */
  lemma LineaStrDetermines(a: Linea, b: Linea)
    requires LineaStr(a) == LineaStr(b)
    ensures a.numero == b.numero && a.nombre == b.nombre
  {
    LabelledNumberDetermines("L\U{ed}nea ", IntToString(a.numero), a.nombre,
                             IntToString(b.numero), b.nombre);
    IntToStringInjective(a.numero, b.numero);
  }

  /** A ticket's text names its id and its exact amount. */
  lemma BoletoStrDetermines(a: Boleto, b: Boleto)
    requires BoletoStr(a) == BoletoStr(b)
    ensures a.id == b.id && a.monto == b.monto
  {
    LabelledNumberDetermines("Boleto ", NatToString(a.id), "$" + MoneyToString(a.monto),
                             NatToString(b.id), "$" + MoneyToString(b.monto));
    NatToStringInjective(a.id, b.id);
    DropCommonPrefix("$", MoneyToString(a.monto), MoneyToString(b.monto));
    MoneyToStringInjective(a.monto, b.monto);
  }

  lemma ViajeStrDeterminesId(a: Viaje, ra: Ruta, la: Linea, b: Viaje, rb: Ruta, lb: Linea)
    requires a.ruta == ra.id && ra.linea == la.id && ValidFecha(a.fecha)
    requires b.ruta == rb.id && rb.linea == lb.id && ValidFecha(b.fecha)
    requires ViajeStr(a, ra, la) == ViajeStr(b, rb, lb)
    ensures a.id == b.id
  {
    LabelledNumberDetermines("Viaje ", NatToString(a.id), RutaStr(ra, la) + " - " + FechaIso(a.fecha),
                             NatToString(b.id), RutaStr(rb, lb) + " - " + FechaIso(b.fecha));
    NatToStringInjective(a.id, b.id);
  }

  lemma IncidenteStrDeterminesId(a: Incidente, b: Incidente)
    requires ValidFecha(a.fecha.fecha) && ValidFecha(b.fecha.fecha)
    requires IncidenteStr(a) == IncidenteStr(b)
    ensures a.id == b.id
  {
    LabelledNumberDetermines("Incidente ", NatToString(a.id),
                             a.gravedad.Codigo() + " - " + FechaDmy(a.fecha.fecha),
                             NatToString(b.id),
                             b.gravedad.Codigo() + " - " + FechaDmy(b.fecha.fecha));
    NatToStringInjective(a.id, b.id);
  }

  /** The three card-type codes end in different letters. */
  lemma CodigoUltimaLetra(x: TipoTarjeta, y: TipoTarjeta)
    requires x.Codigo()[|x.Codigo()| - 1] == y.Codigo()[|y.Codigo()| - 1]
    ensures x == y
  {
    assert x.Codigo()[|x.Codigo()| - 1] == match x case Normal => 'l' case Estudiante => 'e' case Jubilado => 'o';
    assert y.Codigo()[|y.Codigo()| - 1] == match y case Normal => 'l' case Estudiante => 'e' case Jubilado => 'o';
  }

  /** A card's text is its number after the label, then its type code. */
  lemma TarjetaStrPartes(t: Tarjeta)
    ensures var s, c := TarjetaStr(t), t.tipo.Codigo();
            |s| == 11 + |t.numero| + |c| && s[8..8 + |t.numero|] == t.numero && s[|s| - 1] == c[|c| - 1]
  {
    var c := t.tipo.Codigo();
    assert TarjetaStr(t) == ("Tarjeta " + t.numero) + (" - " + c);
    assert ("Tarjeta " + t.numero)[8..] == t.numero;
  }

  /**
   * A card's text names its number and its type: the type codes end in
   * different letters, so the last character fixes the type and the rest
   * the number.
   */
  lemma TarjetaStrDetermines(a: Tarjeta, b: Tarjeta)
    requires TarjetaStr(a) == TarjetaStr(b)
    ensures a.numero == b.numero && a.tipo == b.tipo
  {
    TarjetaStrPartes(a);
    TarjetaStrPartes(b);
    CodigoUltimaLetra(a.tipo, b.tipo);
  }

  /** Two routes of the same name print alike only on lines with the same number. */
  lemma RutaStrDeterminesLinea(r1: Ruta, l1: Linea, r2: Ruta, l2: Linea)
    requires r1.linea == l1.id && r2.linea == l2.id && r1.nombre == r2.nombre
    requires RutaStr(r1, l1) == RutaStr(r2, l2)
    ensures l1.numero == l2.numero
  {
    DropCommonPrefix(r1.nombre + " - L\U{ed}nea ", IntToString(l1.numero), IntToString(l2.numero));
    IntToStringInjective(l1.numero, l2.numero);
  }

  /** A route-stop and a schedule print their route's text first. */
  lemma NestedStrPrefixes(rp: RutaParada, h: Horario, r: Ruta, l: Linea, p: Parada)
    requires rp.ruta == r.id && rp.parada == p.id && r.linea == l.id
    requires h.ruta == r.id && ValidHora(h.horaSalida) && ValidHora(h.horaLlegada)
    ensures RutaStr(r, l) <= RutaParadaStr(rp, r, l, p)
    ensures RutaStr(r, l) <= HorarioStr(h, r, l)
  {
    var rs := RutaStr(r, l);
    assert RutaParadaStr(rp, r, l, p) == rs + (" - Parada " + IntToString(rp.orden) + ": " + ParadaStr(p));
    assert HorarioStr(h, r, l) == rs + (" - " + HoraIso(h.horaSalida) + " a " + HoraIso(h.horaLlegada));
  }

  /** A maintenance record prints its vehicle's text first; a missing make or model prints as `None`. */
  lemma VehiculoStrPrefixes(m: Mantenimiento, v: Vehiculo)
    requires m.vehiculo == v.id && ValidFecha(m.fecha)
    ensures VehiculoStr(v) <= MantenimientoStr(m, v)
    ensures v.marca.None? && v.modelo.None? ==> VehiculoStr(v) == v.patente + " - None None"
  {
    var vs := VehiculoStr(v);
    assert MantenimientoStr(m, v) == vs + (" - " + m.tipo.Codigo() + " - " + FechaIso(m.fecha));
  }

  /** The renderings the application's tests expect. */
  lemma LineaStrExample()
    ensures LineaStr(Linea(1, 101, "Centro - Norte", Some("azul"), None)) == "L\U{ed}nea 101 - Centro - Norte"
  {
    assert IntToString(101) == "101" by {
      assert NatToString(101) == NatToString(10) + [DigitChar(1)];
      assert NatToString(10) == NatToString(1) + [DigitChar(0)];
    }
  }

  lemma ChoferStrExample()
    ensures ChoferStr(Chofer(1, "Juan", "P\U{e9}rez", "12345678", "D1-123456", None, None,
                             Fecha(2025, 1, 15))) == "P\U{e9}rez, Juan"
    ensures ParadaStr(Parada(1, "Terminal Central", "Av. Principal 1000")) == "Terminal Central"
  {
  }

  lemma BoletoStrExample()
    ensures BoletoStr(Boleto(7, 1, Some(1), 5000, Instante(Fecha(2025, 1, 15), Hora(8, 0, 0)), None))
            == "Boleto 7 - $50.00"
  {
    assert IntToString(7) == "7";
    assert MoneyToString(5000) == "50.00" by {
      assert NatToString(50) == NatToString(5) + [DigitChar(0)];
    }
  }
}
