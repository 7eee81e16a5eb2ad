/**
 * The fare-card ledger: the cards with their balances, the tickets bought
 * with them and the incidents reported on trips, together with the
 * operations of the card, ticket, trip, stop and incident endpoints that
 * read or change them. Trips and stops appear only through their ids,
 * which is all the ledger needs of them.
 */
module Ledger {
  import opened Wrappers
  import opened Text
  import opened Models
  import opened Auth
  import opened Policy
  import opened Serializers

  // ---------------------------------------------------------------------
  // Balances
  // ---------------------------------------------------------------------

  /** `tarjeta.saldo += monto`: only the balance changes, by exactly the amount. */
  function Acreditar(t: Tarjeta, monto: int): (r: Tarjeta)
    ensures r.saldo == t.saldo + monto
    ensures r.(saldo := t.saldo) == t
  {
    t.(saldo := t.saldo + monto)
  }

  /** A recharge and a purchase of the same amount cancel out, in either order. */
  lemma RecargaYCobroSeCancelan(t: Tarjeta, monto: int)
    ensures Debitar(Acreditar(t, monto), monto) == t
    ensures Acreditar(Debitar(t, monto), monto) == t
  {
  }

  predicate SaldosNoNegativos(m: map<TarjetaId, Tarjeta>) {
    forall k :: k in m ==> m[k].saldo >= 0
  }

  /** What a ticket's `create` does to the cards: debit the ticket's card, if it has one. */
  function CobrarBoleto(m: map<TarjetaId, Tarjeta>, b: Boleto): (r: map<TarjetaId, Tarjeta>)
    ensures r.Keys == m.Keys
    ensures forall k :: k in m && b.tarjeta != Some(k) ==> r[k] == m[k]
    ensures b.tarjeta.Some? && b.tarjeta.value in m ==>
              r[b.tarjeta.value].saldo == m[b.tarjeta.value].saldo - b.monto
  {
    if b.tarjeta.Some? && b.tarjeta.value in m
    then m[b.tarjeta.value := Debitar(m[b.tarjeta.value], b.monto)]
    else m
  }

  /**
   * Recording a ticket keeps, for every card, its balance plus what it has
   * paid for its tickets.
   */
  lemma CobroConservaSaldoMasGastado(m: map<TarjetaId, Tarjeta>, bs: seq<Boleto>, b: Boleto)
    ensures forall k :: k in m ==>
      CobrarBoleto(m, b)[k].saldo + Gastado(bs + [b], k) == m[k].saldo + Gastado(bs, k)
  {
    forall k | k in m
      ensures CobrarBoleto(m, b)[k].saldo + Gastado(bs + [b], k) == m[k].saldo + Gastado(bs, k)
    {
      GastadoAppend(bs, b, k);
    }
  }

  /** A ticket that passed the balance check leaves no balance negative. */
  lemma CobroValidadoNoNegativo(m: map<TarjetaId, Tarjeta>, b: Boleto)
    requires SaldosNoNegativos(m)
    requires b.tarjeta.Some? && b.tarjeta.value in m ==>
               ValidarBoleto(Some(m[b.tarjeta.value]), Some(b.monto)) == Valida
    ensures SaldosNoNegativos(CobrarBoleto(m, b))
  {
    if b.tarjeta.Some? && b.tarjeta.value in m {
      ValidatedDebitNonNegative(m[b.tarjeta.value], b.monto);
    }
  }

  /** A recharge followed by a ticket of the same amount on the same card restores every card. */
  lemma RecargaYBoletoRestauran(m: map<TarjetaId, Tarjeta>, k: TarjetaId, monto: int, b: Boleto)
    requires k in m && b.tarjeta == Some(k) && b.monto == monto
    ensures CobrarBoleto(m[k := Acreditar(m[k], monto)], b) == m
  {
    var r := CobrarBoleto(m[k := Acreditar(m[k], monto)], b);
    assert r[k] == m[k];
  }

  /** The position of the row with key `k`, as a lookup by primary key finds it. */
  function Indice<T(!new)>(s: seq<T>, key: T -> int, k: int): (r: Option<nat>)
    ensures r.Some? ==> r.value < |s| && key(s[r.value]) == k
    ensures r.None? <==> forall x :: x in s ==> key(x) != k
  {
    if s == [] then None
    else if key(s[0]) == k then Some(0)
    else
      match Indice(s[1..], key, k)
      case None =>
        assert forall x :: x in s ==> x == s[0] || x in s[1..];
        None
      case Some(i) => Some(i + 1)
  }

  // ---------------------------------------------------------------------
  // Integrity of the stored rows
  // ---------------------------------------------------------------------

  /** Each card is stored under its own id, below the next id, and card numbers are unique. */
  predicate TarjetasBienFormadas(m: map<TarjetaId, Tarjeta>, proxima: nat) {
    && (forall k :: k in m ==> m[k].id == k && k < proxima)
    && (forall a, b :: a in m && b in m && a != b ==> m[a].numero != m[b].numero)
  }

  /** A ticket's trip exists, and so do its card and boarding stop when it has them. */
  predicate BoletoEnlazado(b: Boleto, tarjetas: set<TarjetaId>, viajes: set<ViajeId>, paradas: set<ParadaId>) {
    && b.viaje in viajes
    && (b.tarjeta.Some? ==> b.tarjeta.value in tarjetas)
    && (b.paradaSubida.Some? ==> b.paradaSubida.value in paradas)
  }

  predicate BoletosBienFormados(bs: seq<Boleto>, proximo: nat, tarjetas: set<TarjetaId>,
                                viajes: set<ViajeId>, paradas: set<ParadaId>) {
    && (forall b :: b in bs ==> b.id < proximo && BoletoEnlazado(b, tarjetas, viajes, paradas))
    && Increasing(bs, BoletoKey)
  }

  predicate IncidentesBienFormados(ins: seq<Incidente>, proximo: nat, viajes: set<ViajeId>) {
    && (forall i :: i in ins ==> i.id < proximo && (i.viaje.Some? ==> i.viaje.value in viajes))
    && Increasing(ins, IncidenteKey)
  }

  /** The integrity of the whole store: cards, tickets and incidents well formed against the stored rows. */
  predicate Integro(tarjetas: map<TarjetaId, Tarjeta>, viajes: set<ViajeId>, paradas: set<ParadaId>,
                    boletos: seq<Boleto>, incidentes: seq<Incidente>,
                    proximaTarjeta: nat, proximoBoleto: nat, proximoIncidente: nat) {
    && TarjetasBienFormadas(tarjetas, proximaTarjeta)
    && BoletosBienFormados(boletos, proximoBoleto, tarjetas.Keys, viajes, paradas)
    && IncidentesBienFormados(incidentes, proximoIncidente, viajes)
  }

  /** Appending a linked ticket whose id is above every stored one keeps the tickets well formed. */
  lemma AgregarBoletoPreserva(bs: seq<Boleto>, b: Boleto, tarjetas: set<TarjetaId>,
                              viajes: set<ViajeId>, paradas: set<ParadaId>)
    requires BoletosBienFormados(bs, b.id, tarjetas, viajes, paradas)
    requires BoletoEnlazado(b, tarjetas, viajes, paradas)
    ensures BoletosBienFormados(bs + [b], b.id + 1, tarjetas, viajes, paradas)
  {
    var s := bs + [b];
    forall i, j | 0 <= i < j < |s| ensures BoletoKey(s[i]) < BoletoKey(s[j]) {
      assert s[i] in bs;
      if j < |bs| {
        assert s[i] == bs[i] && s[j] == bs[j];
      }
    }
  }

  /** Replacing a ticket by a linked one with the same id keeps the tickets well formed. */
  lemma ReemplazarBoletoPreserva(bs: seq<Boleto>, i: nat, b: Boleto, proximo: nat, tarjetas: set<TarjetaId>,
                                 viajes: set<ViajeId>, paradas: set<ParadaId>)
    requires BoletosBienFormados(bs, proximo, tarjetas, viajes, paradas)
    requires i < |bs| && b.id == bs[i].id && BoletoEnlazado(b, tarjetas, viajes, paradas)
    ensures BoletosBienFormados(bs[i := b], proximo, tarjetas, viajes, paradas)
  {
    var s := bs[i := b];
    assert bs[i] in bs;
    assert forall j :: 0 <= j < |s| ==> BoletoKey(s[j]) == BoletoKey(bs[j]);
    assert forall x :: x in s ==> x == b || x in bs;
  }

  /** Replacing an incident by one with the same id and an existing trip keeps the incidents well formed. */
  lemma ReemplazarIncidentePreserva(ins: seq<Incidente>, k: nat, i: Incidente, proximo: nat, viajes: set<ViajeId>)
    requires IncidentesBienFormados(ins, proximo, viajes)
    requires k < |ins| && i.id == ins[k].id && (i.viaje.Some? ==> i.viaje.value in viajes)
    ensures IncidentesBienFormados(ins[k := i], proximo, viajes)
  {
    var s := ins[k := i];
    assert ins[k] in ins;
    assert forall j :: 0 <= j < |s| ==> IncidenteKey(s[j]) == IncidenteKey(ins[j]);
    assert forall x :: x in s ==> x == i || x in ins;
  }

  /** Adding a card under the next id, with a number no other card holds, keeps the store intact. */
  lemma AgregarTarjetaPreserva(m: map<TarjetaId, Tarjeta>, viajes: set<ViajeId>, paradas: set<ParadaId>,
                               bs: seq<Boleto>, ins: seq<Incidente>, pT: nat, pB: nat, pI: nat, t: Tarjeta)
    requires Integro(m, viajes, paradas, bs, ins, pT, pB, pI)
    requires t.id == pT && forall k :: k in m ==> m[k].numero != t.numero
    ensures Integro(m[pT := t], viajes, paradas, bs, ins, pT + 1, pB, pI)
  {
    assert m.Keys <= m[pT := t].Keys;
  }

  /** Replacing a card by one with the same id and a number no other card holds keeps the store intact. */
  lemma ReemplazarTarjetaPreserva(m: map<TarjetaId, Tarjeta>, viajes: set<ViajeId>, paradas: set<ParadaId>,
                                  bs: seq<Boleto>, ins: seq<Incidente>, pT: nat, pB: nat, pI: nat, t: Tarjeta)
    requires Integro(m, viajes, paradas, bs, ins, pT, pB, pI)
    requires t.id in m && forall k :: k in m && k != t.id ==> m[k].numero != t.numero
    ensures Integro(m[t.id := t], viajes, paradas, bs, ins, pT, pB, pI)
  {
    assert m[t.id := t].Keys == m.Keys;
  }

  /** Appending an incident under the next id, whose trip exists if it has one, keeps the incidents well formed. */
  lemma AgregarIncidentePreserva(ins: seq<Incidente>, i: Incidente, viajes: set<ViajeId>)
    requires IncidentesBienFormados(ins, i.id, viajes)
    requires i.viaje.Some? ==> i.viaje.value in viajes
    ensures IncidentesBienFormados(ins + [i], i.id + 1, viajes)
  {
    var s := ins + [i];
    forall a, b | 0 <= a < b < |s| ensures IncidenteKey(s[a]) < IncidenteKey(s[b]) {
      assert s[a] in ins;
      if b < |ins| {
        assert s[a] == ins[a] && s[b] == ins[b];
      }
    }
  }

  /** A debit changes no card's id or number. */
  lemma CobroPreservaTarjetas(m: map<TarjetaId, Tarjeta>, proxima: nat, b: Boleto)
    requires TarjetasBienFormadas(m, proxima)
    ensures TarjetasBienFormadas(CobrarBoleto(m, b), proxima)
  {
    var r := CobrarBoleto(m, b);
    assert forall k :: k in r ==> r[k].id == m[k].id && r[k].numero == m[k].numero;
  }

  /** Deleting a trip together with its tickets and incidents leaves no row pointing at it. */
  lemma BorrarViajePreserva(m: map<TarjetaId, Tarjeta>, viajes: set<ViajeId>, paradas: set<ParadaId>,
                            bs: seq<Boleto>, ins: seq<Incidente>, pT: nat, pB: nat, pI: nat, v: ViajeId)
    requires Integro(m, viajes, paradas, bs, ins, pT, pB, pI)
    ensures Integro(m, viajes - {v}, paradas, BorrarViajeEnBoletos(bs, v), BorrarViajeEnIncidentes(ins, v), pT, pB, pI)
  {
  }

  /** Deleting a stop and clearing it from the tickets leaves no ticket pointing at it. */
  lemma AnularParadaPreserva(bs: seq<Boleto>, proximo: nat, tarjetas: set<TarjetaId>,
                             viajes: set<ViajeId>, paradas: set<ParadaId>, p: ParadaId)
    requires BoletosBienFormados(bs, proximo, tarjetas, viajes, paradas)
    ensures BoletosBienFormados(AnularParadaEnBoletos(bs, p), proximo, tarjetas, viajes, paradas - {p})
  {
    var r := AnularParadaEnBoletos(bs, p);
    AnularParadaKeepsTickets(bs, p);
    forall b | b in r
      ensures b.id < proximo && BoletoEnlazado(b, tarjetas, viajes, paradas - {p})
    {
      var i :| 0 <= i < |r| && r[i] == b;
      assert bs[i] in bs;
    }
  }

  // ---------------------------------------------------------------------
  // Outcomes of the endpoints
  // ---------------------------------------------------------------------

  /** What `request.data.get('monto')` holds, as the recharge sees it. */
  datatype MontoInput =
    | Missing             // absent, null, "" or a numeric zero: all falsy
    | Unparseable         // text that is not a decimal number: the conversion raises
    | Amount(cents: int)  // a decimal amount, in cents

  /** 403, 404, 400 "Debe proporcionar un monto", 400 "número positivo", 500, or 200 with the card. */
  datatype Recarga =
    | RecargaDenegada | TarjetaNoEncontrada | MontoRequerido | MontoNoPositivo
    | RecargaErrorInterno | Recargada(tarjeta: Tarjeta)

  /** 403, 400 with the failing fields, 400 "Saldo insuficiente", or 201 with the ticket. */
  datatype Compra =
    | CompraDenegada | CompraInvalida(campos: set<BoletoCampo>) | CompraSinSaldo | BoletoCreado(boleto: Boleto)

  /** 403, 404, 400 with the failing fields, 400 "Saldo insuficiente", 500 (type error), or 200. */
  datatype CambioBoleto =
    | CambioDenegado | CambioNoEncontrado | CambioInvalido(campos: set<BoletoCampo>)
    | CambioSinSaldo | CambioErrorInterno | BoletoCambiado(boleto: Boleto)

  /** 403, 400 with the failing fields, or success with the stored card. */
  datatype AltaTarjeta =
    | AltaDenegada | AltaNoEncontrada | AltaInvalida(campos: set<TarjetaCampo>) | TarjetaGuardada(tarjeta: Tarjeta)

  datatype AltaIncidente =
    | IncidenteDenegado | IncidenteNoEncontrado | IncidenteInvalido(campos: set<IncidenteCampo>)
    | IncidenteGuardado(incidente: Incidente)

  /** 403, 404, or 204 with the row that was deleted. */
  datatype Baja<T> = BajaDenegada | BajaNoEncontrada | Borrado(fila: T)

  /** A related listing: 403, 404, or 200 with the rows. */
  datatype Listado<T> = ListadoDenegado | ListadoNoEncontrado | Filas(filas: seq<T>)

  /**
   * How `POST /boletos/` answers: denied without authentication, then the
   * field errors, then the balance check; otherwise a new ticket under the
   * next id, linked to rows that exist and covered by its card's balance.
   */
  function ResultadoCompra(user: Requester, d: BoletoDatos, m: map<TarjetaId, Tarjeta>, viajes: set<ViajeId>,
                           paradas: set<ParadaId>, id: BoletoId, ahora: Instante): (o: Compra)
    ensures o.CompraDenegada? <==> !user.isAuthenticated
    ensures o.CompraInvalida? <==> user.isAuthenticated && ErroresBoleto(d, false, m.Keys, viajes, paradas) != {}
    ensures o.CompraInvalida? ==> o.campos == ErroresBoleto(d, false, m.Keys, viajes, paradas)
    ensures o.CompraSinSaldo? <==>
              user.isAuthenticated && ErroresBoleto(d, false, m.Keys, viajes, paradas) == {} &&
              d.tarjeta.Some? && d.tarjeta.value.Some? && d.monto.Some? &&
              m[d.tarjeta.value.value].saldo < d.monto.value
    ensures o.BoletoCreado? ==>
              d.viaje.Some? && d.monto.Some? && o.boleto == NuevoBoleto(id, d, ahora) &&
              BoletoEnlazado(o.boleto, m.Keys, viajes, paradas) &&
              (o.boleto.tarjeta.Some? ==> ValidarBoleto(Some(m[o.boleto.tarjeta.value]), Some(o.boleto.monto)) == Valida)
  {
    if !Allowed(BoletoViewSet, Create, user) then CompraDenegada
    else if ErroresBoleto(d, false, m.Keys, viajes, paradas) != {} then
      CompraInvalida(ErroresBoleto(d, false, m.Keys, viajes, paradas))
    else if ValidarBoleto(TarjetaIndicada(d, m), d.monto) == RechazoSaldo then CompraSinSaldo
    else BoletoCreado(NuevoBoleto(id, d, ahora))
  }

  /**
   * How `POST /tarjetas/` answers: staff only, then the field errors;
   * otherwise a new card under the next id, its number stripped of
   * surrounding whitespace and held by no other card.
   */
  function ResultadoAltaTarjeta(user: Requester, d: TarjetaDatos, m: map<TarjetaId, Tarjeta>, id: TarjetaId,
                                hoy: Fecha): (o: AltaTarjeta)
    ensures o.AltaDenegada? <==> !Allowed(TarjetaViewSet, Create, user)
    ensures !o.AltaNoEncontrada?
    ensures o.AltaInvalida? <==> Allowed(TarjetaViewSet, Create, user) && ErroresTarjeta(d, false, m, None) != {}
    ensures o.AltaInvalida? ==> o.campos == ErroresTarjeta(d, false, m, None)
    ensures o.TarjetaGuardada? ==>
              d.numero.Some? && d.tipo.Some? && TipoTarjetaDesde(d.tipo.value).Some? &&
              o.tarjeta == NuevaTarjeta(id, Strip(d.numero.value), TipoTarjetaDesde(d.tipo.value).value,
                                        d.saldo, d.activa, hoy) &&
              forall k :: k in m ==> m[k].numero != o.tarjeta.numero
  {
    if !Allowed(TarjetaViewSet, Create, user) then AltaDenegada
    else if ErroresTarjeta(d, false, m, None) != {} then AltaInvalida(ErroresTarjeta(d, false, m, None))
    else TarjetaGuardada(NuevaTarjeta(id, Strip(d.numero.value), TipoTarjetaDesde(d.tipo.value).value,
                                      d.saldo, d.activa, hoy))
  }

  // ---------------------------------------------------------------------
  // The store
  // ---------------------------------------------------------------------

  class Store {
    var tarjetas: map<TarjetaId, Tarjeta>
    var viajes: set<ViajeId>
    var paradas: set<ParadaId>
    var boletos: seq<Boleto>
    var incidentes: seq<Incidente>
    var proximaTarjeta: nat
    var proximoBoleto: nat
    var proximoIncidente: nat

    ghost predicate Valid()
      reads this
    {
      Integro(tarjetas, viajes, paradas, boletos, incidentes, proximaTarjeta, proximoBoleto, proximoIncidente)
    }

    /** An empty ledger over the given trips and stops. */
    constructor (viajes: set<ViajeId>, paradas: set<ParadaId>)
      ensures Valid()
      ensures this.viajes == viajes && this.paradas == paradas
      ensures tarjetas == map[] && boletos == [] && incidentes == []
    {
      this.viajes := viajes;
      this.paradas := paradas;
      tarjetas := map[];
      boletos := [];
      incidentes := [];
      proximaTarjeta := 1;
      proximoBoleto := 1;
      proximoIncidente := 1;
    }

    /**
     * POST /tarjetas/{id}/recargar/: staff only, checked before the card
     * is looked up. An absent or falsy amount is refused, a non-positive
     * one is refused, text that is not a number is an internal error; a
     * positive amount is added to the balance whether or not the card is
     * active.
     */
    method Recargar(user: Requester, id: TarjetaId, monto: MontoInput) returns (o: Recarga)
      requires Valid()
      modifies this`tarjetas
      ensures Valid()
      ensures o.RecargaDenegada? <==> !Allowed(TarjetaViewSet, Action.Recargar, user)
      ensures o.TarjetaNoEncontrada? <==> Allowed(TarjetaViewSet, Action.Recargar, user) && id !in old(tarjetas)
      ensures o.MontoRequerido? <==>
                Allowed(TarjetaViewSet, Action.Recargar, user) && id in old(tarjetas) && monto.Missing?
      ensures o.RecargaErrorInterno? <==>
                Allowed(TarjetaViewSet, Action.Recargar, user) && id in old(tarjetas) && monto.Unparseable?
      ensures o.MontoNoPositivo? <==>
                Allowed(TarjetaViewSet, Action.Recargar, user) && id in old(tarjetas) &&
                monto.Amount? && monto.cents <= 0
      ensures o.Recargada? ==>
                id in old(tarjetas) && monto.Amount? && monto.cents > 0 &&
                tarjetas == old(tarjetas)[id := Acreditar(old(tarjetas)[id], monto.cents)] &&
                o.tarjeta == tarjetas[id]
      ensures !o.Recargada? ==> tarjetas == old(tarjetas)
    {
      if !Allowed(TarjetaViewSet, Action.Recargar, user) {
        return RecargaDenegada;
      }
      if id !in tarjetas {
        return TarjetaNoEncontrada;
      }
      match monto
      case Missing =>
        o := MontoRequerido;
      case Unparseable =>
        o := RecargaErrorInterno;
      case Amount(c) =>
        if c <= 0 {
          return MontoNoPositivo;
        }
        tarjetas := tarjetas[id := Acreditar(tarjetas[id], c)];
        o := Recargada(tarjetas[id]);
    }

    /**
     * POST /boletos/: answers as `ResultadoCompra`; a created ticket is
     * appended and debits its card by the ticket's amount. For every card,
     * balance plus what it has paid for its tickets is unchanged, and no
     * balance becomes negative.
     */
    method ComprarBoleto(user: Requester, d: BoletoDatos, ahora: Instante) returns (o: Compra)
      requires Valid()
      modifies this`tarjetas, this`boletos, this`proximoBoleto
      ensures Valid()
      ensures o == ResultadoCompra(user, d, old(tarjetas), viajes, paradas, old(proximoBoleto), ahora)
      ensures o.BoletoCreado? ==>
                boletos == old(boletos) + [o.boleto] &&
                tarjetas == CobrarBoleto(old(tarjetas), o.boleto) &&
                proximoBoleto == old(proximoBoleto) + 1
      ensures !o.BoletoCreado? ==>
                tarjetas == old(tarjetas) && boletos == old(boletos) && proximoBoleto == old(proximoBoleto)
      ensures tarjetas.Keys == old(tarjetas).Keys
      ensures forall k :: k in tarjetas ==>
                tarjetas[k].saldo + Gastado(boletos, k) == old(tarjetas)[k].saldo + Gastado(old(boletos), k)
      ensures SaldosNoNegativos(old(tarjetas)) ==> SaldosNoNegativos(tarjetas)
    {
      o := ResultadoCompra(user, d, tarjetas, viajes, paradas, proximoBoleto, ahora);
      if o.BoletoCreado? {
        var b := o.boleto;
        AgregarBoletoPreserva(boletos, b, tarjetas.Keys, viajes, paradas);
        CobroPreservaTarjetas(tarjetas, proximaTarjeta, b);
        CobroConservaSaldoMasGastado(tarjetas, boletos, b);
        if SaldosNoNegativos(tarjetas) {
          CobroValidadoNoNegativo(tarjetas, b);
        }
        tarjetas := CobrarBoleto(tarjetas, b);
        boletos := boletos + [b];
        proximoBoleto := proximoBoleto + 1;
      }
    }

    /**
     * PUT or PATCH /boletos/{id}/: any authenticated user. The balance
     * check looks only at the card and amount sent in the request; a PATCH
     * that names a card but no amount fails with a type error. An update
     * never changes a balance.
     */
    method ActualizarBoleto(user: Requester, id: BoletoId, d: BoletoDatos, parcial: bool) returns (o: CambioBoleto)
      requires Valid()
      modifies this`boletos
      ensures Valid()
      ensures tarjetas == old(tarjetas)
      ensures o.CambioDenegado? <==> !Allowed(BoletoViewSet, if parcial then PartialUpdate else Update, user)
      ensures o.CambioNoEncontrado? <==>
                Allowed(BoletoViewSet, if parcial then PartialUpdate else Update, user) &&
                Indice(old(boletos), BoletoKey, id).None?
      ensures o.CambioInvalido? <==>
                Allowed(BoletoViewSet, if parcial then PartialUpdate else Update, user) &&
                Indice(old(boletos), BoletoKey, id).Some? &&
                ErroresBoleto(d, parcial, tarjetas.Keys, viajes, paradas) != {}
      ensures o.CambioInvalido? ==> o.campos == ErroresBoleto(d, parcial, tarjetas.Keys, viajes, paradas)
      ensures o.CambioSinSaldo? || o.CambioErrorInterno? ==>
                Indice(old(boletos), BoletoKey, id).Some? &&
                ErroresBoleto(d, parcial, tarjetas.Keys, viajes, paradas) == {}
      ensures o.CambioSinSaldo? <==>
                Allowed(BoletoViewSet, if parcial then PartialUpdate else Update, user) &&
                Indice(old(boletos), BoletoKey, id).Some? &&
                ErroresBoleto(d, parcial, tarjetas.Keys, viajes, paradas) == {} &&
                ValidarBoleto(TarjetaIndicada(d, tarjetas), d.monto) == RechazoSaldo
      ensures o.CambioErrorInterno? <==>
                Allowed(BoletoViewSet, if parcial then PartialUpdate else Update, user) &&
                Indice(old(boletos), BoletoKey, id).Some? &&
                ErroresBoleto(d, parcial, tarjetas.Keys, viajes, paradas) == {} &&
                ValidarBoleto(TarjetaIndicada(d, tarjetas), d.monto) == ErrorTipo
      ensures o.BoletoCambiado? ==>
                Indice(old(boletos), BoletoKey, id).Some? &&
                var i := Indice(old(boletos), BoletoKey, id).value;
                o.boleto == AplicarBoletoDatos(old(boletos)[i], d) &&
                boletos == old(boletos)[i := o.boleto]
      ensures !o.BoletoCambiado? ==> boletos == old(boletos)
    {
      var accion := if parcial then PartialUpdate else Update;
      if !Allowed(BoletoViewSet, accion, user) {
        return CambioDenegado;
      }
      var idx := Indice(boletos, BoletoKey, id);
      if idx.None? {
        return CambioNoEncontrado;
      }
      var errores := ErroresBoleto(d, parcial, tarjetas.Keys, viajes, paradas);
      if errores != {} {
        return CambioInvalido(errores);
      }
      var v := ValidarBoleto(TarjetaIndicada(d, tarjetas), d.monto);
      if v == RechazoSaldo {
        return CambioSinSaldo;
      } else if v == ErrorTipo {
        return CambioErrorInterno;
      }
      var i := idx.value;
      var b := AplicarBoletoDatos(boletos[i], d);
      ReemplazarBoletoPreserva(boletos, i, b, proximoBoleto, tarjetas.Keys, viajes, paradas);
      boletos := boletos[i := b];
      o := BoletoCambiado(b);
    }

    /** DELETE /boletos/{id}/: any authenticated user; the card is not refunded. */
    method EliminarBoleto(user: Requester, id: BoletoId) returns (o: Baja<Boleto>)
      requires Valid()
      modifies this`boletos
      ensures Valid()
      ensures tarjetas == old(tarjetas)
      ensures o.BajaDenegada? <==> !Allowed(BoletoViewSet, Destroy, user)
      ensures o.BajaNoEncontrada? <==> Allowed(BoletoViewSet, Destroy, user) && Indice(old(boletos), BoletoKey, id).None?
      ensures o.Borrado? ==>
                o.fila in old(boletos) && o.fila.id == id &&
                forall b :: b in boletos <==> b in old(boletos) && b.id != id
      ensures !o.Borrado? ==> boletos == old(boletos)
    {
      if !Allowed(BoletoViewSet, Destroy, user) {
        return BajaDenegada;
      }
      var idx := Indice(boletos, BoletoKey, id);
      if idx.None? {
        return BajaNoEncontrada;
      }
      o := Borrado(boletos[idx.value]);
      var keep := (b: Boleto) => b.id != id;
      FilterKeepsOrder(boletos, keep, BoletoKey);
      boletos := Filter(boletos, keep);
    }

    /** Saves a new card under the next id; its number must be one no stored card holds. */
    method InsertarTarjeta(t: Tarjeta)
      requires Valid()
      requires t.id == proximaTarjeta && forall k :: k in tarjetas ==> tarjetas[k].numero != t.numero
      modifies this`tarjetas, this`proximaTarjeta
      ensures Valid()
      ensures old(proximaTarjeta) !in old(tarjetas)
      ensures tarjetas == old(tarjetas)[old(proximaTarjeta) := t] && proximaTarjeta == old(proximaTarjeta) + 1
    {
      AgregarTarjetaPreserva(tarjetas, viajes, paradas, boletos, incidentes,
                             proximaTarjeta, proximoBoleto, proximoIncidente, t);
      tarjetas, proximaTarjeta := tarjetas[proximaTarjeta := t], proximaTarjeta + 1;
    }

    /**
     * POST /tarjetas/: staff only. The number, stripped of surrounding
     * whitespace, must be non-blank, at most 50 characters and unused, and
     * is stored stripped; an omitted balance starts at 0 and an omitted
     * `activa` at true.
     */
    method CrearTarjeta(user: Requester, d: TarjetaDatos, hoy: Fecha) returns (o: AltaTarjeta)
      requires Valid()
      modifies this`tarjetas, this`proximaTarjeta
      ensures Valid()
      ensures o == ResultadoAltaTarjeta(user, d, old(tarjetas), old(proximaTarjeta), hoy)
      ensures o.TarjetaGuardada? ==>
                old(proximaTarjeta) !in old(tarjetas) &&
                tarjetas == old(tarjetas)[old(proximaTarjeta) := o.tarjeta] &&
                proximaTarjeta == old(proximaTarjeta) + 1
      ensures !o.TarjetaGuardada? ==> tarjetas == old(tarjetas) && proximaTarjeta == old(proximaTarjeta)
    {
      o := ResultadoAltaTarjeta(user, d, tarjetas, proximaTarjeta, hoy);
      if o.TarjetaGuardada? {
        InsertarTarjeta(o.tarjeta);
      }
    }

    /**
     * PUT or PATCH /tarjetas/{id}/: staff only. Every field sent is stored,
     * the balance included; the number stays unique.
     */
    method ActualizarTarjeta(user: Requester, id: TarjetaId, d: TarjetaDatos, parcial: bool) returns (o: AltaTarjeta)
      requires Valid()
      modifies this`tarjetas
      ensures Valid()
      ensures o.AltaDenegada? <==> !Allowed(TarjetaViewSet, if parcial then PartialUpdate else Update, user)
      ensures o.AltaNoEncontrada? <==>
                Allowed(TarjetaViewSet, if parcial then PartialUpdate else Update, user) && id !in old(tarjetas)
      ensures o.AltaInvalida? <==>
                Allowed(TarjetaViewSet, if parcial then PartialUpdate else Update, user) && id in old(tarjetas) &&
                ErroresTarjeta(d, parcial, old(tarjetas), Some(id)) != {}
      ensures o.AltaInvalida? ==> o.campos == ErroresTarjeta(d, parcial, old(tarjetas), Some(id))
      ensures o.TarjetaGuardada? ==>
                id in old(tarjetas) && (d.tipo.Some? ==> TipoTarjetaDesde(d.tipo.value).Some?) &&
                o.tarjeta == AplicarTarjetaDatos(old(tarjetas)[id], d) &&
                tarjetas == old(tarjetas)[id := o.tarjeta]
      ensures !o.TarjetaGuardada? ==> tarjetas == old(tarjetas)
    {
      if !Allowed(TarjetaViewSet, if parcial then PartialUpdate else Update, user) {
        return AltaDenegada;
      }
      if id !in tarjetas {
        return AltaNoEncontrada;
      }
      var errores := ErroresTarjeta(d, parcial, tarjetas, Some(id));
      if errores != {} {
        return AltaInvalida(errores);
      }
      var t := AplicarTarjetaDatos(tarjetas[id], d);
      if d.numero.Some? {
        assert !NumeroEnUso(tarjetas, Strip(d.numero.value), Some(id));
      }
      ReemplazarTarjetaPreserva(tarjetas, viajes, paradas, boletos, incidentes,
                                proximaTarjeta, proximoBoleto, proximoIncidente, t);
      tarjetas := tarjetas[id := t];
      o := TarjetaGuardada(t);
    }

    /** DELETE /tarjetas/{id}/: staff only; the card's tickets go with it. */
    method EliminarTarjeta(user: Requester, id: TarjetaId) returns (o: Baja<Tarjeta>)
      requires Valid()
      modifies this`tarjetas, this`boletos
      ensures Valid()
      ensures o.BajaDenegada? <==> !Allowed(TarjetaViewSet, Destroy, user)
      ensures o.BajaNoEncontrada? <==> Allowed(TarjetaViewSet, Destroy, user) && id !in old(tarjetas)
      ensures o.Borrado? ==>
                id in old(tarjetas) && o.fila == old(tarjetas)[id] &&
                tarjetas == old(tarjetas) - {id} &&
                boletos == BorrarTarjetaEnBoletos(old(boletos), id)
      ensures !o.Borrado? ==> tarjetas == old(tarjetas) && boletos == old(boletos)
    {
      if !Allowed(TarjetaViewSet, Destroy, user) {
        return BajaDenegada;
      }
      if id !in tarjetas {
        return BajaNoEncontrada;
      }
      o := Borrado(tarjetas[id]);
      tarjetas := tarjetas - {id};
      boletos := BorrarTarjetaEnBoletos(boletos, id);
    }

    /** DELETE /viajes/{id}/: staff only; the trip's tickets and incidents go with it. */
    method EliminarViaje(user: Requester, id: ViajeId) returns (o: Baja<ViajeId>)
      requires Valid()
      modifies this`viajes, this`boletos, this`incidentes
      ensures Valid()
      ensures tarjetas == old(tarjetas)
      ensures o.BajaDenegada? <==> !Allowed(ViajeViewSet, Destroy, user)
      ensures o.BajaNoEncontrada? <==> Allowed(ViajeViewSet, Destroy, user) && id !in old(viajes)
      ensures o.Borrado? ==>
                id in old(viajes) && o.fila == id && viajes == old(viajes) - {id} &&
                boletos == BorrarViajeEnBoletos(old(boletos), id) &&
                incidentes == BorrarViajeEnIncidentes(old(incidentes), id)
      ensures !o.Borrado? ==>
                viajes == old(viajes) && boletos == old(boletos) && incidentes == old(incidentes)
    {
      if !Allowed(ViajeViewSet, Destroy, user) {
        return BajaDenegada;
      }
      if id !in viajes {
        return BajaNoEncontrada;
      }
      o := Borrado(id);
      var bs, ins := BorrarViajeEnBoletos(boletos, id), BorrarViajeEnIncidentes(incidentes, id);
      BorrarViajePreserva(tarjetas, viajes, paradas, boletos, incidentes, proximaTarjeta, proximoBoleto, proximoIncidente, id);
      viajes, boletos, incidentes := viajes - {id}, bs, ins;
    }

    /** DELETE /paradas/{id}/: staff only; tickets that boarded there keep existing, with no stop. */
    method EliminarParada(user: Requester, id: ParadaId) returns (o: Baja<ParadaId>)
      requires Valid()
      modifies this`paradas, this`boletos
      ensures Valid()
      ensures tarjetas == old(tarjetas)
      ensures o.BajaDenegada? <==> !Allowed(ParadaViewSet, Destroy, user)
      ensures o.BajaNoEncontrada? <==> Allowed(ParadaViewSet, Destroy, user) && id !in old(paradas)
      ensures o.Borrado? ==>
                id in old(paradas) && o.fila == id && paradas == old(paradas) - {id} &&
                boletos == AnularParadaEnBoletos(old(boletos), id)
      ensures !o.Borrado? ==> paradas == old(paradas) && boletos == old(boletos)
    {
      if !Allowed(ParadaViewSet, Destroy, user) {
        return BajaDenegada;
      }
      if id !in paradas {
        return BajaNoEncontrada;
      }
      o := Borrado(id);
      AnularParadaPreserva(boletos, proximoBoleto, tarjetas.Keys, viajes, paradas, id);
      paradas := paradas - {id};
      boletos := AnularParadaEnBoletos(boletos, id);
    }

    /**
     * POST /incidentes/: any authenticated user. The trip is optional; the
     * description is stored stripped; an omitted `resuelto` starts false
     * and `fecha` is the current instant.
     */
    method CrearIncidente(user: Requester, d: IncidenteDatos, ahora: Instante) returns (o: AltaIncidente)
      requires Valid()
      modifies this`incidentes, this`proximoIncidente
      ensures Valid()
      ensures o.IncidenteDenegado? <==> !Allowed(IncidenteViewSet, Create, user)
      ensures !o.IncidenteNoEncontrado?
      ensures o.IncidenteInvalido? <==>
                Allowed(IncidenteViewSet, Create, user) && ErroresIncidente(d, false, viajes) != {}
      ensures o.IncidenteInvalido? ==> o.campos == ErroresIncidente(d, false, viajes)
      ensures o.IncidenteGuardado? ==>
                d.descripcion.Some? && d.gravedad.Some? && GravedadDesde(d.gravedad.value).Some? &&
                o.incidente == NuevoIncidente(old(proximoIncidente), d.viaje.GetOr(None), Strip(d.descripcion.value),
                                              GravedadDesde(d.gravedad.value).value, d.resuelto, ahora) &&
                incidentes == old(incidentes) + [o.incidente]
      ensures !o.IncidenteGuardado? ==> incidentes == old(incidentes)
    {
      if !Allowed(IncidenteViewSet, Create, user) {
        return IncidenteDenegado;
      }
      var errores := ErroresIncidente(d, false, viajes);
      if errores != {} {
        return IncidenteInvalido(errores);
      }
      var descripcion := Strip(d.descripcion.value);
      var i := NuevoIncidente(proximoIncidente, d.viaje.GetOr(None), descripcion,
                              GravedadDesde(d.gravedad.value).value, d.resuelto, ahora);
      AgregarIncidentePreserva(incidentes, i, viajes);
      incidentes := incidentes + [i];
      proximoIncidente := proximoIncidente + 1;
      o := IncidenteGuardado(i);
    }

    /** PUT or PATCH /incidentes/{id}/: staff only, for instance to mark an incident resolved. */
    method ActualizarIncidente(user: Requester, id: IncidenteId, d: IncidenteDatos, parcial: bool)
      returns (o: AltaIncidente)
      requires Valid()
      modifies this`incidentes
      ensures Valid()
      ensures o.IncidenteDenegado? <==> !Allowed(IncidenteViewSet, if parcial then PartialUpdate else Update, user)
      ensures o.IncidenteNoEncontrado? <==>
                Allowed(IncidenteViewSet, if parcial then PartialUpdate else Update, user) &&
                Indice(old(incidentes), IncidenteKey, id).None?
      ensures o.IncidenteInvalido? <==>
                Allowed(IncidenteViewSet, if parcial then PartialUpdate else Update, user) &&
                Indice(old(incidentes), IncidenteKey, id).Some? && ErroresIncidente(d, parcial, viajes) != {}
      ensures o.IncidenteInvalido? ==> o.campos == ErroresIncidente(d, parcial, viajes)
      ensures o.IncidenteGuardado? ==>
                Indice(old(incidentes), IncidenteKey, id).Some? &&
                (d.gravedad.Some? ==> GravedadDesde(d.gravedad.value).Some?) &&
                var i := Indice(old(incidentes), IncidenteKey, id).value;
                o.incidente == AplicarIncidenteDatos(old(incidentes)[i], d) &&
                incidentes == old(incidentes)[i := o.incidente]
      ensures !o.IncidenteGuardado? ==> incidentes == old(incidentes)
    {
      if !Allowed(IncidenteViewSet, if parcial then PartialUpdate else Update, user) {
        return IncidenteDenegado;
      }
      var idx := Indice(incidentes, IncidenteKey, id);
      if idx.None? {
        return IncidenteNoEncontrado;
      }
      var errores := ErroresIncidente(d, parcial, viajes);
      if errores != {} {
        return IncidenteInvalido(errores);
      }
      var k := idx.value;
      var i := AplicarIncidenteDatos(incidentes[k], d);
      ReemplazarIncidentePreserva(incidentes, k, i, proximoIncidente, viajes);
      incidentes := incidentes[k := i];
      o := IncidenteGuardado(i);
    }

    /** GET /tarjetas/{id}/boletos/: open to anyone; the tickets paid with the card. */
    method BoletosDeLaTarjeta(user: Requester, id: TarjetaId) returns (o: Listado<Boleto>)
      ensures o.ListadoDenegado? <==> !Allowed(TarjetaViewSet, Boletos, user)
      ensures o.ListadoNoEncontrado? <==> Allowed(TarjetaViewSet, Boletos, user) && id !in tarjetas
      ensures o.Filas? ==> forall b :: b in o.filas <==> b in boletos && b.tarjeta == Some(id)
    {
      if !Allowed(TarjetaViewSet, Boletos, user) {
        return ListadoDenegado;
      }
      if id !in tarjetas {
        return ListadoNoEncontrado;
      }
      o := Filas(BoletosDeTarjeta(boletos, id));
    }

    /** GET /viajes/{id}/boletos/: open to anyone; the tickets of the trip. */
    method BoletosDelViaje(user: Requester, id: ViajeId) returns (o: Listado<Boleto>)
      ensures o.ListadoDenegado? <==> !Allowed(ViajeViewSet, Boletos, user)
      ensures o.ListadoNoEncontrado? <==> Allowed(ViajeViewSet, Boletos, user) && id !in viajes
      ensures o.Filas? ==> forall b :: b in o.filas <==> b in boletos && b.viaje == id
    {
      if !Allowed(ViajeViewSet, Boletos, user) {
        return ListadoDenegado;
      }
      if id !in viajes {
        return ListadoNoEncontrado;
      }
      o := Filas(BoletosDeViaje(boletos, id));
    }

    /** GET /viajes/{id}/incidentes/: staff only; the incidents of the trip. */
    method IncidentesDelViaje(user: Requester, id: ViajeId) returns (o: Listado<Incidente>)
      ensures o.ListadoDenegado? <==> !Allowed(ViajeViewSet, Incidentes, user)
      ensures o.ListadoNoEncontrado? <==> Allowed(ViajeViewSet, Incidentes, user) && id !in viajes
      ensures o.Filas? ==> forall i :: i in o.filas <==> i in incidentes && i.viaje == Some(id)
    {
      if !Allowed(ViajeViewSet, Incidentes, user) {
        return ListadoDenegado;
      }
      if id !in viajes {
        return ListadoNoEncontrado;
      }
      o := Filas(IncidentesDeViaje(incidentes, id));
    }
  }
}
