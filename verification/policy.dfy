/**
 * The access table of the viewsets: for each viewset and action, the
 * permission class its `get_permissions` (or `permission_classes`) yields.
 */
module Policy {
  import opened Auth

  datatype ViewSet =
    | UserViewSet | LineaViewSet | ParadaViewSet | RutaViewSet | RutaParadaViewSet
    | VehiculoViewSet | ChoferViewSet | HorarioViewSet | ViajeViewSet
    | TarjetaViewSet | BoletoViewSet | MantenimientoViewSet | IncidenteViewSet

  /** The router's standard actions and the viewsets' extra actions. */
  datatype Action =
    | List | Retrieve | Create | Update | PartialUpdate | Destroy
    | Register | Mantenimientos | Viajes | Boletos | Incidentes | Recargar

  const ReadActions: set<Action> := {List, Retrieve}
  const StandardActions: set<Action> := {List, Retrieve, Create, Update, PartialUpdate, Destroy}
  const WriteActions: set<Action> := {Create, Update, PartialUpdate, Destroy}

  /** The extra actions each viewset declares. */
  function ExtraActions(v: ViewSet): set<Action> {
    match v
    case UserViewSet => {Register}
    case VehiculoViewSet => {Mantenimientos}
    case ChoferViewSet => {Viajes}
    case ViajeViewSet => {Boletos, Incidentes}
    case TarjetaViewSet => {Recargar, Boletos}
    case _ => {}
  }

  /** The actions the router exposes for a viewset. */
  predicate Routed(v: ViewSet, a: Action) {
    a in StandardActions || a in ExtraActions(v)
  }

  /** The actions a viewset's `get_permissions` opens to anyone. */
  function OpenActions(v: ViewSet): set<Action> {
    match v
    case UserViewSet => {Register}
    case VehiculoViewSet => {List, Retrieve, Mantenimientos}
    case ChoferViewSet => {List, Retrieve, Viajes}
    case ViajeViewSet => {List, Retrieve, Boletos}
    case TarjetaViewSet => {List, Retrieve, Boletos}
    case _ => {List, Retrieve}
  }

  function PermissionFor(v: ViewSet, a: Action): (p: PermissionClass)
    ensures p == AllowAny <==> a in OpenActions(v)
    ensures p == IsAuthenticated <==>
              a !in OpenActions(v) &&
              (v == BoletoViewSet || (v == IncidenteViewSet && a == Create))
  {
    if a in OpenActions(v) then AllowAny
    else if v == BoletoViewSet then IsAuthenticated
    else if v == IncidenteViewSet && a == Create then IsAuthenticated
    else IsAdminUser
  }

  /**
   * Whether the framework lets the request through: open actions to
   * anyone, ticket writes and incident reports to any authenticated user,
   * everything else to staff.
   */
  function Allowed(v: ViewSet, a: Action, u: Requester): (ok: bool)
    ensures a in OpenActions(v) ==> ok
    ensures a !in OpenActions(v) && (v == BoletoViewSet || (v == IncidenteViewSet && a == Create)) ==>
              (ok <==> u.isAuthenticated)
    ensures a !in OpenActions(v) && v != BoletoViewSet && !(v == IncidenteViewSet && a == Create) ==>
              (ok <==> u.isStaff)
  {
    Grants(PermissionFor(v, a), u)
  }

  /** The viewsets whose only open actions are `list` and `retrieve`. */
  const ReferenceViewSets: set<ViewSet> :=
    {LineaViewSet, ParadaViewSet, RutaViewSet, RutaParadaViewSet, HorarioViewSet, MantenimientoViewSet}

  /** Lines, stops, routes, route-stops, schedules, maintenance: read by anyone, the rest staff only. */
  lemma ReferenceDataPolicy(v: ViewSet, a: Action, u: Requester)
    requires v in ReferenceViewSets && Routed(v, a)
    ensures Allowed(v, a, u) <==> a in ReadActions || u.isStaff
  {
  }

  /** Vehicles, drivers, trips and cards: reads and their public sub-listings open, the rest staff only. */
  lemma ListingPolicy(u: Requester)
    ensures Allowed(VehiculoViewSet, Mantenimientos, u)
    ensures Allowed(ChoferViewSet, Viajes, u)
    ensures Allowed(ViajeViewSet, Boletos, u)
    ensures Allowed(TarjetaViewSet, Boletos, u)
    ensures Allowed(ViajeViewSet, Incidentes, u) <==> u.isStaff
    ensures Allowed(TarjetaViewSet, Recargar, u) <==> u.isStaff
    ensures forall v, a ::
              v in {VehiculoViewSet, ChoferViewSet, ViajeViewSet, TarjetaViewSet} && a in WriteActions
              ==> (Allowed(v, a, u) <==> u.isStaff)
  {
  }

  /** Tickets: reads open; every write needs only an authenticated user. */
  lemma BoletoPolicy(a: Action, u: Requester)
    requires Routed(BoletoViewSet, a)
    ensures Allowed(BoletoViewSet, a, u) <==> a in ReadActions || u.isAuthenticated
  {
  }

  /** Incidents: reads open; creating needs authentication; update and delete need staff. */
  lemma IncidentePolicy(u: Requester)
    ensures Allowed(IncidenteViewSet, List, u) && Allowed(IncidenteViewSet, Retrieve, u)
    ensures Allowed(IncidenteViewSet, Create, u) <==> u.isAuthenticated
    ensures forall a :: a in {Update, PartialUpdate, Destroy} ==>
              (Allowed(IncidenteViewSet, a, u) <==> u.isStaff)
  {
  }

  /** Accounts: every management action needs staff; `register` is open. */
  lemma UserPolicy(a: Action, u: Requester)
    requires Routed(UserViewSet, a)
    ensures Allowed(UserViewSet, a, u) <==> a == Register || u.isStaff
  {
  }

  /** What the anonymous user may do: exactly the open actions. */
  lemma AnonymousPolicy(v: ViewSet, a: Action)
    ensures Allowed(v, a, Anonymous) <==> a in OpenActions(v)
  {
  }

  /** Staff status never turns an allowed request into a denied one. */
  lemma PolicyStaffMonotone(v: ViewSet, a: Action, u: Requester)
    requires Allowed(v, a, u)
    ensures Allowed(v, a, u.(isStaff := true))
  {
  }

  /** No entry of the table is closed to an authenticated staff user. */
  lemma StaffMayDoEverything(v: ViewSet, a: Action, u: Requester)
    requires u.isStaff && u.isAuthenticated
    ensures Allowed(v, a, u)
  {
  }
}
