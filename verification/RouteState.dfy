/** The ASP route state as a value: what each operation of asp_routes.go does to the flat
    records, the counters, the sequence number and the derived leaves. The class in
    AspRoutes.dfy is proved to do exactly this with its trie and its loops. */
module RouteState {
  import opened Common
  import opened PointCodes
  import opened RouteRecords
  import opened DerivedStatus

  // ---- Compiled inventory (asp_config.go:256-338) ----

  datatype Route = Route(id: Id, range: Range)

  /** One SGP and the routes it serves, in configuration order. */
  datatype Sgp = Sgp(id: Id, routes: seq<Id>)

  datatype Gateway = Gateway(id: Id, sgps: seq<Sgp>)

  datatype Identity = Identity(gateway: Id, process: Id)

  datatype Config = Config(routes: seq<Route>, gateways: seq<Gateway>,
                           perRouteLimit: nat, perGatewayLimit: nat, totalLimit: nat)

  type Association = nat

  /** One past the largest uint64. */
  const SEQUENCE_LIMIT: nat := 0x1_0000_0000_0000_0000

  predicate GatewayCarries(gateway: Gateway, route: Id) {
    exists i :: 0 <= i < |gateway.sgps| && route in gateway.sgps[i].routes
  }

  /** Some SGP of the named gateway serves the route. */
  ghost predicate Carried(cfg: Config, gateway: Id, route: Id) {
    exists g :: g in cfg.gateways && g.id == gateway && GatewayCarries(g, route)
  }

  /** The SGP an identity names (sgpByIdentity). */
  function SgpRoutes(cfg: Config, identity: Identity): Option<seq<Id>> {
    SgpRoutesFrom(cfg.gateways, identity)
  }

  function SgpRoutesFrom(gateways: seq<Gateway>, identity: Identity): Option<seq<Id>> {
    if gateways == [] then None
    else if gateways[0].id == identity.gateway then ProcessRoutes(gateways[0].sgps, identity.process)
    else SgpRoutesFrom(gateways[1..], identity)
  }

  function ProcessRoutes(sgps: seq<Sgp>, process: Id): Option<seq<Id>> {
    if sgps == [] then None
    else if sgps[0].id == process then Some(sgps[0].routes)
    else ProcessRoutes(sgps[1..], process)
  }

  /** What a successful compile guarantees (asp_config.go:484-499, 503-543, 689-727, 829-930). */
  ghost predicate ValidConfig(cfg: Config) {
    && (forall i, j :: 0 <= i < j < |cfg.routes| ==> cfg.routes[i].id != cfg.routes[j].id)
    && (forall i :: 0 <= i < |cfg.routes| ==> Aligned(cfg.routes[i].range))
    && (forall i, j :: 0 <= i < j < |cfg.gateways| ==> cfg.gateways[i].id != cfg.gateways[j].id)
    && (forall g, i, j :: g in cfg.gateways && 0 <= i < j < |g.sgps| ==> g.sgps[i].id != g.sgps[j].id)
    && (forall r :: r in cfg.routes ==> exists g :: g in cfg.gateways && GatewayCarries(g, r.id))
    && (forall g, i, r :: g in cfg.gateways && 0 <= i < |g.sgps| && r in g.sgps[i].routes ==> r in RouteIds(cfg))
    && cfg.gateways != []
    && cfg.perGatewayLimit <= cfg.totalLimit / |cfg.gateways|
    && cfg.totalLimit < SEQUENCE_LIMIT / 2
  }

  function RouteIds(cfg: Config): set<Id> {
    set r | r in cfg.routes :: r.id
  }

  /** mtpRouteByID. */
  function RouteRanges(cfg: Config): map<Id, Range> {
    RangesFrom(cfg.routes)
  }

  function RangesFrom(routes: seq<Route>): (ranges: map<Id, Range>)
    ensures ranges.Keys == set r | r in routes :: r.id
  {
    if routes == [] then map[]
    else RangesFrom(routes[1..])[routes[0].id := routes[0].range]
  }

  // ---- State ----

  /** stateRecordsPerRoute, stateRecordsPerSignallingGateway, stateRecordCount. */
  datatype Counters = Counters(perRoute: map<(Id, Id), nat>, perGateway: map<Id, nat>, count: nat)

  /** The flat records with the number that orders them and the counters that bound them. */
  datatype Store = Store(availability: Records<Availability>, congestion: Records<Congestion>,
                         sequence: nat, counters: Counters)

  datatype State = State(
    associations: map<Association, Identity>,
    /** What each association could carry if asked now; owned by the associations themselves. */
    live: map<Association, set<Id>>,
    /** associationEligibleRoutes: what each attached association could carry when last noted. */
    eligible: map<Association, set<Id>>,
    store: Store,
    derived: map<Id, map<Range, Status>>,
    /** The gateways that could carry each route when its leaves were last derived. */
    used: map<Id, set<Id>>)

  datatype Update =
    | AvailabilityUpdate(availability: Availability)
    | CongestionUpdate(congestion: Congestion)

  datatype Refusal = RouteLimit | GatewayLimit | EndpointLimit

  function Count<K>(counters: map<K, nat>, key: K): nat {
    if key in counters then counters[key] else 0
  }

  // ---- Capability (asp_routes.go:266-281, 1226-1252) ----

  function RouteSet(routes: seq<Id>): set<Id> {
    set r | r in routes
  }

  /** eligibleAssociationRoutesLocked. */
  function LiveRoutes(cfg: Config, live: map<Association, set<Id>>, a: Association, identity: Identity): set<Id> {
    var served := SgpRoutes(cfg, identity);
    if served.None? || a !in live then {} else RouteSet(served.value) * live[a]
  }

  /** The gateways with an attached association that can carry the route now. */
  function Capable(cfg: Config, s: State, route: Id): set<Id> {
    set a | a in s.associations && route in LiveRoutes(cfg, s.live, a, s.associations[a]) :: s.associations[a].gateway
  }

  /** gatewayRouteSnapshotsLocked: the gateways configured for a route, in order. */
  function Views(gateways: seq<Gateway>, capable: set<Id>, route: Id): seq<GatewayView> {
    if gateways == [] then []
    else
      var rest := Views(gateways[1..], capable, route);
      if GatewayCarries(gateways[0], route)
      then [GatewayView(gateways[0].id, gateways[0].id in capable)] + rest else rest
  }

  /** The leaves a recomputation of one route yields. */
  ghost function DerivedFor(cfg: Config, s: State, capable: set<Id>, route: Id, range: Range): map<Range, Status> {
    Derived(Views(cfg.gateways, capable, route), s.store.availability, s.store.congestion, route, range)
  }

  /** recomputeLocked; None stands for the nil set, which recomputes every route. */
  ghost function Recompute(cfg: Config, s: State, only: Option<set<Id>>): State {
    s.(derived := map r | r in RouteRanges(cfg) ::
                    if (only.None? || r in only.value) || r !in s.derived
                    then DerivedFor(cfg, s, Capable(cfg, s, r), r, RouteRanges(cfg)[r])
                    else s.derived[r],
       used := map r | r in RouteRanges(cfg) ::
                 if (only.None? || r in only.value) || r !in s.used then Capable(cfg, s, r) else s.used[r])
  }

  // ---- Attach and detach (asp_routes.go:194-264) ----

  ghost function Initial(cfg: Config): State {
    State(map[], map[], map[], Store(map[], map[], 0, Counters(map[], map[], 0)),
          map r | r in RouteRanges(cfg) :: map[RouteRanges(cfg)[r] := UNAVAILABLE],
          map r | r in RouteRanges(cfg) :: {})
  }

  /** The association's own state changed; nothing has been told about it yet. */
  function SetLive(s: State, a: Association, routes: set<Id>): State {
    s.(live := s.live[a := routes])
  }

  ghost function Attach(cfg: Config, s: State, a: Association, identity: Identity): State {
    var now := LiveRoutes(cfg, s.live, a, identity);
    Recompute(cfg, s.(associations := s.associations[a := identity], eligible := s.eligible[a := now]), Some(now))
  }

  predicate GatewayAttached(associations: map<Association, Identity>, gateway: Id) {
    exists a :: a in associations && associations[a].gateway == gateway
  }

  /** Every route some SGP of the gateway serves. */
  ghost function GatewayRoutes(cfg: Config, gateway: Id): set<Id> {
    set g, i, r | g in cfg.gateways && g.id == gateway && 0 <= i < |g.sgps| && r in g.sgps[i].routes :: r
  }

  function Without<T>(records: Records<T>, gateway: Id): Records<T> {
    map k | k in records && k.gateway != gateway :: records[k]
  }

  /** reclaimSignallingGatewayStateLocked with the recount of the counters. */
  ghost function Reclaim(store: Store, gateway: Id): Store {
    var availability, congestion := Without(store.availability, gateway), Without(store.congestion, gateway);
    Store(availability, congestion, store.sequence, Recount(availability, congestion))
  }

  ghost function Detach(cfg: Config, s: State, a: Association): State {
    if a !in s.associations then Recompute(cfg, s, if a in s.eligible then Some(s.eligible[a]) else None)
    else
      var gateway := s.associations[a].gateway;
      var affected := if a in s.eligible then s.eligible[a] else {};
      var left := s.(associations := s.associations - {a}, eligible := s.eligible - {a});
      if GatewayAttached(left.associations, gateway) then Recompute(cfg, left, Some(affected))
      else Recompute(cfg, left.(store := Reclaim(left.store, gateway)), Some(affected + GatewayRoutes(cfg, gateway)))
  }

  // ---- Eligibility change (asp_routes.go:315-331, 565-586) ----

  function Changed(before: set<Id>, after: set<Id>): set<Id> {
    (before - after) + (after - before)
  }

  ghost function StateChanged(cfg: Config, s: State, a: Association): State {
    if a !in s.associations then s
    else
      var now := LiveRoutes(cfg, s.live, a, s.associations[a]);
      var affected := Changed(if a in s.eligible then s.eligible[a] else {}, now);
      if affected == {} then s
      else Recompute(cfg, s.(eligible := s.eligible[a := now]), Some(affected))
  }

  // ---- Counting ----

  ghost function RouteKeys<T>(records: Records<T>, gateway: Id, route: Id): set<RangeKey> {
    set k | k in records && k.gateway == gateway && k.route == route
  }

  ghost function GatewayKeys<T>(records: Records<T>, gateway: Id): set<RangeKey> {
    set k | k in records && k.gateway == gateway
  }

  ghost function Recount(availability: Records<Availability>, congestion: Records<Congestion>): Counters {
    Counters(RecountRoutes(availability, congestion), RecountGateways(availability, congestion),
             |availability| + |congestion|)
  }

  ghost function RecountRoutes(availability: Records<Availability>, congestion: Records<Congestion>): map<(Id, Id), nat> {
    map k | k in availability.Keys + congestion.Keys ::
      (k.gateway, k.route) := |RouteKeys(availability, k.gateway, k.route)| + |RouteKeys(congestion, k.gateway, k.route)|
  }

  ghost function RecountGateways(availability: Records<Availability>, congestion: Records<Congestion>): map<Id, nat> {
    map k | k in availability.Keys + congestion.Keys ::
      k.gateway := |GatewayKeys(availability, k.gateway)| + |GatewayKeys(congestion, k.gateway)|
  }

  // ---- Reports (asp_routes.go:392-528, 588-629) ----

  function Has(s: Store, key: RangeKey, update: Update): bool {
    match update
    case AvailabilityUpdate(_) => key in s.availability
    case CongestionUpdate(_) => key in s.congestion
  }

  /** The new records a list of keys would add on one gateway, on one route of it, and in all. */
  function NewOnRoute(s: Store, keys: seq<RangeKey>, update: Update, gateway: Id, route: Id): nat {
    if keys == [] then 0
    else
      var last := keys[|keys| - 1];
      NewOnRoute(s, keys[..|keys| - 1], update, gateway, route) +
      if !Has(s, last, update) && last.gateway == gateway && last.route == route then 1 else 0
  }

  function NewOnGateway(s: Store, keys: seq<RangeKey>, update: Update, gateway: Id): nat {
    if keys == [] then 0
    else
      var last := keys[|keys| - 1];
      NewOnGateway(s, keys[..|keys| - 1], update, gateway) +
      if !Has(s, last, update) && last.gateway == gateway then 1 else 0
  }

  function NewInAll(s: Store, keys: seq<RangeKey>, update: Update): nat {
    if keys == [] then 0
    else NewInAll(s, keys[..|keys| - 1], update) + if !Has(s, keys[|keys| - 1], update) then 1 else 0
  }

  /** The first limit the report would pass, key by key, before anything is written. */
  function Refused(cfg: Config, s: Store, keys: seq<RangeKey>, update: Update): Option<Refusal> {
    if keys == [] then None
    else
      var before, last := keys[..|keys| - 1], keys[|keys| - 1];
      var earlier := Refused(cfg, s, before, update);
      if earlier.Some? then earlier else RefusedKey(cfg, s, before, last, update)
  }

  function RefusedKey(cfg: Config, s: Store, before: seq<RangeKey>, last: RangeKey, update: Update): Option<Refusal> {
    if Has(s, last, update) then None
    else if Count(s.counters.perRoute, (last.gateway, last.route))
            + NewOnRoute(s, before, update, last.gateway, last.route) + 1 > cfg.perRouteLimit then Some(RouteLimit)
    else if Count(s.counters.perGateway, last.gateway)
            + NewOnGateway(s, before, update, last.gateway) + 1 > cfg.perGatewayLimit then Some(GatewayLimit)
    else if s.counters.count + NewInAll(s, before, update) + 1 > cfg.totalLimit then Some(EndpointLimit)
    else None
  }

  /** uint64 increment. */
  function NextSequence(sequence: nat): nat {
    if sequence + 1 >= SEQUENCE_LIMIT then 0 else sequence + 1
  }

  /** renumberLocked. */
  ghost function Renumber(s: Store): Store {
    s.(availability := Renumbered(s.availability, 0),
       congestion := Renumbered(s.congestion, |s.availability|),
       sequence := |s.availability| + |s.congestion|)
  }

  /** The next sequence number, renumbering first when the counter wraps to zero. */
  ghost function Advance(s: Store): Store {
    if NextSequence(s.sequence) != 0 then s.(sequence := NextSequence(s.sequence))
    else
      var renumbered := Renumber(s);
      renumbered.(sequence := NextSequence(renumbered.sequence))
  }

  function Put(s: Store, key: RangeKey, update: Update): Store {
    match update
    case AvailabilityUpdate(value) => s.(availability := s.availability[key := Record(value, s.sequence)])
    case CongestionUpdate(value) => s.(congestion := s.congestion[key := Record(value, s.sequence)])
  }

  function Counted(c: Counters, key: RangeKey): Counters {
    Counters(c.perRoute[(key.gateway, key.route) := Count(c.perRoute, (key.gateway, key.route)) + 1],
             c.perGateway[key.gateway := Count(c.perGateway, key.gateway) + 1],
             c.count + 1)
  }

  ghost function WriteOne(s: Store, key: RangeKey, update: Update): Store {
    var stored := Put(Advance(s), key, update);
    if Has(s, key, update) then stored else stored.(counters := Counted(s.counters, key))
  }

  ghost function WriteAll(s: Store, keys: seq<RangeKey>, update: Update): Store {
    if keys == [] then s
    else WriteOne(WriteAll(s, keys[..|keys| - 1], update), keys[|keys| - 1], update)
  }

  function AffectedRoutes(keys: seq<RangeKey>): set<Id> {
    set k | k in keys :: k.route
  }

  datatype Outcome = Ignored | RefusedWith(refusal: Refusal) | Accepted

  /** The writing half of apply: keys were resolved earlier for the identity the association
      had then, and the association may have left since. */
  ghost function Report(cfg: Config, s: State, a: Association, identity: Identity,
                        keys: seq<RangeKey>, update: Update): (State, Outcome)
  {
    if a !in s.associations || s.associations[a] != identity then (s, Ignored)
    else
      var refusal := Refused(cfg, s.store, keys, update);
      if refusal.Some? then (s, RefusedWith(refusal.value))
      else (Recompute(cfg, s.(store := WriteAll(s.store, keys, update)), Some(AffectedRoutes(keys))), Accepted)
  }

  /** What reportRanges yields for an SGP: distinct keys of its gateway, each an aligned part
      of a route that SGP serves. */
  ghost predicate ValidReport(cfg: Config, identity: Identity, keys: seq<RangeKey>) {
    var served := SgpRoutes(cfg, identity);
    && served.Some?
    && (forall i, j :: 0 <= i < j < |keys| ==> keys[i] != keys[j])
    && (forall i :: 0 <= i < |keys| ==>
          && keys[i].gateway == identity.gateway && keys[i].route in served.value
          && keys[i].route in RouteRanges(cfg)
          && Aligned(keys[i].range) && Inside(keys[i].range, RouteRanges(cfg)[keys[i].route]))
  }

  // ---- The invariant ----

  /** A stored key names a provisioned gateway, a route it carries and a part of that route. */
  ghost predicate ValidKey(cfg: Config, key: RangeKey) {
    && Carried(cfg, key.gateway, key.route)
    && key.route in RouteRanges(cfg)
    && Aligned(key.range) && Inside(key.range, RouteRanges(cfg)[key.route])
  }

  ghost predicate KeysValid<T>(cfg: Config, records: Records<T>) {
    forall k {:trigger ValidKey(cfg, k)} :: k in records ==> ValidKey(cfg, k)
  }

  /** Every retained record belongs to a gateway with an attached association. */
  ghost predicate KeysAttached<T>(associations: map<Association, Identity>, records: Records<T>) {
    forall k {:trigger GatewayAttached(associations, k.gateway)} :: k in records ==> GatewayAttached(associations, k.gateway)
  }

  ghost predicate Sequenced<T>(records: Records<T>, sequence: nat) {
    && DistinctSequences(records)
    && (forall k :: k in records ==> records[k].sequence <= sequence)
  }

  ghost predicate RecordsOk<T>(cfg: Config, associations: map<Association, Identity>, records: Records<T>, sequence: nat) {
    KeysValid(cfg, records) && KeysAttached(associations, records) && Sequenced(records, sequence)
  }

  /** Every counter equals a recount of the records. */
  ghost predicate CountersOk(availability: Records<Availability>, congestion: Records<Congestion>, c: Counters) {
    && (forall g, r :: Count(c.perRoute, (g, r)) == |RouteKeys(availability, g, r)| + |RouteKeys(congestion, g, r)|)
    && (forall g :: Count(c.perGateway, g) == |GatewayKeys(availability, g)| + |GatewayKeys(congestion, g)|)
    && c.count == |availability| + |congestion|
  }

  ghost predicate LimitsOk(cfg: Config, c: Counters) {
    && (forall g, r :: Count(c.perRoute, (g, r)) <= cfg.perRouteLimit)
    && (forall g :: Count(c.perGateway, g) <= cfg.perGatewayLimit)
    && c.count <= cfg.totalLimit
  }

  ghost predicate AssociationsOk(cfg: Config, s: State) {
    && s.eligible.Keys == s.associations.Keys
    && (forall a :: a in s.associations ==> SgpRoutes(cfg, s.associations[a]).Some?)
  }

  /** Each route's leaves are those of its records and the capability last used. */
  ghost predicate RouteDerived(cfg: Config, s: State, route: Id) {
    && route in s.derived && route in s.used && route in RouteRanges(cfg)
    && s.derived[route] == DerivedFor(cfg, s, s.used[route], route, RouteRanges(cfg)[route])
  }

  ghost predicate DerivedOk(cfg: Config, s: State) {
    && s.derived.Keys == RouteRanges(cfg).Keys && s.used.Keys == RouteRanges(cfg).Keys
    && (forall r {:trigger RouteDerived(cfg, s, r)} :: r in RouteRanges(cfg) ==> RouteDerived(cfg, s, r))
  }

  /** The records, the counters and the sequence number, for the associations attached. */
  ghost predicate StoreOk(cfg: Config, associations: map<Association, Identity>, s: Store) {
    && s.sequence < SEQUENCE_LIMIT
    && RecordsOk(cfg, associations, s.availability, s.sequence)
    && RecordsOk(cfg, associations, s.congestion, s.sequence)
    && CountersOk(s.availability, s.congestion, s.counters)
  }

  ghost predicate RecordsInv(cfg: Config, s: State) {
    AssociationsOk(cfg, s) && StoreOk(cfg, s.associations, s.store) && LimitsOk(cfg, s.store.counters)
  }

  ghost predicate Inv(cfg: Config, s: State) {
    RecordsInv(cfg, s) && DerivedOk(cfg, s)
  }

  /** The route's leaves were derived with the capability that holds now. */
  ghost predicate UpToDate(cfg: Config, s: State, route: Id) {
    route in s.used && s.used[route] == Capable(cfg, s, route)
  }

  /** Every association's eligibility change has been noted and every route is up to date. */
  ghost predicate Synced(cfg: Config, s: State) {
    && (forall a :: a in s.associations && a in s.eligible ==>
          s.eligible[a] == LiveRoutes(cfg, s.live, a, s.associations[a]))
    && (forall r {:trigger UpToDate(cfg, s, r)} :: r in RouteRanges(cfg) ==> UpToDate(cfg, s, r))
  }
}
