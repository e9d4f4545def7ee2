/** Applying one report: what a refusal and an acceptance do to the records, the counters,
    the sequence number and the leaves, and why the Endpoint limit never refuses. */
module RouteReports {
  import opened Common
  import opened PointCodes
  import opened RouteRecords
  import opened DerivedStatus
  import opened RouteState
  import opened RouteInvariants

  // ---- The sequence number (asp_routes.go:478-482, 588-629) ----

  ghost predicate AllBefore<T>(records: Records<T>, sequence: nat) {
    forall k :: k in records ==> records[k].sequence < sequence
  }

  /** Every route other than one reads the same from both maps. */
  ghost predicate AgreesBeside<T>(first: Records<T>, second: Records<T>, except: Option<Id>) {
    forall r {:trigger RouteAgrees(first, second, r)} :: Some(r) != except ==> RouteAgrees(first, second, r)
  }

  lemma AgreesWithSelf<T>(records: Records<T>)
    ensures AgreesBeside(records, records, None)
  {}

  lemma AgreesThrough<T>(a: Records<T>, b: Records<T>, c: Records<T>, except: Option<Id>)
    requires AgreesBeside(a, b, except) && AgreesBeside(b, c, except)
    ensures AgreesBeside(a, c, except)
  {
    forall r | Some(r) != except ensures RouteAgrees(a, c, r) {
      assert RouteAgrees(a, b, r) && RouteAgrees(b, c, r);
    }
  }

  /** A later copy of a record map: the same keys in the same order, all below the number. */
  ghost predicate Moved<T>(before: Records<T>, after: Records<T>, sequence: nat) {
    && after.Keys == before.Keys
    && DistinctSequences(after) && AllBefore(after, sequence)
    && AgreesBeside(before, after, None)
  }

  lemma RenumberedMoved<T>(records: Records<T>, base: nat, sequence: nat)
    requires DistinctSequences(records) && base + |records| < sequence
    ensures Moved(records, Renumbered(records, base), sequence)
  {
    RenumberingAgrees(records, base);
  }

  /** The next number is newer than every stored one and below 2^64, and taking it changes
      no answer, whether or not it wrapped. */
  lemma AdvanceIsNewer(s: Store)
    requires Sequenced(s.availability, s.sequence) && Sequenced(s.congestion, s.sequence)
    requires s.sequence < SEQUENCE_LIMIT && |s.availability| + |s.congestion| < SEQUENCE_LIMIT / 2
    ensures var t := Advance(s);
            && 0 < t.sequence < SEQUENCE_LIMIT
            && Moved(s.availability, t.availability, t.sequence)
            && Moved(s.congestion, t.congestion, t.sequence)
  {
    if NextSequence(s.sequence) == 0 {
      var total := |s.availability| + |s.congestion|;
      RenumberedMoved(s.availability, 0, total + 1);
      RenumberedMoved(s.congestion, |s.availability|, total + 1);
    } else {
      AgreesWithSelf(s.availability);
      AgreesWithSelf(s.congestion);
    }
  }

  /** Storing the newest record of one route keeps the order of all others. */
  lemma StoreNewest<T>(before: Records<T>, records: Records<T>, key: RangeKey, value: T, sequence: nat)
    requires Moved(before, records, sequence)
    ensures Sequenced(records[key := Record(value, sequence)], sequence)
    ensures AgreesBeside(before, records[key := Record(value, sequence)], Some(key.route))
  {
    var after := records[key := Record(value, sequence)];
    assert AgreesBeside(before, records, Some(key.route)) by {
      forall r | Some(r) != Some(key.route) ensures RouteAgrees(before, records, r) {}
    }
    assert AgreesBeside(records, after, Some(key.route));
    AgreesThrough(before, records, after, Some(key.route));
  }

  lemma KeptBeside<T>(before: Records<T>, records: Records<T>, sequence: nat, except: Option<Id>)
    requires Moved(before, records, sequence)
    ensures Sequenced(records, sequence) && AgreesBeside(before, records, except)
  {
    forall r ensures RouteAgrees(before, records, r) {}
  }

  // ---- Counting one more record ----

  lemma StoreRouteCount<T>(records: Records<T>, key: RangeKey, record: Record<T>, g: Id, r: Id)
    ensures |RouteKeys(records[key := record], g, r)|
         == |RouteKeys(records, g, r)| + if key !in records && key.gateway == g && key.route == r then 1 else 0
  {
    var before, after := RouteKeys(records, g, r), RouteKeys(records[key := record], g, r);
    if key.gateway == g && key.route == r {
      assert after == before + {key};
    } else {
      assert after == before;
    }
  }

  lemma StoreGatewayCount<T>(records: Records<T>, key: RangeKey, record: Record<T>, g: Id)
    ensures |GatewayKeys(records[key := record], g)|
         == |GatewayKeys(records, g)| + if key !in records && key.gateway == g then 1 else 0
  {
    var before, after := GatewayKeys(records, g), GatewayKeys(records[key := record], g);
    if key.gateway == g {
      assert key in before <==> key in records;
      assert after == before + {key};
    } else {
      assert after == before;
    }
  }

  lemma StoreCount<T>(records: Records<T>, key: RangeKey, record: Record<T>)
    ensures |records[key := record]| == |records| + if key !in records then 1 else 0
  {
    assert records[key := record].Keys == records.Keys + {key};
    assert |records[key := record].Keys| == |records.Keys| + if key !in records then 1 else 0;
  }

  lemma SameKeysSameCounts<T>(first: Records<T>, second: Records<T>)
    requires first.Keys == second.Keys
    ensures forall g, r :: RouteKeys(first, g, r) == RouteKeys(second, g, r)
    ensures forall g :: GatewayKeys(first, g) == GatewayKeys(second, g)
    ensures |first| == |second|
  {
    assert |first.Keys| == |second.Keys|;
  }

  // ---- One write ----

  ghost predicate CountsGrow(c: Counters, d: Counters, key: RangeKey, added: nat) {
    && (forall g, r :: Count(d.perRoute, (g, r))
          == Count(c.perRoute, (g, r)) + if key.gateway == g && key.route == r then added else 0)
    && (forall g :: Count(d.perGateway, g) == Count(c.perGateway, g) + if key.gateway == g then added else 0)
    && d.count == c.count + added
  }

  /** Counters kept by increments equal a recount when the increments match the new keys. */
  lemma CountersFollow(s: Store, t: Store, key: RangeKey, update: Update)
    requires CountersOk(s.availability, s.congestion, s.counters)
    requires CountsGrow(s.counters, t.counters, key, if Has(s, key, update) then 0 else 1)
    requires t.availability.Keys == s.availability.Keys + if update.AvailabilityUpdate? then {key} else {}
    requires t.congestion.Keys == s.congestion.Keys + if update.CongestionUpdate? then {key} else {}
    ensures CountersOk(t.availability, t.congestion, t.counters)
  {
    KeysFollow(s.availability, t.availability, key, update.AvailabilityUpdate?);
    KeysFollow(s.congestion, t.congestion, key, update.CongestionUpdate?);
  }

  lemma KeysFollow<T>(before: Records<T>, after: Records<T>, key: RangeKey, stored: bool)
    requires after.Keys == before.Keys + if stored then {key} else {}
    ensures forall g, r :: |RouteKeys(after, g, r)| == |RouteKeys(before, g, r)|
              + if stored && key !in before && key.gateway == g && key.route == r then 1 else 0
    ensures forall g :: |GatewayKeys(after, g)| == |GatewayKeys(before, g)|
              + if stored && key !in before && key.gateway == g then 1 else 0
    ensures |after| == |before| + if stored && key !in before then 1 else 0
  {
    if stored {
      var same := before[key := after[key]];
      SameKeysSameCounts(after, same);
      forall g, r ensures |RouteKeys(after, g, r)| == |RouteKeys(before, g, r)|
                            + if key !in before && key.gateway == g && key.route == r then 1 else 0
      {
        StoreRouteCount(before, key, after[key], g, r);
      }
      forall g ensures |GatewayKeys(after, g)| == |GatewayKeys(before, g)|
                         + if key !in before && key.gateway == g then 1 else 0
      {
        StoreGatewayCount(before, key, after[key], g);
      }
      StoreCount(before, key, after[key]);
    } else {
      SameKeysSameCounts(after, before);
    }
  }

  lemma KeysStillOk<T>(cfg: Config, associations: map<Association, Identity>, before: Records<T>, after: Records<T>, key: RangeKey)
    requires KeysValid(cfg, before) && KeysAttached(associations, before)
    requires ValidKey(cfg, key) && GatewayAttached(associations, key.gateway)
    requires after.Keys <= before.Keys + {key}
    ensures KeysValid(cfg, after) && KeysAttached(associations, after)
  {
    forall k | k in after ensures ValidKey(cfg, k) && GatewayAttached(associations, k.gateway) {
      if k != key { assert k in before && ValidKey(cfg, k) && GatewayAttached(associations, k.gateway); }
    }
  }

  /** One write's effect on the record map it stores into, and on the other one. */
  ghost predicate StoredInto<T>(before: Records<T>, after: Records<T>, key: RangeKey, sequence: nat) {
    && Sequenced(after, sequence) && AgreesBeside(before, after, Some(key.route))
    && after.Keys == before.Keys + {key}
  }

  ghost predicate CarriedOver<T>(before: Records<T>, after: Records<T>, key: RangeKey, sequence: nat) {
    && Sequenced(after, sequence) && AgreesBeside(before, after, Some(key.route))
    && after.Keys == before.Keys
  }

  lemma StoreInto<T>(before: Records<T>, records: Records<T>, key: RangeKey, value: T, sequence: nat)
    requires Moved(before, records, sequence)
    ensures StoredInto(before, records[key := Record(value, sequence)], key, sequence)
  {
    hide Sequenced, AgreesBeside, Moved;
    StoreNewest(before, records, key, value, sequence);
    MovedKeys(before, records, sequence);
  }

  lemma CarryOver<T>(before: Records<T>, records: Records<T>, key: RangeKey, sequence: nat)
    requires Moved(before, records, sequence)
    ensures CarriedOver(before, records, key, sequence)
  {
    hide Sequenced, AgreesBeside, Moved;
    KeptBeside(before, records, sequence, Some(key.route));
    MovedKeys(before, records, sequence);
  }

  lemma MovedKeys<T>(before: Records<T>, records: Records<T>, sequence: nat)
    requires Moved(before, records, sequence)
    ensures records.Keys == before.Keys
  {}

  /** What one write leaves besides the counters. */
  lemma WriteOneIs(s: Store, key: RangeKey, update: Update)
    ensures var moved, t := Advance(s), WriteOne(s, key, update);
            && t.sequence == moved.sequence
            && t.availability == (if update.AvailabilityUpdate?
                                  then moved.availability[key := Record(update.availability, moved.sequence)] else moved.availability)
            && t.congestion == (if update.CongestionUpdate?
                                then moved.congestion[key := Record(update.congestion, moved.sequence)] else moved.congestion)
  {
    hide Advance, Has, Counted;
  }

  /** What one write does to the records, whichever kind it stores. */
  ghost predicate Written(s: Store, t: Store, key: RangeKey, update: Update) {
    && 0 < t.sequence < SEQUENCE_LIMIT
    && (if update.AvailabilityUpdate? then StoredInto(s.availability, t.availability, key, t.sequence)
        else CarriedOver(s.availability, t.availability, key, t.sequence))
    && (if update.CongestionUpdate? then StoredInto(s.congestion, t.congestion, key, t.sequence)
        else CarriedOver(s.congestion, t.congestion, key, t.sequence))
  }

  lemma WriteOneRecords(s: Store, key: RangeKey, update: Update)
    requires Sequenced(s.availability, s.sequence) && Sequenced(s.congestion, s.sequence)
    requires s.sequence < SEQUENCE_LIMIT && |s.availability| + |s.congestion| < SEQUENCE_LIMIT / 2
    ensures Written(s, WriteOne(s, key, update), key, update)
  {
    hide Sequenced, Moved, StoredInto, CarriedOver, Advance, WriteOne;
    AdvanceIsNewer(s);
    WriteOneIs(s, key, update);
    var moved := Advance(s);
    match update
    case AvailabilityUpdate(value) =>
      StoreInto(s.availability, moved.availability, key, value, moved.sequence);
      CarryOver(s.congestion, moved.congestion, key, moved.sequence);
    case CongestionUpdate(value) =>
      StoreInto(s.congestion, moved.congestion, key, value, moved.sequence);
      CarryOver(s.availability, moved.availability, key, moved.sequence);
  }

  lemma WriteOneCounts(s: Store, key: RangeKey, update: Update)
    ensures CountsGrow(s.counters, WriteOne(s, key, update).counters, key, if Has(s, key, update) then 0 else 1)
  {
    assert Put(Advance(s), key, update).counters == s.counters;
  }

  /** One write keeps the store's invariant, changes the answers of one route at most and adds
      one to the counters exactly when the key is new. */
  lemma WriteOneKeeps(cfg: Config, associations: map<Association, Identity>, s: Store, key: RangeKey, update: Update)
    requires StoreOk(cfg, associations, s) && s.counters.count < SEQUENCE_LIMIT / 2
    requires ValidKey(cfg, key) && GatewayAttached(associations, key.gateway)
    ensures var t := WriteOne(s, key, update);
            && Written(s, t, key, update) && StoreOk(cfg, associations, t)
            && CountsGrow(s.counters, t.counters, key, if Has(s, key, update) then 0 else 1)
  {
    WriteOneRecords(s, key, update);
    WriteOneCounts(s, key, update);
    OneWriteOk(cfg, associations, s, WriteOne(s, key, update), key, update);
  }

  lemma OneWriteOk(cfg: Config, associations: map<Association, Identity>, s: Store, t: Store, key: RangeKey, update: Update)
    requires StoreOk(cfg, associations, s)
    requires ValidKey(cfg, key) && GatewayAttached(associations, key.gateway)
    requires CountsGrow(s.counters, t.counters, key, if Has(s, key, update) then 0 else 1)
    requires Written(s, t, key, update)
    ensures StoreOk(cfg, associations, t)
  {
    assert CountersOk(t.availability, t.congestion, t.counters) by { CountersFollow(s, t, key, update); }
    OneWriteRecordsOk(cfg, associations, s.availability, t.availability, key, t.sequence);
    OneWriteRecordsOk(cfg, associations, s.congestion, t.congestion, key, t.sequence);
  }

  lemma OneWriteRecordsOk<T>(cfg: Config, associations: map<Association, Identity>, before: Records<T>, after: Records<T>,
                             key: RangeKey, sequence: nat)
    requires KeysValid(cfg, before) && KeysAttached(associations, before)
    requires ValidKey(cfg, key) && GatewayAttached(associations, key.gateway)
    requires StoredInto(before, after, key, sequence) || CarriedOver(before, after, key, sequence)
    ensures RecordsOk(cfg, associations, after, sequence)
  {
    KeysStillOk(cfg, associations, before, after, key);
  }

  // ---- What a report changes ----

  ghost predicate Covers(key: RangeKey, gateway: Id, route: Id, q: nat) {
    key.gateway == gateway && key.route == route && Contains(key.range, q)
  }

  ghost predicate SomeCovers(keys: seq<RangeKey>, gateway: Id, route: Id, q: nat) {
    exists k :: k in keys && Covers(k, gateway, route, q)
  }

  /** A stored report is the newest one for everything it covers, and nothing else changes. */
  lemma StoreReads<T>(before: Records<T>, records: Records<T>, key: RangeKey, value: T, sequence: nat,
                      gateway: Id, route: Id, q: nat)
    requires DistinctSequences(before) && Moved(before, records, sequence)
    ensures Newest(records[key := Record(value, sequence)], gateway, route, q)
         == if Covers(key, gateway, route, q) then Some(value) else Newest(before, gateway, route, q)
  {
    var after := records[key := Record(value, sequence)];
    if Covers(key, gateway, route, q) {
      assert IsNewest(after, gateway, route, q, key);
      NewestIs(after, gateway, route, q, key);
    } else {
      assert RouteAgrees(before, records, route);
      NewestDepends(before, records, gateway, route, q);
      OthersRead(records, after, gateway, route, q);
    }
  }

  lemma OthersRead<T>(first: Records<T>, second: Records<T>, gateway: Id, route: Id, q: nat)
    requires DistinctSequences(first) && DistinctSequences(second)
    requires forall k :: Covering(first, gateway, route, q, k) <==> Covering(second, gateway, route, q, k)
    requires forall k :: Covering(first, gateway, route, q, k) ==> k in second && first[k] == second[k]
    ensures Newest(first, gateway, route, q) == Newest(second, gateway, route, q)
  {
    NewestExists(first, gateway, route, q);
    if key :| IsNewest(first, gateway, route, q, key) {
      assert IsNewest(second, gateway, route, q, key);
      NewestIs(first, gateway, route, q, key);
      NewestIs(second, gateway, route, q, key);
    } else {
      NewestNone(first, gateway, route, q);
      NewestNone(second, gateway, route, q);
    }
  }

  lemma MovedReads<T>(before: Records<T>, after: Records<T>, sequence: nat, gateway: Id, route: Id, q: nat)
    requires DistinctSequences(before) && Moved(before, after, sequence)
    ensures Newest(after, gateway, route, q) == Newest(before, gateway, route, q)
  {
    assert RouteAgrees(before, after, route);
    NewestDepends(before, after, gateway, route, q);
  }

  /** What one point reads from a map after a report that did or did not name it. */
  ghost predicate ReadsAfter<T>(before: Records<T>, after: Records<T>, reported: Option<T>, gateway: Id, route: Id, q: nat) {
    Newest(after, gateway, route, q) == if reported.Some? then reported else Newest(before, gateway, route, q)
  }

  function ReportedAvailability(update: Update, covered: bool): Option<Availability> {
    if update.AvailabilityUpdate? && covered then Some(update.availability) else None
  }

  function ReportedCongestion(update: Update, covered: bool): Option<Congestion> {
    if update.CongestionUpdate? && covered then Some(update.congestion) else None
  }

  ghost predicate ReadsReport(s: Store, t: Store, covered: bool, update: Update, gateway: Id, route: Id, q: nat) {
    && ReadsAfter(s.availability, t.availability, ReportedAvailability(update, covered), gateway, route, q)
    && ReadsAfter(s.congestion, t.congestion, ReportedCongestion(update, covered), gateway, route, q)
  }

  lemma WriteOneReads(s: Store, key: RangeKey, update: Update, gateway: Id, route: Id, q: nat)
    requires Sequenced(s.availability, s.sequence) && Sequenced(s.congestion, s.sequence)
    requires s.sequence < SEQUENCE_LIMIT && |s.availability| + |s.congestion| < SEQUENCE_LIMIT / 2
    ensures ReadsReport(s, WriteOne(s, key, update), Covers(key, gateway, route, q), update, gateway, route, q)
  {
    AdvanceIsNewer(s);
    WriteReads(s, Advance(s), key, update, gateway, route, q);
  }

  lemma WriteReads(s: Store, moved: Store, key: RangeKey, update: Update, gateway: Id, route: Id, q: nat)
    requires Sequenced(s.availability, s.sequence) && Sequenced(s.congestion, s.sequence)
    requires Moved(s.availability, moved.availability, moved.sequence)
    requires Moved(s.congestion, moved.congestion, moved.sequence)
    ensures ReadsReport(s, Put(moved, key, update), Covers(key, gateway, route, q), update, gateway, route, q)
  {
    match update
    case AvailabilityUpdate(value) =>
      StoreReads(s.availability, moved.availability, key, value, moved.sequence, gateway, route, q);
      MovedReads(s.congestion, moved.congestion, moved.sequence, gateway, route, q);
    case CongestionUpdate(value) =>
      StoreReads(s.congestion, moved.congestion, key, value, moved.sequence, gateway, route, q);
      MovedReads(s.availability, moved.availability, moved.sequence, gateway, route, q);
  }

  // ---- Admission (asp_routes.go:437-474) ----

  ghost predicate FitsRoutes(cfg: Config, s: Store, keys: seq<RangeKey>, update: Update) {
    forall g, r :: Count(s.counters.perRoute, (g, r)) + NewOnRoute(s, keys, update, g, r) <= cfg.perRouteLimit
  }

  ghost predicate FitsGateways(cfg: Config, s: Store, keys: seq<RangeKey>, update: Update) {
    forall g :: Count(s.counters.perGateway, g) + NewOnGateway(s, keys, update, g) <= cfg.perGatewayLimit
  }

  ghost predicate FitsInAll(cfg: Config, s: Store, keys: seq<RangeKey>, update: Update) {
    s.counters.count + NewInAll(s, keys, update) <= cfg.totalLimit
  }

  /** The key-by-key admission loop accepts a report exactly when the records it would leave
      are within all three limits. */
  lemma {:induction false} RefusedExactly(cfg: Config, s: Store, keys: seq<RangeKey>, update: Update)
    requires LimitsOk(cfg, s.counters)
    ensures Refused(cfg, s, keys, update).None?
       <==> FitsRoutes(cfg, s, keys, update) && FitsGateways(cfg, s, keys, update) && FitsInAll(cfg, s, keys, update)
  {
    if keys != [] {
      var before, last := keys[..|keys| - 1], keys[|keys| - 1];
      RefusedExactly(cfg, s, before, update);
      if FitsRoutes(cfg, s, keys, update) && FitsGateways(cfg, s, keys, update) && FitsInAll(cfg, s, keys, update) {
        assert Count(s.counters.perRoute, (last.gateway, last.route))
             + NewOnRoute(s, keys, update, last.gateway, last.route) <= cfg.perRouteLimit;
        assert Count(s.counters.perGateway, last.gateway)
             + NewOnGateway(s, keys, update, last.gateway) <= cfg.perGatewayLimit;
        forall g, r ensures Count(s.counters.perRoute, (g, r)) + NewOnRoute(s, before, update, g, r) <= cfg.perRouteLimit {
          assert Count(s.counters.perRoute, (g, r)) + NewOnRoute(s, keys, update, g, r) <= cfg.perRouteLimit;
        }
        forall g ensures Count(s.counters.perGateway, g) + NewOnGateway(s, before, update, g) <= cfg.perGatewayLimit {
          assert Count(s.counters.perGateway, g) + NewOnGateway(s, keys, update, g) <= cfg.perGatewayLimit;
        }
      }
    }
  }

  // ---- The Endpoint limit (asp_config.go:484-499) ----

  ghost function KeysOf<T>(records: Records<T>, gateways: seq<Gateway>): set<RangeKey> {
    set k, i | k in records && 0 <= i < |gateways| && gateways[i].id == k.gateway :: k
  }

  /** What the named gateways hold in all. */
  ghost function Held(c: Counters, gateways: seq<Gateway>): nat {
    if gateways == [] then 0 else Held(c, gateways[..|gateways| - 1]) + Count(c.perGateway, gateways[|gateways| - 1].id)
  }

  lemma KeysOfGrows<T>(records: Records<T>, gateways: seq<Gateway>)
    requires gateways != []
    requires forall i, j :: 0 <= i < j < |gateways| ==> gateways[i].id != gateways[j].id
    ensures |KeysOf(records, gateways)|
         == |KeysOf(records, gateways[..|gateways| - 1])| + |GatewayKeys(records, gateways[|gateways| - 1].id)|
  {
    var before, last := gateways[..|gateways| - 1], gateways[|gateways| - 1];
    var a, b := KeysOf(records, before), GatewayKeys(records, last.id);
    forall k ensures k in KeysOf(records, gateways) <==> k in a || k in b {
      if k in a {
        var i :| 0 <= i < |before| && before[i].id == k.gateway;
        assert gateways[i].id == k.gateway;
      }
      if k in b { assert gateways[|gateways| - 1].id == k.gateway; }
    }
    assert KeysOf(records, gateways) == a + b;
    assert a !! b;
  }

  lemma {:induction false} HeldIsCounted(s: Store, gateways: seq<Gateway>)
    requires CountersOk(s.availability, s.congestion, s.counters)
    requires forall i, j :: 0 <= i < j < |gateways| ==> gateways[i].id != gateways[j].id
    ensures Held(s.counters, gateways) == |KeysOf(s.availability, gateways)| + |KeysOf(s.congestion, gateways)|
  {
    if gateways != [] {
      HeldIsCounted(s, gateways[..|gateways| - 1]);
      KeysOfGrows(s.availability, gateways);
      KeysOfGrows(s.congestion, gateways);
    }
  }

  lemma AllKeysConfigured<T>(cfg: Config, records: Records<T>)
    requires KeysValid(cfg, records)
    ensures KeysOf(records, cfg.gateways) == records.Keys
  {
    forall k | k in records ensures k in KeysOf(records, cfg.gateways) {
      assert ValidKey(cfg, k);
      var g :| g in cfg.gateways && g.id == k.gateway && GatewayCarries(g, k.route);
      var i :| 0 <= i < |cfg.gateways| && cfg.gateways[i] == g;
    }
  }

  /** Held by all gateways within the shares reserved for them, one of which has room left. */
  lemma {:induction false} HeldWithin(cfg: Config, c: Counters, gateways: seq<Gateway>, gateway: Id, room: nat)
    requires forall g :: Count(c.perGateway, g) <= cfg.perGatewayLimit
    requires Count(c.perGateway, gateway) + room <= cfg.perGatewayLimit
    ensures Held(c, gateways) + (if exists g :: g in gateways && g.id == gateway then room else 0)
         <= |gateways| * cfg.perGatewayLimit
  {
    if gateways != [] {
      var before, last := gateways[..|gateways| - 1], gateways[|gateways| - 1];
      assert gateways == before + [last];
      HeldWithin(cfg, c, before, gateway, room);
      OneMoreShare(|before|, cfg.perGatewayLimit);
      if last.id != gateway && exists g :: g in gateways && g.id == gateway {
        var g :| g in gateways && g.id == gateway;
        assert g in before;
      }
    }
  }

  lemma OneMoreShare(n: nat, share: nat)
    ensures (n + 1) * share == n * share + share
  {}

  lemma SharesFit(total: nat, n: nat, share: nat)
    requires n > 0 && share <= total / n
    ensures n * share <= total
  {
    assert n * share <= n * (total / n);
  }

  lemma {:induction false} OwnGatewayOnly(s: Store, keys: seq<RangeKey>, update: Update, gateway: Id)
    requires forall k :: k in keys ==> k.gateway == gateway
    ensures NewInAll(s, keys, update) == NewOnGateway(s, keys, update, gateway)
  {
    if keys != [] { OwnGatewayOnly(s, keys[..|keys| - 1], update, gateway); }
  }

  /** The limit on the whole Endpoint never refuses a report: each gateway's share is
      reserved, so the gateway's own limit is always reached first. */
  lemma {:induction false} EndpointNeverRefuses(cfg: Config, s: Store, keys: seq<RangeKey>, update: Update, gateway: Id)
    requires ValidConfig(cfg) && LimitsOk(cfg, s.counters)
    requires CountersOk(s.availability, s.congestion, s.counters)
    requires KeysValid(cfg, s.availability) && KeysValid(cfg, s.congestion)
    requires forall k :: k in keys ==> k.gateway == gateway && ValidKey(cfg, k)
    ensures Refused(cfg, s, keys, update) != Some(EndpointLimit)
  {
    hide ValidConfig, LimitsOk, CountersOk, KeysValid, ValidKey, NewOnGateway, NewInAll, NewOnRoute;
    if keys != [] {
      var before, last := keys[..|keys| - 1], keys[|keys| - 1];
      EndpointNeverRefuses(cfg, s, before, update, gateway);
      if RefusedKey(cfg, s, before, last, update) == Some(EndpointLimit) {
        assert last in keys;
        ValidKeyGateway(cfg, last);
        OwnGatewayOnly(s, before, update, gateway);
        EndpointRoom(cfg, s, gateway, NewOnGateway(s, before, update, gateway) + 1);
      }
    }
  }

  lemma ValidKeyGateway(cfg: Config, key: RangeKey)
    requires ValidKey(cfg, key)
    ensures exists g :: g in cfg.gateways && g.id == key.gateway
  {}

  lemma EndpointRoom(cfg: Config, s: Store, gateway: Id, room: nat)
    requires ValidConfig(cfg) && LimitsOk(cfg, s.counters)
    requires CountersOk(s.availability, s.congestion, s.counters)
    requires KeysValid(cfg, s.availability) && KeysValid(cfg, s.congestion)
    requires exists g :: g in cfg.gateways && g.id == gateway
    requires Count(s.counters.perGateway, gateway) + room <= cfg.perGatewayLimit
    ensures s.counters.count + room <= cfg.totalLimit
  {
    HeldIsCounted(s, cfg.gateways);
    AllKeysConfigured(cfg, s.availability);
    AllKeysConfigured(cfg, s.congestion);
    assert |s.availability.Keys| == |s.availability| && |s.congestion.Keys| == |s.congestion|;
    HeldWithin(cfg, s.counters, cfg.gateways, gateway, room);
    SharesFit(cfg.totalLimit, |cfg.gateways|, cfg.perGatewayLimit);
  }

  // ---- The whole report ----

  /** What an accepted report leaves: the counters grown by the new keys, every key present,
      every covered point reading the reported value and every other point what it read. */
  ghost predicate CountersGrown(s: Store, t: Store, keys: seq<RangeKey>, update: Update) {
    && (forall g, r :: Count(t.counters.perRoute, (g, r)) == Count(s.counters.perRoute, (g, r)) + NewOnRoute(s, keys, update, g, r))
    && (forall g :: Count(t.counters.perGateway, g) == Count(s.counters.perGateway, g) + NewOnGateway(s, keys, update, g))
    && t.counters.count == s.counters.count + NewInAll(s, keys, update)
  }

  ghost predicate KeysWritten(s: Store, t: Store, keys: seq<RangeKey>, update: Update) {
    forall k :: Has(t, k, update) <==> Has(s, k, update) || k in keys
  }

  ghost predicate OthersAgree(s: Store, t: Store, keys: seq<RangeKey>) {
    forall r {:trigger RouteAgrees(s.availability, t.availability, r)} {:trigger RouteAgrees(s.congestion, t.congestion, r)} ::
      r !in AffectedRoutes(keys) ==>
        RouteAgrees(s.availability, t.availability, r) && RouteAgrees(s.congestion, t.congestion, r)
  }

  lemma RouteAgreesThrough<T>(a: Records<T>, b: Records<T>, c: Records<T>, r: Id)
    requires RouteAgrees(a, b, r) && RouteAgrees(b, c, r)
    ensures RouteAgrees(a, c, r)
  {}

  /** What an accepted report is known to satisfy when its writes begin. */
  ghost predicate Ready(cfg: Config, associations: map<Association, Identity>, s: Store, keys: seq<RangeKey>, update: Update) {
    && ValidConfig(cfg) && StoreOk(cfg, associations, s)
    && (forall i, j :: 0 <= i < j < |keys| ==> keys[i] != keys[j])
    && (forall k :: k in keys ==> ValidKey(cfg, k) && GatewayAttached(associations, k.gateway))
    && s.counters.count + NewInAll(s, keys, update) <= cfg.totalLimit
  }

  lemma PrefixReady(cfg: Config, associations: map<Association, Identity>, s: Store, keys: seq<RangeKey>, update: Update)
    requires Ready(cfg, associations, s, keys, update) && keys != []
    ensures Ready(cfg, associations, s, keys[..|keys| - 1], update)
    ensures keys[|keys| - 1] !in keys[..|keys| - 1]
  {}

  /** The records and counters along a report's writes. */
  lemma {:induction false} WriteAllKeeps(cfg: Config, associations: map<Association, Identity>, s: Store,
                                         keys: seq<RangeKey>, update: Update)
    requires Ready(cfg, associations, s, keys, update)
    ensures StoreOk(cfg, associations, WriteAll(s, keys, update))
    ensures CountersGrown(s, WriteAll(s, keys, update), keys, update)
    ensures KeysWritten(s, WriteAll(s, keys, update), keys, update)
  {
    if keys != [] {
      var before, last := keys[..|keys| - 1], keys[|keys| - 1];
      PrefixReady(cfg, associations, s, keys, update);
      WriteAllKeeps(cfg, associations, s, before, update);
      var middle := WriteAll(s, before, update);
      assert Has(middle, last, update) <==> Has(s, last, update);
      WriteOneKeeps(cfg, associations, middle, last, update);
      WriteAllStep(s, middle, WriteOne(middle, last, update), keys, update);
    } else {
      assert WriteAll(s, keys, update) == s;
    }
  }

  lemma WriteAllStep(s: Store, middle: Store, t: Store, keys: seq<RangeKey>, update: Update)
    requires keys != []
    requires var before, last := keys[..|keys| - 1], keys[|keys| - 1];
             && CountersGrown(s, middle, before, update) && KeysWritten(s, middle, before, update)
             && (Has(middle, last, update) <==> Has(s, last, update))
             && Written(middle, t, last, update)
             && CountsGrow(middle.counters, t.counters, last, if Has(middle, last, update) then 0 else 1)
    ensures CountersGrown(s, t, keys, update) && KeysWritten(s, t, keys, update)
  {
    var before, last := keys[..|keys| - 1], keys[|keys| - 1];
    assert keys == before + [last];
    forall k ensures Has(t, k, update) <==> Has(s, k, update) || k in keys {
      assert Has(middle, k, update) <==> Has(s, k, update) || k in before;
    }
  }

  /** Before the last write the numbers are distinct and far from their limit. */
  lemma MiddleSequenced(cfg: Config, associations: map<Association, Identity>, s: Store, keys: seq<RangeKey>, update: Update)
    requires Ready(cfg, associations, s, keys, update) && keys != []
    ensures var middle := WriteAll(s, keys[..|keys| - 1], update);
            && Sequenced(middle.availability, middle.sequence) && Sequenced(middle.congestion, middle.sequence)
            && middle.sequence < SEQUENCE_LIMIT && |middle.availability| + |middle.congestion| < SEQUENCE_LIMIT / 2
  {
    PrefixReady(cfg, associations, s, keys, update);
    WriteAllKeeps(cfg, associations, s, keys[..|keys| - 1], update);
  }

  lemma {:induction false} WriteAllBeside(cfg: Config, associations: map<Association, Identity>, s: Store,
                                          keys: seq<RangeKey>, update: Update)
    requires Ready(cfg, associations, s, keys, update)
    ensures OthersAgree(s, WriteAll(s, keys, update), keys)
  {
    if keys != [] {
      var before, last := keys[..|keys| - 1], keys[|keys| - 1];
      PrefixReady(cfg, associations, s, keys, update);
      WriteAllBeside(cfg, associations, s, before, update);
      MiddleSequenced(cfg, associations, s, keys, update);
      var middle := WriteAll(s, before, update);
      WriteOneRecords(middle, last, update);
      OneBeside(s, middle, WriteOne(middle, last, update), keys, update);
    }
  }

  lemma OneBeside(s: Store, middle: Store, t: Store, keys: seq<RangeKey>, update: Update)
    requires keys != [] && OthersAgree(s, middle, keys[..|keys| - 1]) && Written(middle, t, keys[|keys| - 1], update)
    ensures OthersAgree(s, t, keys)
  {
    var before, last := keys[..|keys| - 1], keys[|keys| - 1];
    forall r | r !in AffectedRoutes(keys)
      ensures RouteAgrees(s.availability, t.availability, r) && RouteAgrees(s.congestion, t.congestion, r)
    {
      assert last in keys && last.route in AffectedRoutes(keys);
      assert AffectedRoutes(before) <= AffectedRoutes(keys);
      assert RouteAgrees(s.availability, middle.availability, r);
      assert RouteAgrees(middle.availability, t.availability, r);
      assert RouteAgrees(middle.congestion, t.congestion, r);
      RouteAgreesThrough(s.availability, middle.availability, t.availability, r);
      RouteAgreesThrough(s.congestion, middle.congestion, t.congestion, r);
    }
  }

  /** After the writes every point of every reported range reads the reported value, whatever
      was stored there before and whether or not the numbers wrapped; no other point, gateway
      or route reads anything new. */
  lemma {:induction false} WriteAllReads(cfg: Config, associations: map<Association, Identity>, s: Store,
                                         keys: seq<RangeKey>, update: Update, gateway: Id, route: Id, q: nat)
    requires Ready(cfg, associations, s, keys, update)
    ensures ReadsReport(s, WriteAll(s, keys, update), SomeCovers(keys, gateway, route, q), update, gateway, route, q)
  {
    if keys != [] {
      var before, last := keys[..|keys| - 1], keys[|keys| - 1];
      PrefixReady(cfg, associations, s, keys, update);
      WriteAllReads(cfg, associations, s, before, update, gateway, route, q);
      MiddleSequenced(cfg, associations, s, keys, update);
      WriteOneReads(WriteAll(s, before, update), last, update, gateway, route, q);
      CoversLast(keys, gateway, route, q);
    }
  }

  lemma CoversLast(keys: seq<RangeKey>, gateway: Id, route: Id, q: nat)
    requires keys != []
    ensures SomeCovers(keys, gateway, route, q)
       <==> SomeCovers(keys[..|keys| - 1], gateway, route, q) || Covers(keys[|keys| - 1], gateway, route, q)
  {
    var before, last := keys[..|keys| - 1], keys[|keys| - 1];
    assert keys == before + [last];
    assert last in keys;
    if SomeCovers(before, gateway, route, q) {
      var k :| k in before && Covers(k, gateway, route, q);
      assert k in keys;
    }
  }

  /** A report whose keys were resolved for an identity that is attached now. */
  lemma ReportKeysValid(cfg: Config, s: State, a: Association, identity: Identity, keys: seq<RangeKey>)
    requires ValidConfig(cfg) && ValidReport(cfg, identity, keys)
    requires a in s.associations && s.associations[a] == identity
    ensures forall k :: k in keys ==>
              k.gateway == identity.gateway && ValidKey(cfg, k) && GatewayAttached(s.associations, k.gateway)
  {
    forall k | k in keys
      ensures k.gateway == identity.gateway && ValidKey(cfg, k) && GatewayAttached(s.associations, k.gateway)
    {
      ServedIsCarried(cfg, identity, k.route);
    }
  }

  /** A report keeps the invariant, whenever its keys were resolved. */
  lemma ReportInv(cfg: Config, s: State, a: Association, identity: Identity, keys: seq<RangeKey>, update: Update)
    requires ValidConfig(cfg) && Inv(cfg, s) && ValidReport(cfg, identity, keys)
    ensures Inv(cfg, Report(cfg, s, a, identity, keys, update).0)
  {
    if Report(cfg, s, a, identity, keys, update).1 == Accepted {
      ReportKeysValid(cfg, s, a, identity, keys);
      RefusedExactly(cfg, s.store, keys, update);
      var t := WriteAll(s.store, keys, update);
      WriteAllKeeps(cfg, s.associations, s.store, keys, update);
      assert LimitsOk(cfg, t.counters) by { GrownWithinLimits(cfg, s.store, t, keys, update); }
      WriteAllBeside(cfg, s.associations, s.store, keys, update);
      ReportDerived(cfg, s, s.(store := t), AffectedRoutes(keys));
    }
  }

  lemma GrownWithinLimits(cfg: Config, s: Store, t: Store, keys: seq<RangeKey>, update: Update)
    requires CountersGrown(s, t, keys, update)
    requires FitsRoutes(cfg, s, keys, update) && FitsGateways(cfg, s, keys, update) && FitsInAll(cfg, s, keys, update)
    ensures LimitsOk(cfg, t.counters)
  {}

  lemma ReportDerived(cfg: Config, s: State, written: State, affected: set<Id>)
    requires DerivedOk(cfg, s) && RecordsInv(cfg, s) && RecordsInv(cfg, written)
    requires written == s.(store := written.store)
    requires forall r {:trigger RouteAgrees(s.store.availability, written.store.availability, r)} ::
               r !in affected ==>
                 && RouteAgrees(s.store.availability, written.store.availability, r)
                 && RouteAgrees(s.store.congestion, written.store.congestion, r)
    ensures DerivedOk(cfg, Recompute(cfg, written, Some(affected)))
  {
    forall r | r in RouteRanges(cfg) && r !in affected ensures RouteDerived(cfg, written, r) {
      assert RouteDerived(cfg, s, r);
      assert RouteAgrees(s.store.availability, written.store.availability, r);
      DerivedDepends(Views(cfg.gateways, s.used[r], r), s.store.availability, s.store.congestion,
                     written.store.availability, written.store.congestion, r, RouteRanges(cfg)[r]);
    }
    RecomputeDerives(cfg, written, Some(affected));
  }

  /** Of an attached association a report is refused exactly when the records it would leave
      pass a limit of its own gateway, and then nothing at all changes. */
  lemma RefusedByOwnLimits(cfg: Config, s: State, a: Association, identity: Identity, keys: seq<RangeKey>, update: Update)
    requires ValidConfig(cfg) && Inv(cfg, s) && ValidReport(cfg, identity, keys)
    requires a in s.associations && s.associations[a] == identity
    ensures Refused(cfg, s.store, keys, update) != Some(EndpointLimit)
    ensures Report(cfg, s, a, identity, keys, update).1 == Accepted
       <==> FitsRoutes(cfg, s.store, keys, update) && FitsGateways(cfg, s.store, keys, update)
    ensures Report(cfg, s, a, identity, keys, update).1 != Accepted ==> Report(cfg, s, a, identity, keys, update).0 == s
  {
    ReportKeysValid(cfg, s, a, identity, keys);
    EndpointNeverRefuses(cfg, s.store, keys, update, identity.gateway);
    RefusedExactly(cfg, s.store, keys, update);
    if FitsGateways(cfg, s.store, keys, update) {
      OwnGatewayOnly(s.store, keys, update, identity.gateway);
      OwnGatewayConfigured(cfg, s, identity);
      EndpointRoom(cfg, s.store, identity.gateway, NewOnGateway(s.store, keys, update, identity.gateway));
    }
  }

  lemma OwnGatewayConfigured(cfg: Config, s: State, identity: Identity)
    requires SgpRoutes(cfg, identity).Some?
    ensures exists g :: g in cfg.gateways && g.id == identity.gateway
  {
    SgpBelongs(cfg.gateways, identity);
  }

  /** An accepted report writes every key and changes no other reading. */
  lemma AcceptedWritesAll(cfg: Config, s: State, a: Association, identity: Identity, keys: seq<RangeKey>, update: Update,
                          gateway: Id, route: Id, q: nat)
    requires ValidConfig(cfg) && Inv(cfg, s) && ValidReport(cfg, identity, keys)
    requires Report(cfg, s, a, identity, keys, update).1 == Accepted
    ensures var t := Report(cfg, s, a, identity, keys, update).0.store;
            && KeysWritten(s.store, t, keys, update)
            && ReadsReport(s.store, t, SomeCovers(keys, gateway, route, q), update, gateway, route, q)
  {
    ReportKeysValid(cfg, s, a, identity, keys);
    RefusedExactly(cfg, s.store, keys, update);
    WriteAllKeeps(cfg, s.associations, s.store, keys, update);
    WriteAllReads(cfg, s.associations, s.store, keys, update, gateway, route, q);
  }

  // ---- Independence of the gateways ----

  /** Both stores hold the same keys and counts for one gateway. */
  ghost predicate SameFor(s: Store, t: Store, gateway: Id) {
    && (forall k: RangeKey :: k.gateway == gateway ==>
          (k in s.availability <==> k in t.availability) && (k in s.congestion <==> k in t.congestion))
    && (forall r :: Count(s.counters.perRoute, (gateway, r)) == Count(t.counters.perRoute, (gateway, r)))
    && Count(s.counters.perGateway, gateway) == Count(t.counters.perGateway, gateway)
  }

  /** Whether one gateway's report is accepted depends on that gateway's own records, so no
      gateway can use up what another one is entitled to. */
  lemma {:induction false} RefusalIsOwn(cfg: Config, s: Store, t: Store, keys: seq<RangeKey>, update: Update, gateway: Id)
    requires ValidConfig(cfg) && LimitsOk(cfg, s.counters) && LimitsOk(cfg, t.counters)
    requires CountersOk(s.availability, s.congestion, s.counters) && CountersOk(t.availability, t.congestion, t.counters)
    requires KeysValid(cfg, s.availability) && KeysValid(cfg, s.congestion)
    requires KeysValid(cfg, t.availability) && KeysValid(cfg, t.congestion)
    requires forall k :: k in keys ==> k.gateway == gateway && ValidKey(cfg, k)
    requires SameFor(s, t, gateway)
    ensures Refused(cfg, s, keys, update) == Refused(cfg, t, keys, update)
  {
    EndpointNeverRefuses(cfg, s, keys, update, gateway);
    EndpointNeverRefuses(cfg, t, keys, update, gateway);
    SameUpToEndpoint(cfg, s, t, keys, update, gateway);
  }

  lemma {:induction false} NewIsOwn(s: Store, t: Store, keys: seq<RangeKey>, update: Update, gateway: Id, route: Id)
    requires SameFor(s, t, gateway) && forall k :: k in keys ==> k.gateway == gateway
    ensures NewOnRoute(s, keys, update, gateway, route) == NewOnRoute(t, keys, update, gateway, route)
    ensures NewOnGateway(s, keys, update, gateway) == NewOnGateway(t, keys, update, gateway)
  {
    if keys != [] {
      assert keys[|keys| - 1] in keys;
      NewIsOwn(s, t, keys[..|keys| - 1], update, gateway, route);
    }
  }

  lemma {:induction false} SameUpToEndpoint(cfg: Config, s: Store, t: Store, keys: seq<RangeKey>, update: Update, gateway: Id)
    requires SameFor(s, t, gateway) && forall k :: k in keys ==> k.gateway == gateway
    requires Refused(cfg, s, keys, update) != Some(EndpointLimit) && Refused(cfg, t, keys, update) != Some(EndpointLimit)
    ensures Refused(cfg, s, keys, update) == Refused(cfg, t, keys, update)
  {
    if keys != [] {
      var before, last := keys[..|keys| - 1], keys[|keys| - 1];
      assert last in keys;
      SameUpToEndpoint(cfg, s, t, before, update, gateway);
      NewIsOwn(s, t, before, update, gateway, last.route);
    }
  }
}
