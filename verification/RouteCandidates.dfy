/** What the routing compile records: each bound candidate, in order, lands in every SGP of
    its Signalling Gateway that serves its Application Server. Recording is compared with the
    configuration's own flattened path candidates. */
module RouteCandidates {
  import opened Common
  import opened Sequences

  /** One provisioned (path, Application Server) pair. */
  datatype Candidate = Candidate(path: string, server: string)

  datatype Path = Path(id: string, gateway: string, servers: seq<string>)

  datatype Route = Route(
    id: string,
    destinationPointCode: uint32,
    mask: byte,
    serviceIndicators: seq<byte>,
    originatingPointCodes: seq<uint32>,
    paths: seq<string>)

  datatype Sgp = Sgp(
    id: string,
    applicationServers: seq<string>,
    asByID: map<string, nat>,
    routeCandidates: map<string, seq<Candidate>>,
    routeOrder: seq<string>)
  {
    function CandidatesFor(route: string): seq<Candidate> {
      if route in routeCandidates then routeCandidates[route] else []
    }

    predicate Carries(route: string) { |CandidatesFor(route)| > 0 }

    predicate Serves(server: string) { server in asByID }
  }

  datatype Gateway = Gateway(id: string, sgps: seq<Sgp>)

  /** One call of recordSGPRouteCandidate. */
  datatype Entry = Entry(route: string, gateway: string, candidate: Candidate)

  // ---- The reference: a route's flattened path candidates ----

  function PathEntries(route: string, p: Path): (r: seq<Entry>)
    ensures |r| == |p.servers|
  {
    seq(|p.servers|, i requires 0 <= i < |p.servers| => Entry(route, p.gateway, Candidate(p.id, p.servers[i])))
  }

  function Flatten(route: string, ids: seq<string>, paths: map<string, Path>): seq<Entry> {
    if ids == [] then []
    else
      var n := |ids| - 1;
      Flatten(route, ids[..n], paths) + if ids[n] in paths then PathEntries(route, paths[ids[n]]) else []
  }

  /** The candidates of one Signalling Gateway among the entries. */
  function Through(log: seq<Entry>, gateway: string): seq<Candidate> {
    if log == [] then []
    else
      var n := |log| - 1;
      Through(log[..n], gateway) + if log[n].gateway == gateway then [log[n].candidate] else []
  }

  /** Those an SGP serves, in order. */
  function Served(log: seq<Entry>, gateway: string, s: Sgp): seq<Candidate> {
    if log == [] then []
    else
      var n := |log| - 1;
      Served(log[..n], gateway, s) + if log[n].gateway == gateway && s.Serves(log[n].candidate.server) then [log[n].candidate] else []
  }

  /** Every route's entries, in configuration order. */
  function AllEntries(routes: seq<Route>, paths: map<string, Path>): seq<Entry> {
    if routes == [] then []
    else
      var n := |routes| - 1;
      AllEntries(routes[..n], paths) + Flatten(routes[n].id, routes[n].paths, paths)
  }

  /** The routes the SGP can serve at all, in configuration order. */
  function Carried(routes: seq<Route>, paths: map<string, Path>, gateway: string, s: Sgp): seq<string> {
    if routes == [] then []
    else
      var n := |routes| - 1;
      Carried(routes[..n], paths, gateway, s)
      + if Served(Flatten(routes[n].id, routes[n].paths, paths), gateway, s) != [] then [routes[n].id] else []
  }

  // ---- Recording ----

  function Recorded(s: Sgp, e: Entry): Sgp {
    if !s.Serves(e.candidate.server) then s
    else s.(routeOrder := if s.Carries(e.route) then s.routeOrder else s.routeOrder + [e.route],
            routeCandidates := s.routeCandidates[e.route := s.CandidatesFor(e.route) + [e.candidate]])
  }

  function RecordedIn(g: Gateway, e: Entry): Gateway {
    if g.id != e.gateway then g
    else g.(sgps := seq(|g.sgps|, j requires 0 <= j < |g.sgps| => Recorded(g.sgps[j], e)))
  }

  function RecordedTable(gs: seq<Gateway>, e: Entry): (r: seq<Gateway>)
    ensures |r| == |gs|
  {
    seq(|gs|, i requires 0 <= i < |gs| => RecordedIn(gs[i], e))
  }

  function ReplayTable(gs: seq<Gateway>, log: seq<Entry>): (r: seq<Gateway>)
    ensures |r| == |gs|
  {
    if log == [] then gs else RecordedTable(ReplayTable(gs, log[..|log| - 1]), log[|log| - 1])
  }

  function Replay(s: Sgp, gateway: string, log: seq<Entry>): Sgp {
    if log == [] then s
    else
      var before := Replay(s, gateway, log[..|log| - 1]);
      if log[|log| - 1].gateway == gateway then Recorded(before, log[|log| - 1]) else before
  }

  lemma {:induction false} ReplayPointwise(gs: seq<Gateway>, log: seq<Entry>, i: nat)
    requires i < |gs|
    ensures var g := ReplayTable(gs, log)[i];
            && g.id == gs[i].id && |g.sgps| == |gs[i].sgps|
            && forall j :: 0 <= j < |g.sgps| ==> g.sgps[j] == Replay(gs[i].sgps[j], gs[i].id, log)
  {
    if log != [] {
      ReplayPointwise(gs, log[..|log| - 1], i);
    }
  }

  lemma {:induction false} ReplaySplits(gs: seq<Gateway>, a: seq<Entry>, b: seq<Entry>)
    ensures ReplayTable(gs, a + b) == ReplayTable(ReplayTable(gs, a), b)
  {
    if b == [] {
      assert a + b == a;
    } else {
      var n := |b| - 1;
      ReplaySplits(gs, a, b[..n]);
      assert (a + b)[..|a| + n] == a + b[..n];
    }
  }

  ghost predicate FreshSgp(s: Sgp) {
    s.routeCandidates == map[] && s.routeOrder == []
  }

  /** The entries of one route. */
  function Matching(log: seq<Entry>, gateway: string, s: Sgp, route: string): seq<Candidate> {
    if log == [] then []
    else
      var n := |log| - 1;
      Matching(log[..n], gateway, s, route)
      + if log[n].gateway == gateway && s.Serves(log[n].candidate.server) && log[n].route == route then [log[n].candidate] else []
  }

  lemma {:induction false} ReplayCollects(s: Sgp, gateway: string, log: seq<Entry>, route: string)
    requires FreshSgp(s)
    ensures var t := Replay(s, gateway, log);
            && t.id == s.id && t.asByID == s.asByID && t.applicationServers == s.applicationServers
            && t.CandidatesFor(route) == Matching(log, gateway, s, route)
            && (route in t.routeOrder <==> t.Carries(route))
  {
    if log != [] {
      var n := |log| - 1;
      ReplayCollects(s, gateway, log[..n], route);
      ReplayCollects(s, gateway, log[..n], log[n].route);
    }
  }

  ghost predicate OneRoute(log: seq<Entry>, route: string) {
    forall k :: 0 <= k < |log| ==> log[k].route == route
  }

  lemma {:induction false} MatchingOne(log: seq<Entry>, gateway: string, s: Sgp, route: string, wanted: string)
    requires OneRoute(log, route)
    ensures Matching(log, gateway, s, wanted) == if wanted == route then Served(log, gateway, s) else []
  {
    if log != [] {
      MatchingOne(log[..|log| - 1], gateway, s, route, wanted);
    }
  }

  lemma {:induction false} MatchingSplits(a: seq<Entry>, b: seq<Entry>, gateway: string, s: Sgp, route: string)
    ensures Matching(a + b, gateway, s, route) == Matching(a, gateway, s, route) + Matching(b, gateway, s, route)
  {
    if b == [] {
      assert a + b == a;
    } else {
      var n := |b| - 1;
      MatchingSplits(a, b[..n], gateway, s, route);
      assert (a + b)[..|a| + n] == a + b[..n];
    }
  }

  lemma {:induction false} FlattenOneRoute(route: string, ids: seq<string>, paths: map<string, Path>)
    ensures OneRoute(Flatten(route, ids, paths), route)
  {
    if ids != [] {
      FlattenOneRoute(route, ids[..|ids| - 1], paths);
    }
  }

  ghost predicate DistinctRoutes(routes: seq<Route>) {
    forall i, j :: 0 <= i < j < |routes| ==> routes[i].id != routes[j].id
  }

  lemma MatchingNothing(gateway: string, s: Sgp, wanted: string)
    ensures Matching([], gateway, s, wanted) == []
  {}

  lemma {:induction false} MatchingAll(routes: seq<Route>, paths: map<string, Path>, gateway: string, s: Sgp, wanted: string)
    requires DistinctRoutes(routes)
    ensures (forall k :: 0 <= k < |routes| ==> routes[k].id != wanted) ==> Matching(AllEntries(routes, paths), gateway, s, wanted) == []
    ensures forall k :: 0 <= k < |routes| && routes[k].id == wanted ==>
              Matching(AllEntries(routes, paths), gateway, s, wanted) == Served(Flatten(wanted, routes[k].paths, paths), gateway, s)
  {
    hide Matching, Served, Flatten, OneRoute;
    if routes == [] {
      MatchingNothing(gateway, s, wanted);
    } else {
      var n := |routes| - 1;
      var block := Flatten(routes[n].id, routes[n].paths, paths);
      MatchingAll(routes[..n], paths, gateway, s, wanted);
      FlattenOneRoute(routes[n].id, routes[n].paths, paths);
      MatchingOne(block, gateway, s, routes[n].id, wanted);
      MatchingSplits(AllEntries(routes[..n], paths), block, gateway, s, wanted);
    }
  }

  /** Recording one route's entries appends it to the order once, if the SGP serves any. */
  lemma {:induction false} BlockOrder(s: Sgp, gateway: string, log: seq<Entry>, block: seq<Entry>, route: string)
    requires FreshSgp(s) && OneRoute(block, route) && route !in Replay(s, gateway, log).routeOrder
    ensures Replay(s, gateway, log + block).routeOrder ==
            Replay(s, gateway, log).routeOrder + if Served(block, gateway, s) != [] then [route] else []
  {
    hide Recorded, Served, Replay, Matching;
    if block == [] {
      assert log + block == log;
      ServedNothing(gateway, s);
    } else {
      var n := |block| - 1;
      var before := log + block[..n];
      BlockOrder(s, gateway, log, block[..n], route);
      assert before + [block[n]] == log + block && block[..n] + [block[n]] == block;
      ReplayNext(s, gateway, before, block[n]);
      ServedNext(block[..n], gateway, s, block[n]);
      ReplayCollects(s, gateway, before, route);
      RecordedOrder(Replay(s, gateway, before), block[n]);
    }
  }

  lemma ServedNothing(gateway: string, s: Sgp)
    ensures Served([], gateway, s) == []
  {}

  lemma ServedNext(log: seq<Entry>, gateway: string, s: Sgp, e: Entry)
    ensures Served(log + [e], gateway, s) ==
            Served(log, gateway, s) + if e.gateway == gateway && s.Serves(e.candidate.server) then [e.candidate] else []
  {
    assert (log + [e])[..|log|] == log;
  }

  lemma ReplayNext(s: Sgp, gateway: string, log: seq<Entry>, e: Entry)
    ensures Replay(s, gateway, log + [e]) ==
            if e.gateway == gateway then Recorded(Replay(s, gateway, log), e) else Replay(s, gateway, log)
  {
    assert (log + [e])[..|log|] == log;
  }

  lemma RecordedOrder(s: Sgp, e: Entry)
    ensures Recorded(s, e).routeOrder ==
            if s.Serves(e.candidate.server) && !s.Carries(e.route) then s.routeOrder + [e.route] else s.routeOrder
  {}

  lemma ReplayNothing(s: Sgp, gateway: string)
    ensures Replay(s, gateway, []) == s
  {}

  lemma {:induction false} OrderIsCarried(routes: seq<Route>, paths: map<string, Path>, gateway: string, s: Sgp)
    requires FreshSgp(s) && DistinctRoutes(routes)
    ensures Replay(s, gateway, AllEntries(routes, paths)).routeOrder == Carried(routes, paths, gateway, s)
  {
    hide Replay, Served, Flatten, Matching, OneRoute;
    if routes == [] {
      ReplayNothing(s, gateway);
    } else {
      var n := |routes| - 1;
      var log := AllEntries(routes[..n], paths);
      OrderIsCarried(routes[..n], paths, gateway, s);
      ReplayCollects(s, gateway, log, routes[n].id);
      MatchingAll(routes[..n], paths, gateway, s, routes[n].id);
      FlattenOneRoute(routes[n].id, routes[n].paths, paths);
      BlockOrder(s, gateway, log, Flatten(routes[n].id, routes[n].paths, paths), routes[n].id);
    }
  }

  /** asp_config.go:856-930. Recording every route's candidates in turn leaves each
      SGP with exactly the order-preserving subsequence of each route's flattened path
      candidates that it serves, nothing for any other route, and its routes in
      configuration order. */
  lemma TableIsExact(gs: seq<Gateway>, routes: seq<Route>, paths: map<string, Path>, i: nat, j: nat)
    requires DistinctRoutes(routes) && i < |gs| && j < |gs[i].sgps| && FreshSgp(gs[i].sgps[j])
    ensures |ReplayTable(gs, AllEntries(routes, paths))[i].sgps| == |gs[i].sgps|
    ensures var s := ReplayTable(gs, AllEntries(routes, paths))[i].sgps[j];
            && (forall k :: 0 <= k < |routes| ==>
                  s.CandidatesFor(routes[k].id) == Served(Flatten(routes[k].id, routes[k].paths, paths), gs[i].id, gs[i].sgps[j]))
            && (forall id: string {:trigger s.CandidatesFor(id)} ::
                  (forall k :: 0 <= k < |routes| ==> routes[k].id != id) ==> s.CandidatesFor(id) == [])
            && s.routeOrder == Carried(routes, paths, gs[i].id, gs[i].sgps[j])
  {
    var log := AllEntries(routes, paths);
    var g, s := gs[i].id, gs[i].sgps[j];
    ReplayPointwise(gs, log, i);
    OrderIsCarried(routes, paths, g, s);
    var t := ReplayTable(gs, log)[i].sgps[j];
    forall id: string
      ensures (forall k :: 0 <= k < |routes| ==> routes[k].id != id) ==> t.CandidatesFor(id) == []
      ensures forall k :: 0 <= k < |routes| && routes[k].id == id ==> t.CandidatesFor(id) == Served(Flatten(id, routes[k].paths, paths), g, s)
    {
      ReplayCollects(s, g, log, id);
      MatchingAll(routes, paths, g, s, id);
    }
  }

  // ---- What the reference is ----

  /** An SGP's list names a candidate exactly when the route does through its gateway and the
      SGP serves it. */
  lemma {:induction false} InServed(log: seq<Entry>, gateway: string, s: Sgp, c: Candidate)
    ensures c in Served(log, gateway, s) <==>
            s.Serves(c.server) && exists k :: 0 <= k < |log| && log[k].gateway == gateway && log[k].candidate == c
  {
    if log != [] {
      var n := |log| - 1;
      InServed(log[..n], gateway, s, c);
      if k :| 0 <= k < |log| && log[k].gateway == gateway && log[k].candidate == c {
        assert k < n ==> log[..n][k] == log[k];
      }
    }
  }

  lemma {:induction false} FlattenGrows(route: string, ids: seq<string>, paths: map<string, Path>, k: nat)
    requires k <= |ids|
    ensures Flatten(route, ids[..k], paths) <= Flatten(route, ids, paths)
  {
    if k == |ids| {
      assert ids[..k] == ids;
    } else {
      FlattenGrows(route, ids[..|ids| - 1], paths, k);
      assert ids[..|ids| - 1][..k] == ids[..k];
    }
  }

  lemma {:induction false} InFlatten(route: string, ids: seq<string>, paths: map<string, Path>, k: nat)
    requires k < |Flatten(route, ids, paths)|
    ensures exists id :: id in ids && id in paths
              && Flatten(route, ids, paths)[k].gateway == paths[id].gateway
              && Flatten(route, ids, paths)[k].candidate.server in paths[id].servers
  {
    var n := |ids| - 1;
    var before := Flatten(route, ids[..n], paths);
    if k < |before| {
      InFlatten(route, ids[..n], paths, k);
    } else {
      assert ids[n] in paths;
      assert Flatten(route, ids, paths)[k] == PathEntries(route, paths[ids[n]])[k - |before|];
    }
  }

  /** An SGP's own lists, against the configuration. */
  ghost predicate ListsExact(s: Sgp, gateway: string, routes: seq<Route>, paths: map<string, Path>) {
    && (forall k :: 0 <= k < |routes| ==>
          s.CandidatesFor(routes[k].id) == Served(Flatten(routes[k].id, routes[k].paths, paths), gateway, s))
    && (forall id: string {:trigger s.CandidatesFor(id)} ::
          (forall k :: 0 <= k < |routes| ==> routes[k].id != id) ==> s.CandidatesFor(id) == [])
    && s.routeOrder == Carried(routes, paths, gateway, s)
  }

  lemma {:induction false} ServedSame(log: seq<Entry>, gateway: string, s: Sgp, t: Sgp)
    requires s.asByID == t.asByID
    ensures Served(log, gateway, s) == Served(log, gateway, t)
  {
    if log != [] { ServedSame(log[..|log| - 1], gateway, s, t); }
  }

  lemma {:induction false} CarriedSame(routes: seq<Route>, paths: map<string, Path>, gateway: string, s: Sgp, t: Sgp)
    requires s.asByID == t.asByID
    ensures Carried(routes, paths, gateway, s) == Carried(routes, paths, gateway, t)
  {
    if routes != [] {
      var n := |routes| - 1;
      CarriedSame(routes[..n], paths, gateway, s, t);
      ServedSame(Flatten(routes[n].id, routes[n].paths, paths), gateway, s, t);
    }
  }

  lemma ReplayedListsExact(gs: seq<Gateway>, routes: seq<Route>, paths: map<string, Path>, i: nat, j: nat)
    requires DistinctRoutes(routes) && i < |gs| && j < |gs[i].sgps| && FreshSgp(gs[i].sgps[j])
    ensures var g := ReplayTable(gs, AllEntries(routes, paths))[i];
            && g.id == gs[i].id && |g.sgps| == |gs[i].sgps|
            && g.sgps[j].id == gs[i].sgps[j].id && g.sgps[j].asByID == gs[i].sgps[j].asByID
            && ListsExact(g.sgps[j], g.id, routes, paths)
  {
    hide Served, Flatten, Carried, ReplayTable, Replay, AllEntries;
    var log := AllEntries(routes, paths);
    var s := gs[i].sgps[j];
    TableIsExact(gs, routes, paths, i, j);
    ReplayPointwise(gs, log, i);
    ReplayCollects(s, gs[i].id, log, "");
    var t := ReplayTable(gs, log)[i].sgps[j];
    CarriedSame(routes, paths, gs[i].id, s, t);
    forall k | 0 <= k < |routes|
      ensures t.CandidatesFor(routes[k].id) == Served(Flatten(routes[k].id, routes[k].paths, paths), gs[i].id, t)
    {
      ServedSame(Flatten(routes[k].id, routes[k].paths, paths), gs[i].id, s, t);
    }
  }
}
