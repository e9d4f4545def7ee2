/** Which Application Servers and Routing Contexts an association is configured to carry:
    the list forms management uses, and the loops that answer the same questions without
    building a list. */
module MembershipScope {
  import opened Common
  import opened Sequences

  datatype Role = RoleASP | RoleSGP | RoleIPSP

  /** What AuthorizeASP resolved at ASP Up. */
  datatype Authorization = Unresolved | Resolved(contexts: seq<uint32>, isExplicit: bool)

  datatype Config = Config(
    role: Role,
    /** IPSP Double Exchange, with one inventory a direction. */
    doubleExchange: bool,
    trafficToPeer: Option<seq<ASKey>>,
    trafficToLocal: Option<seq<ASKey>>,
    servers: seq<ASKey>,
    authorization: Authorization)
  {
    predicate IsDouble() { role == RoleIPSP && doubleExchange }

    predicate LacksPeerDirection() { IsDouble() && trafficToPeer.None? }

    function Inventory(local: bool): seq<ASKey> {
      if !IsDouble() then servers
      else if local then if trafficToLocal.Some? then trafficToLocal.value else []
      else if trafficToPeer.Some? then trafficToPeer.value else []
    }

    predicate ExplicitlyEmpty() {
      authorization.Resolved? && authorization.isExplicit && authorization.contexts == []
    }

    predicate Authorized() { role == RoleSGP && authorization.Resolved? }

    function Static(): seq<uint32> {
      if Authorized() then authorization.contexts else Contexts(Inventory(false))
    }

    predicate HasContextless() {
      !ExplicitlyEmpty() && !LacksPeerDirection() && Static() == []
    }
  }

  type Registry = map<uint32, ASKey>

  // ---- The list forms ----

  /** The Routing Contexts the entries declare, in order. */
  function Contexts(servers: seq<ASKey>): seq<uint32> {
    if servers == [] then []
    else
      var n := |servers| - 1;
      Contexts(servers[..n]) + if servers[n].routingContextSet then [servers[n].routingContext] else []
  }

  lemma NoneDeclared(servers: seq<ASKey>)
    ensures Contexts(servers[..0]) == []
  {}

  lemma ContextsNext(servers: seq<ASKey>, i: nat, rc: uint32)
    requires i < |servers|
    ensures rc in Contexts(servers[..i + 1]) <==>
            rc in Contexts(servers[..i]) || (servers[i].routingContextSet && rc == servers[i].routingContext)
  {
    assert servers[..i + 1][..i] == servers[..i];
  }

  /** The first entry that declares the Routing Context. */
  function Declared(servers: seq<ASKey>, rc: uint32): (r: Option<ASKey>)
    ensures r.Some? ==> r.value.routingContextSet && r.value.routingContext == rc
  {
    if servers == [] then None
    else if servers[0].routingContextSet && servers[0].routingContext == rc then Some(servers[0])
    else Declared(servers[1..], rc)
  }

  function FirstContextless(servers: seq<ASKey>): (r: Option<ASKey>)
    ensures r.Some? ==> !r.value.routingContextSet
  {
    if servers == [] then None
    else if !servers[0].routingContextSet then Some(servers[0])
    else FirstContextless(servers[1..])
  }

  predicate SameAppearance(a: ASKey, b: ASKey) {
    a.networkAppearanceSet == b.networkAppearanceSet && (a.networkAppearanceSet ==> a.networkAppearance == b.networkAppearance)
  }

  /** The Network Appearance every entry shares, or none. */
  function SharedAppearance(servers: seq<ASKey>): (uint32, bool) {
    if servers != [] && forall key :: key in servers ==> SameAppearance(servers[0], key)
    then (servers[0].networkAppearance, servers[0].networkAppearanceSet)
    else (0, false)
  }

  function ContextlessKey(c: Config, local: bool): (r: ASKey)
    ensures !r.routingContextSet
  {
    var servers := c.Inventory(local);
    if servers == [] then ASKey(0, false, 0, false)
    else if FirstContextless(servers).Some? then FirstContextless(servers).value
    else var shared := SharedAppearance(servers); ASKey(shared.0, shared.1, 0, false)
  }

  function StaticKey(c: Config, rc: uint32, local: bool): (r: ASKey)
    ensures r.routingContextSet && r.routingContext == rc
  {
    var servers := c.Inventory(local);
    if Declared(servers, rc).Some? then Declared(servers, rc).value
    else var shared := SharedAppearance(servers); ASKey(shared.0, shared.1, rc, true)
  }

  function KeyFor(c: Config, dynamic: Registry, rc: uint32): ASKey {
    if rc in dynamic then dynamic[rc] else StaticKey(c, rc, false)
  }

  function KeysFor(c: Config, dynamic: Registry, contexts: seq<uint32>): seq<ASKey> {
    if contexts == [] then [ContextlessKey(c, false)]
    else Dedup(seq(|contexts|, i requires 0 <= i < |contexts| => KeyFor(c, dynamic, contexts[i])))
  }

  ghost predicate Enumerates(order: seq<uint32>, dynamic: Registry) {
    forall rc: uint32 :: rc in order <==> rc in dynamic
  }

  /** configuredRoutingContexts and configuredLocalRoutingContexts. */
  function ConfiguredContexts(c: Config, order: seq<uint32>): seq<uint32> {
    Dedup(c.Static() + order)
  }

  function LocalContexts(c: Config, order: seq<uint32>): seq<uint32> {
    if c.IsDouble() then Dedup(Contexts(c.Inventory(true)) + order) else ConfiguredContexts(c, order)
  }

  /** configuredASKeys, for the registered Routing Contexts in the given order. */
  function ConfiguredKeys(c: Config, dynamic: Registry, order: seq<uint32>): seq<ASKey> {
    if (c.ExplicitlyEmpty() && order == []) || c.LacksPeerDirection() then []
    else
      var contexts := ConfiguredContexts(c, order);
      var keys := KeysFor(c, dynamic, contexts);
      Dedup(if contexts != [] && c.HasContextless() then [ContextlessKey(c, false)] + keys else keys)
  }

  lemma InKeysFor(c: Config, dynamic: Registry, contexts: seq<uint32>, key: ASKey)
    requires contexts != []
    ensures key in KeysFor(c, dynamic, contexts) <==> exists rc: uint32 :: rc in contexts && KeyFor(c, dynamic, rc) == key
  {
    var keys := seq(|contexts|, i requires 0 <= i < |contexts| => KeyFor(c, dynamic, contexts[i]));
    if key in keys {
      var i :| 0 <= i < |keys| && keys[i] == key;
      assert contexts[i] in contexts;
    }
    if rc: uint32 :| rc in contexts && KeyFor(c, dynamic, rc) == key {
      var i :| 0 <= i < |contexts| && contexts[i] == rc;
      assert keys[i] == key;
    }
  }

  lemma NoContexts(c: Config, order: seq<uint32>)
    requires ConfiguredContexts(c, order) == []
    ensures c.Static() == [] && order == []
  {
    assert c.Static() + order == [];
  }

  /** What membership in the list comes to, whatever order the registry is walked in. */
  ghost predicate Carries(c: Config, dynamic: Registry, key: ASKey) {
    && !c.LacksPeerDirection()
    && !(c.ExplicitlyEmpty() && dynamic.Keys == {})
    && (|| (exists rc: uint32 :: rc in dynamic && dynamic[rc] == key)
        || StaticallyCarries(c, dynamic, key)
        || (c.HasContextless() && key == ContextlessKey(c, false)))
  }

  predicate StaticallyCarries(c: Config, dynamic: Registry, key: ASKey) {
    key.routingContextSet && key.routingContext in c.Static() && key.routingContext !in dynamic && StaticKey(c, key.routingContext, false) == key
  }

  lemma InContextKeys(c: Config, dynamic: Registry, order: seq<uint32>, key: ASKey)
    requires Enumerates(order, dynamic) && ConfiguredContexts(c, order) != []
    ensures key in KeysFor(c, dynamic, ConfiguredContexts(c, order)) <==>
            (exists rc: uint32 :: rc in dynamic && dynamic[rc] == key) || StaticallyCarries(c, dynamic, key)
  {
    hide Contexts, ContextlessKey, Config.Static, KeysFor;
    var contexts := ConfiguredContexts(c, order);
    InKeysFor(c, dynamic, contexts, key);
    assert forall rc: uint32 :: rc in contexts <==> rc in c.Static() || rc in dynamic;
    if rc: uint32 :| rc in contexts && KeyFor(c, dynamic, rc) == key { assert rc in dynamic || StaticallyCarries(c, dynamic, key); }
    if rc: uint32 :| rc in dynamic && dynamic[rc] == key { assert rc in contexts && KeyFor(c, dynamic, rc) == key; }
    if StaticallyCarries(c, dynamic, key) {
      assert key.routingContext in contexts && KeyFor(c, dynamic, key.routingContext) == key;
    }
  }

  lemma EmptyRegistry(dynamic: Registry, order: seq<uint32>)
    requires Enumerates(order, dynamic)
    ensures order == [] <==> dynamic.Keys == {}
  {
    if dynamic.Keys != {} {
      var rc: uint32 :| rc in dynamic;
      assert rc in order;
    }
    if order != [] { assert order[0] in dynamic; }
  }

  lemma InConfiguredKeys(c: Config, dynamic: Registry, order: seq<uint32>, key: ASKey)
    requires Enumerates(order, dynamic)
    ensures key in ConfiguredKeys(c, dynamic, order) <==> Carries(c, dynamic, key)
  {
    hide Contexts, ContextlessKey, Config.Static, StaticKey;
    if ConfiguredContexts(c, order) != [] {
      InContextKeys(c, dynamic, order, key);
    } else {
      NoContexts(c, order);
    }
    EmptyRegistry(dynamic, order);
  }

  // ---- The loops ----

  method AppendRoutingContexts(configured: seq<uint32>, dynamic: seq<uint32>) returns (combined: seq<uint32>)
    ensures combined == Dedup(configured + dynamic)
  {
    hide Dedup;
    combined := [];
    DedupNothing();
    var i := 0;
    while i < |configured|
      invariant i <= |configured| && combined == Dedup(configured[..i])
    {
      assert configured[..i + 1] == configured[..i] + [configured[i]];
      DedupNext(configured[..i], configured[i]);
      if configured[i] !in combined { combined := combined + [configured[i]]; }
      i := i + 1;
    }
    assert configured + dynamic[..0] == configured[..i];
    i := 0;
    while i < |dynamic|
      invariant i <= |dynamic| && combined == Dedup(configured + dynamic[..i])
    {
      assert configured + dynamic[..i + 1] == configured + dynamic[..i] + [dynamic[i]];
      DedupNext(configured + dynamic[..i], dynamic[i]);
      if dynamic[i] !in combined { combined := combined + [dynamic[i]]; }
      i := i + 1;
    }
    assert dynamic[..i] == dynamic;
  }

  lemma DedupNothing()
    ensures Dedup<uint32>([]) == []
  {}

  method AsConfigRoutingContexts(servers: seq<ASKey>) returns (contexts: seq<uint32>)
    ensures contexts == Contexts(servers)
  {
    contexts := [];
    var i := 0;
    while i < |servers|
      invariant i <= |servers| && contexts == Contexts(servers[..i])
    {
      assert servers[..i + 1][..i] == servers[..i];
      if servers[i].routingContextSet { contexts := contexts + [servers[i].routingContext]; }
      i := i + 1;
    }
    assert servers[..i] == servers;
  }

  method AsConfigASKeyFor(servers: seq<ASKey>, rc: uint32) returns (key: Option<ASKey>)
    ensures key == Declared(servers, rc)
  {
    var i := 0;
    while i < |servers|
      invariant i <= |servers| && Declared(servers, rc) == Declared(servers[i..], rc)
    {
      if servers[i].routingContextSet && servers[i].routingContext == rc { return Some(servers[i]); }
      i := i + 1;
    }
    return None;
  }

  method AsConfigContextlessASKey(servers: seq<ASKey>) returns (key: Option<ASKey>)
    ensures key == if servers == [] then Some(ASKey(0, false, 0, false)) else FirstContextless(servers)
  {
    if servers == [] { return Some(ASKey(0, false, 0, false)); }
    var i := 0;
    while i < |servers|
      invariant i <= |servers| && FirstContextless(servers) == FirstContextless(servers[i..])
    {
      if !servers[i].routingContextSet { return Some(servers[i]); }
      i := i + 1;
    }
    return None;
  }

  method AsConfigNetworkAppearance(servers: seq<ASKey>) returns (appearance: uint32, isSet: bool)
    ensures (appearance, isSet) == SharedAppearance(servers)
  {
    appearance, isSet := 0, false;
    var resolved, i := false, 0;
    while i < |servers|
      invariant i <= |servers| && (resolved <==> i > 0)
      invariant resolved ==> (appearance, isSet) == (servers[0].networkAppearance, servers[0].networkAppearanceSet)
      invariant !resolved ==> (appearance, isSet) == (0, false)
      invariant forall key :: key in servers[..i] ==> SameAppearance(servers[0], key)
    {
      if !resolved {
        appearance, isSet, resolved := servers[i].networkAppearance, servers[i].networkAppearanceSet, true;
      } else if servers[i].networkAppearanceSet != isSet || (isSet && servers[i].networkAppearance != appearance) {
        assert servers[i] in servers && !SameAppearance(servers[0], servers[i]);
        return 0, false;
      }
      assert servers[..i + 1] == servers[..i] + [servers[i]];
      i := i + 1;
    }
    assert servers[..i] == servers;
  }

  method ContextlessASKey(c: Config, local: bool) returns (key: ASKey)
    ensures key == ContextlessKey(c, local)
  {
    var declared := AsConfigContextlessASKey(c.Inventory(local));
    if declared.Some? { return declared.value; }
    var appearance, isSet := AsConfigNetworkAppearance(c.Inventory(local));
    return ASKey(appearance, isSet, 0, false);
  }

  method StaticASKeyForRoutingContext(c: Config, rc: uint32, local: bool) returns (key: ASKey)
    ensures key == StaticKey(c, rc, local)
  {
    var declared := AsConfigASKeyFor(c.Inventory(local), rc);
    if declared.Some? { return declared.value; }
    var appearance, isSet := AsConfigNetworkAppearance(c.Inventory(local));
    return ASKey(appearance, isSet, rc, true);
  }

  method AsKeysForRoutingContexts(c: Config, dynamic: Registry, contexts: seq<uint32>) returns (keys: seq<ASKey>)
    ensures keys == KeysFor(c, dynamic, contexts)
  {
    if contexts == [] {
      var key := ContextlessASKey(c, false);
      return [key];
    }
    keys := [];
    ghost var all := seq(|contexts|, i requires 0 <= i < |contexts| => KeyFor(c, dynamic, contexts[i]));
    var i := 0;
    while i < |contexts|
      invariant i <= |contexts| && keys == Dedup(all[..i])
    {
      var key: ASKey;
      if contexts[i] in dynamic { key := dynamic[contexts[i]]; } else { key := StaticASKeyForRoutingContext(c, contexts[i], false); }
      assert all[..i + 1][..i] == all[..i] && all[..i + 1][i] == key;
      if key !in keys { keys := keys + [key]; }
      i := i + 1;
    }
    assert all[..i] == all;
  }

  method UniqueASKeys(keys: seq<ASKey>) returns (unique: seq<ASKey>)
    ensures unique == Dedup(keys)
  {
    unique := [];
    var i := 0;
    while i < |keys|
      invariant i <= |keys| && unique == Dedup(keys[..i])
    {
      assert keys[..i + 1][..i] == keys[..i];
      if keys[i] !in unique { unique := unique + [keys[i]]; }
      i := i + 1;
    }
    assert keys[..i] == keys;
  }

  ghost predicate Ascending(order: seq<uint32>) {
    forall i, j :: 0 <= i < j < |order| ==> order[i] < order[j]
  }

  ghost predicate Smallest(rest: set<uint32>, rc: uint32) {
    rc in rest && forall other :: other in rest ==> rc <= other
  }

  lemma {:induction false} SmallestExists(rest: set<uint32>)
    requires rest != {}
    ensures exists rc :: Smallest(rest, rc)
  {
    var x :| x in rest;
    if rest == {x} {
      assert Smallest(rest, x);
    } else {
      SmallestExists(rest - {x});
      var y :| Smallest(rest - {x}, y);
      assert forall other :: other in rest ==> other == x || other in rest - {x};
      assert Smallest(rest, if x < y then x else y);
    }
  }

  method TakeSmallest(rest: set<uint32>) returns (smallest: uint32)
    requires rest != {}
    ensures Smallest(rest, smallest)
  {
    SmallestExists(rest);
    smallest :| smallest in rest && forall other :: other in rest ==> smallest <= other;
  }

  method DynamicRoutingContexts(dynamic: Registry) returns (order: seq<uint32>)
    ensures Enumerates(order, dynamic) && Ascending(order)
  {
    order := [];
    var rest := dynamic.Keys;
    while rest != {}
      invariant rest <= dynamic.Keys && Ascending(order)
      invariant forall rc: uint32 :: rc in order <==> rc in dynamic && rc !in rest
      invariant forall i, rc :: 0 <= i < |order| && rc in rest ==> order[i] < rc
    {
      var rc := TakeSmallest(rest);
      order, rest := order + [rc], rest - {rc};
    }
  }

  method ConfiguredRoutingContexts(c: Config, dynamic: Registry) returns (contexts: seq<uint32>, ghost order: seq<uint32>)
    ensures Enumerates(order, dynamic) && Ascending(order)
    ensures contexts == ConfiguredContexts(c, order)
  {
    var registered := DynamicRoutingContexts(dynamic);
    order := registered;
    var declared;
    if c.Authorized() { declared := c.authorization.contexts; } else { declared := AsConfigRoutingContexts(c.Inventory(false)); }
    contexts := AppendRoutingContexts(declared, registered);
  }

  /** association.go:2004-2022. The list form, walking the registry in ascending order. */
  method ConfiguredASKeys(c: Config, dynamic: Registry) returns (keys: seq<ASKey>, ghost order: seq<uint32>)
    ensures Enumerates(order, dynamic) && Ascending(order)
    ensures keys == ConfiguredKeys(c, dynamic, order)
  {
    var contexts;
    contexts, order := ConfiguredRoutingContexts(c, dynamic);
    EmptyRegistry(dynamic, order);
    if (c.ExplicitlyEmpty() && dynamic.Keys == {}) || c.LacksPeerDirection() { return [], order; }
    keys := AsKeysForRoutingContexts(c, dynamic, contexts);
    if |contexts| > 0 && c.HasContextless() {
      var contextless := ContextlessASKey(c, false);
      keys := [contextless] + keys;
    }
    keys := UniqueASKeys(keys);
  }

  /** association.go:2074-2101. Without building a list: whether the authorization is
      explicitly empty, how many static Routing Contexts there are, and whether the key's is
      one of them. */
  method StaticRoutingContextMembership(c: Config, key: ASKey) returns (explicitlyEmpty: bool, count: nat, carries: bool)
    ensures explicitlyEmpty == c.ExplicitlyEmpty()
    ensures count == |c.Static()|
    ensures carries <==> key.routingContextSet && key.routingContext in c.Static()
  {
    explicitlyEmpty, carries := c.ExplicitlyEmpty(), false;
    if c.role == RoleSGP && c.authorization.Resolved? {
      count := |c.authorization.contexts|;
      if key.routingContextSet {
        var i := 0;
        while i < |c.authorization.contexts|
          invariant i <= |c.authorization.contexts| && !carries
          invariant key.routingContext !in c.authorization.contexts[..i]
        {
          if c.authorization.contexts[i] == key.routingContext { carries := true; break; }
          i := i + 1;
        }
      }
      return;
    }
    count := 0;
    var servers := c.Inventory(false);
    var i := 0;
    while i < |servers|
      invariant i <= |servers| && count == |Contexts(servers[..i])|
      invariant carries <==> key.routingContextSet && key.routingContext in Contexts(servers[..i])
    {
      assert servers[..i + 1][..i] == servers[..i];
      if servers[i].routingContextSet {
        count := count + 1;
        if key.routingContextSet && servers[i].routingContext == key.routingContext { carries := true; }
      }
      i := i + 1;
    }
    assert servers[..i] == servers;
  }

  /** association.go:2034-2067. The allocation-free form answers exactly what the list form
      holds, for every configuration, authorization and registry. */
  method ConfiguredASKeysContain(c: Config, dynamic: Registry, key: ASKey) returns (contained: bool)
    ensures forall order: seq<uint32> :: Enumerates(order, dynamic) ==> (contained <==> key in ConfiguredKeys(c, dynamic, order))
  {
    hide Contexts, ContextlessKey, StaticKey, ConfiguredKeys, Config.Static;
    forall order: seq<uint32> | Enumerates(order, dynamic) ensures key in ConfiguredKeys(c, dynamic, order) <==> Carries(c, dynamic, key) {
      InConfiguredKeys(c, dynamic, order, key);
    }
    if c.LacksPeerDirection() { return false; }
    var dynamicMatch, rest := false, dynamic.Keys;
    while rest != {}
      invariant rest <= dynamic.Keys && !dynamicMatch
      invariant forall rc: uint32 :: rc in dynamic && rc !in rest ==> dynamic[rc] != key
    {
      var rc :| rc in rest;
      if dynamic[rc] == key { dynamicMatch := true; break; }
      rest := rest - {rc};
    }
    var staticOverridden := key.routingContextSet && key.routingContext in dynamic;
    if dynamicMatch { return true; }
    var explicitlyEmpty, count, carries := StaticRoutingContextMembership(c, key);
    if explicitlyEmpty && |dynamic| == 0 { return false; }
    if carries && !staticOverridden {
      var configured := StaticASKeyForRoutingContext(c, key.routingContext, false);
      if configured == key { return true; }
    }
    if count != 0 || explicitlyEmpty { return false; }
    var contextless := ContextlessASKey(c, false);
    return key == contextless;
  }

  // ---- DATA's scope ----

  /** What the scan has seen: none, one, or at least two distinct values. */
  ghost predicate Summarizes(seen: set<uint32>, count: nat, single: uint32) {
    && count == (if |seen| < 2 then |seen| else 2)
    && (seen != {} ==> single in seen)
  }

  lemma EmptySummary()
    ensures Summarizes({}, 0, 0)
  {}

  lemma SummaryGrows(seen: set<uint32>, value: uint32, count: nat, single: uint32)
    requires Summarizes(seen, count, single)
    ensures Summarizes(seen + {value}, if count == 0 then 1 else if value != single then 2 else count, if count == 0 then value else single)
  {
    if count == 0 {
      assert seen == {};
      assert seen + {value} == {value};
    } else if value == single {
      assert seen + {value} == seen;
    } else {
      assert {value, single} <= seen + {value};
      SubsetCards({value, single}, seen + {value});
    }
  }

  lemma {:induction false} SubsetCards(a: set<uint32>, b: set<uint32>)
    requires a <= b
    ensures |a| <= |b|
  {
    if a != {} {
      var x :| x in a;
      SubsetCards(a - {x}, b - {x});
    }
  }

  lemma {:induction false} DistinctCount(s: seq<uint32>, elements: set<uint32>)
    requires Distinct(s)
    requires forall x: uint32 :: x in s <==> x in elements
    ensures |elements| == |s|
  {
    if s == [] {
      assert elements == {};
    } else {
      var n := |s| - 1;
      assert s == s[..n] + [s[n]];
      DistinctCount(s[..n], elements - {s[n]});
    }
  }

  method Include(value: uint32, rc: uint32, ghost seen: set<uint32>, count0: nat, single0: uint32, carries0: bool)
    returns (count: nat, single: uint32, carries: bool)
    requires Summarizes(seen, count0, single0) && (carries0 <==> rc in seen)
    ensures Summarizes(seen + {value}, count, single) && (carries <==> rc in seen + {value})
  {
    SummaryGrows(seen, value, count0, single0);
    count, single, carries := count0, single0, carries0 || value == rc;
    if count == 0 { single, count := value, 1; } else if value != single { count := 2; }
  }

  ghost predicate ScopeOf(contexts: seq<uint32>, rc: uint32, count: nat, single: uint32, carries: bool) {
    && count == (if |contexts| < 2 then |contexts| else 2)
    && (|contexts| == 1 ==> single == contexts[0])
    && (carries <==> rc in contexts)
  }

  /** What the direction DATA travels in is configured with, before registration. */
  function DataContexts(c: Config): seq<uint32> {
    if c.Authorized() then c.authorization.contexts else Contexts(c.Inventory(c.IsDouble()))
  }

  lemma ScopeOfList(c: Config, dynamic: Registry, order: seq<uint32>, seen: set<uint32>, rc: uint32, count: nat, single: uint32, carries: bool)
    requires Enumerates(order, dynamic) && Summarizes(seen, count, single) && (carries <==> rc in seen)
    requires forall x: uint32 :: x in seen <==> x in DataContexts(c) || x in dynamic
    ensures ScopeOf(LocalContexts(c, order), rc, count, single, carries)
  {
    hide Contexts;
    var contexts := LocalContexts(c, order);
    assert contexts == Dedup(DataContexts(c) + order);
    assert forall x: uint32 :: x in contexts <==> x in seen;
    DistinctCount(contexts, seen);
    if |contexts| == 1 { assert contexts[0] in seen && single in contexts; }
  }

  /** association.go:1907-1957. The allocation-free scope of outbound DATA is the list's:
      its length capped at two, its element when it has one, and membership. `dynamic` is
      the registry of the direction DATA travels in. */
  method DataRoutingContextScope(c: Config, dynamic: Registry, rc: uint32) returns (count: nat, single: uint32, carries: bool)
    ensures forall order: seq<uint32> :: Enumerates(order, dynamic) ==> ScopeOf(LocalContexts(c, order), rc, count, single, carries)
  {
    hide Dedup, Contexts, LocalContexts, Summarizes, ScopeOf, Config.Static;
    count, single, carries := 0, 0, false;
    ghost var seen: set<uint32> := {};
    assert Summarizes(seen, count, single) by { EmptySummary(); }
    var local := c.IsDouble();
    ghost var configured := DataContexts(c);
    var i := 0;
    if c.Authorized() {
      while i < |c.authorization.contexts|
        invariant i <= |c.authorization.contexts|
        invariant Summarizes(seen, count, single) && (carries <==> rc in seen)
        invariant forall x: uint32 :: x in seen <==> x in configured[..i]
      {
        count, single, carries := Include(c.authorization.contexts[i], rc, seen, count, single, carries);
        seen := seen + {c.authorization.contexts[i]};
        i := i + 1;
      }
      assert configured[..i] == configured;
    } else {
      var servers := c.Inventory(local);
      assert forall x: uint32 :: x !in Contexts(servers[..0]) by { NoneDeclared(servers); }
      while i < |servers|
        invariant i <= |servers|
        invariant Summarizes(seen, count, single) && (carries <==> rc in seen)
        invariant forall x: uint32 :: x in seen <==> x in Contexts(servers[..i])
      {
        forall x: uint32 ensures x in Contexts(servers[..i + 1]) <==>
                              x in Contexts(servers[..i]) || (servers[i].routingContextSet && x == servers[i].routingContext) {
          ContextsNext(servers, i, x);
        }
        if servers[i].routingContextSet {
          count, single, carries := Include(servers[i].routingContext, rc, seen, count, single, carries);
          seen := seen + {servers[i].routingContext};
        }
        i := i + 1;
      }
      assert servers[..i] == servers;
    }
    var rest := dynamic.Keys;
    while rest != {}
      invariant rest <= dynamic.Keys
      invariant Summarizes(seen, count, single) && (carries <==> rc in seen)
      invariant forall x: uint32 :: x in seen <==> x in configured || (x in dynamic && x !in rest)
    {
      var value :| value in rest;
      count, single, carries := Include(value, rc, seen, count, single, carries);
      seen, rest := seen + {value}, rest - {value};
    }
    forall order: seq<uint32> | Enumerates(order, dynamic) ensures ScopeOf(LocalContexts(c, order), rc, count, single, carries) {
      ScopeOfList(c, dynamic, order, seen, rc, count, single, carries);
    }
  }
}
