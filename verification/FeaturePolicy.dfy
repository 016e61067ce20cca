/** Instance, organisation and form policy combined per feature, and the honesty check of a
    composition: what it declares against the provenance of the adapters it wires.

    The feature keys and the ports behind each are parameters, not the fixed taxonomy. */
module FeaturePolicy {
  import opened Common

  type Key = string
  type Port = string

  const MULTI_PARTY: Key := "multiParty"

  datatype Availability = Available | DemoStub | Unavailable
  datatype Mode = Demo | Production

  /** An adapter's provenance markers. */
  datatype Adapter = Adapter(unavailable: bool, demoStub: bool)

  datatype Composition = Composition(
    mode: Mode, capabilities: map<Key, Availability>, adapters: map<Port, Adapter>)

  /** The feature keys in order, and the ports that back each. */
  datatype Taxonomy = Taxonomy(keys: seq<Key>, ports: map<Key, seq<Port>>)

  predicate Covers(t: Taxonomy, c: Composition) {
    forall k :: k in t.keys ==> k in t.ports && k in c.capabilities
  }

  // ---------------------------------------------------------------- Coherence

  datatype Kind =
    | SentinelWithoutUnavailableDeclaration
    | UnavailableDeclarationWithoutSentinel
    | DemoStubInProduction
    | DemoStubWithoutDeclaration
    | DemoStubDeclarationWithoutStub
    | FeatureWithoutPortBinding

  datatype Incoherence = Incoherence(key: Key, kind: Kind)

  function Times(ports: seq<Port>, port: Port, key: Key): seq<Key> {
    if ports == [] then [] else
    Times(ports[..|ports| - 1], port, key) + (if ports[|ports| - 1] == port then [key] else [])
  }

  ghost predicate PortsKnown(t: Taxonomy) {
    forall k :: k in t.keys ==> k in t.ports
  }

  /** The keys on a port, in order, once for each time they name it. */
  function KeysOn(t: Taxonomy, n: nat, port: Port): seq<Key>
    requires n <= |t.keys| && PortsKnown(t)
  {
    if n == 0 then [] else KeysOn(t, n - 1, port) + Times(t.ports[t.keys[n - 1]], port, t.keys[n - 1])
  }

  function Lookup(m: map<Port, seq<Key>>, port: Port): seq<Key> {
    if port in m then m[port] else []
  }

  predicate Live(c: Composition, keys: seq<Key>) {
    exists k :: k in keys && k in c.capabilities && c.capabilities[k] != Unavailable
  }

  /** An unavailable declaration on a shared slot that a sibling keeps live is not checked. */
  predicate Exempt(c: Composition, key: Key, slotKeys: seq<Key>)
    requires key in c.capabilities
  {
    |slotKeys| > 1 && c.capabilities[key] == Unavailable && Live(c, slotKeys)
  }

  predicate Agrees(c: Composition, key: Key, a: Adapter)
    requires key in c.capabilities
  {
    && (a.unavailable <==> c.capabilities[key] == Unavailable)
    && (a.demoStub <==> c.capabilities[key] == DemoStub)
    && (a.demoStub ==> c.mode == Demo)
  }

  ghost predicate KeyCoherent(t: Taxonomy, c: Composition, key: Key)
    requires Covers(t, c) && key in t.keys
  {
    var declared, ports := c.capabilities[key], t.ports[key];
    (key == MULTI_PARTY && declared == Unavailable)
    || (ports == [] && declared == Unavailable)
    || (ports != [] && forall p :: p in ports ==>
          p in c.adapters && (Exempt(c, key, KeysOn(t, |t.keys|, p)) || Agrees(c, key, c.adapters[p])))
  }

  ghost predicate Coherent(t: Taxonomy, c: Composition)
    requires Covers(t, c)
  {
    forall key :: key in t.keys ==> KeyCoherent(t, c, key)
  }

  ghost predicate Grouped(t: Taxonomy, n: nat, groups: map<Port, seq<Key>>)
    requires n <= |t.keys| && PortsKnown(t)
  {
    forall p :: Lookup(groups, p) == KeysOn(t, n, p)
  }

  lemma GroupedNext(t: Taxonomy, n: nat, groups: map<Port, seq<Key>>, more: map<Port, seq<Key>>)
    requires n < |t.keys| && PortsKnown(t) && Grouped(t, n, groups)
    requires t.keys[n] in t.keys
    requires Added(groups, more, t.ports[t.keys[n]], t.keys[n])
    ensures Grouped(t, n + 1, more)
  {
    forall p
      ensures Lookup(more, p) == KeysOn(t, n + 1, p)
    {
      assert Lookup(groups, p) == KeysOn(t, n, p);
    }
  }

  /** Group the keys by port, one pass over keys and their ports. */
  method GroupByPort(t: Taxonomy) returns (portToKeys: map<Port, seq<Key>>)
    requires PortsKnown(t)
    ensures Grouped(t, |t.keys|, portToKeys)
  {
    portToKeys := map[];
    for n := 0 to |t.keys|
      invariant Grouped(t, n, portToKeys)
    {
      var key := t.keys[n];
      assert key in t.keys;
      var more := AddToPorts(portToKeys, t.ports[key], key);
      GroupedNext(t, n, portToKeys, more);
      portToKeys := more;
    }
  }

  lemma TimesSnoc(ports: seq<Port>, port: Port, p: Port, key: Key)
    ensures Times(ports + [port], p, key) == Times(ports, p, key) + if port == p then [key] else []
  {
    assert (ports + [port])[..|ports|] == ports;
  }

  ghost predicate Added(groups: map<Port, seq<Key>>, more: map<Port, seq<Key>>, ports: seq<Port>, key: Key) {
    forall p :: Lookup(more, p) == Lookup(groups, p) + Times(ports, p, key)
  }

  lemma AppendedAt(groups: map<Port, seq<Key>>, port: Port, key: Key, p: Port)
    ensures Lookup(groups[port := Lookup(groups, port) + [key]], p)
            == Lookup(groups, p) + if port == p then [key] else []
  {
  }

  lemma AddedNext(groups: map<Port, seq<Key>>, more: map<Port, seq<Key>>, ports: seq<Port>, port: Port, key: Key)
    requires Added(groups, more, ports, key)
    ensures Added(groups, more[port := Lookup(more, port) + [key]], ports + [port], key)
  {
    var next := more[port := Lookup(more, port) + [key]];
    forall p
      ensures Lookup(next, p) == Lookup(groups, p) + Times(ports + [port], p, key)
    {
      TimesSnoc(ports, port, p, key);
      AppendedAt(more, port, key, p);
      Associative(Lookup(groups, p), Times(ports, p, key), if port == p then [key] else []);
    }
  }

  method AddToPorts(groups: map<Port, seq<Key>>, ports: seq<Port>, key: Key) returns (more: map<Port, seq<Key>>)
    ensures Added(groups, more, ports, key)
  {
    more := groups;
    for i := 0 to |ports|
      invariant Added(groups, more, ports[..i], key)
    {
      assert ports[..i + 1] == ports[..i] + [ports[i]];
      AddedNext(groups, more, ports[..i], ports[i], key);
      more := more[ports[i] := Lookup(more, ports[i]) + [key]];
    }
    assert ports[..|ports|] == ports;
  }

  /** `assertCompositionCoherence`: each key's declaration against each of its ports. */
  method AssertCompositionCoherence(t: Taxonomy, c: Composition) returns (r: Result<(), Incoherence>)
    requires Covers(t, c)
    ensures r.Ok? <==> Coherent(t, c)
    ensures r.Err? ==> r.error.key in t.keys && !KeyCoherent(t, c, r.error.key)
  {
    var portToKeys := GroupByPort(t);
    for n := 0 to |t.keys|
      invariant forall i :: 0 <= i < n ==> KeyCoherent(t, c, t.keys[i])
    {
      var key := t.keys[n];
      assert key in t.keys;
      var declared, ports := c.capabilities[key], t.ports[key];
      if key == MULTI_PARTY && declared == Unavailable {
        continue;
      }
      if |ports| == 0 {
        if declared != Unavailable {
          return Err(Incoherence(key, FeatureWithoutPortBinding));
        }
        continue;
      }
      for i := 0 to |ports|
        invariant forall j :: 0 <= j < i ==>
          ports[j] in c.adapters
          && (Exempt(c, key, KeysOn(t, |t.keys|, ports[j])) || Agrees(c, key, c.adapters[ports[j]]))
      {
        var kind := CheckPort(c, key, declared, ports[i], Lookup(portToKeys, ports[i]));
        if kind.Some? {
          assert ports[i] in ports;
          return Err(Incoherence(key, kind.value));
        }
      }
    }
    r := Ok(());
  }

  /** One key against one port, with the source's checks in their order. Its last check, an
      available declaration over a marked adapter, can never fire: the earlier ones catch it. */
  method CheckPort(c: Composition, key: Key, declared: Availability, port: Port, slotKeys: seq<Key>)
      returns (kind: Option<Kind>)
    requires key in c.capabilities && declared == c.capabilities[key]
    ensures kind.None? <==> port in c.adapters && (Exempt(c, key, slotKeys) || Agrees(c, key, c.adapters[port]))
    ensures kind == Some(SentinelWithoutUnavailableDeclaration) ==>
              port in c.adapters && c.adapters[port].unavailable && declared != Unavailable
    ensures kind == Some(DemoStubInProduction) ==>
              port in c.adapters && c.adapters[port].demoStub && c.mode == Production
  {
    if port !in c.adapters {
      return Some(FeatureWithoutPortBinding);
    }
    var adapter := c.adapters[port];
    if |slotKeys| > 1 && declared == Unavailable && Live(c, slotKeys) {
      return None;
    }
    if adapter.unavailable && declared != Unavailable {
      return Some(SentinelWithoutUnavailableDeclaration);
    }
    if declared == Unavailable && !adapter.unavailable {
      return Some(UnavailableDeclarationWithoutSentinel);
    }
    if adapter.demoStub && c.mode == Production {
      return Some(DemoStubInProduction);
    }
    if adapter.demoStub && declared != DemoStub {
      return Some(DemoStubWithoutDeclaration);
    }
    if declared == DemoStub && !adapter.demoStub {
      return Some(DemoStubDeclarationWithoutStub);
    }
    if declared == Available && (adapter.unavailable || adapter.demoStub) {
      assert false;
    }
    return None;
  }

  // ---------------------------------------------------------------- Resolution

  datatype OrgMode = OrgForbidden | OrgAllowed | OrgDefaultOn | OrgRequired
  datatype FormMode = FormForbidden | FormOptional | FormRequired

  datatype Cause = FormForbids | OrgForbids | OptionalNoInstance | DefaultOnNoInstance | NotRequested
  datatype Decision = Enabled | Disabled(cause: Cause)

  datatype PolicyError =
    | OrgRequiredFormForbidden | FormRequiredOrgForbidden | OrgPolicyUnsatisfied | UnsupportedRequiredFeature

  predicate CanSatisfy(mode: Mode, capability: Availability) {
    capability == Available || (capability == DemoStub && mode == Demo)
  }

  function Decide(mode: Mode, capability: Availability, org: Option<OrgMode>, form: Option<FormMode>)
      : (d: Result<Decision, PolicyError>)
    ensures d == Ok(Enabled) ==> CanSatisfy(mode, capability)
    ensures d.Ok? && (org == Some(OrgRequired) || form == Some(FormRequired)) ==> d.value.Enabled?
  {
    if org == Some(OrgRequired) && form == Some(FormForbidden) then Err(OrgRequiredFormForbidden)
    else if form == Some(FormRequired) && org == Some(OrgForbidden) then Err(FormRequiredOrgForbidden)
    else
      var can := CanSatisfy(mode, capability);
      if org == Some(OrgRequired) && !can then Err(OrgPolicyUnsatisfied)
      else if form == Some(FormRequired) then (if can then Ok(Enabled) else Err(UnsupportedRequiredFeature))
      else if org == Some(OrgRequired) then Ok(Enabled)
      else if form == Some(FormForbidden) then Ok(Disabled(FormForbids))
      else if org == Some(OrgForbidden) then Ok(Disabled(OrgForbids))
      else if org == Some(OrgDefaultOn) then Ok(if can then Enabled else Disabled(DefaultOnNoInstance))
      else if form == Some(FormOptional) && (org == Some(OrgAllowed) || org.None?) then
        Ok(if can then Enabled else Disabled(OptionalNoInstance))
      else Ok(Disabled(NotRequested))
  }

  datatype Policies = Policies(org: map<Key, OrgMode>, form: map<Key, FormMode>)

  function Get<V>(m: map<Key, V>, key: Key): Option<V> {
    if key in m then Some(m[key]) else None
  }

  function DecideKey(c: Composition, ps: Policies, key: Key): Result<Decision, PolicyError>
    requires key in c.capabilities
  {
    Decide(c.mode, c.capabilities[key], Get(ps.org, key), Get(ps.form, key))
  }

  datatype Features = Features(enabled: set<Key>, disabled: map<Key, Cause>)

  /** What resolution amounts to: every key decided, and the enabled ones collected. */
  ghost predicate Resolves(t: Taxonomy, c: Composition, ps: Policies, f: Features)
    requires Covers(t, c)
  {
    && (forall key :: key in t.keys ==> DecideKey(c, ps, key).Ok?)
    && (forall key :: key in f.enabled <==> key in t.keys && DecideKey(c, ps, key) == Ok(Enabled))
    && (forall key :: key in f.disabled <==> key in t.keys && key !in f.enabled)
    && (forall key :: key in f.disabled ==> DecideKey(c, ps, key) == Ok(Disabled(f.disabled[key])))
  }

  /** The feature loop of `resolveRuntimeFeatures`. */
  method ResolveFeatures(t: Taxonomy, c: Composition, ps: Policies) returns (r: Result<Features, PolicyError>)
    requires Covers(t, c)
    ensures r.Ok? <==> forall key :: key in t.keys ==> DecideKey(c, ps, key).Ok?
    ensures r.Ok? ==> Resolves(t, c, ps, r.value)
    ensures r.Err? ==> exists key :: key in t.keys && DecideKey(c, ps, key) == Err(r.error)
  {
    var enabled: set<Key> := {};
    var disabled: map<Key, Cause> := map[];
    for n := 0 to |t.keys|
      invariant forall key :: key in t.keys[..n] ==> DecideKey(c, ps, key).Ok?
      invariant forall key :: key in enabled <==> key in t.keys[..n] && DecideKey(c, ps, key) == Ok(Enabled)
      invariant forall key :: key in disabled <==> key in t.keys[..n] && key !in enabled
      invariant forall key :: key in disabled ==> DecideKey(c, ps, key) == Ok(Disabled(disabled[key]))
    {
      var key := t.keys[n];
      assert key in t.keys && t.keys[..n + 1] == t.keys[..n] + [key];
      var decision := Decide(c.mode, c.capabilities[key], Get(ps.org, key), Get(ps.form, key));
      if decision.Err? {
        assert DecideKey(c, ps, key) == Err(decision.error);
        return Err(decision.error);
      }
      if decision.value.Enabled? {
        enabled := enabled + {key};
      } else {
        disabled := disabled[key := decision.value.cause];
      }
    }
    assert t.keys[..|t.keys|] == t.keys;
    r := Ok(Features(enabled, disabled));
  }

  predicate Works(c: Composition, key: Key)
    requires key in c.capabilities
  {
    c.capabilities[key] == Available || (c.capabilities[key] == DemoStub && c.mode == Demo)
  }

  lemma EveryMode(org: Option<OrgMode>, form: Option<FormMode>)
    ensures org.None? || org == Some(OrgForbidden) || org == Some(OrgAllowed) || org == Some(OrgDefaultOn)
            || org == Some(OrgRequired)
    ensures form.None? || form == Some(FormForbidden) || form == Some(FormOptional) || form == Some(FormRequired)
  {
    assert org.Some? ==> org.value.OrgForbidden? || org.value.OrgAllowed? || org.value.OrgDefaultOn?
                         || org.value.OrgRequired?;
    assert form.Some? ==> form.value.FormForbidden? || form.value.FormOptional? || form.value.FormRequired?;
  }

  /** Which features a resolved policy enables: those that work, that neither side forbids and
      that the organisation requires or turns on, or the form requires or asks for. */
  lemma FeatureEnabledIff(t: Taxonomy, c: Composition, ps: Policies, f: Features, key: Key)
    requires Covers(t, c) && Resolves(t, c, ps, f) && key in t.keys
    ensures key in f.enabled <==>
              && Works(c, key)
              && Get(ps.org, key) != Some(OrgForbidden) && Get(ps.form, key) != Some(FormForbidden)
              && (Get(ps.org, key) == Some(OrgRequired) || Get(ps.org, key) == Some(OrgDefaultOn)
                  || Get(ps.form, key) == Some(FormRequired) || Get(ps.form, key) == Some(FormOptional))
  {
    var org, form := Get(ps.org, key), Get(ps.form, key);
    EveryMode(org, form);
    assert DecideKey(c, ps, key).Ok?;
  }

  /** Why a feature is off: forbidden by the form, else by the organisation; wanted but without
      a working instance; or wanted by nobody. */
  lemma FeatureDisabledBecause(t: Taxonomy, c: Composition, ps: Policies, f: Features, key: Key)
    requires Covers(t, c) && Resolves(t, c, ps, f) && key in f.disabled
    ensures var org, form := Get(ps.org, key), Get(ps.form, key);
            && (f.disabled[key] == FormForbids <==> form == Some(FormForbidden))
            && (f.disabled[key] == OrgForbids <==> form != Some(FormForbidden) && org == Some(OrgForbidden))
            && (f.disabled[key] == DefaultOnNoInstance <==>
                form != Some(FormForbidden) && org == Some(OrgDefaultOn) && !Works(c, key))
            && (f.disabled[key] == OptionalNoInstance <==>
                form == Some(FormOptional) && (org.None? || org == Some(OrgAllowed)) && !Works(c, key))
            && (f.disabled[key] == NotRequested <==> form.None? && (org.None? || org == Some(OrgAllowed)))
  {
    EveryMode(Get(ps.org, key), Get(ps.form, key));
    assert DecideKey(c, ps, key) == Ok(Disabled(f.disabled[key]));
  }

  /** What makes resolution fail at a key: one side requires what the other forbids, or a
      required feature does not work; the organisation's demand is looked at first. */
  lemma KeyFailsBecause(c: Composition, ps: Policies, key: Key)
    requires key in c.capabilities
    ensures var r, org, form := DecideKey(c, ps, key), Get(ps.org, key), Get(ps.form, key);
            && (r == Err(OrgRequiredFormForbidden) <==> org == Some(OrgRequired) && form == Some(FormForbidden))
            && (r == Err(FormRequiredOrgForbidden) <==> org == Some(OrgForbidden) && form == Some(FormRequired))
            && (r == Err(OrgPolicyUnsatisfied) <==>
                org == Some(OrgRequired) && form != Some(FormForbidden) && !Works(c, key))
            && (r == Err(UnsupportedRequiredFeature) <==>
                form == Some(FormRequired) && org != Some(OrgForbidden) && org != Some(OrgRequired) && !Works(c, key))
  {
  }

  // ---------------------------------------------------------------- Honest capabilities

  /** A composition that passes the coherence check enables, under any organisation and form
      policy, only features that have ports, all of them wired, none marked unavailable and,
      in production, none marked at all. */
  lemma HonestCapabilities(t: Taxonomy, c: Composition, ps: Policies, f: Features, key: Key, port: Port)
    requires Covers(t, c) && Coherent(t, c) && Resolves(t, c, ps, f) && key in f.enabled
    ensures t.ports[key] != []
    ensures port in t.ports[key] ==>
              port in c.adapters && !c.adapters[port].unavailable
              && (c.adapters[port].demoStub <==> c.capabilities[key] == DemoStub)
              && (c.mode == Production ==> !c.adapters[port].demoStub)
  {
    assert KeyCoherent(t, c, key);
    assert CanSatisfy(c.mode, c.capabilities[key]);
  }

  /** Keys that share a port and are not declared unavailable declare the same. */
  lemma SharedPortsAgree(t: Taxonomy, c: Composition, j: Key, k: Key, port: Port)
    requires Covers(t, c) && Coherent(t, c) && j in t.keys && k in t.keys
    requires port in t.ports[j] && port in t.ports[k]
    requires c.capabilities[j] != Unavailable && c.capabilities[k] != Unavailable
    ensures c.capabilities[j] == c.capabilities[k]
  {
    assert KeyCoherent(t, c, j) && KeyCoherent(t, c, k);
  }

  /** Conversely an unavailable declaration is backed by a marked adapter, unless the key is
      the multi-party one or a sibling keeps the shared port live. */
  lemma UnavailableIsMarked(t: Taxonomy, c: Composition, i: nat, port: Port)
    requires Covers(t, c) && Coherent(t, c) && i < |t.keys|
    requires c.capabilities[t.keys[i]] == Unavailable && t.keys[i] != MULTI_PARTY && port in t.ports[t.keys[i]]
    ensures port in c.adapters
    ensures c.adapters[port].unavailable
            || exists k :: k in KeysOn(t, |t.keys|, port) && k in c.capabilities && k != t.keys[i]
                           && c.capabilities[k] != Unavailable
  {
    assert t.keys[i] in t.keys;
    assert KeyCoherent(t, c, t.keys[i]);
  }
}
