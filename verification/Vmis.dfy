/**
 Create or update of a monitoring instance (VMI) against a server with optimistic locking. The operator
 works from an informer cache that may hold any past version, while the monitoring operator fills in the
 names of persistent volume claims.
 */
module Vmis {
  import opened Connections
  import opened Labels
  import AcmeDns

  datatype PvcNames = PvcNames(grafana: seq<string>, prometheus: seq<string>, elasticsearch: seq<string>)

  const NO_PVCS := PvcNames([], [], [])

  /** settings stands for everything the operator sets from its environment. */
  datatype Vmi = Vmi(name: string, labels: LabelSet, uri: string, ingress: string, dashboards: string,
      settings: string, pvcs: PvcNames)

  datatype Stored = Stored(version: nat, vmi: Vmi)

  datatype Request = Update(version: nat, vmi: Vmi) | Create(vmi: Vmi)

  type Differ = (Vmi, Vmi) -> bool

  /** history maps every version the server ever stored to its content. */
  datatype World = World(server: Option<Stored>, clock: nat, history: map<nat, Vmi>, cache: Option<Stored>,
      pending: Option<Request>)

  function VmiUri(binding: string, uri: string): string {
    "vmi." + binding + "." + uri
  }

  /** The name a profile uses for a binding: one instance is shared by all, or each has its own. */
  function ProfileName(shared: bool, binding: string): string {
    if shared then SYSTEM_BINDING else binding
  }

  /** The instance the operator wants; an empty URI is an error. */
  function Instance(shared: bool, binding: string, uri: string, settings: string): Option<Vmi> {
    if uri == "" then None
    else
      Some(Vmi(binding, LocalBindingLabels(binding), VmiUri(ProfileName(shared, binding), uri),
          "verrazzano-ingress." + uri, binding + "-dashboards", settings, NO_PVCS))
  }

  /** With the cached claim names filled in, what the operator sends; nothing if there is no difference. */
  function RequestFor(differs: Differ, cache: Option<Stored>, desired: Vmi): Option<Request> {
    match cache
    case None => Some(Create(desired))
    case Some(found) =>
      var filled := desired.(pvcs := found.vmi.pvcs);
      if differs(found.vmi, filled) then Some(Update(found.version, filled)) else None
  }

  function Store(w: World, vmi: Vmi): World {
    w.(server := Some(Stored(w.clock, vmi)), clock := w.clock + 1, history := w.history[w.clock := vmi])
  }

  /** An update is accepted only for the current version, a create only if there is no object. */
  predicate Accepts(w: World, r: Request) {
    match r
    case Update(version, _) => w.server.Some? && w.server.value.version == version
    case Create(_) => w.server.None?
  }

  function Received(w: World, r: Request): World {
    if Accepts(w, r) then Store(w, r.vmi) else w
  }

  // ---------- the operator's call ----------

  class Server {
    var current: Option<Stored>
    var clock: nat
    ghost var history: map<nat, Vmi>
    /** Calls that returned an error: lost, rejected, or stored with the answer lost. */
    var failures: nat

    ghost function View(cache: Option<Stored>): World
      reads this
    {
      World(current, clock, history, cache, None)
    }

    /** The call may also be lost on its way. */
    method Receive(r: Request, ghost cache: Option<Stored>) returns (ok: bool)
      modifies this
      ensures View(cache) == old(View(cache)) || View(cache) == Received(old(View(cache)), r)
      ensures ok ==> Accepts(old(View(cache)), r) && View(cache) == Received(old(View(cache)), r)
      ensures failures == old(failures) + if ok then 0 else 1
    {
      var reached: bool := *;
      ok := false;
      if reached {
        var accepted := match r
          case Update(version, _) => current.Some? && current.value.version == version
          case Create(_) => current.None?;
        if accepted {
          current, history := Some(Stored(clock, r.vmi)), history[clock := r.vmi];
          clock := clock + 1;
          ok := *;
        }
      }
      failures := failures + if ok then 0 else 1;
    }
  }

  /** What a binding's instance has to be, whatever the profile. */
  function InstanceOf(binding: string, uri: string, settings: string, pvcs: PvcNames): Vmi {
    Vmi(binding, map["k8s-app" := "verrazzano.io", "verrazzano.binding" := binding], "vmi." + binding + "." + uri,
        "verrazzano-ingress." + uri, binding + "-dashboards", settings, pvcs)
  }

  /** The deletion finds the instance by its label exactly for its binding, and ACME DNS has a name for its URI. */
  lemma InstanceIsFound(binding: string, uri: string, settings: string, pvcs: PvcNames, n: string)
    ensures var vmi := InstanceOf(binding, uri, settings, pvcs);
            && (Matches(BindingSelector(n), vmi.labels) <==> n == binding)
            && vmi.uri in AcmeDns.Names(binding, uri) && (n != binding ==> vmi.uri !in AcmeDns.Names(n, uri))
  {
    SelectorMeaning(n, "", InstanceOf(binding, uri, settings, pvcs).labels);
    if n != binding {
      AcmeDns.NamesInjective(n, binding, uri);
    }
    assert InstanceOf(binding, uri, settings, pvcs).uri == AcmeDns.PlainName(binding, uri);
    DistinctKeys();
  }

  /** shared: the profile uses one instance for all bindings, so only "system" gets its own. */
  method CreateUpdateVmi(server: Server, cache: Option<Stored>, differs: Differ, shared: bool, binding: string,
                         uri: string, settings: string)
    returns (ok: bool)
    modifies server
    ensures shared && binding != "system" ==> ok && server.View(cache) == old(server.View(cache))
    ensures !(shared && binding != "system") && uri == "" ==> !ok && server.View(cache) == old(server.View(cache))
    ensures server.failures == old(server.failures)
              + if ok || (uri == "" && !(shared && binding != "system")) then 0 else 1
    ensures !(shared && binding != "system") && uri != "" ==>
              var r := RequestFor(differs, cache, Instance(shared, binding, uri, settings).value);
              if r.None? then ok && server.View(cache) == old(server.View(cache))
              else
                && (server.View(cache) == old(server.View(cache))
                    || server.View(cache) == Received(old(server.View(cache)), r.value))
                && (ok ==>
                      && Accepts(old(server.View(cache)), r.value)
                      && server.View(cache) == Received(old(server.View(cache)), r.value))
    ensures !(shared && binding != "system") && uri != "" ==>
              var wanted := InstanceOf(binding, uri, settings, if cache.Some? then cache.value.vmi.pvcs else NO_PVCS);
              var stored := server.clock > old(server.clock);
              && (ok && !stored <==> cache.Some? && !differs(cache.value.vmi, wanted))
              && (if stored then
                    && server.current == Some(Stored(old(server.clock), wanted))
                    && server.clock == old(server.clock) + 1
                    && (if cache.None? then old(server.current).None?
                        else
                          && differs(cache.value.vmi, wanted) && old(server.current).Some?
                          && old(server.current).value.version == cache.value.version)
                  else server.current == old(server.current) && server.clock == old(server.clock))
  {
    if shared && binding != "system" {
      return true;
    }
    var wanted := Instance(shared, binding, uri, settings);
    if wanted.None? {
      return false;
    }
    var vmi := wanted.value;
    ok := true;
    if cache.Some? {
      vmi := vmi.(pvcs := cache.value.vmi.pvcs);
      if differs(cache.value.vmi, vmi) {
        ok := server.Receive(Update(cache.value.version, vmi), cache);
      }
    } else {
      ok := server.Receive(Create(vmi), cache);
    }
  }

  // ---------- the protocol ----------

  /** Reading the cache and sending the request are separate steps: anything may happen in between. */
  datatype Event =
    | OperatorReads(desired: Vmi)
    | OperatorSends
    | RequestLost
    | VmoWrites(vmi: Vmi)
    | CacheRefreshes(version: Option<nat>)
    | Deleted

  predicate Step(differs: Differ, w: World, e: Event, w': World) {
    match e
    case OperatorReads(desired) => w' == w.(pending := RequestFor(differs, w.cache, desired))
    case OperatorSends => w.pending.Some? && w' == Received(w, w.pending.value).(pending := None)
    case RequestLost => w' == w.(pending := None)
    case VmoWrites(vmi) => w.server.Some? && w' == Store(w, vmi)
    case CacheRefreshes(version) =>
      if version.None? then w' == w.(cache := None)
      else version.value in w.history && w' == w.(cache := Some(Stored(version.value, w.history[version.value])))
    case Deleted => w' == w.(server := None)
  }

  ghost predicate Run(differs: Differ, worlds: seq<World>, events: seq<Event>) {
    |worlds| == |events| + 1 && forall i | 0 <= i < |events| :: Step(differs, worlds[i], events[i], worlds[i + 1])
  }

  /** Cache and pending request come from versions the server once stored. */
  ghost predicate Inv(w: World) {
    && (forall v | v in w.history :: v < w.clock)
    && (w.server.Some? ==> Known(w, w.server.value))
    && (w.cache.Some? ==> Known(w, w.cache.value))
    && (w.pending.Some? && w.pending.value.Update? ==>
          w.pending.value.version in w.history && w.pending.value.vmi.pvcs == w.history[w.pending.value.version].pvcs)
  }

  predicate Known(w: World, s: Stored) {
    s.version in w.history && w.history[s.version] == s.vmi
  }

  predicate Start(w: World) {
    w == World(None, 0, map[], None, None)
  }

  lemma StepKeepsInv(differs: Differ, w: World, e: Event, w': World)
    requires Inv(w) && Step(differs, w, e, w')
    ensures Inv(w')
  {
  }

  /** Optimistic-lock safety: an accepted update leaves the claim names as they are on the server. */
  lemma AcceptedUpdateKeepsPvcs(w: World, r: Request)
    requires Inv(w) && w.pending == Some(r) && r.Update? && Accepts(w, r)
    ensures Received(w, r).server.value.vmi.pvcs == w.server.value.vmi.pvcs
  {
  }

  /** A request for the cached version is accepted exactly when the cache is up to date. */
  lemma AcceptedIffCacheCurrent(differs: Differ, w: World, desired: Vmi)
    requires Inv(w) && w.cache.Some? && RequestFor(differs, w.cache, desired).Some?
    ensures Accepts(w, RequestFor(differs, w.cache, desired).value) <==> w.server == w.cache
  {
  }

  /** With a current cache one undisturbed upsert gives the server the desired instance. */
  lemma CurrentUpsertConverges(differs: Differ, w: World, desired: Vmi, w1: World, w2: World)
    requires Inv(w) && w.cache == w.server && desired.pvcs == NO_PVCS
    requires forall v: Vmi :: !differs(v, v)
    requires Step(differs, w, OperatorReads(desired), w1)
    requires if w1.pending.Some? then Step(differs, w1, OperatorSends, w2) else w2 == w1
    ensures w2.server.Some?
    ensures var pvcs := if w.server.Some? then w.server.value.vmi.pvcs else NO_PVCS;
            w2.server.value.vmi.pvcs == pvcs && !differs(w2.server.value.vmi, desired.(pvcs := pvcs))
  {
  }

  /** The claim names last given to the object: by its creation or by the monitoring operator since. */
  ghost function LastGiven(worlds: seq<World>, events: seq<Event>): Option<PvcNames>
    requires |worlds| == |events| + 1
  {
    if events == [] then None
    else
      var k := |events| - 1;
      var before := LastGiven(worlds[..k + 1], events[..k]);
      match events[k]
      case VmoWrites(vmi) => Some(vmi.pvcs)
      case Deleted => None
      case OperatorSends =>
        if worlds[k].server.None? && worlds[k].pending.Some? && worlds[k].pending.value.Create? then
          Some(worlds[k].pending.value.vmi.pvcs)
        else before
      case _ => before
  }

  /**
   In every run, however the operator's reads, sends, lost requests, stale caches, deletions and the
   monitoring operator's writes interleave, the claim names on the server are the last ones given:
   no operator update ever changes them.
   */
  lemma {:induction false} PvcNamesAreTheLastGiven(differs: Differ, worlds: seq<World>, events: seq<Event>)
    requires Run(differs, worlds, events) && Start(worlds[0])
    ensures Inv(worlds[|events|])
    ensures var w := worlds[|events|];
            LastGiven(worlds, events) == if w.server.Some? then Some(w.server.value.vmi.pvcs) else None
  {
    if events != [] {
      var k := |events| - 1;
      PvcNamesAreTheLastGiven(differs, worlds[..k + 1], events[..k]);
      assert Step(differs, worlds[k], events[k], worlds[k + 1]);
      StepKeepsInv(differs, worlds[k], events[k], worlds[k + 1]);
      hide Run;
      if events[k].OperatorSends? && worlds[k].pending.value.Update? && Accepts(worlds[k], worlds[k].pending.value) {
        AcceptedUpdateKeepsPvcs(worlds[k], worlds[k].pending.value);
      }
    }
  }
}
