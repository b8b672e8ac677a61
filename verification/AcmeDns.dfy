/**
 Extending the ACME DNS credentials by the names of a binding. The secret is read from the informer cache and
 changed in place there before it is written to the server, which accepts it only if the cache was current.
 */
module AcmeDns {

  datatype Credential = Credential(
    allowFrom: seq<string>,
    fulldomain: string,
    password: string,
    subdomain: string,
    username: string)

  const ZERO := Credential([], "", "", "", "")

  type Records = map<string, Credential>

  /** The value under a key of a secret: records in JSON, or something that does not parse as such. */
  datatype Blob = Json(records: Records) | Malformed

  const KEY := "acmedns.json"

  function PlainName(binding: string, uri: string): string {
    "vmi." + binding + "." + uri
  }

  function WildcardName(binding: string, uri: string): string {
    "*.vmi." + binding + "." + uri
  }

  function Names(binding: string, uri: string): set<string> {
    {PlainName(binding, uri), WildcardName(binding, uri)}
  }

  function AllNames(bindings: set<string>, uri: string): set<string> {
    (set b | b in bindings :: PlainName(b, uri)) + (set b | b in bindings :: WildcardName(b, uri))
  }

  /** The credentials stored under the URI; Go's zero value if there are none. */
  function CredentialOf(records: Records, uri: string): Credential {
    if uri in records then records[uri] else ZERO
  }

  /** The records with an entry for every name, existing entries untouched. */
  function Extended(records: Records, names: set<string>, uri: string): Records {
    map name | name in records.Keys + names :: if name in records then records[name] else CredentialOf(records, uri)
  }

  // ---------- sequences of calls ----------

  /** The cached records and the version they were cached at; the records of every version on the server. */
  datatype State = State(cache: Records, version: nat, history: seq<Records>, requests: nat)

  /**
   A call for a binding, with whether a request it sends gets through to the server; or a watch event that puts
   another version into the cache, so many versions behind the server's.
   */
  datatype Event = Call(binding: string, delivered: bool) | Refresh(behind: nat)

  /** The cached object is changed whatever becomes of the request. It keeps the version it was read at. */
  function Process(s: State, binding: string, delivered: bool, uri: string): State {
    if s.cache == map[] || Names(binding, uri) <= s.cache.Keys then s
    else
      var records := Extended(s.cache, Names(binding, uri), uri);
      var accepted := delivered && s.version + 1 == |s.history|;
      State(records, s.version, if accepted then s.history + [records] else s.history, s.requests + 1)
  }

  function Refreshed(s: State, behind: nat): State {
    if s.history == [] then s
    else
      var v := if behind < |s.history| then |s.history| - 1 - behind else 0;
      s.(cache := s.history[v], version := v)
  }

  function Next(s: State, e: Event, uri: string): State {
    match e
    case Call(binding, delivered) => Process(s, binding, delivered, uri)
    case Refresh(behind) => Refreshed(s, behind)
  }

  /** The state after some events, from given records on the server and in the cache. */
  ghost function After(records: Records, events: seq<Event>, uri: string): State {
    if events == [] then State(records, 0, [records], 0)
    else Next(After(records, events[..|events| - 1], uri), events[|events| - 1], uri)
  }

  function Bindings(events: seq<Event>): set<string> {
    set e | e in events && e.Call? :: e.binding
  }

  /** The bindings processed since the cache was last refreshed. */
  function BindingsSince(events: seq<Event>): set<string> {
    if events == [] then {}
    else
      match events[|events| - 1]
      case Call(binding, _) => BindingsSince(events[..|events| - 1]) + {binding}
      case Refresh(_) => {}
  }

  // ---------- the operator's call ----------

  function RecordsOf(data: map<string, Blob>): Records {
    if KEY in data && data[KEY].Json? then data[KEY].records else map[]
  }

  function Versions(history: seq<map<string, Blob>>): (versions: seq<Records>)
    ensures |versions| == |history|
  {
    seq(|history|, i requires 0 <= i < |history| => RecordsOf(history[i]))
  }

  lemma VersionsAppend(history: seq<map<string, Blob>>, data: map<string, Blob>)
    ensures Versions(history + [data]) == Versions(history) + [RecordsOf(data)]
  {
  }

  predicate Usable(data: map<string, Blob>) {
    RecordsOf(data) != map[]
  }

  /** A secret object in the informer cache; callers share it. */
  class CachedSecret {
    var data: map<string, Blob>
    var version: nat
  }

  class Server {
    var data: map<string, Blob>
    var version: nat
    var requests: nat
    /** Requests answered with an error. */
    var failures: nat
    ghost var history: seq<map<string, Blob>>

    ghost predicate Valid()
      reads this
    {
      |history| == version + 1 && history[version] == data
    }

    ghost function View(cached: CachedSecret): State
      reads this, cached
    {
      State(RecordsOf(cached.data), cached.version, Versions(history), requests)
    }

    /** Accepted only for the current version; an accepted request may still be answered with an error. */
    method Update(base: nat, data': map<string, Blob>) returns (ok: bool)
      requires Valid()
      modifies this
      ensures Valid() && requests == old(requests) + 1 && failures == old(failures) + if ok then 0 else 1
      ensures (data == old(data) && version == old(version) && history == old(history))
              || (base == old(version) && data == data' && version == base + 1 && history == old(history) + [data'])
      ensures ok ==> history == old(history) + [data']
    {
      requests := requests + 1;
      ok := false;
      var delivered: bool := *;
      if delivered && base == version {
        data, version, history := data', version + 1, history + [data'];
        ok := *;
      }
      failures := failures + if ok then 0 else 1;
    }
  }

  /** Each missing name gets the credentials stored under the URI. */
  method AddNames(records: Records, binding: string, uri: string) returns (more: Records, updated: bool)
    ensures more == Extended(records, Names(binding, uri), uri)
    ensures updated <==> !(Names(binding, uri) <= records.Keys)
  {
    var credential := CredentialOf(records, uri);
    more, updated := records, false;
    if PlainName(binding, uri) !in more {
      more := more[PlainName(binding, uri) := credential];
      updated := true;
    }
    if WildcardName(binding, uri) !in more {
      more := more[WildcardName(binding, uri) := credential];
      updated := true;
    }
  }

  /** listed: the lister had no error other than "not found"; a missing secret is null. */
  method UpdateAcmeDNSSecret(cached: CachedSecret?, server: Server, listed: bool, binding: string, uri: string)
    returns (ok: bool)
    requires server.Valid()
    modifies cached, server
    ensures server.Valid()
    ensures !listed || (cached != null && !old(Usable(cached.data))) ==> !ok && server.failures == old(server.failures)
    ensures listed && (cached == null || old(Usable(cached.data))) ==>
              server.failures == old(server.failures) + if ok then 0 else 1
    ensures !listed || cached == null ==> server.requests == old(server.requests) && server.data == old(server.data)
    ensures !listed && cached != null ==> cached.data == old(cached.data) && cached.version == old(cached.version)
    ensures listed && cached != null ==>
              && (|| server.View(cached) == Process(old(server.View(cached)), binding, true, uri)
                  || (!ok && server.View(cached) == Process(old(server.View(cached)), binding, false, uri)))
              && (ok && server.requests > old(server.requests) ==> |server.history| > old(|server.history|))
              && (server.data == old(server.data) || server.data == cached.data)
              && forall key | key != KEY :: (key in cached.data <==> key in old(cached.data))
                                            && (key in cached.data ==> cached.data[key] == old(cached.data)[key])
  {
    if !listed {
      return false;
    }
    if cached == null {
      return true;
    }
    if KEY !in cached.data || cached.data[KEY].Malformed? {
      return false;
    }
    var records := cached.data[KEY].records;
    if |records| == 0 {
      return false;
    }
    hide Names, Extended;
    var updated;
    records, updated := AddNames(records, binding, uri);
    ok := true;
    if updated {
      cached.data := cached.data[KEY := Json(records)];
      VersionsAppend(server.history, cached.data);
      ok := server.Update(cached.version, cached.data);
    }
  }

  // ---------- names ----------

  lemma NamesAreLonger(binding: string, uri: string)
    ensures uri !in Names(binding, uri)
  {
    assert |PlainName(binding, uri)| == 5 + |binding| + |uri| && |WildcardName(binding, uri)| == 7 + |binding| + |uri|;
  }

  lemma NamesInjective(a: string, b: string, uri: string)
    requires a != b
    ensures Names(a, uri) !! Names(b, uri)
  {
    var p, q := PlainName(a, uri), PlainName(b, uri);
    var v, w := WildcardName(a, uri), WildcardName(b, uri);
    assert p[4..|p| - |uri| - 1] == a && q[4..|q| - |uri| - 1] == b;
    assert v[6..|v| - |uri| - 1] == a && w[6..|w| - |uri| - 1] == b;
    assert p[0] == q[0] == 'v' && v[0] == w[0] == '*';
  }

  lemma ExtendedTwice(records: Records, names: set<string>, more: set<string>, uri: string)
    requires uri !in names
    ensures Extended(Extended(records, names, uri), more, uri) == Extended(records, names + more, uri)
  {
    assert CredentialOf(Extended(records, names, uri), uri) == CredentialOf(records, uri);
  }

  lemma UriNotGenerated(bindings: set<string>, uri: string)
    ensures uri !in AllNames(bindings, uri)
  {
    forall b { NamesAreLonger(b, uri); }
  }

  lemma {:induction false} NameCount(bindings: set<string>, uri: string)
    ensures |AllNames(bindings, uri)| == 2 * |bindings|
  {
    if b :| b in bindings {
      var rest := bindings - {b};
      NameCount(rest, uri);
      AllNamesAdd(rest, b, uri);
      AllNamesDisjoint(rest, b, uri);
      TwoNames(b, uri);
      hide AllNames, Names;
      assert bindings == rest + {b};
    } else {
      assert AllNames(bindings, uri) == {};
    }
  }

  lemma AllNamesAdd(bindings: set<string>, b: string, uri: string)
    ensures AllNames(bindings + {b}, uri) == AllNames(bindings, uri) + Names(b, uri)
  {
  }

  lemma TwoNames(b: string, uri: string)
    ensures |Names(b, uri)| == 2
  {
    assert PlainName(b, uri)[0] != WildcardName(b, uri)[0];
  }

  lemma AllNamesDisjoint(bindings: set<string>, b: string, uri: string)
    requires b !in bindings
    ensures AllNames(bindings, uri) !! Names(b, uri)
  {
    forall name | name in AllNames(bindings, uri) ensures name !in Names(b, uri) {
      var c :| c in bindings && name in Names(c, uri);
      NamesInjective(c, b, uri);
    }
  }

  // ---------- what every run keeps ----------

  predicate Includes(more: Records, records: Records) {
    forall name | name in records :: name in more && more[name] == records[name]
  }

  /** The records and nothing but names of some bindings, with the URI's credentials. */
  ghost predicate Extends(more: Records, records: Records, bindings: set<string>, uri: string) {
    && Includes(more, records)
    && forall name | name in more && name !in records ::
        name in AllNames(bindings, uri) && more[name] == CredentialOf(records, uri)
  }

  ghost predicate Growing(history: seq<Records>) {
    forall i, j | 0 <= i <= j < |history| :: Includes(history[j], history[i])
  }

  ghost predicate AllExtend(history: seq<Records>, records: Records, bindings: set<string>, uri: string) {
    forall i | 0 <= i < |history| :: Extends(history[i], records, bindings, uri)
  }

  /** Versions only grow; the cache is the version it was read at and the names processed since. */
  ghost predicate Inv(s: State, records: Records, bindings: set<string>, since: set<string>, uri: string) {
    && s.version < |s.history| && s.history[0] == records
    && Growing(s.history) && AllExtend(s.history, records, bindings, uri)
    && since <= bindings && s.cache == Extended(s.history[s.version], AllNames(since, uri), uri)
  }

  lemma ExtendsMore(more: Records, records: Records, bindings: set<string>, since: set<string>, uri: string)
    requires Extends(more, records, bindings, uri) && since <= bindings
    ensures Extends(Extended(more, AllNames(since, uri), uri), records, bindings, uri)
    ensures CredentialOf(more, uri) == CredentialOf(records, uri)
  {
    UriNotGenerated(bindings, uri);
    assert AllNames(since, uri) <= AllNames(bindings, uri);
    hide AllNames;
  }

  lemma ExtendsMonotone(more: Records, records: Records, bindings: set<string>, others: set<string>, uri: string)
    requires Extends(more, records, bindings, uri) && bindings <= others
    ensures Extends(more, records, others, uri)
  {
    assert AllNames(bindings, uri) <= AllNames(others, uri);
    hide AllNames;
  }

  /** Processing one more binding extends the cache by its names, if it had any records. */
  lemma CacheExtended(base: Records, since: set<string>, b: string, uri: string)
    ensures Extended(Extended(base, AllNames(since, uri), uri), Names(b, uri), uri)
              == Extended(base, AllNames(since + {b}, uri), uri)
  {
    AllNamesAdd(since, b, uri);
    UriNotGenerated(since, uri);
    ExtendedTwice(base, AllNames(since, uri), Names(b, uri), uri);
  }

  lemma ProcessedState(s: State, b: string, delivered: bool, uri: string)
    requires s.cache != map[]
    ensures var t := Process(s, b, delivered, uri);
            && t.cache == Extended(s.cache, Names(b, uri), uri) && t.version == s.version
            && (t.history == s.history || (s.version + 1 == |s.history| && t.history == s.history + [t.cache]))
  {
    hide Names;
  }

  lemma CallKeepsInv(s: State, b: string, delivered: bool, records: Records, bindings: set<string>,
                     since: set<string>, uri: string)
    requires Inv(s, records, bindings, since, uri) && records != map[]
    ensures Inv(Process(s, b, delivered, uri), records, bindings + {b}, since + {b}, uri)
  {
    hide Process, AllNames, Names, Extended, Extends, Growing, AllExtend;
    var base, t := s.history[s.version], Process(s, b, delivered, uri);
    MoreBindings(s.history, records, bindings, bindings + {b}, uri);
    AllExtendAt(s.history, records, bindings, uri, s.version);
    AllExtendAt(s.history, records, bindings + {b}, uri, s.version);
    ExtendsMore(base, records, bindings, since, uri);
    ExtendsMore(base, records, bindings + {b}, since + {b}, uri);
    NotEmpty(s.cache, records, bindings, uri);
    ProcessedState(s, b, delivered, uri);
    CacheExtended(base, since, b, uri);
    ExtendedIncludes(base, AllNames(since + {b}, uri), uri);
    if t.history != s.history {
      AppendKeeps(s.history, t.cache, records, bindings + {b}, uri);
    }
  }

  lemma NotEmpty(more: Records, records: Records, bindings: set<string>, uri: string)
    requires Extends(more, records, bindings, uri) && records != map[]
    ensures more != map[]
  {
    var name :| name in records;
    assert name in more;
  }

  lemma MoreBindings(history: seq<Records>, records: Records, bindings: set<string>, others: set<string>, uri: string)
    requires AllExtend(history, records, bindings, uri) && bindings <= others
    ensures AllExtend(history, records, others, uri)
  {
    hide Extends;
    forall i | 0 <= i < |history| ensures Extends(history[i], records, others, uri) {
      ExtendsMonotone(history[i], records, bindings, others, uri);
    }
  }

  lemma AllExtendAt(history: seq<Records>, records: Records, bindings: set<string>, uri: string, i: nat)
    requires AllExtend(history, records, bindings, uri) && i < |history|
    ensures Extends(history[i], records, bindings, uri)
  {
  }

  lemma AppendKeeps(history: seq<Records>, more: Records, records: Records, bindings: set<string>, uri: string)
    requires history != [] && Growing(history) && AllExtend(history, records, bindings, uri)
    requires Includes(more, history[|history| - 1]) && Extends(more, records, bindings, uri)
    ensures Growing(history + [more]) && AllExtend(history + [more], records, bindings, uri)
  {
    hide Extends;
    forall i | 0 <= i < |history| ensures Includes(more, history[i]) {
      assert Includes(history[|history| - 1], history[i]);
    }
  }

  lemma ExtendedIncludes(records: Records, names: set<string>, uri: string)
    ensures Includes(Extended(records, names, uri), records)
  {
  }

  lemma {:induction false} RunKeepsInv(records: Records, events: seq<Event>, uri: string)
    requires records != map[]
    ensures Inv(After(records, events, uri), records, Bindings(events), BindingsSince(events), uri)
  {
    hide Process, Extended, AllNames, Names, Extends, Includes;
    if events == [] {
      assert Bindings(events) == {};
      StartInv(records, uri);
    } else {
      var k := |events| - 1;
      var earlier := events[..k];
      RunKeepsInv(records, earlier, uri);
      assert events == earlier + [events[k]];
      match events[k]
      case Call(b, delivered) =>
        assert Bindings(events) == Bindings(earlier) + {b};
        var s, done, since := After(records, earlier, uri), Bindings(earlier), BindingsSince(earlier);
        CallKeepsInv(s, b, delivered, records, done, since, uri);
      case Refresh(_) =>
        assert Bindings(events) == Bindings(earlier);
        ExtendedByNone(After(records, events, uri).cache, uri);
    }
  }

  lemma ExtendedByNone(records: Records, uri: string)
    ensures Extended(records, AllNames({}, uri), uri) == records
  {
    assert AllNames({}, uri) == {};
  }

  lemma StartInv(records: Records, uri: string)
    ensures Inv(State(records, 0, [records], 0), records, {}, {}, uri)
  {
    ExtendedByNone(records, uri);
  }

  // ---------- main results ----------

  /**
   Confluence: once every binding was processed since the last refresh of the cache, any sequence of calls,
   whatever its order, repetitions, lost requests, conflicts and refreshes, leaves the same records in the cache:
   those of the start and an entry for every name of the bindings.
   */
  lemma Confluence(records: Records, events: seq<Event>, uri: string)
    requires records != map[] && BindingsSince(events) == Bindings(events)
    ensures After(records, events, uri).cache == Extended(records, AllNames(Bindings(events), uri), uri)
  {
    RunKeepsInv(records, events, uri);
    var s := After(records, events, uri);
    ExtendsMore(s.history[s.version], records, Bindings(events), Bindings(events), uri);
    hide AllNames, After, Bindings, BindingsSince;
  }

  /** Without records to start from every call is an error and nothing ever changes. */
  lemma {:induction false} EmptyStays(events: seq<Event>, uri: string)
    ensures After(map[], events, uri) == State(map[], 0, [map[]], 0)
  {
    if events != [] {
      EmptyStays(events[..|events| - 1], uri);
    }
  }

  /** The two DNS names of a binding. */
  predicate IsName(name: string, b: string, uri: string) {
    name == "vmi." + b + "." + uri || name == "*.vmi." + b + "." + uri
  }

  /**
   Existing entries are untouched; each added one is a name of one of the bindings and has the credentials stored
   under the URI, or empty ones if there are none.
   */
  ghost predicate GrownFor(more: Records, records: Records, bindings: set<string>, uri: string) {
    && (forall name | name in records :: name in more && more[name] == records[name])
    && forall name | name in more && name !in records ::
         && (exists b :: b in bindings && IsName(name, b, uri))
         && more[name] == if uri in records then records[uri] else Credential([], "", "", "", "")
  }

  lemma ExtendsIsGrowth(more: Records, records: Records, bindings: set<string>, uri: string)
    requires Extends(more, records, bindings, uri)
    ensures GrownFor(more, records, bindings, uri)
  {
    forall name | name in AllNames(bindings, uri) ensures exists b :: b in bindings && IsName(name, b, uri) {
      var b :| b in bindings && (name == PlainName(b, uri) || name == WildcardName(b, uri));
      assert IsName(name, b, uri);
    }
  }

  /**
   In any run existing entries stay, in the cache and in every version on the server, and added ones carry the
   URI's credentials. Both names of a binding are in the cache once it was processed since the last refresh; processing
   one sends a request exactly if one of them is not.
   */
  lemma Processed(records: Records, events: seq<Event>, uri: string)
    requires records != map[]
    ensures var s := After(records, events, uri);
            && GrownFor(s.cache, records, Bindings(events), uri)
            && (forall i | 0 <= i < |s.history| :: GrownFor(s.history[i], records, Bindings(events), uri))
            && (forall b, name | b in BindingsSince(events) && IsName(name, b, uri) :: name in s.cache)
            && forall b, delivered ::
                 if forall name | IsName(name, b, uri) :: name in s.cache then Process(s, b, delivered, uri) == s
                 else Process(s, b, delivered, uri).requests == s.requests + 1
  {
    RunKeepsInv(records, events, uri);
    var s, bindings, since := After(records, events, uri), Bindings(events), BindingsSince(events);
    ExtendsMore(s.history[s.version], records, bindings, since, uri);
    ExtendsIsGrowth(s.cache, records, bindings, uri);
    NotEmpty(s.cache, records, bindings, uri);
    forall i | 0 <= i < |s.history| ensures GrownFor(s.history[i], records, bindings, uri) {
      AllExtendAt(s.history, records, bindings, uri, i);
      ExtendsIsGrowth(s.history[i], records, bindings, uri);
    }
    forall b, name | b in since && IsName(name, b, uri) ensures name in s.cache {
      NamesCached(s, records, bindings, since, uri, b);
    }
    hide After, Bindings, BindingsSince, Extends, GrownFor, Inv;
    forall b, delivered
      ensures if forall name | IsName(name, b, uri) :: name in s.cache then Process(s, b, delivered, uri) == s
              else Process(s, b, delivered, uri).requests == s.requests + 1
    {
      ProcessedOnce(s, b, delivered, uri);
    }
  }

  lemma ProcessedOnce(s: State, b: string, delivered: bool, uri: string)
    requires s.cache != map[]
    ensures if forall name | IsName(name, b, uri) :: name in s.cache then Process(s, b, delivered, uri) == s
            else Process(s, b, delivered, uri).requests == s.requests + 1
  {
    assert IsName(PlainName(b, uri), b, uri) && IsName(WildcardName(b, uri), b, uri);
    hide Extended;
  }

  /** No two bindings share a name: each new one adds exactly two records. */
  lemma RecordCount(records: Records, events: seq<Event>, uri: string)
    requires records != map[] && BindingsSince(events) == Bindings(events)
    requires records.Keys !! AllNames(Bindings(events), uri)
    ensures |After(records, events, uri).cache| == |records| + 2 * |Bindings(events)|
  {
    Confluence(records, events, uri);
    hide After, AllNames, BindingsSince;
    NameCount(Bindings(events), uri);
    assert After(records, events, uri).cache.Keys == records.Keys + AllNames(Bindings(events), uri);
  }

  // ---------- what reaches the server ----------

  function OnServer(s: State): Records {
    if s.history == [] then map[] else s.history[|s.history| - 1]
  }

  /** The last event sent a request that the server accepted, with b's names processed since the last refresh. */
  ghost predicate StoredLast(records: Records, events: seq<Event>, uri: string, b: string)
    requires events != []
  {
    && |After(records, events, uri).history| > |After(records, events[..|events| - 1], uri).history|
    && b in BindingsSince(events)
  }

  /** Some request was accepted that was sent by a call for b, or by a later one before the next refresh. */
  ghost predicate StoredSince(records: Records, events: seq<Event>, uri: string, b: string) {
    exists i :: 0 < i <= |events| && StoredLast(records, events[..i], uri, b)
  }

  lemma StoredSinceStep(records: Records, events: seq<Event>, uri: string, b: string)
    requires events != []
    ensures StoredSince(records, events, uri, b)
       <==> StoredSince(records, events[..|events| - 1], uri, b) || StoredLast(records, events, uri, b)
  {
    hide StoredLast;
    var earlier := events[..|events| - 1];
    assert events[..|events|] == events;
    forall i | 0 < i < |events| ensures earlier[..i] == events[..i] {
    }
    if StoredSince(records, earlier, uri, b) {
      var i :| 0 < i <= |earlier| && StoredLast(records, earlier[..i], uri, b);
      assert StoredLast(records, events[..i], uri, b);
    }
  }

  /** The last event either leaves the server alone or stores the cache of that moment. */
  lemma ServerStep(records: Records, events: seq<Event>, uri: string)
    requires records != map[] && events != []
    ensures var s, t := After(records, events[..|events| - 1], uri), After(records, events, uri);
            && (if |t.history| > |s.history|
                then OnServer(t) == t.cache && t.version == s.version && t.history == s.history + [t.cache]
                else OnServer(t) == OnServer(s))
            && Includes(OnServer(t), OnServer(s))
  {
    var k := |events| - 1;
    var earlier := events[..k];
    RunKeepsInv(records, events, uri);
    RunKeepsInv(records, earlier, uri);
    var s, t := After(records, earlier, uri), After(records, events, uri);
    HistoryKept(s, events[k], uri);
    hide After, Next, Extended, Names, AllNames, Bindings, BindingsSince, Extends, AllExtend;
    assert Includes(t.history[|t.history| - 1], t.history[|s.history| - 1]);
  }

  /** An event leaves the versions alone, or adds the cache of that moment and keeps the version of the cache. */
  lemma HistoryKept(s: State, e: Event, uri: string)
    ensures var t := Next(s, e, uri);
            t.history == s.history || (t.history == s.history + [t.cache] && t.version == s.version)
  {
    hide Names, Extended;
  }

  /** Names in the cache that were not processed since the last refresh came with it. */
  lemma CachedNames(s: State, records: Records, bindings: set<string>, since: set<string>, uri: string, b: string)
    requires Inv(s, records, bindings, since, uri) && Names(b, uri) <= s.cache.Keys && b !in since
    ensures Names(b, uri) <= s.history[s.version].Keys
  {
    AllNamesDisjoint(since, b, uri);
    hide Names, AllNames, Growing, AllExtend;
  }

  /**
   Changing the cached secret before writing it has a price: the server has a binding's names exactly if some
   request was accepted that was sent by a call for it, or by a later call for another binding before the next
   refresh. Until that refresh, calls for the same binding send nothing.
   */
  lemma {:induction false} ReachesServerIff(records: Records, events: seq<Event>, uri: string, b: string)
    requires records != map[] && forall name | name in Names(b, uri) :: name !in records
    ensures Names(b, uri) <= OnServer(After(records, events, uri)).Keys <==> StoredSince(records, events, uri, b)
  {
    if events == [] {
      assert PlainName(b, uri) in Names(b, uri);
    } else {
      ReachesServerIff(records, events[..|events| - 1], uri, b);
      StoredSinceStep(records, events, uri, b);
      StoredNames(records, events, uri, b);
    }
  }

  /** A stored request brings exactly the names processed since the refresh that the server did not have. */
  lemma StoredNames(records: Records, events: seq<Event>, uri: string, b: string)
    requires records != map[] && events != []
    ensures Names(b, uri) <= OnServer(After(records, events, uri)).Keys
       <==> Names(b, uri) <= OnServer(After(records, events[..|events| - 1], uri)).Keys
            || StoredLast(records, events, uri, b)
  {
    var earlier := events[..|events| - 1];
    RunKeepsInv(records, events, uri);
    RunKeepsInv(records, earlier, uri);
    ServerStep(records, events, uri);
    var s, t := After(records, earlier, uri), After(records, events, uri);
    hide After, Next, Names, AllNames, Extended, Bindings, BindingsSince, Extends, AllExtend;
    if b in BindingsSince(events) {
      NamesCached(t, records, Bindings(events), BindingsSince(events), uri, b);
    } else if Names(b, uri) <= t.cache.Keys && |t.history| > |s.history| {
      CachedNames(t, records, Bindings(events), BindingsSince(events), uri, b);
      assert Includes(s.history[|s.history| - 1], s.history[s.version]);
    }
  }

  /** A refresh to the server's version and one delivered call repair whatever was lost before. */
  lemma RefreshRepairs(records: Records, events: seq<Event>, uri: string, b: string)
    requires records != map[]
    ensures var s := Next(Next(After(records, events, uri), Refresh(0), uri), Call(b, true), uri);
            Names(b, uri) <= OnServer(s).Keys && s.cache == OnServer(s)
  {
    RunKeepsInv(records, events, uri);
    var s := After(records, events, uri);
    assert s.history != [];
    assert OnServer(s) != map[] by {
      assert Extends(OnServer(s), records, Bindings(events), uri);
      NotEmpty(OnServer(s), records, Bindings(events), uri);
    }
    hide After, Inv, Names;
    assert Extended(OnServer(s), Names(b, uri), uri).Keys == OnServer(s).Keys + Names(b, uri);
  }

  lemma NamesCached(s: State, records: Records, bindings: set<string>, since: set<string>, uri: string, b: string)
    requires Inv(s, records, bindings, since, uri) && b in since
    ensures Names(b, uri) <= s.cache.Keys
  {
    assert Names(b, uri) <= AllNames(since, uri);
    hide Names, AllNames, Growing, AllExtend;
  }
}
