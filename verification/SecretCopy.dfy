/** Copying the secrets a cluster needs from the management cluster. */
module SecretCopy {
  import opened Labels
  import opened Connections

  const DEFAULT := "default"
  const WLS_RUNTIME_ENCRYPTION := "wlsRuntimeEncryptionSecret"

  datatype Name = Name(namespace: string, name: string)

  datatype Secret = Secret(data: map<string, string>, kind: string)

  /** A secret to be written under its name. */
  datatype Copy = Copy(at: Name, secret: Secret)

  type Secrets = map<Name, Secret>

  type Differ = (Secret, Secret) -> bool

  /** The secret in the management cluster: the default namespace comes before the system namespace. */
  function Source(management: Secrets, name: string): Option<Secret> {
    if Name(DEFAULT, name) in management then Some(management[Name(DEFAULT, name)])
    else if Name(VERRAZZANO_SYSTEM, name) in management then Some(management[Name(VERRAZZANO_SYSTEM, name)])
    else None
  }

  /** How one attempt read its two sources: whether each API read came back without an error of its own. */
  datatype Attempt = Attempt(fromDefault: bool, fromSystem: bool)

  /** The attempts to copy a secret to a name, in order. */
  type Tries = map<Name, seq<Attempt>>

  /** What an attempt finds: a failed read is taken for a missing secret. */
  function Found(management: Secrets, name: string, r: Attempt): Option<Secret> {
    var def, sys := Name(DEFAULT, name), Name(VERRAZZANO_SYSTEM, name);
    if r.fromDefault && def in management then Some(management[def])
    else if r.fromSystem && sys in management then Some(management[sys])
    else None
  }

  /** What the first successful attempt finds. */
  function FirstFound(management: Secrets, name: string, attempts: seq<Attempt>): Option<Secret> {
    if attempts == [] then None
    else
      var k := |attempts| - 1;
      var before := FirstFound(management, name, attempts[..k]);
      if before.Some? then before else Found(management, name, attempts[k])
  }

  /** The names asked for, by namespace. */
  ghost predicate Wanted(wanted: map<string, seq<string>>, at: Name) {
    at.namespace in wanted && at.name in wanted[at.namespace]
  }

  /** The names asked for whose source exists. */
  ghost predicate Requested(wanted: map<string, seq<string>>, management: Secrets, at: Name) {
    Wanted(wanted, at) && Source(management, at.name).Some?
  }

  ghost predicate NoRepeats(copies: seq<Copy>) {
    forall i, j | 0 <= i < j < |copies| :: copies[i].at != copies[j].at
  }

  ghost predicate Holds(copies: seq<Copy>, at: Name) {
    exists c :: c in copies && c.at == at
  }

  /** Each requested secret once, as its source is, and nothing else. */
  ghost predicate ExactCopies(wanted: map<string, seq<string>>, management: Secrets, copies: seq<Copy>) {
    && NoRepeats(copies)
    && (forall c | c in copies ::
        Requested(wanted, management, c.at) && c.secret == Source(management, c.at.name).value)
    && (forall at | Requested(wanted, management, at) :: Holds(copies, at))
  }

  /** Each wanted secret for which an attempt found something, once, as it was found, and nothing else. */
  ghost predicate FoundCopies(wanted: map<string, seq<string>>, management: Secrets, tries: Tries, copies: seq<Copy>) {
    && NoRepeats(copies)
    && (forall at :: at in tries <==> Wanted(wanted, at))
    && (forall at | at in tries :: tries[at] != [])
    && (forall c | c in copies :: c.at in tries && FirstFound(management, c.at.name, tries[c.at]) == Some(c.secret))
    && (forall at | at in tries && FirstFound(management, at.name, tries[at]).Some? :: Holds(copies, at))
  }

  /** A name for which nothing was found was tried as often as it is listed. */
  ghost predicate AllTried(wanted: map<string, seq<string>>, management: Secrets, tries: Tries) {
    forall at | at in tries && FirstFound(management, at.name, tries[at]).None? ::
      at.namespace in wanted && |tries[at]| == multiset(wanted[at.namespace])[at.name]
  }

  /** The API server of the management cluster; a read may fail, which is counted. */
  class ManagementApi {
    const secrets: Secrets
    var failedReads: nat

    constructor (secrets: Secrets)
      ensures this.secrets == secrets && failedReads == 0
    {
      this.secrets := secrets;
      failedReads := 0;
    }

    /** The caller cannot tell a failed read from a missing secret. */
    method Get(at: Name) returns (found: Option<Secret>, ghost ok: bool)
      modifies this
      ensures failedReads == old(failedReads) + if ok then 0 else 1
      ensures found == if ok && at in secrets then Some(secrets[at]) else None
    {
      var failed: bool := *;
      ok := !failed;
      found := None;
      if failed {
        failedReads := failedReads + 1;
      } else if at in secrets {
        found := Some(secrets[at]);
      }
    }
  }

  /** The source's data overlaid with the given data; an error if no read got it. A read not made did not fail. */
  method NewSecret(name: string, namespace: string, api: ManagementApi, data: map<string, string>)
    returns (copy: Option<Copy>, ghost attempt: Attempt)
    modifies api
    ensures api.failedReads == old(api.failedReads)
              + (if attempt.fromDefault then 0 else 1) + (if attempt.fromSystem then 0 else 1)
    ensures var source := Found(api.secrets, name, attempt);
            copy == if source.None? then None
                    else Some(Copy(Name(namespace, name), Secret(source.value.data + data, source.value.kind)))
  {
    var source;
    ghost var ok;
    source, ok := api.Get(Name(DEFAULT, name));
    attempt := Attempt(ok, true);
    if source.None? {
      source, ok := api.Get(Name(VERRAZZANO_SYSTEM, name));
      attempt := Attempt(attempt.fromDefault, ok);
      if source.None? {
        return None, attempt;
      }
    }
    var merged := Merged(map[], source.value.data);
    merged := Merged(merged, data);
    assert map[] + source.value.data == source.value.data;
    return Some(Copy(Name(namespace, name), Secret(merged, source.value.kind))), attempt;
  }

  /** The entries of data written over those of base. */
  method Merged(base: map<string, string>, data: map<string, string>) returns (merged: map<string, string>)
    ensures merged == base + data
  {
    merged := base;
    var todo := data.Keys;
    while todo != {}
      invariant todo <= data.Keys
      invariant merged == base + map k | k in data.Keys - todo :: data[k]
    {
      var k :| k in todo;
      merged := merged[k := data[k]];
      todo := todo - {k};
    }
    assert data.Keys - {} == data.Keys;
    assert (map k | k in data.Keys - {} :: data[k]) == data;
  }

  /** One copy per namespace and name, in whatever order the namespaces come and however often a name repeats. */
  method NewSecrets(wanted: map<string, seq<string>>, api: ManagementApi)
    returns (copies: seq<Copy>, ghost tries: Tries)
    modifies api
    ensures FoundCopies(wanted, api.secrets, tries, copies) && AllTried(wanted, api.secrets, tries)
    ensures api.failedReads >= old(api.failedReads)
    ensures api.failedReads == old(api.failedReads) <==> NoFailedRead(tries)
  {
    hide FoundCopies, AllTried, NoFailedRead;
    NoCopies(api.secrets);
    copies, tries := [], map[];
    var todo := wanted.Keys;
    assert wanted.Keys - todo == {};
    while todo != {}
      invariant todo <= wanted.Keys
      invariant FoundCopies(map ns | ns in wanted.Keys - todo :: wanted[ns], api.secrets, tries, copies)
      invariant AllTried(map ns | ns in wanted.Keys - todo :: wanted[ns], api.secrets, tries)
      invariant api.failedReads >= old(api.failedReads)
      invariant api.failedReads == old(api.failedReads) <==> NoFailedRead(tries)
    {
      var namespace :| namespace in todo;
      ghost var done := map ns | ns in wanted.Keys - todo :: wanted[ns];
      assert namespace !in done;
      copies, tries := AddSecrets(namespace, wanted[namespace], api, copies, tries, done);
      todo := todo - {namespace};
      assert (map ns | ns in wanted.Keys - todo :: wanted[ns]) == done[namespace := wanted[namespace]];
    }
    assert (map ns | ns in wanted.Keys - todo :: wanted[ns]) == wanted;
  }

  /** The secrets of one more namespace. A name that repeats is tried again if it was not found before. */
  method AddSecrets(namespace: string, names: seq<string>, api: ManagementApi, copies: seq<Copy>, ghost tries: Tries,
                    ghost done: map<string, seq<string>>)
    returns (copies': seq<Copy>, ghost tries': Tries)
    requires namespace !in done && FoundCopies(done, api.secrets, tries, copies) && AllTried(done, api.secrets, tries)
    modifies api
    ensures FoundCopies(done[namespace := names], api.secrets, tries', copies')
    ensures AllTried(done[namespace := names], api.secrets, tries')
    ensures api.failedReads >= old(api.failedReads)
    ensures NoFailedRead(tries') <==> NoFailedRead(tries) && api.failedReads == old(api.failedReads)
  {
    hide FoundCopies, FirstFound, NoFailedRead, AllTried;
    ghost var management := api.secrets;
    copies', tries' := copies, tries;
    CopiesStart(done, namespace, management, tries, copies);
    for i := 0 to |names|
      invariant FoundCopies(done[namespace := names[..i]], management, tries', copies')
      invariant AllTried(done[namespace := names[..i]], management, tries')
      invariant api.failedReads >= old(api.failedReads)
      invariant NoFailedRead(tries') <==> NoFailedRead(tries) && api.failedReads == old(api.failedReads)
    {
      var at := Name(namespace, names[i]);
      var found := false;
      for j := 0 to |copies'|
        invariant !found && forall h | 0 <= h < j :: copies'[h].at != at
      {
        if copies'[j].at.name == names[i] && copies'[j].at.namespace == namespace {
          found := true;
          break;
        }
      }
      if found {
        CopiesRepeat(done, namespace, names, i, management, tries', copies');
        TriesRepeat(done, namespace, names, i, management, tries', copies');
      } else {
        var copy;
        ghost var attempt;
        copy, attempt := NewSecret(names[i], namespace, api, map[]);
        assert forall s: Secret :: Secret(s.data + map[], s.kind) == s;
        CopiesStep(done, namespace, names, i, management, tries', copies', attempt);
        TriesStep(done, namespace, names, i, management, tries', copies', attempt);
        TriedFailed(tries', at, attempt);
        tries' := Tried(tries', at, attempt);
        if copy.Some? {
          copies' := copies' + [copy.value];
        }
      }
    }
    assert names[..|names|] == names;
  }

  ghost function Tried(tries: Tries, at: Name, attempt: Attempt): Tries {
    tries[at := (if at in tries then tries[at] else []) + [attempt]]
  }

  ghost predicate NoFailedRead(tries: Tries) {
    forall at | at in tries :: forall k | 0 <= k < |tries[at]| :: tries[at][k] == Attempt(true, true)
  }

  lemma TriedFailed(tries: Tries, at: Name, attempt: Attempt)
    ensures NoFailedRead(Tried(tries, at, attempt)) <==> NoFailedRead(tries) && attempt == Attempt(true, true)
  {
    var before, after := if at in tries then tries[at] else [], Tried(tries, at, attempt);
    assert after[at][|before|] == attempt;
    if NoFailedRead(after) {
      forall n, k | n in tries && 0 <= k < |tries[n]| ensures tries[n][k] == Attempt(true, true) {
        assert tries[n][k] == after[n][k];
      }
    }
  }

  lemma CopiesStart(done: map<string, seq<string>>, namespace: string, management: Secrets, tries: Tries,
                    copies: seq<Copy>)
    requires namespace !in done && FoundCopies(done, management, tries, copies) && AllTried(done, management, tries)
    ensures FoundCopies(done[namespace := []], management, tries, copies)
    ensures AllTried(done[namespace := []], management, tries)
  {
    forall at ensures Wanted(done[namespace := []], at) <==> Wanted(done, at) {
    }
  }

  lemma WantedStep(done: map<string, seq<string>>, namespace: string, names: seq<string>, i: nat, at: Name)
    requires i < |names|
    ensures Wanted(done[namespace := names[..i + 1]], at)
       <==> Wanted(done[namespace := names[..i]], at) || at == Name(namespace, names[i])
  {
    assert names[..i + 1] == names[..i] + [names[i]];
  }

  lemma CopiesRepeat(done: map<string, seq<string>>, namespace: string, names: seq<string>, i: nat, management: Secrets,
                     tries: Tries, copies: seq<Copy>)
    requires i < |names| && FoundCopies(done[namespace := names[..i]], management, tries, copies)
    requires Holds(copies, Name(namespace, names[i]))
    ensures FoundCopies(done[namespace := names[..i + 1]], management, tries, copies)
  {
    hide Wanted, FirstFound;
    var former, latter := done[namespace := names[..i]], done[namespace := names[..i + 1]];
    forall n ensures Wanted(latter, n) <==> Wanted(former, n) || n == Name(namespace, names[i]) {
      WantedStep(done, namespace, names, i, n);
    }
  }

  lemma CopiesStep(done: map<string, seq<string>>, namespace: string, names: seq<string>, i: nat, management: Secrets,
                   tries: Tries, copies: seq<Copy>, attempt: Attempt)
    requires i < |names| && FoundCopies(done[namespace := names[..i]], management, tries, copies)
    requires !Holds(copies, Name(namespace, names[i]))
    ensures var at, found := Name(namespace, names[i]), Found(management, names[i], attempt);
            FoundCopies(done[namespace := names[..i + 1]], management, Tried(tries, at, attempt),
                        if found.Some? then copies + [Copy(at, found.value)] else copies)
  {
    hide *;
    var former, latter := done[namespace := names[..i]], done[namespace := names[..i + 1]];
    forall n ensures Wanted(latter, n) <==> Wanted(former, n) || n == Name(namespace, names[i]) {
      WantedStep(done, namespace, names, i, n);
    }
    var at := Name(namespace, names[i]);
    NothingFoundBefore(former, management, tries, copies, at);
    TriedFound(management, tries, at, attempt);
    CopiesAdd(former, latter, management, tries, copies, at, attempt, Found(management, names[i], attempt));
  }

  lemma CountStep(names: seq<string>, i: nat, name: string)
    requires i < |names|
    ensures multiset(names[..i + 1])[name] == multiset(names[..i])[name] + if name == names[i] then 1 else 0
  {
    assert names[..i + 1] == names[..i] + [names[i]];
  }

  lemma TriesRepeat(done: map<string, seq<string>>, namespace: string, names: seq<string>, i: nat, management: Secrets,
                    tries: Tries, copies: seq<Copy>)
    requires i < |names| && FoundCopies(done[namespace := names[..i]], management, tries, copies)
    requires AllTried(done[namespace := names[..i]], management, tries) && Holds(copies, Name(namespace, names[i]))
    ensures AllTried(done[namespace := names[..i + 1]], management, tries)
  {
    hide FirstFound;
    forall name { CountStep(names, i, name); }
  }

  lemma TriesStep(done: map<string, seq<string>>, namespace: string, names: seq<string>, i: nat, management: Secrets,
                  tries: Tries, copies: seq<Copy>, attempt: Attempt)
    requires i < |names| && FoundCopies(done[namespace := names[..i]], management, tries, copies)
    requires AllTried(done[namespace := names[..i]], management, tries) && !Holds(copies, Name(namespace, names[i]))
    ensures AllTried(done[namespace := names[..i + 1]], management, Tried(tries, Name(namespace, names[i]), attempt))
  {
    hide FirstFound, Holds;
    var at, former := Name(namespace, names[i]), done[namespace := names[..i]];
    var after := Tried(tries, at, attempt);
    NothingFoundBefore(former, management, tries, copies, at);
    forall name { CountStep(names, i, name); }
    assert at in tries <==> names[i] in names[..i] by {
      assert Wanted(former, at) <==> names[i] in names[..i];
    }
    assert names[i] !in names[..i] ==> multiset(names[..i])[names[i]] == 0;
    assert former[namespace] == names[..i];
    assert at in tries ==> |tries[at]| == multiset(former[at.namespace])[at.name];
    assert |after[at]| == multiset(names[..i + 1])[names[i]];
  }

  lemma NothingFoundBefore(wanted: map<string, seq<string>>, management: Secrets, tries: Tries, copies: seq<Copy>,
                           at: Name)
    requires FoundCopies(wanted, management, tries, copies) && !Holds(copies, at)
    ensures at in tries ==> FirstFound(management, at.name, tries[at]).None?
  {
    hide FirstFound, Holds, Wanted;
  }

  lemma TriedFound(management: Secrets, tries: Tries, at: Name, attempt: Attempt)
    requires at in tries ==> FirstFound(management, at.name, tries[at]).None?
    ensures FirstFound(management, at.name, Tried(tries, at, attempt)[at]) == Found(management, at.name, attempt)
  {
    hide Found;
    var attempts := Tried(tries, at, attempt)[at];
    assert attempts[..|attempts| - 1] == if at in tries then tries[at] else [];
  }

  lemma CopiesAdd(former: map<string, seq<string>>, latter: map<string, seq<string>>, management: Secrets, tries: Tries,
                  copies: seq<Copy>, at: Name, attempt: Attempt, found: Option<Secret>)
    requires FoundCopies(former, management, tries, copies) && !Holds(copies, at)
    requires forall n :: Wanted(latter, n) <==> Wanted(former, n) || n == at
    requires FirstFound(management, at.name, Tried(tries, at, attempt)[at]) == found
    ensures FoundCopies(latter, management, Tried(tries, at, attempt),
                        if found.Some? then copies + [Copy(at, found.value)] else copies)
  {
    hide Wanted, FirstFound;
    var after := if found.Some? then copies + [Copy(at, found.value)] else copies;
    forall n | Holds(copies, n) ensures Holds(after, n) {
      var c :| c in copies && c.at == n;
      assert c in after;
    }
    if found.Some? {
      assert after[|copies|].at == at;
    }
  }

  // ---------- when the copies are exact ----------

  /**
   The reads went well enough for a name: some attempt read the proper source, and none before it took the
   system namespace's secret for the one of the default namespace. If both are the same, either will do.
   */
  ghost predicate ReadWell(management: Secrets, name: string, attempts: seq<Attempt>) {
    var def, sys := Name(DEFAULT, name), Name(VERRAZZANO_SYSTEM, name);
    if def in management && sys in management && management[def] != management[sys] then
      exists k :: 0 <= k < |attempts| && attempts[k].fromDefault && forall j | 0 <= j < k :: !attempts[j].fromSystem
    else
      def in management || sys in management ==>
        exists k :: 0 <= k < |attempts|
          && ((def in management && attempts[k].fromDefault) || (sys in management && attempts[k].fromSystem))
  }

  /** The first attempt that found something decides. */
  lemma {:induction false} FirstFoundDecides(management: Secrets, name: string, attempts: seq<Attempt>) returns (m: nat)
    ensures m <= |attempts| && forall j | 0 <= j < m :: Found(management, name, attempts[j]).None?
    ensures FirstFound(management, name, attempts)
              == if m == |attempts| then None else Found(management, name, attempts[m])
    ensures m < |attempts| ==> FirstFound(management, name, attempts).Some?
  {
    hide Found;
    m := 0;
    if attempts != [] {
      var k := |attempts| - 1;
      m := FirstFoundDecides(management, name, attempts[..k]);
      if m == k && Found(management, name, attempts[k]).None? {
        m := k + 1;
      }
    }
  }

  /** What is found is the proper source exactly if the reads went well enough. */
  lemma FoundIffReadWell(management: Secrets, name: string, attempts: seq<Attempt>)
    ensures FirstFound(management, name, attempts) == Source(management, name) <==> ReadWell(management, name, attempts)
  {
    var m := FirstFoundDecides(management, name, attempts);
    hide FirstFound;
    if m < |attempts| && Found(management, name, attempts[m]) == Source(management, name) {
      assert attempts[m].fromDefault || attempts[m].fromSystem;
    }
  }

  lemma ExactIffReadWell(wanted: map<string, seq<string>>, management: Secrets, tries: Tries, copies: seq<Copy>)
    requires FoundCopies(wanted, management, tries, copies)
    ensures ExactCopies(wanted, management, copies)
       <==> forall at | Wanted(wanted, at) :: ReadWell(management, at.name, tries[at])
  {
    forall at | at in tries
      ensures ReadWell(management, at.name, tries[at])
         <==> FirstFound(management, at.name, tries[at]) == Source(management, at.name)
    {
      FoundIffReadWell(management, at.name, tries[at]);
    }
    hide ReadWell, FirstFound, Source, Wanted;
    if ExactCopies(wanted, management, copies) {
      forall at | at in tries ensures FirstFound(management, at.name, tries[at]) == Source(management, at.name) {
        ExactMeansProper(wanted, management, tries, copies, at);
      }
    } else {
      ProperMeansExact(wanted, management, tries, copies);
    }
  }

  lemma ExactMeansProper(wanted: map<string, seq<string>>, management: Secrets, tries: Tries, copies: seq<Copy>,
                         at: Name)
    requires FoundCopies(wanted, management, tries, copies) && ExactCopies(wanted, management, copies) && at in tries
    ensures FirstFound(management, at.name, tries[at]) == Source(management, at.name)
  {
    hide FirstFound, Source;
    assert Source(management, at.name).Some? ==> Requested(wanted, management, at);
  }

  lemma ProperMeansExact(wanted: map<string, seq<string>>, management: Secrets, tries: Tries, copies: seq<Copy>)
    requires FoundCopies(wanted, management, tries, copies) && !ExactCopies(wanted, management, copies)
    ensures exists at :: at in tries && FirstFound(management, at.name, tries[at]) != Source(management, at.name)
  {
    hide FirstFound, Source;
  }

  /** Without a failed read the copies are exact. */
  lemma ExactWithoutFailures(wanted: map<string, seq<string>>, management: Secrets, tries: Tries, copies: seq<Copy>)
    requires FoundCopies(wanted, management, tries, copies) && NoFailedRead(tries)
    ensures ExactCopies(wanted, management, copies)
  {
    ExactIffReadWell(wanted, management, tries, copies);
    forall at | Wanted(wanted, at) ensures ReadWell(management, at.name, tries[at]) {
      assert tries[at][0] == Attempt(true, true);
    }
  }

  /**
   Whatever fails: a copy is one of the two sources, and a secret is missing only if no read got an existing
   source.
   */
  lemma {:induction false} FoundSomething(management: Secrets, name: string, attempts: seq<Attempt>)
    ensures var def, sys := Name(DEFAULT, name), Name(VERRAZZANO_SYSTEM, name);
            var found := FirstFound(management, name, attempts);
            && (found.Some? ==>
                  || (def in management && found.value == management[def])
                  || (sys in management && found.value == management[sys]))
            && (found.None? <==> forall k | 0 <= k < |attempts| ::
                                   && (def in management ==> !attempts[k].fromDefault)
                                   && (sys in management ==> !attempts[k].fromSystem))
  {
    if attempts != [] {
      FoundSomething(management, name, attempts[..|attempts| - 1]);
    }
  }

  // ---------- writing the copies ----------

  /**
   What writing copies may do: what is up to date is left alone, and encryption secrets of the WebLogic
   runtime are never touched.
   */
  ghost predicate Copied(differs: Differ, a: Secrets, b: Secrets, copies: seq<Copy>, ok: bool) {
    && a.Keys <= b.Keys
    && (forall at | at in b && !(at in a && b[at] == a[at]) :: Copy(at, b[at]) in copies)
    && (forall at | at in a && a[at].kind == WLS_RUNTIME_ENCRYPTION :: b[at] == a[at])
    && (forall c | c in copies && c.at in a && !differs(a[c.at], c.secret) :: b[c.at] == a[c.at])
    && (ok ==> forall c | c in copies ::
        c.at in b && (b[c.at].kind == WLS_RUNTIME_ENCRYPTION || !differs(b[c.at], c.secret)))
  }

  /** Writing one more copy, to a name not written before. */
  lemma CopiedThen(differs: Differ, a: Secrets, b: Secrets, c: Secrets, copies: seq<Copy>, copy: Copy, ok: bool)
    requires Copied(differs, a, b, copies, true) && Copied(differs, b, c, [copy], ok)
    requires forall d | d in copies :: d.at != copy.at
    ensures Copied(differs, a, c, copies + [copy], ok)
  {
  }

  /** Writing stopped after some copies is also a stopped run of more, to other names. */
  lemma CopiedStopped(differs: Differ, a: Secrets, b: Secrets, copies: seq<Copy>, more: seq<Copy>)
    requires Copied(differs, a, b, copies, false)
    requires forall c, d | c in copies && d in more :: c.at != d.at
    ensures Copied(differs, a, b, copies + more, false)
  {
  }

  class ClusterSecrets {
    var secrets: Secrets
    /** Writes that returned an error. */
    var failures: nat

    method Write(copy: Copy) returns (ok: bool)
      modifies this
      ensures secrets == old(secrets) || secrets == old(secrets)[copy.at := copy.secret]
      ensures ok ==> secrets == old(secrets)[copy.at := copy.secret]
      ensures failures == old(failures) + if ok then 0 else 1
    {
      ok := *;
      var applied: bool := *;
      if ok || applied {
        secrets := secrets[copy.at := copy.secret];
      }
      failures := failures + if ok then 0 else 1;
    }

    /** Create a missing secret; update a differing one unless it is an encryption secret. */
    method Put(differs: Differ, copy: Copy) returns (ok: bool)
      requires forall s: Secret :: !differs(s, s)
      modifies this
      ensures Copied(differs, old(secrets), secrets, [copy], ok)
      ensures failures == old(failures) + if ok then 0 else 1
    {
      ok := true;
      if copy.at !in secrets {
        ok := Write(copy);
      } else if secrets[copy.at].kind != WLS_RUNTIME_ENCRYPTION && differs(secrets[copy.at], copy.secret) {
        ok := Write(copy);
      }
    }

    method CreateSecrets(differs: Differ, copies: seq<Copy>) returns (ok: bool)
      requires forall s: Secret :: !differs(s, s)
      requires NoRepeats(copies)
      modifies this
      ensures Copied(differs, old(secrets), secrets, copies, ok)
      ensures failures == old(failures) + if ok then 0 else 1
    {
      ok := true;
      ghost var start := secrets;
      assert Copied(differs, start, start, copies[..0], true);
      hide Copied;
      var i := 0;
      while i < |copies| && ok
        invariant 0 <= i <= |copies|
        invariant failures == old(failures) + if ok then 0 else 1
        invariant Copied(differs, start, secrets, copies[..i], ok)
      {
        ghost var before := secrets;
        ok := Put(differs, copies[i]);
        CopiedThen(differs, start, before, secrets, copies[..i], copies[i], ok);
        assert copies[..i + 1] == copies[..i] + [copies[i]];
        i := i + 1;
      }
      if ok {
        assert copies[..i] == copies;
      } else {
        CopiedStopped(differs, start, secrets, copies[..i], copies[i..]);
        assert copies[..i] + copies[i..] == copies;
      }
    }

    /** Both halves for one cluster; a pair named "system" gets no secrets. A failed read is not an error. */
    method CopyAll(differs: Differ, binding: string, wanted: map<string, seq<string>>, api: ManagementApi)
      returns (ok: bool, ghost tries: Tries)
      requires forall s: Secret :: !differs(s, s)
      modifies this, api
      ensures api.failedReads == old(api.failedReads) <==> NoFailedRead(tries)
      ensures forall at :: at in tries <==> binding != SYSTEM_BINDING && Wanted(wanted, at)
      ensures forall at | at in tries :: tries[at] != []
      ensures CopiedAll(differs, old(secrets), secrets, api.secrets, tries, ok)
      ensures failures == old(failures) + if ok then 0 else 1
    {
      hide FirstFound, Copied, CopiedAll, FoundCopies;
      ghost var management := api.secrets;
      var copies: seq<Copy> := [];
      tries := map[];
      NoCopies(management);
      if binding != SYSTEM_BINDING {
        copies, tries := NewSecrets(wanted, api);
      }
      FoundCopiesMeaning(if binding != SYSTEM_BINDING then wanted else map[], management, tries, copies);
      ghost var before := secrets;
      ok := CreateSecrets(differs, copies);
      ghost var asked := if binding != SYSTEM_BINDING then wanted else map[];
      CopiedMeaning(differs, before, secrets, asked, management, tries, copies, ok);
    }
  }

  /**
   All clusters of a pair, with what is wanted on each, in any order up to the first error. Without connections to
   all of them nothing happens; for "system" a cluster without one would be a nil connection.
   */
  method CreateSecrets(differs: Differ, binding: string, wanted: map<string, map<string, seq<string>>>,
                       clusters: map<string, ClusterSecrets>, api: ManagementApi)
    returns (ok: bool, ghost tries: map<string, Tries>, ghost failed: Option<string>)
    requires forall s: Secret :: !differs(s, s)
    requires forall c, d | c in clusters && d in clusters && c != d :: clusters[c] != clusters[d]
    requires binding == SYSTEM_BINDING ==> wanted.Keys <= clusters.Keys
    modifies clusters.Values, api
    ensures ok ==> tries.Keys == wanted.Keys && failed.None?
    ensures !(wanted.Keys <= clusters.Keys) ==> !ok && tries == map[] && failed.None?
    ensures wanted.Keys <= clusters.Keys && !ok ==> failed.Some? && failed.value in tries
    ensures tries.Keys <= wanted.Keys && tries.Keys <= clusters.Keys
    ensures forall c | c in clusters && c !in tries :: clusters[c].secrets == old(clusters[c].secrets)
    ensures forall c | c in tries ::
              var before, after := old(clusters[c].secrets), clusters[c].secrets;
              CopiedAll(differs, before, after, api.secrets, tries[c], failed != Some(c))
    ensures forall c, at | c in tries :: at in tries[c] <==> binding != SYSTEM_BINDING && Wanted(wanted[c], at)
    ensures forall c | c in clusters ::
              clusters[c].failures == old(clusters[c].failures) + if failed == Some(c) then 1 else 0
  {
    hide *;
    ok, tries, failed := true, map[], None;
    if !(wanted.Keys <= clusters.Keys) {
      return false, tries, failed;
    }
    var todo := wanted.Keys;
    while todo != {} && ok
      invariant todo <= wanted.Keys && tries.Keys == wanted.Keys - todo
      invariant if ok then failed.None? else failed.Some? && failed.value in tries
      invariant forall c | c in clusters && c !in tries :: clusters[c].secrets == old(clusters[c].secrets)
      invariant forall c | c in tries ::
                  var before, after := old(clusters[c].secrets), clusters[c].secrets;
                  CopiedAll(differs, before, after, api.secrets, tries[c], failed != Some(c))
      invariant forall c, at | c in tries :: at in tries[c] <==> binding != SYSTEM_BINDING && Wanted(wanted[c], at)
      invariant forall c | c in clusters ::
                  clusters[c].failures == old(clusters[c].failures) + if failed == Some(c) then 1 else 0
      decreases todo, ok
    {
      var c :| c in todo;
      todo := todo - {c};
      ghost var attempts;
      ok, attempts := clusters[c].CopyAll(differs, binding, wanted[c], api);
      tries, failed := tries[c := attempts], if ok then None else Some(c);
    }
  }

  lemma NoCopies(management: Secrets)
    ensures FoundCopies(map[], management, map[], []) && AllTried(map[], management, map[]) && NoFailedRead(map[])
  {
  }

  lemma FoundCopiesMeaning(wanted: map<string, seq<string>>, management: Secrets, tries: Tries, copies: seq<Copy>)
    requires FoundCopies(wanted, management, tries, copies)
    ensures NoRepeats(copies) && forall at :: at in tries <==> Wanted(wanted, at)
    ensures forall at | at in tries :: tries[at] != []
  {
    hide FirstFound;
  }

  lemma CopiedMeaning(differs: Differ, a: Secrets, b: Secrets, wanted: map<string, seq<string>>, management: Secrets,
                      tries: Tries, copies: seq<Copy>, ok: bool)
    requires FoundCopies(wanted, management, tries, copies) && Copied(differs, a, b, copies, ok)
    ensures CopiedAll(differs, a, b, management, tries, ok)
  {
    hide FirstFound, Wanted, NoRepeats;
    forall at | at in tries && FirstFound(management, at.name, tries[at]).Some?
      ensures Copy(at, FirstFound(management, at.name, tries[at]).value) in copies
    {
      var c :| c in copies && c.at == at;
      assert FirstFound(management, c.at.name, tries[c.at]) == Some(c.secret);
    }
  }

  /**
   What copying for one cluster may do: only secrets that were found are written, as found; up-to-date and
   encryption secrets are left alone; without error every found secret is there and up to date.
   */
  ghost predicate CopiedAll(differs: Differ, a: Secrets, b: Secrets, management: Secrets, tries: Tries, ok: bool) {
    && a.Keys <= b.Keys
    && (forall at | at in b && !(at in a && b[at] == a[at]) ::
          at in tries && FirstFound(management, at.name, tries[at]) == Some(b[at]))
    && (forall at | at in a && a[at].kind == WLS_RUNTIME_ENCRYPTION :: b[at] == a[at])
    && (forall at | at in tries ::
          var found := FirstFound(management, at.name, tries[at]);
          found.Some? ==>
            && (at in a && !differs(a[at], found.value) ==> b[at] == a[at])
            && (ok ==> at in b && (b[at].kind == WLS_RUNTIME_ENCRYPTION || !differs(b[at], found.value))))
  }

  /** Where nothing is asked for, nothing is copied and nothing changes. */
  lemma NothingAskedNothingCopied(differs: Differ, a: Secrets, b: Secrets, management: Secrets, tries: Tries, ok: bool)
    requires CopiedAll(differs, a, b, management, tries, ok) && forall at :: at in tries <==> Wanted(map[], at)
    ensures tries == map[] && b == a
  {
    assert forall at :: !Wanted(map[], at);
    assert tries.Keys == {};
  }

  /**
   What an error-free call promises for a secret with a source, exactly: if the cluster did not have it, it
   gets the proper one if and only if the reads went well enough, and none at all if and only if no read
   got an existing source. If the reads went well it is up to date in any case.
   */
  lemma ErrorFreeCopyIff(differs: Differ, a: Secrets, b: Secrets, management: Secrets, tries: Tries, at: Name)
    requires CopiedAll(differs, a, b, management, tries, true)
    requires at in tries && Source(management, at.name).Some?
    ensures at !in a ==>
              && (at in b && b[at] == Source(management, at.name).value <==> ReadWell(management, at.name, tries[at]))
              && (at !in b <==> forall k | 0 <= k < |tries[at]| ::
                                  && (Name(DEFAULT, at.name) in management ==> !tries[at][k].fromDefault)
                                  && (Name(VERRAZZANO_SYSTEM, at.name) in management ==> !tries[at][k].fromSystem))
    ensures ReadWell(management, at.name, tries[at]) ==>
              at in b && (b[at].kind == WLS_RUNTIME_ENCRYPTION || !differs(b[at], Source(management, at.name).value))
  {
    FoundIffReadWell(management, at.name, tries[at]);
    FoundSomething(management, at.name, tries[at]);
    hide FirstFound, ReadWell, Source;
  }

  /**
   The input that shows it: both namespaces have a secret of that name. If only the first read fails, an
   error-free call writes the system namespace's secret; if both fail, it writes nothing.
   */
  lemma FailedReadExample(differs: Differ, ns: string, name: string, def: Secret, sys: Secret)
    requires def != sys && forall s: Secret :: !differs(s, s)
    ensures var management, at := map[Name(DEFAULT, name) := def, Name(VERRAZZANO_SYSTEM, name) := sys], Name(ns, name);
            && management == map[Name("default", name) := def, Name("verrazzano-system", name) := sys]
            && Source(management, name) == Some(def)
            && CopiedAll(differs, map[], map[at := sys], management, map[at := [Attempt(false, true)]], true)
            && CopiedAll(differs, map[], map[], management, map[at := [Attempt(false, false)]], true)
  {
    var management := map[Name(DEFAULT, name) := def, Name(VERRAZZANO_SYSTEM, name) := sys];
    assert DEFAULT != VERRAZZANO_SYSTEM by {
      assert |DEFAULT| != |VERRAZZANO_SYSTEM|;
    }
    assert FirstFound(management, name, [Attempt(false, true)]) == Some(sys) by {
      assert [Attempt(false, true)][..0] == [];
    }
    assert FirstFound(management, name, [Attempt(false, false)]) == None by {
      assert [Attempt(false, false)][..0] == [];
    }
  }

  /** Any two runs of NewSecrets that find the same yield the same copies up to order. */
  lemma CopiesUnique(wanted: map<string, seq<string>>, management: Secrets, tries: Tries, copies: seq<Copy>,
                     tries': Tries, copies': seq<Copy>)
    requires FoundCopies(wanted, management, tries, copies) && FoundCopies(wanted, management, tries', copies')
    requires forall at | at in tries && at in tries' ::
               FirstFound(management, at.name, tries[at]) == FirstFound(management, at.name, tries'[at])
    ensures multiset(copies) == multiset(copies')
  {
    hide FirstFound, Wanted;
    CopiesOnce(wanted, management, tries, copies);
    CopiesOnce(wanted, management, tries', copies');
    forall c ensures multiset(copies)[c] == multiset(copies')[c] {
    }
  }

  lemma CopiesOnce(wanted: map<string, seq<string>>, management: Secrets, tries: Tries, copies: seq<Copy>)
    requires FoundCopies(wanted, management, tries, copies)
    ensures forall c :: multiset(copies)[c]
              == if c.at in tries && FirstFound(management, c.at.name, tries[c.at]) == Some(c.secret) then 1 else 0
  {
    hide FirstFound, Wanted;
    DistinctOnce(copies);
    forall c: Copy | c.at in tries && FirstFound(management, c.at.name, tries[c.at]) == Some(c.secret)
      ensures c in copies
    {
      var d :| d in copies && d.at == c.at;
    }
  }

  lemma {:induction false} DistinctOnce(copies: seq<Copy>)
    requires NoRepeats(copies)
    ensures forall c :: multiset(copies)[c] == if c in copies then 1 else 0
  {
    if copies != [] {
      DistinctOnce(copies[1..]);
      assert copies == [copies[0]] + copies[1..];
    }
  }
}
