/**
 The secret with the password all monitoring instances share. It is read from an informer cache, which may show any
 past version, and written without the version that was read.
 */
module VmiSecrets {
  import opened Connections
  import opened Labels
  import opened Types

  datatype Name = Name(namespace: string, name: string)

  /** A field missing from data is Go's nil. */
  datatype Secret = Secret(labels: LabelSet, data: map<string, string>)

  type Secrets = map<Name, Secret>

  const USERNAME := "username"
  const PASSWORD := "password"
  const VMI_USERNAME := "verrazzano"
  const VMI_SECRET := "verrazzano"
  const SHARED := Name(VERRAZZANO_SYSTEM, VMI_SECRET)
  const PASSWORD_CHARS := "0123456789abcdefghijklmnopqrstuvwxyzABCDEFGHIJKLMNOPQRSTUVWXYZ"

  predicate Complete(secret: Secret) {
    USERNAME in secret.data && PASSWORD in secret.data
  }

  /** A secret just made for a binding, with a random password of 16 characters. */
  ghost predicate FreshSecret(secret: Secret, binding: string) {
    && secret.labels == LocalBindingLabels(binding)
    && secret.data.Keys == {USERNAME, PASSWORD} && secret.data[USERNAME] == VMI_USERNAME
    && |secret.data[PASSWORD]| == 16 && forall c | c in secret.data[PASSWORD] :: c in PASSWORD_CHARS
  }

  /** Secrets of the binding that should not exist. */
  predicate Stray(name: Name, secret: Secret, binding: string) {
    BoundTo(secret.labels, binding) && name.name != VMI_SECRET && name.name != binding
  }

  /** The shared secret, if there is one. */
  function Shared(secrets: Secrets): Option<Secret> {
    if SHARED in secrets then Some(secrets[SHARED]) else None
  }

  predicate CompleteIn(secret: Option<Secret>) {
    secret.Some? && Complete(secret.value)
  }

  /**
   What one call may do to the shared secret: nothing if the cache shows a complete one; otherwise the call
   fails, or the server stores a fresh secret, which it refuses if the cache was wrong about there being one.
   */
  ghost predicate SharedEnsured(shown: Option<Secret>, a: Option<Secret>, binding: string, b: Option<Secret>,
                                ok: bool) {
    if CompleteIn(shown) then b == a
    else (b == a && !ok) || (shown.None? == a.None? && b.Some? && FreshSecret(b.value, binding))
  }

  /** What one call may do; the cache showed one version of the shared secret and later listed the secrets. */
  ghost predicate SecretsCreated(shown: Option<Secret>, listed: Secrets, a: Secrets, binding: string, b: Secrets,
                                 ok: bool) {
    && SharedEnsured(shown, Shared(a), binding, Shared(b), ok)
    && (forall n | n in b && n != SHARED :: n in a && b[n] == a[n])
    && (forall n | n in a && n != SHARED && n !in b :: n in listed && Stray(n, listed[n], binding))
    && (ok ==> forall n | n in listed && Stray(n, listed[n], binding) :: n !in b)
  }

  method GenPassword(size: nat) returns (password: string)
    ensures |password| == size && forall c | c in password :: c in PASSWORD_CHARS
  {
    password := "";
    for i := 0 to size
      invariant |password| == i && forall c | c in password :: c in PASSWORD_CHARS
    {
      var random: nat := *;
      password := password + [PASSWORD_CHARS[random % |PASSWORD_CHARS|]];
    }
  }

  method NewVmiSecret(binding: string) returns (secret: Secret)
    ensures FreshSecret(secret, binding)
  {
    var password := GenPassword(16);
    assert USERNAME[0] != PASSWORD[0];
    secret := Secret(LocalBindingLabels(binding), map[USERNAME := VMI_USERNAME, PASSWORD := password]);
  }

  /** The secrets of the management cluster. A call may fail with or without effect. */
  class KubeSecrets {
    var secrets: Secrets
    /** Calls that returned an error. */
    var failures: nat

    method Outcome() returns (ok: bool)
      modifies this`failures
      ensures failures == old(failures) + if ok then 0 else 1
    {
      ok := *;
      failures := failures + if ok then 0 else 1;
    }

    /** Create is refused if there is an object of that name, update if there is none; neither compares versions. */
    method Write(name: Name, secret: Secret, update: bool) returns (ok: bool)
      modifies this
      ensures secrets == old(secrets) || ((name in old(secrets) <==> update) && secrets == old(secrets)[name := secret])
      ensures ok ==> (name in old(secrets) <==> update) && secrets == old(secrets)[name := secret]
      ensures failures == old(failures) + if ok then 0 else 1
    {
      if (name in secrets) != update {
        failures := failures + 1;
        return false;
      }
      ok := Outcome();
      var applied: bool := *;
      if ok || applied {
        secrets := secrets[name := secret];
      }
    }

    /** Refused if there is no object of that name. */
    method Delete(name: Name) returns (ok: bool)
      modifies this
      ensures secrets == old(secrets) || secrets == old(secrets) - {name}
      ensures ok ==> name in old(secrets) && secrets == old(secrets) - {name}
      ensures failures == old(failures) + if ok then 0 else 1
    {
      if name !in secrets {
        failures := failures + 1;
        return false;
      }
      ok := Outcome();
      var applied: bool := *;
      if ok || applied {
        secrets := secrets - {name};
      }
    }

    /** Create the shared secret if the cache shows none, replace it if the one shown lacks a field. */
    method EnsureShared(binding: string, shown: Option<Secret>) returns (ok: bool)
      modifies this
      ensures forall n | n != SHARED :: n in secrets <==> n in old(secrets)
      ensures forall n | n != SHARED && n in secrets :: secrets[n] == old(secrets)[n]
      ensures SharedEnsured(shown, Shared(old(secrets)), binding, Shared(secrets), ok)
      ensures failures == old(failures) + if ok then 0 else 1
    {
      hide FreshSecret;
      ok := true;
      if shown.None? {
        var secret := NewVmiSecret(binding);
        ok := Write(SHARED, secret, false);
      } else if USERNAME !in shown.value.data || PASSWORD !in shown.value.data {
        var secret := NewVmiSecret(binding);
        ok := Write(SHARED, secret, true);
      }
    }

    /** Delete the listed secrets of the binding that should not exist. */
    method DeleteStray(binding: string, listed: Secrets) returns (ok: bool)
      modifies this
      ensures forall n | n in secrets :: n in old(secrets) && secrets[n] == old(secrets)[n]
      ensures forall n | n in old(secrets) && n !in secrets :: n in listed && Stray(n, listed[n], binding)
      ensures ok ==> forall n | n in listed && Stray(n, listed[n], binding) :: n !in secrets
      ensures failures == old(failures) + if ok then 0 else 1
    {
      hide Matches, BoundTo;
      var kept := [VMI_USERNAME, binding];
      ok := Outcome();
      if !ok {
        return;
      }
      var todo := set n | n in listed && Matches(BindingSelector(binding), listed[n].labels);
      forall n | n in listed ensures n in todo <==> BoundTo(listed[n].labels, binding) {
        SelectorMeaning(binding, "", listed[n].labels);
      }
      while todo != {} && ok
        invariant failures == old(failures) + if ok then 0 else 1
        invariant forall n | n in todo :: n in listed && BoundTo(listed[n].labels, binding)
        invariant forall n | n in secrets :: n in old(secrets) && secrets[n] == old(secrets)[n]
        invariant forall n | n in old(secrets) && n !in secrets :: n in listed && Stray(n, listed[n], binding)
        invariant ok ==> forall n | n in listed && Stray(n, listed[n], binding) && n !in todo :: n !in secrets
        decreases todo, ok
      {
        var n :| n in todo;
        todo := todo - {n};
        var keep := Contains(kept, n.name);
        if !keep {
          ok := Delete(n);
        }
      }
    }

    method CreateVmiSecrets(binding: string, shown: Option<Secret>, listed: Secrets) returns (ok: bool)
      modifies this
      ensures SecretsCreated(shown, listed, old(secrets), binding, secrets, ok)
      ensures failures == old(failures) + if ok then 0 else 1
    {
      hide FreshSecret, BoundTo, Complete;
      ok := EnsureShared(binding, shown);
      if ok {
        ok := DeleteStray(binding, listed);
      }
    }
  }

  function PasswordOf(secret: Option<Secret>): Option<string> {
    if secret.Some? && PASSWORD in secret.value.data then Some(secret.value.data[PASSWORD]) else None
  }

  /** The password of the secret the cache shows; an error if the secret or its password is missing. */
  method GetVmiPassword(shown: Option<Secret>) returns (password: string, ok: bool)
    ensures PasswordOf(shown) == if ok then Some(password) else None
    ensures !ok ==> password == ""
  {
    password, ok := "", shown.Some?;
    if shown.Some? {
      if PASSWORD in shown.value.data {
        password := shown.value.data[PASSWORD];
      } else {
        ok := false;
      }
    }
  }

  /** The secret a call for the binding makes, written out. */
  predicate IsNewSecret(secret: Secret, binding: string) {
    && secret.labels == map["k8s-app" := "verrazzano.io", "verrazzano.binding" := binding]
    && secret.data.Keys == {"username", "password"} && secret.data["username"] == "verrazzano"
    && |secret.data["password"]| == 16
    && forall c | c in secret.data["password"] :: c in "0123456789abcdefghijklmnopqrstuvwxyzABCDEFGHIJKLMNOPQRSTUVWXYZ"
  }

  /**
   What a call does, written out: a complete shared secret that was shown stays, otherwise a new one is stored or the
   call fails; of the other secrets exactly those listed with the binding's label go, unless they are named
   verrazzano or like the binding, and without error all of them.
   */
  lemma CreatedWrittenOut(shown: Option<Secret>, listed: Secrets, a: Secrets, binding: string, b: Secrets, ok: bool)
    requires SecretsCreated(shown, listed, a, binding, b, ok)
    ensures var shared := Name("verrazzano-system", "verrazzano");
            var complete := shown.Some? && "username" in shown.value.data && "password" in shown.value.data;
            && (shared in a ==> shared in b)
            && (shared in b ==>
                (shared in a && b[shared] == a[shared]) || (!complete && IsNewSecret(b[shared], binding)))
            && (ok && !complete ==> shared in b && IsNewSecret(b[shared], binding))
            && (forall n | n in b && n != shared :: n in a && b[n] == a[n])
            && (forall n | n in a && n !in b ::
                  n in listed && BoundTo(listed[n].labels, binding) && n.name !in ["verrazzano", binding])
            && (ok ==> forall n | n in listed && BoundTo(listed[n].labels, binding) ::
                  n.name in ["verrazzano", binding] || n !in b)
  {
    hide BoundTo;
  }

  /** What an error-free call guarantees, exactly: the shared secret is complete unless the cache hid that it is not. */
  lemma ErrorFreeCompleteIff(shown: Option<Secret>, listed: Secrets, a: Secrets, binding: string, b: Secrets)
    requires SecretsCreated(shown, listed, a, binding, b, true)
    ensures CompleteIn(Shared(b)) <==> (CompleteIn(shown) ==> CompleteIn(Shared(a)))
    ensures CompleteIn(Shared(b)) ==> PasswordOf(Shared(b)).Some?
  {
  }

  // ---------- runs ----------

  /** Calls that change the secrets: for any binding, or the deletion of a binding's secrets. */
  datatype Event =
    | CreateVmiSecrets(binding: string, shown: Option<Secret>, listed: Secrets, ok: bool)
    | DeleteSecrets(binding: string, listed: Secrets, ok: bool)

  /** Listed secrets of the binding are deleted; without error all of them are gone. */
  ghost predicate SecretsDeleted(listed: Secrets, a: Secrets, binding: string, b: Secrets, ok: bool) {
    && (forall n | n in b :: n in a && b[n] == a[n])
    && (forall n | n in a && n !in b :: n in listed && BoundTo(listed[n].labels, binding))
    && (ok ==> forall n | n in listed && BoundTo(listed[n].labels, binding) :: n !in b)
  }

  ghost predicate Step(a: Secrets, e: Event, b: Secrets) {
    match e
    case CreateVmiSecrets(binding, shown, listed, ok) => SecretsCreated(shown, listed, a, binding, b, ok)
    case DeleteSecrets(binding, listed, ok) => SecretsDeleted(listed, a, binding, b, ok)
  }

  /** The cache shows what was stored at some time, for each secret on its own. */
  ghost predicate Reads(past: seq<Secrets>, e: Event) {
    && (forall n | n in e.listed :: exists j :: 0 <= j < |past| && n in past[j] && past[j][n] == e.listed[n])
    && (e.CreateVmiSecrets? ==> exists j :: 0 <= j < |past| && e.shown == Shared(past[j]))
  }

  /** past is what was stored before the run; the cache may still show it. */
  ghost predicate Run(past: seq<Secrets>, states: seq<Secrets>, events: seq<Event>) {
    && |states| == |events| + 1
    && (forall i | 0 <= i < |events| :: Step(states[i], events[i], states[i + 1]))
    && (forall i | 0 <= i < |events| :: Reads(past + states[..i + 1], events[i]))
  }

  /** A deletion that lists the shared secret as one of its binding. */
  predicate TakesShared(e: Event) {
    e.DeleteSecrets? && SHARED in e.listed && BoundTo(e.listed[SHARED].labels, e.binding)
  }

  predicate NeverIncomplete(history: seq<Secrets>) {
    forall i | 0 <= i < |history| :: Shared(history[i]).None? || Complete(history[i][SHARED])
  }

  /** The shared secret was never incomplete, and once there it never changed. */
  ghost predicate Steady(states: seq<Secrets>) {
    && NeverIncomplete(states)
    && (forall i, j | 0 <= i <= j < |states| && Shared(states[i]).Some? :: Shared(states[j]) == Shared(states[i]))
  }

  lemma SteadyStep(past: seq<Secrets>, states: seq<Secrets>, e: Event)
    requires |states| > 1 && Steady(states[..|states| - 1]) && NeverIncomplete(past)
    requires Reads(past + states[..|states| - 1], e) && Step(states[|states| - 2], e, states[|states| - 1])
    requires TakesShared(e) ==> Shared(states[|states| - 2]).Some? ==> SHARED in states[|states| - 1]
    ensures Steady(states)
  {
    var k := |states| - 1;
    var before := states[..k];
    assert before[k - 1] == states[k - 1];
    assert forall i | 0 <= i < k :: before[i] == states[i];
    NeverShownIncomplete(past + before, e) by { assert NeverIncomplete(past + before); }
    hide FreshSecret, BoundTo, Stray;
    FreshIsComplete();
    assert Shared(states[k]).None? || Complete(states[k][SHARED]);
    assert Shared(states[k - 1]).Some? ==> Shared(states[k]) == Shared(states[k - 1]);
  }

  lemma NeverShownIncomplete(history: seq<Secrets>, e: Event)
    requires Reads(history, e) && NeverIncomplete(history)
    ensures e.CreateVmiSecrets? ==> e.shown.None? || Complete(e.shown.value)
  {
  }

  lemma FreshIsComplete()
    ensures forall secret: Secret, binding: string :: FreshSecret(secret, binding) ==> Complete(secret)
  {
  }

  lemma {:induction false} SteadyRun(past: seq<Secrets>, states: seq<Secrets>, events: seq<Event>)
    requires Run(past, states, events) && NeverIncomplete(past) && NeverIncomplete(states[..1])
    requires forall i | 0 <= i < |events| && TakesShared(events[i]) && SHARED in states[i] :: SHARED in states[i + 1]
    ensures Steady(states)
  {
    hide Step, TakesShared;
    var k := |events|;
    assert states[0] == states[..1][0];
    if k > 0 {
      RunPrefix(past, states, events);
      assert states[..k][..1] == states[..1];
      SteadyRun(past, states[..k], events[..k - 1]);
      assert Step(states[k - 1], events[k - 1], states[k]) && Reads(past + states[..k], events[k - 1]);
      SteadyStep(past, states, events[k - 1]);
    }
  }

  lemma RunPrefix(past: seq<Secrets>, states: seq<Secrets>, events: seq<Event>)
    requires Run(past, states, events) && events != []
    ensures Run(past, states[..|events|], events[..|events| - 1])
  {
    hide Step, Reads;
    var before, earlier := states[..|events|], events[..|events| - 1];
    forall i | 0 <= i < |earlier| ensures Reads(past + before[..i + 1], earlier[i]) {
      assert before[..i + 1] == states[..i + 1];
      assert Reads(past + states[..i + 1], events[i]);
    }
  }

  /**
   If no version ever stored was incomplete, the shared secret, once complete, stays as it is through any calls for
   any bindings, failing or not and however old the versions they read, exactly as long as no deletion removes it;
   and only the deletion of a binding that a stored version is labelled with can do that.
   */
  lemma PasswordStableIff(past: seq<Secrets>, states: seq<Secrets>, events: seq<Event>)
    requires Run(past, states, events) && NeverIncomplete(past) && CompleteIn(Shared(states[0]))
    ensures (forall i | 0 <= i < |states| :: Shared(states[i]) == Shared(states[0]))
       <==> forall i | 0 <= i < |events| && TakesShared(events[i]) && SHARED in states[i] :: SHARED in states[i + 1]
    ensures forall i | 0 <= i < |events| && TakesShared(events[i]) ::
              EverLabelledFor(past + states[..i + 1], events[i].binding)
  {
    hide Step, TakesShared;
    if forall i | 0 <= i < |events| && TakesShared(events[i]) && SHARED in states[i] :: SHARED in states[i + 1] {
      SteadyRun(past, states, events);
    }
    forall i | 0 <= i < |events| && TakesShared(events[i])
      ensures EverLabelledFor(past + states[..i + 1], events[i].binding)
    {
      assert Reads(past + states[..i + 1], events[i]);
      OwnerTakes(past + states[..i + 1], events[i]);
    }
  }

  /** Some version of the shared secret was labelled with the binding. */
  predicate EverLabelledFor(history: seq<Secrets>, binding: string) {
    exists j :: 0 <= j < |history| && SHARED in history[j] && BoundTo(history[j][SHARED].labels, binding)
  }

  lemma OwnerTakes(history: seq<Secrets>, e: Event)
    requires Reads(history, e) && TakesShared(e)
    ensures EverLabelledFor(history, e.binding)
  {
    hide BoundTo;
    var j :| 0 <= j < |history| && SHARED in history[j] && history[j][SHARED] == e.listed[SHARED];
    assert BoundTo(history[j][SHARED].labels, e.binding);
  }

  /**
   When the password is stable: without deletions that list the shared secret, no run from a state ever changes a
   complete one, however old the versions it reads, exactly if neither that state nor any earlier one the cache may
   still show has an incomplete shared secret.
   */
  lemma StableFromIff(past: seq<Secrets>, start: Secrets)
    ensures (forall states, events |
               Run(past, states, events) && states[0] == start && !exists e :: e in events && TakesShared(e) ::
               Unchanging(states))
       <==> NeverIncomplete(past + [start])
  {
    hide Step, Reads, Unchanging, TakesShared;
    if NeverIncomplete(past + [start]) {
      assert NeverIncomplete(past) && NeverIncomplete([start]) by {
        assert forall i | 0 <= i < |past| :: past[i] == (past + [start])[i];
        assert start == (past + [start])[|past|];
      }
      forall states, events |
        Run(past, states, events) && states[0] == start && !exists e :: e in events && TakesShared(e)
        ensures Unchanging(states)
      {
        assert states[..1] == [start];
        SteadyRun(past, states, events);
        SteadyUnchanging(states);
      }
    } else {
      var i :| 0 <= i < |past + [start]| && Shared((past + [start])[i]).Some? && !Complete((past + [start])[i][SHARED]);
      var states, events := StaleReadOverwrites(past, start, i);
    }
  }

  /** Once complete, the shared secret never changes. */
  ghost predicate Unchanging(states: seq<Secrets>) {
    forall i, j | 0 <= i <= j < |states| && CompleteIn(Shared(states[i])) :: Shared(states[j]) == Shared(states[i])
  }

  lemma SteadyUnchanging(states: seq<Secrets>)
    requires Steady(states)
    ensures Unchanging(states)
  {
  }

  /**
   The input that shows it: a first call creates the secret or replaces an incomplete one; a second one, still shown
   the incomplete version, replaces the complete secret and its password.
   */
  lemma StaleReadOverwrites(past: seq<Secrets>, start: Secrets, stale: nat)
    returns (states: seq<Secrets>, events: seq<Event>)
    requires stale <= |past| && SHARED in (past + [start])[stale] && !Complete((past + [start])[stale][SHARED])
    ensures Run(past, states, events) && states[0] == start && |events| == 2
    ensures (forall e | e in events :: e.CreateVmiSecrets? && e.ok) && !exists e :: e in events && TakesShared(e)
    ensures CompleteIn(Shared(states[1])) && CompleteIn(Shared(states[2])) && !Unchanging(states)
    ensures PasswordOf(Shared(states[1])) != PasswordOf(Shared(states[2]))
  {
    var first, second := Example('Z'), Example('Y');
    TwoExamples();
    hide FreshSecret, SecretsCreated, Example;
    var incomplete := Shared((past + [start])[stale]);
    var one := CreateVmiSecrets("b", if SHARED in start then incomplete else None, map[], true);
    var two := CreateVmiSecrets("b", incomplete, map[], true);
    states := [start, start[SHARED := first], start[SHARED := second]];
    events := [one, two];
    assert Reads(past + states[..1], one) && Reads(past + states[..2], two) by {
      assert past + states[..1] == past + [start] && (past + [start])[|past|] == start;
      assert (past + states[..2])[stale] == (past + [start])[stale];
    }
    FreshStored(one.shown, start, first);
    FreshStored(two.shown, states[1], second);
    assert states[2] == states[1][SHARED := second];
  }

  function Example(c: char): Secret {
    Secret(LocalBindingLabels("b"), map[USERNAME := VMI_USERNAME, PASSWORD := seq(16, _ => c)])
  }

  lemma ExampleIsFresh(i: nat)
    requires i < |PASSWORD_CHARS|
    ensures FreshSecret(Example(PASSWORD_CHARS[i]), "b")
  {
    assert USERNAME[0] != PASSWORD[0];
  }

  lemma TwoExamples()
    ensures FreshSecret(Example('Z'), "b") && Complete(Example('Z'))
    ensures FreshSecret(Example('Y'), "b") && Complete(Example('Y'))
    ensures PasswordOf(Some(Example('Z'))) != PasswordOf(Some(Example('Y')))
  {
    assert PASSWORD_CHARS[61] == 'Z' && PASSWORD_CHARS[60] == 'Y';
    ExampleIsFresh(61);
    ExampleIsFresh(60);
    assert Example('Z').data[PASSWORD][0] != Example('Y').data[PASSWORD][0];
  }

  /** A fresh secret may be stored whenever the cache shows no complete one and is right about there being one. */
  lemma FreshStored(shown: Option<Secret>, a: Secrets, secret: Secret)
    requires FreshSecret(secret, "b") && !CompleteIn(shown) && (shown.None? <==> SHARED !in a)
    ensures SecretsCreated(shown, map[], a, "b", a[SHARED := secret], true)
  {
    hide FreshSecret;
  }

  /**
   What readers of the password see: once an error-free call has left a complete secret, every version stored
   since gives the same password, until a deletion lists the secret. The call leaves one unless it was shown a
   version from before the run that was gone by then.
   */
  lemma PasswordReadable(past: seq<Secrets>, states: seq<Secrets>, events: seq<Event>, i: nat, j: nat)
    requires Run(past, states, events) && i < j < |states| && events[i].CreateVmiSecrets? && events[i].ok
    requires NeverIncomplete(past) && NeverIncomplete(states[..1]) && !exists e :: e in events && TakesShared(e)
    ensures CompleteIn(Shared(states[i + 1])) <==> (events[i].shown.Some? ==> Shared(states[i]).Some?)
    ensures CompleteIn(Shared(states[i + 1])) ==> PasswordOf(Shared(states[j])).Some?
    ensures CompleteIn(Shared(states[i + 1])) ==> PasswordOf(Shared(states[j])) == PasswordOf(Shared(states[i + 1]))
  {
    SteadyRun(past, states, events);
    var e := events[i];
    assert Step(states[i], e, states[i + 1]) && Reads(past + states[..i + 1], e);
    NeverShownIncomplete(past + states[..i + 1], e);
    ErrorFreeCompleteIff(e.shown, e.listed, states[i], e.binding, states[i + 1]);
  }

  /** The binding whose call created the secret takes everyone's password along when it is deleted. */
  lemma CreatorOwnsPassword(listed: Secrets, a: Secrets, binding: string, b: Secrets, c: Secrets)
    requires SHARED !in a && SecretsCreated(None, listed, a, binding, b, true) && SecretsDeleted(b, b, binding, c, true)
    ensures SHARED in b && SHARED !in c
  {
    DistinctKeys();
  }
}
