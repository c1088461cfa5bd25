/**
 * The secrets manager of tools/security/secrets_manager.py: an ordered chain of
 * providers (local encrypted file, environment, remote vaults) behind an optional
 * in-memory cache. Providers are objects whose secret dictionaries `set` and
 * `delete` change in place; the manager owns the cache.
 */
module Secrets {
  import opened Wrappers
  import opened Strings
  import Sorting

  /** How a remote provider's client behaves: it answers, the client library is missing, or building the client raises. */
  datatype RemoteState = Connected | NoClient | Broken

  /**
   * The provider classes. `persists` says whether the local provider's `_save` succeeds;
   * a remote provider (Vault, AWS Secrets Manager) is a named key-value store reached
   * through its client.
   */
  datatype Kind = LocalEncrypted(persists: bool) | Environment | Remote(remoteName: string, state: RemoteState)

  /** What a provider holds: its kind and its secrets (`_data`, `os.environ`, the remote store). */
  datatype Store = Store(kind: Kind, data: map<string, string>)

  const SAVE_ERROR := "could not write the secrets file"
  const CLIENT_ERROR := "could not create the provider client"

  /** Substrings that make an environment variable name look like a secret. */
  const SECRET_NAME_PATTERNS := ["KEY", "SECRET", "TOKEN", "PASSWORD", "CREDENTIAL"]

  /** The `name` property of each provider class. */
  function NameOf(k: Kind): string {
    match k
    case LocalEncrypted(_) => "local_encrypted"
    case Environment => "environment"
    case Remote(n, _) => n
  }

  /** `any(p in k.upper() for p in secret_patterns)` */
  predicate IsSecretName(k: string) {
    exists p :: p in SECRET_NAME_PATTERNS && Contains(Upper(k), p)
  }

  /** `provider.get(key)`: the stored value, `None`, or an exception. */
  function StoreGet(s: Store, key: string): Result<Option<string>> {
    if s.kind.Remote? && s.kind.state == Broken then Failure(CLIENT_ERROR)
    else if s.kind.Remote? && s.kind.state == NoClient then Success(None)
    else if key in s.data then Success(Some(s.data[key]))
    else Success(None)
  }

  /** `provider.set(key, value)`: the provider afterwards and what the call returned or raised. */
  function StoreSet(s: Store, key: string, value: string): (Store, Result<bool>) {
    match s.kind
    case LocalEncrypted(persists) =>
      // `_data` is assigned before `_save` can raise
      (s.(data := s.data[key := value]), if persists then Success(true) else Failure(SAVE_ERROR))
    case Environment => (s.(data := s.data[key := value]), Success(true))
    case Remote(_, state) =>
      if state == Connected then (s.(data := s.data[key := value]), Success(true))
      else if state == NoClient then (s, Success(false))
      else (s, Failure(CLIENT_ERROR))
  }

  /** `provider.delete(key)`: the provider afterwards and what the call returned or raised. */
  function StoreDelete(s: Store, key: string): (Store, Result<bool>) {
    match s.kind
    case LocalEncrypted(persists) =>
      if key !in s.data then (s, Success(false))
      else (s.(data := s.data - {key}), if persists then Success(true) else Failure(SAVE_ERROR))
    case Environment =>
      if key in s.data then (s.(data := s.data - {key}), Success(true)) else (s, Success(false))
    case Remote(_, state) =>
      if state == Broken then (s, Failure(CLIENT_ERROR))
      else if state == NoClient || key !in s.data then (s, Success(false))
      else (s.(data := s.data - {key}), Success(true))
  }

  /** `provider.list_keys()`, as the set of names it lists. */
  function StoreKeys(s: Store): Result<set<string>> {
    match s.kind
    case LocalEncrypted(_) => Success(s.data.Keys)
    case Environment => Success(set k | k in s.data && IsSecretName(k))
    case Remote(_, state) =>
      if state == Connected then Success(s.data.Keys)
      else if state == NoClient then Success({})
      else Failure(CLIENT_ERROR)
  }

  lemma EnvironmentKeysMeaning(data: map<string, string>, k: string)
    ensures StoreKeys(Store(Environment, data)).Success?
    ensures k in StoreKeys(Store(Environment, data)).value <==>
      k in data && (Contains(Upper(k), "KEY") || Contains(Upper(k), "SECRET") || Contains(Upper(k), "TOKEN")
                    || Contains(Upper(k), "PASSWORD") || Contains(Upper(k), "CREDENTIAL"))
  {
    if Contains(Upper(k), "KEY") { assert SECRET_NAME_PATTERNS[0] == "KEY"; }
    if Contains(Upper(k), "SECRET") { assert SECRET_NAME_PATTERNS[1] == "SECRET"; }
    if Contains(Upper(k), "TOKEN") { assert SECRET_NAME_PATTERNS[2] == "TOKEN"; }
    if Contains(Upper(k), "PASSWORD") { assert SECRET_NAME_PATTERNS[3] == "PASSWORD"; }
    if Contains(Upper(k), "CREDENTIAL") { assert SECRET_NAME_PATTERNS[4] == "CREDENTIAL"; }
  }

  lemma LocalDeleteMeaning(persists: bool, data: map<string, string>, key: string)
    ensures key !in data ==>
      StoreDelete(Store(LocalEncrypted(persists), data), key) == (Store(LocalEncrypted(persists), data), Success(false))
    ensures key in data ==>
      StoreDelete(Store(LocalEncrypted(persists), data), key).0.data == data - {key}
      && key !in StoreDelete(Store(LocalEncrypted(persists), data), key).0.data
      && (StoreDelete(Store(LocalEncrypted(persists), data), key).1 == Success(true) <==> persists)
  {
  }

  /** The provider answers `get(key)` with a value. */
  predicate Yields(s: Store, key: string) {
    StoreGet(s, key).Success? && StoreGet(s, key).value.Some?
  }

  /** A provider that took a `set` answers `get` with the new value, and one that reported success always does. */
  lemma StoreSetThenGet(s: Store, key: string, value: string)
    ensures Yields(StoreSet(s, key, value).0, key) ==> StoreGet(StoreSet(s, key, value).0, key) == Success(Some(value))
    ensures StoreSet(s, key, value).1 == Success(true) ==> Yields(StoreSet(s, key, value).0, key)
  {
  }

  /** After `delete(key)` no provider answers `get(key)` with a value. */
  lemma StoreDeleteThenGet(s: Store, key: string)
    ensures !Yields(StoreDelete(s, key).0, key)
  {
  }

  /** A provider object: its class is fixed, its dictionary changes. */
  class Provider {
    const kind: Kind
    var data: map<string, string>

    constructor (kind: Kind, data: map<string, string>)
      ensures this.kind == kind && this.data == data
    {
      this.kind := kind;
      this.data := data;
    }

    function State(): Store
      reads this
    {
      Store(kind, data)
    }

    method Get(key: string) returns (r: Result<Option<string>>)
      ensures r == StoreGet(State(), key)
    {
      if kind.Remote? && kind.state == Broken {
        r := Failure(CLIENT_ERROR);
      } else if kind.Remote? && kind.state == NoClient {
        r := Success(None);
      } else if key in data {
        r := Success(Some(data[key]));
      } else {
        r := Success(None);
      }
    }

    method Set(key: string, value: string) returns (r: Result<bool>)
      modifies this
      ensures State() == StoreSet(old(State()), key, value).0 && r == StoreSet(old(State()), key, value).1
    {
      if kind.Remote? && kind.state != Connected {
        r := if kind.state == NoClient then Success(false) else Failure(CLIENT_ERROR);
        return;
      }
      data := data[key := value];
      r := if kind.LocalEncrypted? && !kind.persists then Failure(SAVE_ERROR) else Success(true);
    }

    method Delete(key: string) returns (r: Result<bool>)
      modifies this
      ensures State() == StoreDelete(old(State()), key).0 && r == StoreDelete(old(State()), key).1
    {
      if kind.Remote? && kind.state == Broken {
        return Failure(CLIENT_ERROR);
      }
      if (kind.Remote? && kind.state == NoClient) || key !in data {
        return Success(false);
      }
      data := data - {key};
      r := if kind.LocalEncrypted? && !kind.persists then Failure(SAVE_ERROR) else Success(true);
    }

    method ListKeys() returns (r: Result<set<string>>)
      ensures r == StoreKeys(State())
    {
      match kind
      case LocalEncrypted(_) =>
        r := Success(data.Keys);
      case Environment =>
        r := Success(set k | k in data && IsSecretName(k));
      case Remote(_, state) =>
        r := if state == Connected then Success(data.Keys)
             else if state == NoClient then Success({})
             else Failure(CLIENT_ERROR);
    }
  }

  /** The value `get` finds: the first provider, in order, that answers with one; raising providers are skipped. */
  function Lookup(ss: seq<Store>, key: string): Option<string>
    decreases |ss|
  {
    if |ss| == 0 then None
    else if Yields(ss[0], key) then StoreGet(ss[0], key).value
    else Lookup(ss[1..], key)
  }

  lemma {:induction false} LookupFirst(ss: seq<Store>, key: string, i: nat)
    requires i < |ss| && Yields(ss[i], key)
    requires forall j :: 0 <= j < i ==> !Yields(ss[j], key)
    ensures Lookup(ss, key) == StoreGet(ss[i], key).value
    decreases i
  {
    if i > 0 {
      assert !Yields(ss[0], key);
      LookupFirst(ss[1..], key, i - 1);
    }
  }

  lemma {:induction false} LookupNone(ss: seq<Store>, key: string)
    ensures Lookup(ss, key).None? <==> forall i :: 0 <= i < |ss| ==> !Yields(ss[i], key)
    decreases |ss|
  {
    if |ss| > 0 {
      LookupNone(ss[1..], key);
      if Lookup(ss[1..], key).Some? {
        var i :| 0 <= i < |ss[1..]| && Yields(ss[1..][i], key);
        assert Yields(ss[i + 1], key);
      }
    }
  }

  /** The first-writable loop of `set`: providers are tried in order until one reports success. */
  function SetFrom(ss: seq<Store>, key: string, value: string): (seq<Store>, bool)
    decreases |ss|
  {
    if |ss| == 0 then ([], false)
    else
      var first := StoreSet(ss[0], key, value);
      if first.1 == Success(true) then ([first.0] + ss[1..], true)
      else
        var rest := SetFrom(ss[1..], key, value);
        ([first.0] + rest.0, rest.1)
  }

  /** One more provider of the first-writable loop tried without success. */
  lemma SetFromAdvance(ss: seq<Store>, key: string, value: string, done: seq<Store>, i: nat)
    requires i < |ss| && StoreSet(ss[i], key, value).1 != Success(true)
    requires SetFrom(ss, key, value).0 == done + SetFrom(ss[i..], key, value).0
    requires SetFrom(ss, key, value).1 == SetFrom(ss[i..], key, value).1
    ensures SetFrom(ss, key, value).0 == (done + [StoreSet(ss[i], key, value).0]) + SetFrom(ss[i + 1..], key, value).0
    ensures SetFrom(ss, key, value).1 == SetFrom(ss[i + 1..], key, value).1
  {
    assert ss[i..][0] == ss[i] && ss[i..][1..] == ss[i + 1..];
  }

  /** The first-writable loop stops at a provider that reports success. */
  lemma SetFromStop(ss: seq<Store>, key: string, value: string, done: seq<Store>, i: nat)
    requires i < |ss| && StoreSet(ss[i], key, value).1 == Success(true)
    requires SetFrom(ss, key, value).0 == done + SetFrom(ss[i..], key, value).0
    requires SetFrom(ss, key, value).1 == SetFrom(ss[i..], key, value).1
    ensures SetFrom(ss, key, value).0 == (done + [StoreSet(ss[i], key, value).0]) + ss[i + 1..]
    ensures SetFrom(ss, key, value).1
  {
    assert ss[i..][0] == ss[i] && ss[i..][1..] == ss[i + 1..];
  }

  lemma SetSplice(ss: seq<Store>, key: string, value: string, done: seq<Store>, i: nat)
    requires i < |ss| && |done| == i
    ensures (done + ss[i..])[i := StoreSet((done + ss[i..])[i], key, value).0] == (done + [StoreSet(ss[i], key, value).0]) + ss[i + 1..]
    ensures StoreSet((done + ss[i..])[i], key, value).1 == StoreSet(ss[i], key, value).1
  {
    assert (done + ss[i..])[i] == ss[i];
    Splice(done, ss[i..], StoreSet(ss[i], key, value).0);
    assert ss[i..][1..] == ss[i + 1..];
  }

  lemma {:induction false} SetFromMeaning(ss: seq<Store>, key: string, value: string)
    ensures |SetFrom(ss, key, value).0| == |ss|
    ensures SetFrom(ss, key, value).1 <==> exists i :: 0 <= i < |ss| && StoreSet(ss[i], key, value).1 == Success(true)
    decreases |ss|
  {
    if |ss| > 0 {
      SetFromMeaning(ss[1..], key, value);
      if SetFrom(ss[1..], key, value).1 {
        var i :| 0 <= i < |ss[1..]| && StoreSet(ss[1..][i], key, value).1 == Success(true);
        assert StoreSet(ss[i + 1], key, value).1 == Success(true);
      }
    }
  }

  /** The first provider whose `set` succeeds takes the value; the ones after it are not touched. */
  lemma {:induction false} SetFromStopsAtFirst(ss: seq<Store>, key: string, value: string, i: nat)
    requires i < |ss| && StoreSet(ss[i], key, value).1 == Success(true)
    requires forall j :: 0 <= j < i ==> StoreSet(ss[j], key, value).1 != Success(true)
    ensures SetFrom(ss, key, value).1
    ensures |SetFrom(ss, key, value).0| == |ss|
    ensures SetFrom(ss, key, value).0[i] == StoreSet(ss[i], key, value).0
    ensures SetFrom(ss, key, value).0[i + 1..] == ss[i + 1..]
    decreases i
  {
    if i > 0 {
      assert StoreSet(ss[0], key, value).1 != Success(true);
      SetFromStopsAtFirst(ss[1..], key, value, i - 1);
      assert ss[1..][i..] == ss[i + 1..];
    }
  }

  /** Once a `set` has reported success, `get` in provider order finds the new value. */
  lemma {:induction false} SetFromThenLookup(ss: seq<Store>, key: string, value: string)
    requires SetFrom(ss, key, value).1
    ensures Lookup(SetFrom(ss, key, value).0, key) == Some(value)
    decreases |ss|
  {
    var r := SetFrom(ss, key, value).0;
    StoreSetThenGet(ss[0], key, value);
    assert r[0] == StoreSet(ss[0], key, value).0;
    if !Yields(r[0], key) {
      assert StoreSet(ss[0], key, value).1 != Success(true);
      SetFromThenLookup(ss[1..], key, value);
      assert r[1..] == SetFrom(ss[1..], key, value).0;
    }
  }

  /** The chain once `delete(key)` has been sent to the first `n` providers. */
  function DeletedUpTo(ss: seq<Store>, key: string, n: nat): (r: seq<Store>)
    requires n <= |ss|
    ensures |r| == |ss|
  {
    seq(|ss|, j requires 0 <= j < |ss| => if j < n then StoreDelete(ss[j], key).0 else ss[j])
  }

  /** What the providers hold once `delete(key)` has been sent to every one of them. */
  function DeletedAll(ss: seq<Store>, key: string): (r: seq<Store>)
    ensures |r| == |ss|
  {
    DeletedUpTo(ss, key, |ss|)
  }

  /** The flag the delete loop holds after the first `n` providers: one of them returned true. */
  predicate AnyDeletedUpTo(ss: seq<Store>, key: string, n: nat)
    requires n <= |ss|
    decreases n
  {
    n > 0 && (AnyDeletedUpTo(ss, key, n - 1) || StoreDelete(ss[n - 1], key).1 == Success(true))
  }

  predicate AnyDeleted(ss: seq<Store>, key: string)
  {
    AnyDeletedUpTo(ss, key, |ss|)
  }

  lemma {:induction false} AnyDeletedUpToMeaning(ss: seq<Store>, key: string, n: nat)
    requires n <= |ss|
    ensures AnyDeletedUpTo(ss, key, n) <==> exists j :: 0 <= j < n && StoreDelete(ss[j], key).1 == Success(true)
    decreases n
  {
    if n > 0 {
      AnyDeletedUpToMeaning(ss, key, n - 1);
    }
  }

  lemma AnyDeletedMeaning(ss: seq<Store>, key: string)
    ensures AnyDeleted(ss, key) <==> exists j :: 0 <= j < |ss| && StoreDelete(ss[j], key).1 == Success(true)
  {
    AnyDeletedUpToMeaning(ss, key, |ss|);
  }

  /** One more provider of the delete loop asked: `cur` is the chain before, `next` after. */
  lemma DeleteStep(ss: seq<Store>, key: string, i: nat, cur: seq<Store>, next: seq<Store>,
                   deleted: bool, answer: Result<bool>)
    requires i < |ss| && cur == DeletedUpTo(ss, key, i)
    requires next == cur[i := StoreDelete(cur[i], key).0] && answer == StoreDelete(cur[i], key).1
    requires deleted == AnyDeletedUpTo(ss, key, i)
    ensures next == DeletedUpTo(ss, key, i + 1)
    ensures (deleted || answer == Success(true)) == AnyDeletedUpTo(ss, key, i + 1)
  {
    assert cur[i] == ss[i];
  }

  /** After `delete`, no provider in the chain answers `get` with a value. */
  lemma DeletedAllThenLookup(ss: seq<Store>, key: string)
    ensures Lookup(DeletedAll(ss, key), key).None?
  {
    var r := DeletedAll(ss, key);
    forall i | 0 <= i < |r| ensures !Yields(r[i], key) {
      StoreDeleteThenGet(ss[i], key);
    }
    LookupNone(r, key);
  }

  /** The union `list_keys` builds; providers that raise contribute nothing. */
  function AllKeys(ss: seq<Store>): set<string>
    decreases |ss|
  {
    if |ss| == 0 then {}
    else (if StoreKeys(ss[0]).Success? then StoreKeys(ss[0]).value else {}) + AllKeys(ss[1..])
  }

  lemma {:induction false} AllKeysMeaning(ss: seq<Store>, k: string)
    ensures k in AllKeys(ss) <==> exists i :: 0 <= i < |ss| && StoreKeys(ss[i]).Success? && k in StoreKeys(ss[i]).value
    decreases |ss|
  {
    if |ss| > 0 {
      AllKeysMeaning(ss[1..], k);
      if k in AllKeys(ss[1..]) {
        var i :| 0 <= i < |ss[1..]| && StoreKeys(ss[1..][i]).Success? && k in StoreKeys(ss[1..][i]).value;
        assert ss[i + 1] == ss[1..][i];
      }
      if exists i :: 0 <= i < |ss| && StoreKeys(ss[i]).Success? && k in StoreKeys(ss[i]).value {
        var i :| 0 <= i < |ss| && StoreKeys(ss[i]).Success? && k in StoreKeys(ss[i]).value;
        if i > 0 { assert ss[1..][i - 1] == ss[i]; }
      }
    }
  }

  /** The index of the first provider whose `name` is `name`, searching from `from`. */
  function FirstNamed(ss: seq<Store>, name: string, from: nat): (r: Option<nat>)
    requires from <= |ss|
    ensures r.Some? ==> from <= r.value < |ss| && NameOf(ss[r.value].kind) == name
    ensures r.Some? ==> forall j :: from <= j < r.value ==> NameOf(ss[j].kind) != name
    ensures r.None? ==> forall j :: from <= j < |ss| ==> NameOf(ss[j].kind) != name
    decreases |ss| - from
  {
    if from == |ss| then None
    else if NameOf(ss[from].kind) == name then Some(from)
    else FirstNamed(ss, name, from + 1)
  }

  /** A named `set`: only the first provider of that name is asked, and what it raises is not caught. */
  function NamedSet(ss: seq<Store>, key: string, value: string, name: string): (seq<Store>, Result<bool>) {
    match FirstNamed(ss, name, 0)
    case None => (ss, Failure("Provider not found: " + name))
    case Some(i) =>
      var named := StoreSet(ss[i], key, value);
      (ss[i := named.0], named.1)
  }

  /** The manager's observable state: what every provider holds, whether caching is on, and the cache. */
  datatype Snapshot = Snapshot(stores: seq<Store>, cacheEnabled: bool, cache: map<string, string>)

  /** `get(key, required, default)`: the new state and the value returned or the exception raised. */
  function GetSpec(m: Snapshot, key: string, required: bool, default: Option<string>): (Snapshot, Result<Option<string>>) {
    if m.cacheEnabled && key in m.cache then (m, Success(Some(m.cache[key])))
    else
      match Lookup(m.stores, key)
      case Some(v) => (if m.cacheEnabled then m.(cache := m.cache[key := v]) else m, Success(Some(v)))
      case None => (m, if required then Failure("Required secret not found: " + key) else Success(default))
  }

  /** `set(key, value, provider_name)`; an empty name counts as no name, as Python's truth test has it. */
  function SetSpec(m: Snapshot, key: string, value: string, providerName: Option<string>): (Snapshot, Result<bool>) {
    var cached := if m.cacheEnabled then m.(cache := m.cache[key := value]) else m;
    if providerName.Some? && providerName.value != "" then
      var named := NamedSet(m.stores, key, value, providerName.value);
      (cached.(stores := named.0), named.1)
    else
      var chain := SetFrom(m.stores, key, value);
      (cached.(stores := chain.0), Success(chain.1))
  }

  /** `delete(key)`: the cache entry goes and every provider is asked to delete. */
  function DeleteSpec(m: Snapshot, key: string): (Snapshot, bool) {
    (m.(stores := DeletedAll(m.stores, key), cache := m.cache - {key}), AnyDeleted(m.stores, key))
  }

  /** A cached key is answered from the cache, whatever the providers hold. */
  lemma CachedGetIgnoresProviders(m: Snapshot, others: seq<Store>, key: string, required: bool, default: Option<string>)
    requires m.cacheEnabled && key in m.cache
    ensures GetSpec(m, key, required, default).1 == Success(Some(m.cache[key]))
    ensures GetSpec(m.(stores := others), key, required, default) == (m.(stores := others), Success(Some(m.cache[key])))
  {
  }

  /** Without a cache hit, `get` returns and caches the first provider's value. */
  lemma GetFindsFirst(m: Snapshot, key: string, required: bool, default: Option<string>, i: nat)
    requires !(m.cacheEnabled && key in m.cache)
    requires i < |m.stores| && Yields(m.stores[i], key)
    requires forall j :: 0 <= j < i ==> !Yields(m.stores[j], key)
    ensures GetSpec(m, key, required, default).1 == Success(StoreGet(m.stores[i], key).value)
    ensures GetSpec(m, key, required, default).0.stores == m.stores
    ensures GetSpec(m, key, required, default).0.cache ==
      if m.cacheEnabled then m.cache[key := StoreGet(m.stores[i], key).value.value] else m.cache
  {
    LookupFirst(m.stores, key, i);
  }

  /** A key no provider holds raises `KeyError` when required and otherwise gives the default. */
  lemma GetMissing(m: Snapshot, key: string, required: bool, default: Option<string>)
    requires !(m.cacheEnabled && key in m.cache)
    requires forall i :: 0 <= i < |m.stores| ==> !Yields(m.stores[i], key)
    ensures GetSpec(m, key, required, default) ==
      (m, if required then Failure("Required secret not found: " + key) else Success(default))
  {
    LookupNone(m.stores, key);
  }

  /** With caching on, `set` caches the value first, even when it then raises `ValueError`. */
  lemma SetCachesFirst(m: Snapshot, key: string, value: string, providerName: Option<string>)
    requires m.cacheEnabled
    ensures SetSpec(m, key, value, providerName).0.cache == m.cache[key := value]
  {
  }

  /** A provider name that no provider has raises `ValueError` and leaves every provider as it was. */
  lemma UnknownProviderRaises(m: Snapshot, key: string, value: string, name: string)
    requires name != ""
    requires forall i :: 0 <= i < |m.stores| ==> NameOf(m.stores[i].kind) != name
    ensures SetSpec(m, key, value, Some(name)).1 == Failure("Provider not found: " + name)
    ensures SetSpec(m, key, value, Some(name)).0.stores == m.stores
  {
    assert FirstNamed(m.stores, name, 0).None?;
  }

  /** A named `set` goes to the first provider of that name only, and its answer is `set`'s answer. */
  lemma NamedSetTouchesOne(m: Snapshot, key: string, value: string, name: string, i: nat)
    requires name != "" && i < |m.stores| && NameOf(m.stores[i].kind) == name
    requires forall j :: 0 <= j < i ==> NameOf(m.stores[j].kind) != name
    ensures SetSpec(m, key, value, Some(name)).1 == StoreSet(m.stores[i], key, value).1
    ensures SetSpec(m, key, value, Some(name)).0.stores == m.stores[i := StoreSet(m.stores[i], key, value).0]
  {
    var r := FirstNamed(m.stores, name, 0);
    assert r.Some? && r.value == i;
  }

  /** Without a name, `set` reports success iff some provider's `set` returned true. */
  lemma UnnamedSetMeaning(m: Snapshot, key: string, value: string, providerName: Option<string>)
    requires providerName.None? || providerName.value == ""
    ensures SetSpec(m, key, value, providerName).1.Success?
    ensures SetSpec(m, key, value, providerName).1.value <==>
      exists i :: 0 <= i < |m.stores| && StoreSet(m.stores[i], key, value).1 == Success(true)
    ensures |SetSpec(m, key, value, providerName).0.stores| == |m.stores|
  {
    SetFromMeaning(m.stores, key, value);
  }

  /** After an unnamed `set` that succeeded, or any unnamed `set` with caching on, `get` returns the value. */
  lemma SetThenGet(m: Snapshot, key: string, value: string, providerName: Option<string>, required: bool, default: Option<string>)
    requires providerName.None? || providerName.value == ""
    requires m.cacheEnabled || SetSpec(m, key, value, providerName).1 == Success(true)
    ensures GetSpec(SetSpec(m, key, value, providerName).0, key, required, default).1 == Success(Some(value))
  {
    if !m.cacheEnabled {
      SetFromThenLookup(m.stores, key, value);
    }
  }

  /**
   * A named `set` does not hide a value held by an earlier provider: once the cache is
   * off or cleared, `get` still answers from the earlier provider.
   */
  lemma NamedSetShadowed()
    ensures var m := Snapshot([Store(LocalEncrypted(true), map["API_KEY" := "old"]), Store(Environment, map[])], false, map[]);
      var after := SetSpec(m, "API_KEY", "new", Some("environment"));
      after.1 == Success(true) && GetSpec(after.0, "API_KEY", false, None).1 == Success(Some("old"))
  {
    var m := Snapshot([Store(LocalEncrypted(true), map["API_KEY" := "old"]), Store(Environment, map[])], false, map[]);
    assert NameOf(m.stores[0].kind)[0] == 'l';
    assert FirstNamed(m.stores, "environment", 0) == Some(1);
  }

  /** After `delete`, `get` finds nothing: it raises if required and otherwise gives the default. */
  lemma DeleteThenGet(m: Snapshot, key: string, required: bool, default: Option<string>)
    ensures GetSpec(DeleteSpec(m, key).0, key, required, default).1 ==
      if required then Failure("Required secret not found: " + key) else Success(default)
  {
    DeletedAllThenLookup(m.stores, key);
  }

  /** Replacing the first element of `rest` in `done + rest` by `now`. */
  lemma Splice(done: seq<Store>, rest: seq<Store>, now: Store)
    requires |rest| > 0
    ensures (done + rest)[|done| := now] == (done + [now]) + rest[1..]
  {
  }

  /** No two positions of the provider list hold the same object. */
  predicate Distinct(ps: seq<Provider>) {
    forall i, j :: 0 <= i < j < |ps| ==> ps[i] != ps[j]
  }

  /** What each provider of the list holds, in order. */
  function Stores(ps: seq<Provider>): (r: seq<Store>)
    reads ps
    ensures |r| == |ps|
  {
    seq(|ps|, j reads ps requires 0 <= j < |ps| => ps[j].State())
  }

  /** The default chain the constructor builds when no providers are given. */
  method DefaultChain(local: Provider, env: Provider, vault: Provider, vaultAvailable: bool, aws: Provider, awsAvailable: bool)
    returns (ps: seq<Provider>)
    ensures ps == [local] + (if awsAvailable then [aws] else []) + (if vaultAvailable then [vault] else []) + [env]
  {
    ps := [local, env];
    if vaultAvailable {
      ps := ps[..1] + [vault] + ps[1..];
    }
    if awsAvailable {
      ps := ps[..1] + [aws] + ps[1..];
    }
  }

  class SecretsManager {
    const providers: seq<Provider>
    const cacheEnabled: bool
    var cache: map<string, string>
    /** The position of each provider object in the list; it exists because no object occurs twice. */
    ghost const slot: map<Provider, nat>

    ghost predicate Valid() {
      forall i :: 0 <= i < |providers| ==> providers[i] in slot && slot[providers[i]] == i
    }

    function Snap(): Snapshot
      reads this, providers
    {
      Snapshot(Stores(providers), cacheEnabled, cache)
    }

    /** `SecretsManager(providers, cache_enabled)`: an empty list means the default chain. */
    constructor (given: seq<Provider>, defaults: seq<Provider>, cacheEnabled: bool)
      requires Distinct(if |given| > 0 then given else defaults)
      ensures Valid()
      ensures providers == (if |given| > 0 then given else defaults)
      ensures this.cacheEnabled == cacheEnabled && cache == map[]
    {
      var ps := if |given| > 0 then given else defaults;
      providers := ps;
      slot := map i | 0 <= i < |ps| :: ps[i] := i;
      this.cacheEnabled := cacheEnabled;
      cache := map[];
    }

    method Get(key: string, required: bool, default: Option<string>) returns (r: Result<Option<string>>)
      modifies this
      ensures (Snap(), r) == GetSpec(old(Snap()), key, required, default)
    {
      if cacheEnabled && key in cache {
        return Success(Some(cache[key]));
      }
      var found := Find(key);
      if found.Some? {
        if cacheEnabled {
          cache := cache[key := found.value];
        }
        return Success(found);
      }
      if required {
        return Failure("Required secret not found: " + key);
      }
      return Success(default);
    }

    /** The provider loop of `get`: the first value any provider answers with, skipping those that raise. */
    method Find(key: string) returns (found: Option<string>)
      ensures found == Lookup(Stores(providers), key)
    {
      ghost var ss := Stores(providers);
      var i := 0;
      while i < |providers|
        invariant 0 <= i <= |providers|
        invariant Lookup(ss, key) == Lookup(ss[i..], key)
      {
        var v := providers[i].Get(key);
        assert ss[i..][0] == ss[i] && ss[i..][1..] == ss[i + 1..];
        if v.Success? && v.value.Some? {
          return v.value;
        }
        i := i + 1;
      }
      return None;
    }

    method Set(key: string, value: string, providerName: Option<string>) returns (r: Result<bool>)
      requires Valid()
      modifies this, providers
      ensures (Snap(), r) == SetSpec(old(Snap()), key, value, providerName)
    {
      if cacheEnabled {
        cache := cache[key := value];
      }
      if providerName.Some? && providerName.value != "" {
        r := SetNamed(key, value, providerName.value);
      } else {
        var ok := SetFirstWritable(key, value);
        r := Success(ok);
      }
    }

    /** The named branch of `set`. */
    method SetNamed(key: string, value: string, name: string) returns (r: Result<bool>)
      requires Valid()
      modifies providers
      ensures Stores(providers) == NamedSet(old(Stores(providers)), key, value, name).0
      ensures r == NamedSet(old(Stores(providers)), key, value, name).1
    {
      ghost var ss := Stores(providers);
      var i := 0;
      while i < |providers|
        invariant 0 <= i <= |providers|
        invariant Stores(providers) == ss
        invariant FirstNamed(ss, name, 0) == FirstNamed(ss, name, i)
      {
        if NameOf(providers[i].kind) == name {
          r := SetAt(i, key, value, ss);
          return;
        }
        i := i + 1;
      }
      return Failure("Provider not found: " + name);
    }

    /** `set` on the provider at `i`: only that position of the chain changes. */
    method SetAt(i: nat, key: string, value: string, ghost before: seq<Store>) returns (answer: Result<bool>)
      requires Valid() && i < |providers| && before == Stores(providers)
      modifies providers[i]
      ensures Stores(providers) == before[i := StoreSet(before[i], key, value).0]
      ensures answer == StoreSet(before[i], key, value).1
    {
      answer := providers[i].Set(key, value);
    }

    /** The unnamed branch of `set`: the first provider whose `set` succeeds keeps the value. */
    method SetFirstWritable(key: string, value: string) returns (ok: bool)
      requires Valid()
      modifies providers
      ensures Stores(providers) == SetFrom(old(Stores(providers)), key, value).0
      ensures ok == SetFrom(old(Stores(providers)), key, value).1
    {
      ghost var ss := Stores(providers);
      ghost var done: seq<Store> := [];
      assert ss[0..] == ss;
      var i := 0;
      while i < |providers|
        invariant 0 <= i <= |providers| && |done| == i
        invariant Stores(providers) == done + ss[i..]
        invariant SetFrom(ss, key, value).0 == done + SetFrom(ss[i..], key, value).0
        invariant SetFrom(ss, key, value).1 == SetFrom(ss[i..], key, value).1
      {
        var answer := SetAt(i, key, value, done + ss[i..]);
        ghost var now := StoreSet(ss[i], key, value).0;
        SetSplice(ss, key, value, done, i);
        if answer == Success(true) {
          SetFromStop(ss, key, value, done, i);
          return true;
        }
        SetFromAdvance(ss, key, value, done, i);
        done := done + [now];
        i := i + 1;
      }
      return false;
    }

    method Delete(key: string) returns (deleted: bool)
      requires Valid()
      modifies this, providers
      ensures (Snap(), deleted) == DeleteSpec(old(Snap()), key)
    {
      cache := cache - {key};
      deleted := DeleteEverywhere(key);
    }

    /** `delete` on the provider at `i`: only that position of the chain changes. */
    method DeleteAt(i: nat, key: string, ghost before: seq<Store>) returns (answer: Result<bool>)
      requires Valid() && i < |providers| && before == Stores(providers)
      modifies providers[i]
      ensures Stores(providers) == before[i := StoreDelete(before[i], key).0]
      ensures answer == StoreDelete(before[i], key).1
    {
      answer := providers[i].Delete(key);
    }

    /** The loop of `delete`: every provider is asked, exceptions are skipped. */
    method DeleteEverywhere(key: string) returns (deleted: bool)
      requires Valid()
      modifies providers
      ensures Stores(providers) == DeletedAll(old(Stores(providers)), key)
      ensures deleted == AnyDeleted(old(Stores(providers)), key)
    {
      ghost var ss := Stores(providers);
      assert DeletedUpTo(ss, key, 0) == ss;
      deleted := false;
      var i := 0;
      while i < |providers|
        invariant 0 <= i <= |providers|
        invariant Stores(providers) == DeletedUpTo(ss, key, i)
        invariant deleted == AnyDeletedUpTo(ss, key, i)
      {
        ghost var cur := DeletedUpTo(ss, key, i);
        var answer := DeleteAt(i, key, cur);
        DeleteStep(ss, key, i, cur, Stores(providers), deleted, answer);
        deleted := deleted || answer == Success(true);
        i := i + 1;
      }
    }

    /** `list_keys`: the sorted, duplicate-free union of every provider's keys. */
    method ListKeys() returns (r: seq<string>)
      ensures forall k :: k in r <==> k in AllKeys(Stores(providers))
      ensures |r| == |AllKeys(Stores(providers))|
      ensures forall i, j :: 0 <= i < j < |r| ==> Sorting.LexLe(r[i], r[j])
    {
      var keys := CollectKeys();
      r := SortedKeys(keys);
    }

    /** The union loop of `list_keys`; providers that raise are skipped. */
    method CollectKeys() returns (keys: set<string>)
      ensures keys == AllKeys(Stores(providers))
    {
      ghost var ss := Stores(providers);
      keys := {};
      var i := 0;
      while i < |providers|
        invariant 0 <= i <= |providers|
        invariant keys + AllKeys(ss[i..]) == AllKeys(ss)
      {
        var found := providers[i].ListKeys();
        assert ss[i..][0] == ss[i] && ss[i..][1..] == ss[i + 1..];
        if found.Success? {
          keys := keys + found.value;
        }
        i := i + 1;
      }
    }

    method ClearCache()
      modifies this
      ensures cache == map[]
    {
      cache := map[];
    }
  }

  /** `sorted(keys)` on a set of names. */
  method SortedKeys(keys: set<string>) returns (r: seq<string>)
    ensures forall k :: k in r <==> k in keys
    ensures |r| == |keys|
    ensures forall i, j :: 0 <= i < j < |r| ==> Sorting.LexLe(r[i], r[j])
  {
    var xs: seq<string> := [];
    var rest := keys;
    while rest != {}
      invariant rest <= keys
      invariant forall k :: k in xs <==> k in keys && k !in rest
      invariant |xs| + |rest| == |keys|
      decreases |rest|
    {
      var k :| k in rest;
      xs := xs + [k];
      rest := rest - {k};
    }
    r := Sorting.SortStrings(xs);
    assert forall k :: k in r <==> k in multiset(xs) by {
      assert multiset(r) == multiset(xs);
    }
  }
}
