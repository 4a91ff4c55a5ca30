/** The TTL caches for secrets and scale sets.

    A lookup, the getter it may need and the store that follows are separate moments, with other operations in
    between.  Every operation carries the clock value it used.  The clock never runs backwards, but a lookup reads it
    after it has released the lock, and `Cleanup` before it takes it.
*/
module Cache {
  import opened Machine

  datatype Entry<V> = Entry(value: V, expiresAt: int)

  datatype Op<K, V> =
    | Lookup(key: K, now: int)
    | Store(key: K, value: V)
    | Invalidate(key: K)
    | Cleanup(now: int)

  /** An operation and the time at which it took effect. */
  datatype Event<K, V> = Event(at: int, op: Op<K, V>)

  // ---------------------------------------------------------------------------------------------
  // The cache as it is, and what a lookup means
  // ---------------------------------------------------------------------------------------------

  function Usable<K, V>(m: map<K, Entry<V>>, key: K, now: int): Option<V> {
    if key in m && now < m[key].expiresAt then Some(m[key].value) else None
  }

  function Purge<K, V>(m: map<K, Entry<V>>, now: int): map<K, Entry<V>> {
    map k <- m | !(now > m[k].expiresAt) :: m[k]
  }

  function Apply<K, V>(ttl: int, m: map<K, Entry<V>>, e: Event<K, V>): map<K, Entry<V>> {
    match e.op
    case Lookup(_, _) => m
    case Store(k, v) => m[k := Entry(v, e.at + ttl)]
    case Invalidate(k) => m - {k}
    case Cleanup(now) => Purge(m, now)
  }

  function Contents<K, V>(ttl: int, es: seq<Event<K, V>>): map<K, Entry<V>> {
    if es == [] then map[] else Apply(ttl, Contents(ttl, es[..|es| - 1]), es[|es| - 1])
  }

  /** The meaning of a lookup, from the history alone: the last store for the key, unless the key was invalidated
      since or the store is a TTL old.  Cleanup does not occur in it. */
  function Remembered<K(==), V>(ttl: int, es: seq<Event<K, V>>, key: K, now: int): Option<V> {
    if es == [] then None
    else
      var e, before := es[|es| - 1], es[..|es| - 1];
      match e.op
      case Store(k, v) => if k != key then Remembered(ttl, before, key, now)
                          else if now < e.at + ttl then Some(v) else None
      case Invalidate(k) => if k != key then Remembered(ttl, before, key, now) else None
      case _ => Remembered(ttl, before, key, now)
  }

  ghost predicate Timed<K, V>(es: seq<Event<K, V>>) {
    && (forall i, j :: 0 <= i < j < |es| ==> es[i].at <= es[j].at)
    && (forall i :: 0 <= i < |es| && es[i].op.Cleanup? ==> es[i].op.now <= es[i].at)
    && (forall i :: 0 <= i < |es| && es[i].op.Lookup? ==> es[i].at <= es[i].op.now)
  }

  /** Over every schedule the cache answers exactly what the history says. */
  lemma {:induction false} LookupMatchesHistory<K, V>(ttl: int, es: seq<Event<K, V>>, key: K, now: int)
    requires Timed(es) && forall i :: 0 <= i < |es| ==> es[i].at <= now
    ensures Usable(Contents(ttl, es), key, now) == Remembered(ttl, es, key, now)
  {
    if es != [] {
      LookupMatchesHistory(ttl, es[..|es| - 1], key, now);
    }
  }

  /** A hit is fresh, and only fresh stores hit: the value returned is the last one stored for that key, less than one
      TTL ago, with no invalidation since. */
  lemma {:induction false} HitIsFreshStore<K(!new), V(!new)>(ttl: int, es: seq<Event<K, V>>, key: K, now: int, v: V)
    requires Timed(es) && forall i :: 0 <= i < |es| ==> es[i].at <= now
    ensures Usable(Contents(ttl, es), key, now) == Some(v) <==> exists i :: FreshStore(ttl, es, key, now, v, i)
  {
    LookupMatchesHistory(ttl, es, key, now);
    if es != [] {
      var before := es[..|es| - 1];
      HitIsFreshStore(ttl, before, key, now, v);
      LookupMatchesHistory(ttl, before, key, now);
      forall i | 0 <= i < |before| ensures FreshStore(ttl, es, key, now, v, i) <==>
          FreshStore(ttl, before, key, now, v, i) && !Touches(es[|es| - 1], key)
      {
        assert forall j :: i < j < |before| ==> before[j] == es[j];
      }
      assert FreshStore(ttl, es, key, now, v, |before|) <==>
        es[|before|].op == Store(key, v) && now < es[|before|].at + ttl;
    }
  }

  predicate Touches<K(==), V>(e: Event<K, V>, key: K) {
    (e.op.Store? || e.op.Invalidate?) && e.op.key == key
  }

  ghost predicate FreshStore<K, V>(ttl: int, es: seq<Event<K, V>>, key: K, now: int, v: V, i: int) {
    && 0 <= i < |es| && es[i].op == Store(key, v) && now < es[i].at + ttl
    && forall j :: i < j < |es| ==> !Touches(es[j], key)
  }

  // ---------------------------------------------------------------------------------------------
  // Invalidations that come too early
  // ---------------------------------------------------------------------------------------------

  predicate Invalidated<K(==), V>(es: seq<Event<K, V>>, key: K, from: nat, to: nat) {
    exists j :: from < j < to && j < |es| && es[j].op.Invalidate? && es[j].op.key == key
  }

  /** `began[k]` is the lookup whose miss led to the store `k`: the value was fetched after it. */
  ghost predicate Fetched<K, V>(es: seq<Event<K, V>>, began: seq<nat>) {
    && |began| == |es|
    && forall k :: 0 <= k < |es| && es[k].op.Store? ==>
         began[k] < k && es[began[k]].op.Lookup? && es[began[k]].op.key == es[k].op.key
  }

  /** The key was invalidated since the lookup `from` exactly if it was before the store `k` that followed. */
  predicate OutlivesByRace<K(==), V>(es: seq<Event<K, V>>, key: K, from: nat, k: nat) {
    Invalidated(es, key, from, |es|) <==> Invalidated(es, key, from, k)
  }

  /** Over every schedule, the value of a hit may be older than the last invalidation of its key if and only if that
      invalidation fell into the fetch, between the lookup that missed and the store; an invalidation after the store
      would have prevented the hit. */
  lemma HitOutlivesInvalidation<K(!new), V(!new)>(ttl: int, es: seq<Event<K, V>>, began: seq<nat>, key: K, now: int,
                                                  v: V)
    requires Timed(es) && forall i :: 0 <= i < |es| ==> es[i].at <= now
    requires Fetched(es, began) && Usable(Contents(ttl, es), key, now) == Some(v)
    ensures exists k :: FreshStore(ttl, es, key, now, v, k) && OutlivesByRace(es, key, began[k], k)
  {
    HitIsFreshStore(ttl, es, key, now, v);
    var k: nat :| FreshStore(ttl, es, key, now, v, k);
    if Invalidated(es, key, began[k], |es|) {
      var j :| began[k] < j < |es| && es[j].op.Invalidate? && es[j].op.key == key;
      assert Touches(es[j], key);
      assert j != k;
    }
  }

  /** It does happen: the fetched value is stored after the invalidation and served from then on. */
  lemma InvalidationDuringFetch<K(!new), V(!new)>(ttl: int, key: K, v: V) returns (es: seq<Event<K, V>>)
    requires ttl > 0
    ensures Timed(es) && Fetched(es, [0, 0, 0]) && Invalidated(es, key, 0, |es|)
    ensures Usable(Contents(ttl, es), key, 0) == Some(v)
  {
    es := [Event(0, Lookup(key, 0)), Event(0, Invalidate(key)), Event(0, Store(key, v))];
    assert es[1].op.Invalidate? && es[1].op.key == key;
    assert FreshStore(ttl, es, key, 0, v, 2);
    HitIsFreshStore(ttl, es, key, 0, v);
  }

  // ---------------------------------------------------------------------------------------------
  // Cleanup is invisible
  // ---------------------------------------------------------------------------------------------

  function Erase<K, V>(es: seq<Event<K, V>>): seq<Event<K, V>> {
    if es == [] then []
    else Erase(es[..|es| - 1]) + if es[|es| - 1].op.Cleanup? then [] else [es[|es| - 1]]
  }

  /** What the lookups of a schedule answer, in order.  `None` is the decision to call the getter or read the secret. */
  function Answers<K(==), V>(ttl: int, es: seq<Event<K, V>>): seq<Option<V>> {
    if es == [] then []
    else
      var before, e := es[..|es| - 1], es[|es| - 1];
      Answers(ttl, before) +
        if e.op.Lookup? then [Usable(Contents(ttl, before), e.op.key, e.op.now)] else []
  }

  lemma {:induction false} EraseKeepsTime<K, V>(es: seq<Event<K, V>>, now: int)
    requires Timed(es) && forall i :: 0 <= i < |es| ==> es[i].at <= now
    ensures Timed(Erase(es)) && forall i :: 0 <= i < |Erase(es)| ==> Erase(es)[i].at <= now
  {
    if es != [] {
      EraseKeepsTime(es[..|es| - 1], es[|es| - 1].at);
    }
  }

  lemma {:induction false} EraseRemembers<K, V>(ttl: int, es: seq<Event<K, V>>, key: K, now: int)
    ensures Remembered(ttl, Erase(es), key, now) == Remembered(ttl, es, key, now)
  {
    if es != [] {
      EraseRemembers(ttl, es[..|es| - 1], key, now);
      var e := es[|es| - 1];
      if !e.op.Cleanup? {
        assert Erase(es)[..|Erase(es)| - 1] == Erase(es[..|es| - 1]);
      } else {
        assert Erase(es) == Erase(es[..|es| - 1]);
      }
    }
  }

  /** Inserting or deleting cleanups anywhere in a schedule changes no answer and no decision to fetch. */
  lemma {:induction false} CleanupIsInvisible<K, V>(ttl: int, es: seq<Event<K, V>>)
    requires Timed(es)
    ensures Answers(ttl, Erase(es)) == Answers(ttl, es)
  {
    if es != [] {
      var before, e := es[..|es| - 1], es[|es| - 1];
      CleanupIsInvisible(ttl, before);
      if !e.op.Cleanup? {
        assert Erase(es)[..|Erase(es)| - 1] == Erase(before);
        if e.op.Lookup? {
          EraseKeepsTime(before, e.op.now);
          LookupMatchesHistory(ttl, before, e.op.key, e.op.now);
          LookupMatchesHistory(ttl, Erase(before), e.op.key, e.op.now);
          EraseRemembers(ttl, before, e.op.key, e.op.now);
        }
      } else {
        assert Erase(es) == Erase(before);
      }
    }
  }

  // ---------------------------------------------------------------------------------------------
  // Secrets
  // ---------------------------------------------------------------------------------------------

  datatype NamespacedName = NamespacedName(namespace: string, name: string)

  datatype Config =
    | GitHubApp(clientID: string, installationID: int, privateKey: string)
    | PAT(token: string)

  datatype Result<+T> = Ok(value: T) | Err

  type SecretData = map<string, string>

  const APP_KEYS: set<string> := {"privateKey", "private_key", "key"}
  const PAT_KEYS: set<string> := {"token", "pat", "accessToken"}

  /** The key under which a secret is cached: the namespace is filled in when the reference has none. */
  function Resolve(namespace: string, ref: NamespacedName): NamespacedName {
    if ref.namespace == "" then NamespacedName(namespace, ref.name) else ref
  }

  /** Who reads a secret: for a GitHub App, with the IDs the caller passes, or for a token. */
  datatype Reader = AppReader(clientID: string, installationID: int) | PATReader

  function Accepted(r: Reader): set<string> { if r.AppReader? then APP_KEYS else PAT_KEYS }

  function Build(r: Reader, secret: string): Config {
    match r
    case AppReader(clientID, installationID) => GitHubApp(clientID, installationID, secret)
    case PATReader => PAT(secret)
  }

  /** What a direct read of the secret may return: any accepted key may be the one that map iteration meets first. */
  predicate Reads(data: SecretData, r: Reader, config: Config) {
    exists k <- Accepted(r) :: k in data && config == Build(r, data[k])
  }

  predicate Unambiguous(data: SecretData, r: Reader) {
    forall k <- Accepted(r), l <- Accepted(r) :: k in data && l in data ==> data[k] == data[l]
  }

  /** Direct reads of a secret always agree if and only if all accepted keys it has hold the same value. */
  lemma ReadsAgree(data: SecretData, r: Reader)
    ensures (forall a, b :: Reads(data, r, a) && Reads(data, r, b) ==> a == b) <==> Unambiguous(data, r)
  {
    if forall a, b :: Reads(data, r, a) && Reads(data, r, b) ==> a == b {
      forall k, l | k in Accepted(r) && l in Accepted(r) && k in data && l in data ensures data[k] == data[l] {
        assert Reads(data, r, Build(r, data[k])) && Reads(data, r, Build(r, data[l]));
      }
    }
  }

  /** With two accepted keys even two direct reads may differ. */
  lemma TwoKeysAreAmbiguous(c: string, i: int)
    ensures var data: SecretData := map["privateKey" := "old", "key" := "new"];
      && Reads(data, AppReader(c, i), GitHubApp(c, i, "old"))
      && Reads(data, AppReader(c, i), GitHubApp(c, i, "new"))
  {
    var r := AppReader(c, i);
    assert "privateKey" in Accepted(r) && "key" in Accepted(r);
  }

  /** The type assertion: a cached configuration serves a reader of its own kind only. */
  predicate Serves(config: Config, r: Reader) { config.GitHubApp? <==> r.AppReader? }

  lemma ReadersTell(data: SecretData, stored: Config, writer: Reader, direct: Config, r: Reader)
    requires Reads(data, writer, stored) && Reads(data, r, direct) && Unambiguous(data, writer) && Serves(stored, r)
    ensures stored == direct <==> writer == r
  {}

  /** The read behind a store. */
  datatype Source = NoRead | Read(data: SecretData, reader: Reader)

  ghost predicate Sourced(es: seq<Event<NamespacedName, Config>>, sources: seq<Source>) {
    && |sources| == |es|
    && forall k :: 0 <= k < |es| && es[k].op.Store? ==>
         sources[k].Read? && Reads(sources[k].data, sources[k].reader, es[k].op.value)
  }

  lemma SourcedPush(es: seq<Event<NamespacedName, Config>>, sources: seq<Source>,
                    e: Event<NamespacedName, Config>, src: Source)
    requires Sourced(es, sources)
    requires e.op.Store? ==> src.Read? && Reads(src.data, src.reader, e.op.value)
    ensures Sourced(es + [e], sources + [src])
  {}

  /** A direct read of `src`'s secret by `r`, at the time of `src`, returns `v` exactly if `r` is who read it then. */
  ghost predicate AgreesAt(src: Source, r: Reader, v: Config) {
    src.Read? && forall direct :: Reads(src.data, r, direct) ==> (v == direct <==> src.reader == r)
  }

  /** Secret hits over every schedule: a hit is the last store for that secret, less than a TTL old and not invalidated
      since, and it is what the reader would have read itself at that time if and only if the store came from a reader
      with the same client and installation IDs; the cache key contains neither. */
  lemma SecretHitAgreesWithRead(ttl: int, es: seq<Event<NamespacedName, Config>>, sources: seq<Source>,
                                key: NamespacedName, now: int, r: Reader, v: Config)
    requires Timed(es) && forall i :: 0 <= i < |es| ==> es[i].at <= now
    requires Sourced(es, sources)
    requires forall src <- sources :: src.Read? ==> Unambiguous(src.data, src.reader)
    requires Usable(Contents(ttl, es), key, now) == Some(v) && Serves(v, r)
    ensures exists k :: FreshStore(ttl, es, key, now, v, k) && AgreesAt(sources[k], r, v)
  {
    HitIsFreshStore(ttl, es, key, now, v);
    var k :| FreshStore(ttl, es, key, now, v, k);
    var src := sources[k];
    forall direct | Reads(src.data, r, direct) ensures v == direct <==> src.reader == r {
      ReadersTell(src.data, v, src.reader, direct, r);
    }
    assert AgreesAt(sources[k], r, v);
  }

  /** A reference without a namespace means the caller's own: it is cached where a full reference to that namespace is,
      so one name in two namespaces never shares an entry. */
  lemma OwnNamespace(a: string, b: string, other: string, name: string)
    ensures Resolve(a, NamespacedName("", name)) == NamespacedName(a, name)
    ensures a != "" ==> Resolve(other, NamespacedName(a, name)) == NamespacedName(a, name)
    ensures a != b ==> Resolve(a, NamespacedName("", name)) != Resolve(b, NamespacedName("", name))
  {}

  /** After the invalidation of a full reference, a lookup in that namespace misses whether or not it gives the
      namespace, and lookups of other entries are as before. */
  lemma InvalidatedMisses(ttl: int, m: map<NamespacedName, Entry<Config>>, namespace: string, name: string, at: int,
                          now: int, other: NamespacedName)
    ensures var m' := Apply(ttl, m, Event(at, Invalidate(NamespacedName(namespace, name))));
      && Usable(m', Resolve(namespace, NamespacedName("", name)), now).None?
      && Usable(m', NamespacedName(namespace, name), now).None?
      && (other != NamespacedName(namespace, name) ==> Usable(m', other, now) == Usable(m, other, now))
  {}

  /** Which entries of a secret count, by name. */
  lemma AcceptedNames(k: string, clientID: string, installationID: int)
    ensures k in Accepted(AppReader(clientID, installationID)) <==> k == "privateKey" || k == "private_key" || k == "key"
    ensures k in Accepted(PATReader) <==> k == "token" || k == "pat" || k == "accessToken"
  {}

  /** Invalidating a reference makes lookups through it miss, provided the reference names its namespace; otherwise it
      leaves the entry that those lookups use. */
  lemma InvalidationReachesEntry(ttl: int, m: map<NamespacedName, Entry<Config>>, namespace: string,
                                 ref: NamespacedName, at: int, now: int)
    requires Usable(m, Resolve(namespace, ref), now).Some?
    ensures var m' := Apply(ttl, m, Event(at, Invalidate(ref)));
      Usable(m', Resolve(namespace, ref), now).None? <==> ref.namespace != "" || namespace == ""
  {}

  // ---------------------------------------------------------------------------------------------
  // The object
  // ---------------------------------------------------------------------------------------------

  datatype ScaleSet = ScaleSet(id: int, name: string)

  class TTLCache {
    const secretTTL: int := 300
    const scaleSetTTL: int := 60
    var secretCache: map<NamespacedName, Entry<Config>>
    var scaleSetCache: map<int, Entry<ScaleSet>>
    ghost var secretLog: seq<Event<NamespacedName, Config>>
    ghost var scaleSetLog: seq<Event<int, ScaleSet>>
    ghost var sources: seq<Source>

    /** The maps are what the logged operations leave, and every stored secret came from a read, so everything proved
        above of schedules holds of them. */
    ghost predicate Valid()
      reads this
    {
      && secretCache == Contents(secretTTL, secretLog) && scaleSetCache == Contents(scaleSetTTL, scaleSetLog)
      && Sourced(secretLog, sources)
    }

    constructor ()
      ensures Valid() && secretLog == [] && scaleSetLog == []
    {
      secretCache, scaleSetCache, secretLog, scaleSetLog, sources := map[], map[], [], [], [];
    }

    lemma Logged<K, V>(ttl: int, es: seq<Event<K, V>>, e: Event<K, V>)
      ensures Contents(ttl, es + [e]) == Apply(ttl, Contents(ttl, es), e)
    {
      assert (es + [e])[..|es|] == es;
    }

    /** Any number of operations of other goroutines. */
    method Others(rounds: nat)
      requires Valid()
      modifies this
      ensures Valid() && old(secretLog) <= secretLog && old(scaleSetLog) <= scaleSetLog
    {
      for i := 0 to rounds
        invariant Valid() && old(secretLog) <= secretLog && old(scaleSetLog) <= scaleSetLog
      {
        OtherOperation();
      }
    }

    method OtherOperation()
      requires Valid()
      modifies this
      ensures Valid() && old(secretLog) <= secretLog && old(scaleSetLog) <= scaleSetLog
    {
      var at: int, now: int, choice: int := *, *, *;
      var ref: NamespacedName, id: int, scaleSet: ScaleSet := *, *, *;
      if choice == 0 {
        Cleanup(now, at);
      } else if choice == 1 {
        InvalidateSecret(ref, at);
      } else if choice == 2 {
        InvalidateScaleSet(id, at);
      } else if choice == 3 {
        StoreScaleSet(id, scaleSet, at);
      } else if choice == 4 {
        LogScaleSetLookup(id, at, now);
      } else if choice == 5 {
        LogLookup(ref, at, now);
      } else {
        StoreOther(ref, at);
      }
    }

    method StoreOther(key: NamespacedName, at: int)
      requires Valid()
      modifies this`secretCache, this`secretLog, this`sources
      ensures Valid() && old(secretLog) <= secretLog
    {
      var data: SecretData, name: string, reader: Reader := *, *, *;
      if name in data && name in Accepted(reader) {
        StoreSecret(key, Build(reader, data[name]), at, Read(data, reader));
      }
    }

    /** `fetched` is what the getter returns if it is called; `storeAt` is the clock when its value is stored.  Other
        goroutines run while the getter does. */
    method GetScaleSet(id: int, ghost lookupAt: int, now: int, fetched: Result<ScaleSet>, storeAt: int)
        returns (result: Result<ScaleSet>, called: bool)
      requires Valid()
      modifies this
      ensures Valid()
      ensures called <==> Usable(old(scaleSetCache), id, now).None?
      ensures !called ==> result == Ok(Usable(old(scaleSetCache), id, now).value)
      ensures called ==> result == fetched
      ensures Logs(old(scaleSetLog), scaleSetLog, Event(lookupAt, Lookup(id, now)), called,
                   if fetched.Ok? then Some(Event(storeAt, Store(id, fetched.value))) else None)
      ensures called && fetched.Ok? ==> id in scaleSetCache && scaleSetCache[id] == Entry(fetched.value, storeAt + 60)
    {
      LogScaleSetLookup(id, lookupAt, now);
      if id in scaleSetCache && now < scaleSetCache[id].expiresAt {
        return Ok(scaleSetCache[id].value), false;
      }
      var rounds: nat := *;
      Others(rounds);
      if fetched.Err? {
        return Err, true;
      }
      StoreScaleSet(id, fetched.value, storeAt);
      return fetched, true;
    }

    ghost method LogScaleSetLookup(id: int, at: int, now: int)
      requires Valid()
      modifies this`scaleSetLog
      ensures Valid() && scaleSetLog == old(scaleSetLog) + [Event(at, Lookup(id, now))]
    {
      Logged(scaleSetTTL, scaleSetLog, Event(at, Lookup(id, now)));
      scaleSetLog := scaleSetLog + [Event(at, Lookup(id, now))];
    }

    method StoreScaleSet(id: int, scaleSet: ScaleSet, at: int)
      requires Valid()
      modifies this`scaleSetCache, this`scaleSetLog
      ensures Valid() && scaleSetLog == old(scaleSetLog) + [Event(at, Store(id, scaleSet))]
      ensures scaleSetCache == old(scaleSetCache)[id := Entry(scaleSet, at + 60)]
    {
      scaleSetCache := scaleSetCache[id := Entry(scaleSet, at + scaleSetTTL)];
      Logged(scaleSetTTL, scaleSetLog, Event(at, Store(id, scaleSet)));
      scaleSetLog := scaleSetLog + [Event(at, Store(id, scaleSet))];
    }

    /** `secret` is what the API returns if it is asked. */
    method GetGitHubAppConfig(namespace: string, ref: NamespacedName, clientID: string, installationID: int,
                              ghost lookupAt: int, now: int, secret: Result<SecretData>, storeAt: int)
        returns (result: Result<Config>, asked: bool)
      requires Valid()
      modifies this
      ensures Valid()
      ensures var key := if ref.namespace == "" then NamespacedName(namespace, ref.name) else ref;
        var hit := Usable(old(secretCache), key, now);
        && (asked <==> !(hit.Some? && hit.value.GitHubApp?))
        && (!asked ==> result == Ok(hit.value))
      ensures asked ==> ReadOutcome(secret, AppReader(clientID, installationID), result)
      ensures asked && result.Ok? ==> secret.Ok?
      ensures asked && result.Ok? ==> exists k <- secret.value ::
        k in {"privateKey", "private_key", "key"} && result.value == GitHubApp(clientID, installationID, secret.value[k])
      ensures asked && result.Err? && secret.Ok? ==> {"privateKey", "private_key", "key"} !! secret.value.Keys
      ensures var key := if ref.namespace == "" then NamespacedName(namespace, ref.name) else ref;
        && Logs(old(secretLog), secretLog, Event(lookupAt, Lookup(key, now)), asked,
                if result.Ok? then Some(Event(storeAt, Store(key, result.value))) else None)
        && (asked && result.Ok? ==> key in secretCache && secretCache[key] == Entry(result.value, storeAt + 300))
    {
      var key := ref;
      if ref.namespace == "" {
        key := NamespacedName(namespace, ref.name);
      }
      LogLookup(key, lookupAt, now);
      if key in secretCache && now < secretCache[key].expiresAt && secretCache[key].value.GitHubApp? {
        return Ok(secretCache[key].value), false;
      }
      var rounds: nat := *;
      Others(rounds);
      if secret.Err? {
        return Err, true;
      }
      var keyName := FirstKey(secret.value, APP_KEYS, "privateKey");
      if keyName !in secret.value {
        return Err, true;
      }
      var config := GitHubApp(clientID, installationID, secret.value[keyName]);
      StoreSecret(key, config, storeAt, Read(secret.value, AppReader(clientID, installationID)));
      return Ok(config), true;
    }

    method GetPATConfig(namespace: string, ref: NamespacedName, ghost lookupAt: int, now: int,
                        secret: Result<SecretData>, storeAt: int)
        returns (result: Result<Config>, asked: bool)
      requires Valid()
      modifies this
      ensures Valid()
      ensures var key := if ref.namespace == "" then NamespacedName(namespace, ref.name) else ref;
        var hit := Usable(old(secretCache), key, now);
        && (asked <==> !(hit.Some? && hit.value.PAT?))
        && (!asked ==> result == Ok(hit.value))
      ensures asked ==> ReadOutcome(secret, PATReader, result)
      ensures asked && result.Ok? ==> secret.Ok?
      ensures asked && result.Ok? ==> exists k <- secret.value ::
        k in {"token", "pat", "accessToken"} && result.value == PAT(secret.value[k])
      ensures asked && result.Err? && secret.Ok? ==> {"token", "pat", "accessToken"} !! secret.value.Keys
      ensures var key := if ref.namespace == "" then NamespacedName(namespace, ref.name) else ref;
        && Logs(old(secretLog), secretLog, Event(lookupAt, Lookup(key, now)), asked,
                if result.Ok? then Some(Event(storeAt, Store(key, result.value))) else None)
        && (asked && result.Ok? ==> key in secretCache && secretCache[key] == Entry(result.value, storeAt + 300))
    {
      var key := ref;
      if ref.namespace == "" {
        key := NamespacedName(namespace, ref.name);
      }
      LogLookup(key, lookupAt, now);
      if key in secretCache && now < secretCache[key].expiresAt && secretCache[key].value.PAT? {
        return Ok(secretCache[key].value), false;
      }
      var rounds: nat := *;
      Others(rounds);
      if secret.Err? {
        return Err, true;
      }
      var keyName := FirstKey(secret.value, PAT_KEYS, "token");
      if keyName !in secret.value {
        return Err, true;
      }
      var config := PAT(secret.value[keyName]);
      StoreSecret(key, config, storeAt, Read(secret.value, PATReader));
      return Ok(config), true;
    }

    ghost method LogSecret(e: Event<NamespacedName, Config>, source: Source)
      requires secretCache == Apply(secretTTL, Contents(secretTTL, secretLog), e) && Sourced(secretLog, sources)
      requires e.op.Store? ==> source.Read? && Reads(source.data, source.reader, e.op.value)
      modifies this`secretLog, this`sources
      ensures secretCache == Contents(secretTTL, secretLog) && Sourced(secretLog, sources)
      ensures secretLog == old(secretLog) + [e]
    {
      Logged(secretTTL, secretLog, e);
      SourcedPush(secretLog, sources, e, source);
      secretLog, sources := secretLog + [e], sources + [source];
    }

    ghost method LogLookup(key: NamespacedName, at: int, now: int)
      requires Valid()
      modifies this`secretLog, this`sources
      ensures Valid() && secretLog == old(secretLog) + [Event(at, Lookup(key, now))]
    {
      LogSecret(Event(at, Lookup(key, now)), NoRead);
    }

    method StoreSecret(key: NamespacedName, config: Config, at: int, ghost source: Source)
      requires Valid() && source.Read? && Reads(source.data, source.reader, config)
      modifies this`secretCache, this`secretLog, this`sources
      ensures Valid() && secretLog == old(secretLog) + [Event(at, Store(key, config))]
      ensures secretCache == old(secretCache)[key := Entry(config, at + 300)]
    {
      secretCache := secretCache[key := Entry(config, at + secretTTL)];
      LogSecret(Event(at, Store(key, config)), source);
    }

    /** The loop over the secret's keys: the first accepted one in whatever order the map yields them. */
    static method FirstKey(data: SecretData, accepted: set<string>, default: string) returns (keyName: string)
      ensures keyName in accepted * data.Keys || (keyName == default && accepted !! data.Keys)
    {
      keyName := default;
      var todo := data.Keys;
      while todo != {}
        invariant todo <= data.Keys && accepted !! data.Keys - todo && keyName == default
        decreases todo
      {
        var k :| k in todo;
        if k in accepted {
          return k;
        }
        todo := todo - {k};
      }
    }

    method InvalidateSecret(ref: NamespacedName, ghost at: int)
      requires Valid()
      modifies this`secretCache, this`secretLog, this`sources
      ensures Valid() && secretLog == old(secretLog) + [Event(at, Invalidate(ref))]
      ensures secretCache == old(secretCache) - {ref}
    {
      secretCache := secretCache - {ref};
      LogSecret(Event(at, Invalidate(ref)), NoRead);
    }

    method InvalidateScaleSet(id: int, ghost at: int)
      requires Valid()
      modifies this`scaleSetCache, this`scaleSetLog
      ensures Valid() && scaleSetLog == old(scaleSetLog) + [Event(at, Invalidate(id))]
      ensures scaleSetCache == old(scaleSetCache) - {id}
    {
      scaleSetCache := scaleSetCache - {id};
      Logged(scaleSetTTL, scaleSetLog, Event(at, Invalidate(id)));
      scaleSetLog := scaleSetLog + [Event(at, Invalidate(id))];
    }

    method Cleanup(now: int, ghost at: int)
      requires Valid()
      modifies this
      ensures Valid()
      ensures secretLog == old(secretLog) + [Event(at, Op.Cleanup(now))]
      ensures scaleSetLog == old(scaleSetLog) + [Event(at, Op.Cleanup(now))]
      ensures forall k :: k in secretCache <==> k in old(secretCache) && now <= old(secretCache)[k].expiresAt
      ensures forall k :: k in scaleSetCache <==> k in old(scaleSetCache) && now <= old(scaleSetCache)[k].expiresAt
      ensures forall k <- secretCache :: secretCache[k] == old(secretCache)[k]
      ensures forall k <- scaleSetCache :: scaleSetCache[k] == old(scaleSetCache)[k]
    {
      secretCache := RemoveExpired(secretCache, now);
      scaleSetCache := RemoveExpired(scaleSetCache, now);
      LogSecret(Event(at, Op.Cleanup(now)), NoRead);
      Logged(scaleSetTTL, scaleSetLog, Event(at, Op.Cleanup(now)));
      scaleSetLog := scaleSetLog + [Event(at, Op.Cleanup(now))];
    }

    /** One loop of `Cleanup`. */
    static method RemoveExpired<K(==), V>(m: map<K, Entry<V>>, now: int) returns (r: map<K, Entry<V>>)
      ensures r == Purge(m, now)
    {
      r := m;
      var todo := m.Keys;
      while todo != {}
        invariant todo <= m.Keys
        invariant r == map k <- m | k in todo || !(now > m[k].expiresAt) :: m[k]
        decreases todo
      {
        var k :| k in todo;
        if now > m[k].expiresAt {
          r := r - {k};
        }
        todo := todo - {k};
      }
    }
  }

  /** A read that had to ask the API: some accepted key's value, or an error when there is none. */
  ghost predicate ReadOutcome(secret: Result<SecretData>, r: Reader, result: Result<Config>) {
    if secret.Ok? && Accepted(r) * secret.value.Keys != {}
    then result.Ok? && Reads(secret.value, r, result.value)
    else result.Err?
  }

  /** What one call leaves in the log: its lookup, and after a miss whatever others did meanwhile and then its store, if
      there is something to store. */
  ghost predicate Logs<K, V>(before: seq<Event<K, V>>, after: seq<Event<K, V>>, looked: Event<K, V>, missed: bool,
                             stored: Option<Event<K, V>>)
  {
    if !missed then after == before + [looked]
    else if stored.None? then before + [looked] <= after
    else |after| > |before| + 1 && before + [looked] <= after[..|after| - 1] && after[|after| - 1] == stored.value
  }
}
