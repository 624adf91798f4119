/** The signing-key cache: the published key set, the cached one, and each decision taken between two awaits. */
module KeyCache {
  import opened Basics

  datatype Configuration = Configuration(issuer: string, jwksUri: string)

  datatype SigningKey = SigningKey(material: string)

  /** One entry of a published key set; an entry that cannot be parsed has no key. */
  datatype Entry = Entry(kid: Option<string>, key: Option<SigningKey>)

  type KeySet = map<string, SigningKey>

  datatype Policy = Policy(cacheSeconds: real, minRefreshSeconds: real)

  datatype Cache = Cache(configuration: Option<Configuration>, keys: KeySet, fetchedAt: real)

  // ------------------------------------------------------------ reading a published key set

  predicate Usable(entry: Entry, kid: string) {
    kid != "" && entry.kid == Some(kid) && entry.key.Some?
  }

  function KeySetOf(entries: seq<Entry>): KeySet {
    if entries == [] then map[]
    else
      var keys, entry := KeySetOf(entries[..|entries| - 1]), entries[|entries| - 1];
      if entry.kid.Some? && Usable(entry, entry.kid.value) then keys[entry.kid.value := entry.key.value] else keys
  }

  /** The entry that counts for a key id: the last usable one that carries it. */
  predicate Counts(entries: seq<Entry>, kid: string, i: nat) {
    && kid != ""
    && i < |entries| && entries[i].kid == Some(kid) && entries[i].key.Some?
    && forall j :: i < j < |entries| && entries[j].kid == Some(kid) ==> entries[j].key.None?
  }

  /** A key id is cached exactly when some usable entry carries it, with the last such entry's key. */
  lemma {:induction false} KeySetExact(entries: seq<Entry>, kid: string)
    ensures kid in KeySetOf(entries) <==> exists i: nat :: Counts(entries, kid, i)
    ensures forall i: nat :: Counts(entries, kid, i) ==>
              kid in KeySetOf(entries) && KeySetOf(entries)[kid] == entries[i].key.value
  {
    if entries == [] {
    } else {
      var n := |entries| - 1;
      var init := entries[..n];
      KeySetExact(init, kid);
      if Usable(entries[n], kid) {
        assert Counts(entries, kid, n);
      } else {
        forall i: nat
          ensures Counts(entries, kid, i) <==> Counts(init, kid, i)
        {
          if Counts(init, kid, i) {
            assert forall j :: i < j < n ==> init[j] == entries[j];
          }
          if Counts(entries, kid, i) {
            assert init[i] == entries[i];
          }
        }
      }
    }
  }

  predicate AnyUsable(entries: seq<Entry>) {
    exists i :: 0 <= i < |entries| && entries[i].kid.Some? && Usable(entries[i], entries[i].kid.value)
  }

  /** A document without a usable entry is the one thing that yields no key set. */
  lemma {:induction false} KeySetEmptyIff(entries: seq<Entry>)
    ensures KeySetOf(entries) == map[] <==> !AnyUsable(entries)
  {
    if entries == [] {
    } else {
      var init, last := entries[..|entries| - 1], entries[|entries| - 1];
      KeySetEmptyIff(init);
      if AnyUsable(init) {
        var i :| 0 <= i < |init| && init[i].kid.Some? && Usable(init[i], init[i].kid.value);
        assert entries[i] == init[i];
      }
      if last.kid.Some? && Usable(last, last.kid.value) {
        assert last.kid.value in KeySetOf(entries);
      } else if AnyUsable(entries) {
        var i :| 0 <= i < |entries| && entries[i].kid.Some? && Usable(entries[i], entries[i].kid.value);
        assert init[i] == entries[i];
      }
    }
  }

  /** The document publishes this key under this id. */
  ghost predicate Publishes(entries: seq<Entry>, kid: string, key: SigningKey) {
    exists i: nat :: Counts(entries, kid, i) && entries[i].key == Some(key)
  }

  lemma KeySetPublishes(entries: seq<Entry>, kid: string)
    ensures kid in KeySetOf(entries) ==> Publishes(entries, kid, KeySetOf(entries)[kid])
    ensures kid !in KeySetOf(entries) ==> forall key :: !Publishes(entries, kid, key)
  {
    KeySetExact(entries, kid);
  }

  // ------------------------------------------------------------ the decisions

  datatype Lookup = Hit(key: SigningKey) | Miss | Contend

  predicate Expired(c: Cache, p: Policy, now: real) {
    now - c.fetchedAt >= p.cacheSeconds
  }

  /** Both checks of `_cached_key`, before the lock and under it: an answer, or the need to refresh. */
  function CachedKey(c: Cache, p: Policy, kid: string, now: real): Lookup {
    if c.keys == map[] || Expired(c, p, now) then Contend
    else if kid in c.keys then Hit(c.keys[kid])
    else Miss
  }

  /** Under the lock for an unknown key id: present after all, refreshed too recently, or time to refresh. */
  function UnknownKey(c: Cache, p: Policy, kid: string, now: real): Lookup {
    if kid in c.keys then Hit(c.keys[kid])
    else if now - c.fetchedAt < p.minRefreshSeconds then Miss
    else Contend
  }

  /** A fetched document replaces the cached set, unless it holds no usable key. */
  function Refreshed(c: Cache, entries: seq<Entry>, now: real): Option<Cache> {
    if KeySetOf(entries) == map[] then None else Some(c.(keys := KeySetOf(entries), fetchedAt := now))
  }

  class KeySource {
    const policy: Policy
    var configuration: Option<Configuration>
    var keys: KeySet
    var keysFetchedAt: real

    /** The document behind the cached set. */
    ghost var published: seq<Entry>

    ghost predicate Valid()
      reads this
    {
      keys == KeySetOf(published)
    }

    function View(): Cache
      reads this
    {
      Cache(configuration, keys, keysFetchedAt)
    }

    constructor (policy: Policy)
      ensures Valid() && this.policy == policy && View() == Cache(None, map[], 0.0)
    {
      this.policy := policy;
      configuration, keys, keysFetchedAt := None, map[], 0.0;
      published := [];
    }

    /** Answers only from an unexpired set, and with what the document behind it publishes. */
    method CheckCached(kid: string, now: real) returns (r: Lookup)
      requires Valid()
      ensures r == CachedKey(View(), policy, kid, now)
      ensures r.Hit? ==> Publishes(published, kid, r.key) && now - keysFetchedAt < policy.cacheSeconds
      ensures r.Miss? ==> AnyUsable(published) && (forall key :: !Publishes(published, kid, key)) && now - keysFetchedAt < policy.cacheSeconds
      ensures r.Contend? <==> !AnyUsable(published) || now - keysFetchedAt >= policy.cacheSeconds
    {
      KeySetPublishes(published, kid);
      KeySetEmptyIff(published);
      var expired := now - keysFetchedAt >= policy.cacheSeconds;
      if keys != map[] && !expired {
        if kid in keys {
          return Hit(keys[kid]);
        }
        return Miss;
      }
      r := Contend;
    }

    /** Refuses, or allows a refresh, only for an id the document does not publish; the refresh limit decides which. */
    method CheckUnknown(kid: string, now: real) returns (r: Lookup)
      requires Valid()
      ensures r == UnknownKey(View(), policy, kid, now)
      ensures r.Hit? ==> Publishes(published, kid, r.key)
      ensures !r.Hit? ==> forall key :: !Publishes(published, kid, key)
      ensures !r.Hit? ==> (r.Contend? <==> now - keysFetchedAt >= policy.minRefreshSeconds)
    {
      KeySetPublishes(published, kid);
      if kid in keys {
        return Hit(keys[kid]);
      }
      if now - keysFetchedAt < policy.minRefreshSeconds {
        return Miss;
      }
      r := Contend;
    }

    /** Called once the discovery document has arrived, by a task that found none stored. */
    method StoreConfiguration(c: Configuration)
      requires Valid() && configuration.None?
      modifies this`configuration
      ensures Valid() && configuration == Some(c)
    {
      configuration := Some(c);
    }

    /** The tail of `_refresh_keys`, once the document has arrived. */
    method RefreshKeys(entries: seq<Entry>, now: real) returns (ok: bool)
      requires Valid()
      modifies this`keys, this`keysFetchedAt, this`published
      ensures Valid()
      ensures ok <==> AnyUsable(entries)
      ensures published == if ok then entries else old(published)
      ensures match Refreshed(old(View()), entries, now)
              case Some(c) => ok && View() == c
              case None => !ok && View() == old(View())
    {
      var usable: KeySet := map[];
      var i := 0;
      while i < |entries|
        invariant 0 <= i <= |entries|
        invariant usable == KeySetOf(entries[..i])
        invariant View() == old(View()) && published == old(published)
      {
        var entry := entries[i];
        assert entries[..i + 1][..i] == entries[..i];
        if entry.kid.Some? && entry.kid.value != "" {
          if entry.key.Some? {
            usable := usable[entry.kid.value := entry.key.value];
          }
        }
        i := i + 1;
      }
      assert entries[..i] == entries;
      KeySetEmptyIff(entries);
      if usable == map[] {
        return false;
      }
      keys, keysFetchedAt := usable, now;
      published := entries;
      ok := true;
    }
  }
}
