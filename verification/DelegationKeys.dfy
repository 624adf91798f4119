/** Upload tickets and the delegation key that signs them: the time arithmetic of the cache. */
module DelegationKeys {
  import opened Basics

  /** A key as asked for: valid between these two instants. */
  datatype DelegationKey = DelegationKey(start: real, expiry: real)

  datatype Settings = Settings(configured: bool, sasTtl: real, keyTtl: real, skew: real)

  /** A write-only upload permission, and the key it was signed with. */
  datatype Ticket = Ticket(startsAt: real, expiresAt: real, key: DelegationKey)

  datatype Cache = Cache(key: Option<DelegationKey>, usableUntil: real)

  /** The cached key may sign a new ticket for a request made at this instant. */
  predicate Usable(c: Cache, now: real) {
    c.key.Some? && now < c.usableUntil
  }

  /** The validity asked for when a request at `now` has to fetch a key. */
  function KeyAskedAt(s: Settings, now: real): DelegationKey {
    DelegationKey(now - s.skew, now + s.keyTtl)
  }

  /** The key is retired a full ticket lifetime before it expires. */
  function Renewed(s: Settings, now: real): Cache {
    Cache(Some(KeyAskedAt(s, now)), now + s.keyTtl - s.sasTtl)
  }

  function Sign(s: Settings, requestedAt: real, key: DelegationKey): Ticket {
    Ticket(requestedAt - s.skew, requestedAt + s.sasTtl, key)
  }

  class ReceiptBlobStore {
    const settings: Settings
    var key: Option<DelegationKey>
    var keyUsableUntil: real

    /** A cached key is retired a full ticket lifetime before it expires. */
    ghost predicate Valid()
      reads this
    {
      key.Some? ==> keyUsableUntil == key.value.expiry - settings.sasTtl
    }

    function View(): Cache
      reads this
    {
      Cache(key, keyUsableUntil)
    }

    constructor (settings: Settings, dawn: real)
      ensures Valid() && this.settings == settings && View() == Cache(None, dawn)
    {
      this.settings := settings;
      key, keyUsableUntil := None, dawn;
    }

    /** The check made before the lock and again under it: only a key that outlives a ticket signed now. */
    method CheckKey(now: real) returns (r: Option<DelegationKey>)
      requires Valid()
      ensures r.Some? ==> r == key && now + settings.sasTtl < r.value.expiry
      ensures r.None? ==> key.None? || key.value.expiry <= now + settings.sasTtl
    {
      if key.Some? && now < keyUsableUntil {
        return key;
      }
      r := None;
    }

    /** The end of `_delegation_key` once the fetch has come back, or not. */
    method FetchReturned(now: real, fetched: bool) returns (r: Option<DelegationKey>)
      requires Valid()
      modifies this`key, this`keyUsableUntil
      ensures Valid()
      ensures fetched ==> r.Some? && r == key && r.value.start + settings.skew == now == r.value.expiry - settings.keyTtl
      ensures fetched ==> forall later :: Usable(View(), later) <==> later + settings.sasTtl < now + settings.keyTtl
      ensures !fetched ==> r.None? && View() == old(View())
    {
      if !fetched {
        return None;
      }
      var expiry := now + settings.keyTtl;
      key := Some(DelegationKey(now - settings.skew, expiry));
      keyUsableUntil := expiry - settings.sasTtl;
      r := key;
    }
  }
}
