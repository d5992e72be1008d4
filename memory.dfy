/**
  The in-process memory driver: a map from keys to items, each item holding the
  encoded value bytes, the tags given at `Set` and an absolute expiry time.

  Time is an integer count of nanoseconds; every operation that reads the clock
  takes the current time as the parameter `now`. Encoding a value (gob, then gzip)
  and decoding it back are supplied by the caller as the functions `encode` and
  `decode`; the driver itself never looks inside the bytes except in
  `Increment`/`Decrement`, which parse them as decimal text.
*/
module MemoryDriver {
  import opened Wrappers
  import opened Strconv

  /** One stored entry. Tags are kept as given: in order, duplicates included. */
  datatype Item = Item(value: seq<byte>, tags: seq<string>, expiryTime: int)

  datatype MemError =
    | ErrNotFound    // the package-level "not found" error of `Get`
    | EncodeFailed   // gob encoding or gzip compression of the value failed in `Set`
    | DecodeFailed   // gunzip or gob decoding of the stored bytes failed in `Get`
    | KeyNotFound    // "key not found" of `Increment`/`Decrement`
    | NotAnInteger   // "value is not an integer" of `Increment`/`Decrement`

  /** `ExpiryTime.Before(now)`: an item whose expiry equals `now` is still current. */
  predicate Expired(item: Item, now: int) { item.expiryTime < now }

  /** What `Get` and `Exists` report as a hit. */
  predicate Live(items: map<string, Item>, key: string, now: int)
  {
    key in items && !Expired(items[key], now)
  }

  /** The map after `RemoveByTag(tag)`: every entry carrying `tag` is gone, expired or not. */
  function WithoutTag(items: map<string, Item>, tag: string): (r: map<string, Item>)
    ensures r.Keys <= items.Keys
    ensures forall k :: k in r ==> r[k] == items[k]
  {
    map k | k in items && tag !in items[k].tags :: items[k]
  }

  /** The map after `RemoveByTags(tags)`: `RemoveByTag` applied for each tag, in order. */
  function WithoutTags(items: map<string, Item>, tags: seq<string>): (r: map<string, Item>)
    ensures r.Keys <= items.Keys
    ensures forall k :: k in r ==> r[k] == items[k]
  {
    if tags == [] then items
    else WithoutTag(WithoutTags(items, tags[..|tags| - 1]), tags[|tags| - 1])
  }

  /** The entries none of whose tags is in `tags`. */
  function Untagged(items: map<string, Item>, tags: seq<string>): (r: map<string, Item>)
    ensures forall k :: k in r <==> k in items && forall t :: t in tags ==> t !in items[k].tags
  {
    map k | k in items && (forall t :: t in tags ==> t !in items[k].tags) :: items[k]
  }

  /** The keys `GetKeysByTag(tag)` reports. */
  ghost function TaggedKeys(items: map<string, Item>, tag: string): (r: set<string>)
    ensures r <= items.Keys
  {
    set k | k in items && tag in items[k].tags
  }

  /**
    `RemoveByTags` is a filter: an entry survives exactly when it carries none of the
    tags, whatever their order; no tags means nothing is removed.
  */
  lemma {:induction false} WithoutTagsIsUntagged(items: map<string, Item>, tags: seq<string>)
    ensures WithoutTags(items, tags) == Untagged(items, tags)
  {
    if tags != [] {
      var init, last := tags[..|tags| - 1], tags[|tags| - 1];
      WithoutTagsIsUntagged(items, init);
      forall t ensures t in tags <==> t in init || t == last {
        assert tags == init + [last];
      }
    } else {
      assert Untagged(items, tags) == items;
    }
  }

  /** Only the set of tags matters to `RemoveByTags`, not their order or repetition. */
  lemma WithoutTagsOrderIrrelevant(items: map<string, Item>, tags: seq<string>, others: seq<string>)
    requires forall t :: t in tags <==> t in others
    ensures WithoutTags(items, tags) == WithoutTags(items, others)
  {
    WithoutTagsIsUntagged(items, tags);
    WithoutTagsIsUntagged(items, others);
  }

  /** `RemoveByTag` deletes exactly the keys `GetKeysByTag` reports for the same tag. */
  lemma WithoutTagRemovesTaggedKeys(items: map<string, Item>, tag: string)
    ensures WithoutTag(items, tag).Keys == items.Keys - TaggedKeys(items, tag)
  {
  }

  /** Removing a tag twice is the same as removing it once. */
  lemma WithoutTagIdempotent(items: map<string, Item>, tag: string)
    ensures WithoutTag(WithoutTag(items, tag), tag) == WithoutTag(items, tag)
  {
  }

  /**
    After storing `value` with time-to-live `ttl` at time `stored`, the key is a hit
    at every time up to and including `stored + ttl`, holds exactly those bytes, and
    no other key changed.
  */
  lemma {:induction false} StoredIsLive(items: map<string, Item>, key: string, value: seq<byte>,
                                        ttl: int, tags: seq<string>, stored: int, now: int)
    requires now <= stored + ttl
    ensures Live(items[key := Item(value, tags, stored + ttl)], key, now)
    ensures items[key := Item(value, tags, stored + ttl)][key].value == value
    ensures forall k :: k != key ==>
      (Live(items[key := Item(value, tags, stored + ttl)], k, now) <==> Live(items, k, now))
  {
  }

  /**
    `Increment`/`Decrement` as evidently intended: decode the stored value with the
    codec `Set` and `Get` use, add `delta` with Go's 64-bit wrap-around, re-encode and
    store it back, keeping the tags and the expiry time.
  */
  function Adjusted(items: map<string, Item>, key: string, delta: int,
                    decodeInt: seq<byte> -> Option<int>, encodeInt: int -> seq<byte>)
    : (r: Result<map<string, Item>, MemError>)
    ensures key !in items <==> r == Failure(KeyNotFound)
    ensures r.Success? ==> r.value.Keys == items.Keys
    ensures r.Success? ==> forall k :: k in items && k != key ==> r.value[k] == items[k]
    ensures r.Success? ==> r.value[key].tags == items[key].tags
    ensures r.Success? ==> r.value[key].expiryTime == items[key].expiryTime
    ensures key in items ==> (r.Success? <==> decodeInt(items[key].value).Some?)
    ensures r.Failure? ==> r.error in {KeyNotFound, NotAnInteger}
  {
    if key !in items then Failure(KeyNotFound)
    else match decodeInt(items[key].value)
      case None => Failure(NotAnInteger)
      case Some(n) => Success(items[key := items[key].(value := encodeInt(Wrap64(n + delta)))])
  }

  /** With a codec that round-trips integers, a `Get` after the corrected update decodes n + delta. */
  lemma AdjustedThenGet(items: map<string, Item>, key: string, delta: int, n: int, now: int,
                        decodeInt: seq<byte> -> Option<int>, encodeInt: int -> seq<byte>)
    requires forall v :: decodeInt(encodeInt(v)) == Some(v)
    requires key in items && decodeInt(items[key].value) == Some(n)
    ensures Adjusted(items, key, delta, decodeInt, encodeInt).Success?
    ensures decodeInt(Adjusted(items, key, delta, decodeInt, encodeInt).value[key].value) == Some(Wrap64(n + delta))
    ensures Live(Adjusted(items, key, delta, decodeInt, encodeInt).value, key, now) <==> Live(items, key, now)
  {
  }

  /** A tag search that stops at the first match. */
  method ContainsTag(tags: seq<string>, tag: string) returns (found: bool)
    ensures found <==> tag in tags
  {
    var i := 0;
    while i < |tags|
      invariant 0 <= i <= |tags|
      invariant forall j :: 0 <= j < i ==> tags[j] != tag
    {
      if tags[i] == tag {
        return true;
      }
      i := i + 1;
    }
    return false;
  }

  /** The driver instance: the item map, updated in place by the writing operations. */
  class Memory {
    var items: map<string, Item>

    /** `New`: an empty store. */
    constructor ()
      ensures items == map[]
    {
      items := map[];
    }

    /**
      Stores the encoded value under `key` with expiry `now + ttl`, replacing any
      previous item and leaving every other key alone. When encoding fails nothing
      is stored.
    */
    method Set<T>(key: string, value: T, ttl: int, tags: seq<string>, now: int,
                  encode: T -> Option<seq<byte>>) returns (r: Outcome<MemError>)
      modifies this
      ensures encode(value).None? ==> r == Fail(EncodeFailed) && items == old(items)
      ensures encode(value).Some? ==>
        r == Pass && items == old(items)[key := Item(encode(value).value, tags, now + ttl)]
    {
      var bytes := encode(value);
      if bytes.None? {
        return Fail(EncodeFailed);
      }
      items := items[key := Item(bytes.value, tags, now + ttl)];
      return Pass;
    }

    /**
      A miss (`ErrNotFound`) exactly when the key is absent or its item expired
      before `now`; otherwise the decoded value, or `DecodeFailed`. Expired items are
      not deleted (the method changes nothing).
    */
    method Get<T>(key: string, now: int, decode: seq<byte> -> Option<T>) returns (r: Result<T, MemError>)
      ensures r == Failure(ErrNotFound) <==> !Live(items, key, now)
      ensures r.Success? <==> Live(items, key, now) && decode(items[key].value).Some?
      ensures r.Success? ==> decode(items[key].value) == Some(r.value)
      ensures r.Failure? ==> r.error in {ErrNotFound, DecodeFailed}
    {
      if key !in items || Expired(items[key], now) {
        return Failure(ErrNotFound);
      }
      var decoded := decode(items[key].value);
      if decoded.None? {
        return Failure(DecodeFailed);
      }
      return Success(decoded.value);
    }

    /** Deletes `key` if present; always succeeds. */
    method Remove(key: string) returns (r: Outcome<MemError>)
      modifies this
      ensures r == Pass
      ensures items == old(items) - {key}
    {
      items := items - {key};
      return Pass;
    }

    /**
      Deletes every entry whose tag list contains `tag`, expired or not, visiting the
      keys of the map in an unspecified order.
    */
    method RemoveByTag(tag: string) returns (r: Outcome<MemError>)
      modifies this
      ensures r == Pass
      ensures items == WithoutTag(old(items), tag)
    {
      var pending := items.Keys;
      while pending != {}
        invariant pending <= old(items).Keys
        invariant items == map k | k in old(items) && (k in pending || tag !in old(items)[k].tags) :: old(items)[k]
        decreases pending
      {
        var key :| key in pending;
        var tagged := ContainsTag(items[key].tags, tag);
        if tagged {
          items := items - {key};
        }
        pending := pending - {key};
      }
      return Pass;
    }

    /** `RemoveByTag` for each tag in turn; never fails. */
    method RemoveByTags(tags: seq<string>) returns (r: Outcome<MemError>)
      modifies this
      ensures r == Pass
      ensures items == WithoutTags(old(items), tags)
    {
      var i := 0;
      while i < |tags|
        invariant 0 <= i <= |tags|
        invariant items == WithoutTags(old(items), tags[..i])
      {
        // RemoveByTag never fails, so the early return on its error cannot happen.
        var _ := RemoveByTag(tags[i]);
        assert tags[..i + 1][..i] == tags[..i];
        i := i + 1;
      }
      assert tags[..i] == tags;
      return Pass;
    }

    /** `(true, nil)` exactly when `Get` would hit; the error is always nil. */
    method Exists(key: string, now: int) returns (found: bool)
      ensures found <==> Live(items, key, now)
    {
      found := key in items && !Expired(items[key], now);
    }

    /**
      As written: "key not found" when the key is absent (expiry is not checked),
      "value is not an integer" when the stored bytes are not `Atoi` text, and nil
      otherwise. The incremented text goes into a copy of the item that is never
      stored, so the map is unchanged in every case.
    */
    method Increment(key: string) returns (r: Outcome<MemError>)
      ensures key !in items <==> r == Fail(KeyNotFound)
      ensures key in items ==> (r == Pass <==> Atoi(items[key].value).Some?)
      ensures r.Fail? ==> r.error in {KeyNotFound, NotAnInteger}
    {
      if key !in items {
        return Fail(KeyNotFound);
      }
      var item := items[key];
      var parsed := Atoi(item.value);
      if parsed.None? {
        return Fail(NotAnInteger);
      }
      item := item.(value := Itoa(Wrap64(parsed.value + 1)));
      return Pass;
    }

    /** Like `Increment`, subtracting one; the map is likewise unchanged. */
    method Decrement(key: string) returns (r: Outcome<MemError>)
      ensures key !in items <==> r == Fail(KeyNotFound)
      ensures key in items ==> (r == Pass <==> Atoi(items[key].value).Some?)
      ensures r.Fail? ==> r.error in {KeyNotFound, NotAnInteger}
    {
      if key !in items {
        return Fail(KeyNotFound);
      }
      var item := items[key];
      var parsed := Atoi(item.value);
      if parsed.None? {
        return Fail(NotAnInteger);
      }
      item := item.(value := Itoa(Wrap64(parsed.value - 1)));
      return Pass;
    }

    /**
      Every key whose tag list contains `tag`, each once, expired ones included, in
      the map's unspecified iteration order.
    */
    method GetKeysByTag(tag: string) returns (keys: seq<string>)
      ensures forall k :: k in keys <==> k in items && tag in items[k].tags
      ensures forall i, j :: 0 <= i < j < |keys| ==> keys[i] != keys[j]
    {
      keys := [];
      var pending := items.Keys;
      while pending != {}
        invariant pending <= items.Keys
        invariant forall k :: k in keys <==> k in items && k !in pending && tag in items[k].tags
        invariant forall i, j :: 0 <= i < j < |keys| ==> keys[i] != keys[j]
        decreases pending
      {
        var key :| key in pending;
        var tagged := ContainsTag(items[key].tags, tag);
        if tagged {
          keys := keys + [key];
        }
        pending := pending - {key};
      }
    }

    /** Replaces the map by an empty one; always succeeds. */
    method Flush() returns (r: Outcome<MemError>)
      modifies this
      ensures r == Pass && items == map[]
    {
      items := map[];
      return Pass;
    }
  }

  /**
    A write followed by reads: the value comes back unchanged at any time up to the
    expiry, and is a miss afterwards.
  */
  method SetThenGet<T>(store: Memory, key: string, value: T, ttl: int, tags: seq<string>, now: int,
                       later: int, encode: T -> Option<seq<byte>>, decode: seq<byte> -> Option<T>)
    returns (r: Result<T, MemError>)
    requires encode(value).Some? && decode(encode(value).value) == Some(value)
    modifies store
    ensures later <= now + ttl ==> r == Success(value)
    ensures later > now + ttl ==> r == Failure(ErrNotFound)
  {
    var _ := store.Set(key, value, ttl, tags, now, encode);
    r := store.Get(key, later, decode);
  }

  /**
    `Increment` on a value written by `Set`: the stored bytes are a gzip stream, whose
    first byte is 0x1f, so `Atoi` rejects them and the call fails even though the key
    is present and current; nothing changes.
  */
  method SetThenIncrement<T>(store: Memory, key: string, value: T, ttl: int, tags: seq<string>,
                             now: int, encode: T -> Option<seq<byte>>)
    returns (r: Outcome<MemError>)
    requires encode(value).Some? && |encode(value).value| > 0 && encode(value).value[0] == 0x1f
    modifies store
    ensures r == Fail(NotAnInteger)
    ensures store.items == old(store.items)[key := Item(encode(value).value, tags, now + ttl)]
  {
    var _ := store.Set(key, value, ttl, tags, now, encode);
    NonDecimalStart(encode(value).value);
    r := store.Increment(key);
  }
}
