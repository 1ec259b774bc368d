/** The JSON cache over Redis: entries with a TTL, and one Redis set per tag that
  * lists the entries to drop when the tag is invalidated. */
module Cache {
  import opened Basics

  const MAX_PAYLOAD_BYTES := 256 * 1024
  const SECOND := 1000

  // The services share one Redis. TTLs in seconds, one for each kind of tag.
  const SESSION_TTL := 30
  const PUBLIC_TTL := 120
  const FEED_TTL := 30
  const SEARCH_TTL := 300

  function TtlsOf(tag: string): set<int> {
    if "component:" <= tag then {PUBLIC_TTL}
    else if tag == "search:semantic" then {SEARCH_TTL}
    else {FEED_TTL, SESSION_TTL}
  }

  datatype Value<V> = Blob(payload: V) | Members(keys: set<string>)

  // `labels` is a history variable: the tags passed to the `set` that wrote the
  // entry. No operation reads it; the claims about tags are stated with it.
  datatype Cell<V> = Cell(value: Value<V>, expires: int, labels: set<string>)

  // Times are milliseconds on the Redis server's clock.
  datatype Store<V> = Store(cells: map<string, Cell<V>>, now: int)

  function EntryKey(key: string): string { "cache:" + key }

  function TagKey(tag: string): string { "cache:tag:" + tag }

  predicate IsTagKey(k: string) { "cache:tag:" <= k }

  // A cache key that cannot be mistaken for a tag set.
  predicate Plain(key: string) { !("tag:" <= key) }

  predicate Live<V>(s: Store<V>, k: string) {
    k in s.cells && s.now < s.cells[k].expires
  }

  // GET: a missing, expired or non-string key all read as a miss.
  function Lookup<V>(s: Store<V>, key: string): Option<V> {
    var k := EntryKey(key);
    if Live(s, k) && s.cells[k].value.Blob? then Some(s.cells[k].value.payload) else None
  }

  // SADD then EXPIRE of one tag set, inside the MULTI block. SADD fails on a string
  // key without stopping the block; EXPIRE with a non-positive TTL deletes the key.
  function AddToTag<V>(s: Store<V>, tag: string, member: string, ttl: int): Store<V> {
    var k := TagKey(tag);
    var cell :=
      if !Live(s, k) then Cell(Members({member}), s.now, {})
      else match s.cells[k].value
        case Blob(_) => s.cells[k]
        case Members(keys) => s.cells[k].(value := Members(keys + {member}));
    if ttl <= 0 then s.(cells := s.cells - {k})
    else s.(cells := s.cells[k := cell.(expires := s.now + ttl * SECOND)])
  }

  function AddToTags<V>(s: Store<V>, tags: seq<string>, member: string, ttl: int): Store<V> {
    if tags == [] then s
    else
      var last := |tags| - 1;
      AddToTag(AddToTags(s, tags[..last], member, ttl), tags[last], member, ttl)
  }

  function LabelSet(tags: seq<string>): set<string> { set t | t in tags }

  // SET ... EX: rejected by Redis when the TTL is not positive.
  function WriteEntry<V>(s: Store<V>, key: string, payload: V, ttl: int, tags: seq<string>): Store<V> {
    if ttl <= 0 then s
    else s.(cells := s.cells[EntryKey(key) := Cell(Blob(payload), s.now + ttl * SECOND, LabelSet(tags))])
  }

  function Put<V>(s: Store<V>, key: string, payload: V, bytes: nat, ttl: int, tags: seq<string>): Store<V> {
    if bytes > MAX_PAYLOAD_BYTES then s
    else AddToTags(WriteEntry(s, key, payload, ttl, tags), tags, EntryKey(key), ttl * 2)
  }

  function Delete<V>(s: Store<V>, keys: seq<string>): Store<V> {
    s.(cells := s.cells - set k | k in keys :: EntryKey(k))
  }

  // SMEMBERS raises on a string key, which abandons the remaining tags.
  predicate TagReadable<V>(s: Store<V>, tag: string) {
    Live(s, TagKey(tag)) ==> s.cells[TagKey(tag)].value.Members?
  }

  function DropTag<V>(s: Store<V>, tag: string): Store<V>
    requires TagReadable(s, tag)
  {
    var k := TagKey(tag);
    s.(cells := s.cells - (if Live(s, k) then s.cells[k].value.keys else {}) - {k})
  }

  function Invalidate<V>(s: Store<V>, tags: seq<string>): Store<V>
    decreases |tags|
  {
    if tags == [] || !TagReadable(s, tags[0]) then s
    else Invalidate(DropTag(s, tags[0]), tags[1..])
  }

  // The keys SMEMBERS returns.
  function MembersOf<V>(s: Store<V>, tag: string): set<string>
    requires TagReadable(s, tag)
  {
    if Live(s, TagKey(tag)) then s.cells[TagKey(tag)].value.keys else {}
  }

  // The connection is lost after `answered` round trips: SMEMBERS, DEL of the members if there
  // are any, DEL of the set, and on to the next tag.
  function InvalidateUpTo<V>(s: Store<V>, tags: seq<string>, answered: nat): Store<V>
    decreases |tags|
  {
    if tags == [] || answered == 0 || !TagReadable(s, tags[0]) then s
    else
      var members := MembersOf(s, tags[0]);
      var s1 := if members != {} && answered > 1 then s.(cells := s.cells - members) else s;
      var spent := if members != {} then 2 else 1;
      if answered <= spent then s1
      else InvalidateUpTo(s1.(cells := s1.cells - {TagKey(tags[0])}), tags[1..], answered - spent - 1)
  }

  // None: the connection holds.
  function InvalidateWhile<V>(s: Store<V>, tags: seq<string>, answered: Option<nat>): Store<V> {
    if answered.None? then Invalidate(s, tags) else InvalidateUpTo(s, tags, answered.value)
  }

  lemma {:induction false} InvalidateUpToAll<V>(s: Store<V>, tags: seq<string>, answered: nat)
    requires answered >= 3 * |tags|
    ensures InvalidateUpTo(s, tags, answered) == Invalidate(s, tags)
    decreases |tags|
  {
    if tags != [] && TagReadable(s, tags[0]) {
      var members := MembersOf(s, tags[0]);
      var s1 := DropTag(s, tags[0]);
      assert members == {} ==> s.cells - members == s.cells;
      InvalidateUpToAll(s1, tags[1..], answered - (if members != {} then 3 else 2));
    }
  }

  // ── The service, statement by statement ────────────────────────────────────

  // `up` says whether Redis answers; every operation fails open when it does not.
  class CacheService<V> {
    var store: Store<V>

    constructor (now: int)
      ensures store == Store(map[], now)
    {
      store := Store(map[], now);
    }

    method Get(key: string, up: bool) returns (hit: Option<V>)
      ensures hit == if up then Lookup(store, key) else None
    {
      hit := None;
      if up {
        var k := EntryKey(key);
        if Live(store, k) && store.cells[k].value.Blob? { hit := Some(store.cells[k].value.payload); }
      }
    }

    method Set(key: string, payload: V, bytes: nat, ttl: int, tags: seq<string>, up: bool)
      modifies this
      ensures store == if up then Put(old(store), key, payload, bytes, ttl, tags) else old(store)
    {
      if bytes > MAX_PAYLOAD_BYTES || !up { return; }
      ghost var was := store;
      if ttl > 0 {
        store := store.(cells := store.cells[EntryKey(key) :=
          Cell(Blob(payload), store.now + ttl * SECOND, LabelSet(tags))]);
      }
      ghost var written := store;
      for i := 0 to |tags|
        invariant store == AddToTags(written, tags[..i], EntryKey(key), ttl * 2)
      {
        assert tags[..i + 1][..i] == tags[..i];
        store := AddToTag(store, tags[i], EntryKey(key), ttl * 2);
      }
      assert tags[..|tags|] == tags;
    }

    method Del(keys: seq<string>, up: bool)
      modifies this
      ensures store == if up then Delete(old(store), keys) else old(store)
    {
      if keys == [] || !up {
        assert old(store).cells - (set k | k in keys[..0] :: EntryKey(k)) == old(store).cells;
        return;
      }
      store := store.(cells := store.cells - set k | k in keys :: EntryKey(k));
    }

    // An error on any round trip, a lost connection included, abandons the rest.
    method InvalidateTags(tags: seq<string>, answered: Option<nat>)
      modifies this
      ensures store == InvalidateWhile(old(store), tags, answered)
    {
      var left := if answered.Some? then answered.value else 3 * |tags|;
      if answered.None? { InvalidateUpToAll(store, tags, left); }
      var i := 0;
      while i < |tags|
        invariant 0 <= i <= |tags| && left >= 0
        invariant InvalidateUpTo(store, tags[i..], left) == InvalidateWhile(old(store), tags, answered)
      {
        assert tags[i..][1..] == tags[i + 1..];
        var k := TagKey(tags[i]);
        if left == 0 { return; }
        left := left - 1;
        var members := {};
        if Live(store, k) {
          if store.cells[k].value.Blob? { return; }
          members := store.cells[k].value.keys;
        }
        if members != {} {
          if left == 0 { return; }
          left := left - 1;
          store := store.(cells := store.cells - members);
        }
        if left == 0 { return; }
        left := left - 1;
        store := store.(cells := store.cells - {k});
        i := i + 1;
      }
    }

    // Read-through: `loaded` is what the loader returns; None (null) is not cached.
    // Redis may fail the read, the store, or both.
    method Wrap(key: string, loaded: Option<V>, bytes: nat, ttl: int, tags: seq<string>, readUp: bool, storeUp: bool)
      returns (r: Option<V>)
      modifies this
      ensures readUp && Lookup(old(store), key).Some? ==> r == Lookup(old(store), key) && store == old(store)
      ensures !(readUp && Lookup(old(store), key).Some?) ==>
                && r == loaded
                && store == if storeUp && loaded.Some? then Put(old(store), key, loaded.value, bytes, ttl, tags)
                            else old(store)
    {
      r := Get(key, readUp);
      if r.Some? { return; }
      r := loaded;
      if loaded.Some? { Set(key, loaded.value, bytes, ttl, tags, storeUp); }
    }
  }
}
