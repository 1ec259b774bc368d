/** What single cache operations do to what a reader gets: how long an entry answers, what is too
  * big for it, and what a deletion or an invalidation takes. */
module CacheEffects {
  import opened Basics
  import opened Cache
  import Coverage

  predicate LivesAt<V>(s: Store<V>, k: string, later: nat) { Live(s.(now := s.now + later), k) }

  lemma AddToTagsLeaves<V>(s: Store<V>, tags: seq<string>, member: string, ttl: int, k: string)
    requires !IsTagKey(k)
    ensures var s' := AddToTags(s, tags, member, ttl);
            s'.now == s.now && (k in s'.cells <==> k in s.cells) && (k in s.cells ==> s'.cells[k] == s.cells[k])
  {
    Coverage.AddToTagsElsewhere(s, tags, member, ttl, k);
  }

  // What is set answers for its TTL in seconds, to the millisecond, and under no other key; more
  // than 256 KiB is not stored at all, and no TTL means no entry.
  lemma StoredForItsTtl<V>(s: Store<V>, key: string, payload: V, bytes: nat, ttl: int, tags: seq<string>,
                           other: string, later: nat)
    requires Plain(key) && Plain(other)
    ensures var s' := Put(s, key, payload, bytes, ttl, tags);
      && s'.now == s.now
      && (bytes > 262_144 ==> s' == s)
      && (bytes <= 262_144 && ttl > 0 ==>
            Lookup(s'.(now := s'.now + later), key) == if later < ttl * 1000 then Some(payload) else None)
      && (other != key || ttl <= 0 ==> Lookup(s', other) == Lookup(s, other))
  {
    Coverage.EntryKeyIsTagKey(key);
    Coverage.EntryKeyIsTagKey(other);
    Coverage.KeyInjective(key, other);
    AddToTagsLeaves(WriteEntry(s, key, payload, ttl, tags), tags, EntryKey(key), ttl * 2, EntryKey(key));
    AddToTagsLeaves(WriteEntry(s, key, payload, ttl, tags), tags, EntryKey(key), ttl * 2, EntryKey(other));
  }

  predicate Lists<V>(s: Store<V>, tag: string, k: string) {
    var tk := TagKey(tag);
    Live(s, tk) && s.cells[tk].value.Members? && k in s.cells[tk].value.keys
  }

  lemma {:induction false} TagsList<V>(s: Store<V>, tags: seq<string>, member: string, ttl: int, tag: string)
    requires ttl > 0 && tag in tags
    requires TagKey(tag) in s.cells ==> s.cells[TagKey(tag)].value.Members?
    ensures var s' := AddToTags(s, tags, member, ttl);
            s'.now == s.now && TagKey(tag) in s'.cells && s'.cells[TagKey(tag)].value.Members?
            && member in s'.cells[TagKey(tag)].value.keys && s'.cells[TagKey(tag)].expires == s.now + ttl * SECOND
    ensures TagKey(tag) in AddToTags(s, tags, member, ttl).cells
  {
    var last := |tags| - 1;
    if tags[last] == tag {
      TagsShape(s, tags[..last], member, ttl, tag);
    } else {
      assert tag in tags[..last];
      TagsList(s, tags[..last], member, ttl, tag);
      if TagKey(tags[last]) == TagKey(tag) { Coverage.TagKeyInjective(tags[last], tag); }
    }
  }

  lemma {:induction false} TagsShape<V>(s: Store<V>, tags: seq<string>, member: string, ttl: int, tag: string)
    requires ttl > 0 && (TagKey(tag) in s.cells ==> s.cells[TagKey(tag)].value.Members?)
    ensures var s' := AddToTags(s, tags, member, ttl);
            s'.now == s.now && (TagKey(tag) in s'.cells ==> s'.cells[TagKey(tag)].value.Members?)
  {
    if tags != [] { TagsShape(s, tags[..|tags| - 1], member, ttl, tag); }
  }

  // And each of its tags lists it for exactly twice that long from the write.
  lemma ListedForTwiceItsTtl<V>(s: Store<V>, key: string, payload: V, bytes: nat, ttl: int, tags: seq<string>,
                                tag: string, later: nat)
    requires Plain(key) && ttl > 0 && bytes <= 262_144 && tag in tags
    requires TagKey(tag) in s.cells ==> s.cells[TagKey(tag)].value.Members?
    ensures var s' := Put(s, key, payload, bytes, ttl, tags);
      Lists(s'.(now := s'.now + later), tag, EntryKey(key)) <==> later < 2 * ttl * 1000
  {
    Coverage.EntryKeyIsTagKey(key);
    assert IsTagKey(TagKey(tag));
    TagsList(WriteEntry(s, key, payload, ttl, tags), tags, EntryKey(key), ttl * 2, tag);
  }

  // A deletion takes the entries it names and nothing else.
  lemma DeletedIsGone<V>(s: Store<V>, keys: seq<string>, key: string)
    ensures Lookup(Delete(s, keys), key) == if key in keys then None else Lookup(s, key)
    ensures Delete(s, keys).now == s.now
    ensures forall k | k in s.cells && !(exists d | d in keys :: k == EntryKey(d)) ::
              k in Delete(s, keys).cells && Delete(s, keys).cells[k] == s.cells[k]
  {
    if EntryKey(key) !in Delete(s, keys).cells && EntryKey(key) in s.cells {
      var d :| d in keys && EntryKey(d) == EntryKey(key);
      Coverage.KeyInjective(d, key);
    }
  }

  // One tag's invalidation takes exactly the entries its set lists, and the set.
  lemma InvalidatedIsGone<V>(s: Store<V>, tag: string, k: string)
    requires TagReadable(s, tag)
    ensures k in DropTag(s, tag).cells <==> k in s.cells && k != TagKey(tag) && !Lists(s, tag, k)
    ensures k in DropTag(s, tag).cells ==> DropTag(s, tag).cells[k] == s.cells[k]
  {
  }

  // Round trip by round trip: reading the set, deleting its members if there are any, deleting the
  // set, and on to the next tag. What a lost connection cuts off is not done, and nothing else.
  lemma CutInvalidation<V>(s: Store<V>, tag: string, rest: seq<string>, answered: nat)
    requires TagReadable(s, tag)
    ensures var s', listed := InvalidateUpTo(s, [tag] + rest, answered), set k | k in s.cells && Lists(s, tag, k);
            var members := if Live(s, TagKey(tag)) then s.cells[TagKey(tag)].value.keys else {};
            var trips := if members == {} then 2 else 3;
      && (answered <= 1 ==> s' == s)
      && (answered == 2 && trips == 3 ==> s' == s.(cells := s.cells - listed))
      && (answered >= trips ==>
            s' == InvalidateUpTo(s.(cells := s.cells - listed - {TagKey(tag)}), rest, answered - trips))
  {
    assert ([tag] + rest)[1..] == rest;
    var members := MembersOf(s, tag);
    var listed := set k | k in s.cells && Lists(s, tag, k);
    assert s.cells - members == s.cells - listed;
    assert members == {} ==> s.cells - listed == s.cells;
  }

  // The lifetimes in use, in seconds.
  lemma TtlsInUse(tag: string)
    ensures TtlsOf(tag) == if "component:" <= tag then {120} else if tag == "search:semantic" then {300} else {30}
  {
  }
}
