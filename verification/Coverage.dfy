/** When tag invalidation is complete: every live entry is listed by a live tag set for
  * each of its tags, in every run, exactly when the TTLs sharing a tag are compatible. */
module Coverage {
  import opened Basics
  import opened Cache

  // One atomic round trip to Redis, or the clock moving on. `Drop` stands for `del`
  // and for Redis losing an entry at any moment.
  datatype Op<V> =
    | Write(key: string, payload: V, bytes: nat, ttl: int, tags: seq<string>)
    | Drop(key: string)
    | InvalidateAll(tags: seq<string>)
    | InvalidateSome(tags: seq<string>, answered: nat)   // cut off by a lost connection
    | Tick(elapsed: nat)

  function Apply<V>(s: Store<V>, op: Op<V>): Store<V> {
    match op
    case Write(key, payload, bytes, ttl, tags) => Put(s, key, payload, bytes, ttl, tags)
    case Drop(key) => Delete(s, [key])
    case InvalidateAll(tags) => Invalidate(s, tags)
    case InvalidateSome(tags, answered) => InvalidateUpTo(s, tags, answered)
    case Tick(elapsed) => s.(now := s.now + elapsed)
  }

  function Run<V>(ops: seq<Op<V>>): Store<V> {
    if ops == [] then Store(map[], 0) else Apply(Run(ops[..|ops| - 1]), ops[|ops| - 1])
  }

  // The TTLs entries of a tag are written with.
  type Ttls = string -> set<int>

  predicate Allowed<V>(op: Op<V>, ttls: Ttls) {
    match op
    case Write(key, _, _, ttl, tags) => Plain(key) && forall t | t in tags :: ttl in ttls(t)
    case Drop(key) => Plain(key)
    case _ => true
  }

  predicate AllowedRun<V>(ops: seq<Op<V>>, ttls: Ttls) {
    forall i | 0 <= i < |ops| :: Allowed(ops[i], ttls)
  }

  // Entries of different tags need not agree.
  ghost predicate Compatible(ttls: Ttls) {
    forall t, a, b | a in ttls(t) && b in ttls(t) :: a > 0 ==> a <= 2 * b
  }

  predicate Lists<V>(s: Store<V>, tag: string, k: string) {
    var tk := TagKey(tag);
    Live(s, tk) && s.cells[tk].value.Members? && k in s.cells[tk].value.keys
  }

  predicate Covered<V>(s: Store<V>) {
    forall k, t | k in s.cells && t in s.cells[k].labels :: Live(s, k) ==> Lists(s, t, k)
  }

  // ── The inductive invariant ────────────────────────────────────────────────

  predicate Backed<V>(s: Store<V>, tag: string, k: string)
    requires k in s.cells
  {
    var tk := TagKey(tag);
    tk in s.cells && s.cells[tk].value.Members? && k in s.cells[tk].value.keys
    && s.cells[k].expires <= s.cells[tk].expires
  }

  predicate Shaped<V>(s: Store<V>) {
    && (forall k | k in s.cells :: IsTagKey(k) <==> s.cells[k].value.Members?)
    && (forall k | k in s.cells :: s.cells[k].value.Members? ==> s.cells[k].labels == {})
    && (forall k, m | k in s.cells && s.cells[k].value.Members? && m in s.cells[k].value.keys :: !IsTagKey(m))
  }

  // No live entry can outlast one of its tag sets renewed now with any of that tag's TTLs.
  predicate Short<V>(s: Store<V>, ttls: Ttls) {
    forall k, t | k in s.cells && t in s.cells[k].labels && Live(s, k) ::
      Within(s.cells[k].expires, s.now, ttls(t))
  }

  predicate Within(expires: int, now: int, ttls: set<int>) {
    forall b | b in ttls :: expires <= now + b * 2 * SECOND
  }

  // Coverage, except that entry `k0` is so far only listed under the tags in `done`.
  predicate BackedExcept<V>(s: Store<V>, k0: string, done: set<string>) {
    forall k, t | k in s.cells && t in s.cells[k].labels ::
      Live(s, k) && (k == k0 ==> t in done) ==> Backed(s, t, k)
  }

  predicate Inv<V>(s: Store<V>, ttls: Ttls) {
    Shaped(s) && Short(s, ttls)
    && forall k, t | k in s.cells && t in s.cells[k].labels :: Live(s, k) ==> Backed(s, t, k)
  }

  lemma TagKeyInjective(a: string, b: string)
    requires TagKey(a) == TagKey(b)
    ensures a == b
  {
    assert TagKey(a)[10..] == a && TagKey(b)[10..] == b;
  }

  // The two key spaces meet only at cache keys that begin with "tag:".
  lemma EntryKeyIsTagKey(key: string)
    ensures IsTagKey(EntryKey(key)) <==> !Plain(key)
  {
    var k := EntryKey(key);
    assert k[6..] == key && "cache:tag:"[6..] == "tag:";
    if IsTagKey(k) {
      assert k[..10][6..] == k[6..][..4];
      assert k[6..][..4] == "tag:";
    }
    if !Plain(key) {
      assert k[..10] == "cache:" + key[..4];
    }
  }

  lemma AddToTagKeeps<V>(s: Store<V>, ttls: Ttls, tag: string, k0: string, b: int, done: set<string>)
    requires Shaped(s) && Short(s, ttls) && BackedExcept(s, k0, done)
    requires b in ttls(tag)
    requires k0 in s.cells && s.cells[k0].value.Blob?
    ensures var s' := AddToTag(s, tag, k0, b * 2);
            Shaped(s') && Short(s', ttls) && BackedExcept(s', k0, done + {tag})
            && k0 in s'.cells && s'.cells[k0].value.Blob?
  {
    var tk := TagKey(tag);
    var s' := AddToTag(s, tag, k0, b * 2);
    assert IsTagKey(tk);
    forall k, t | k in s'.cells && t in s'.cells[k].labels && Live(s', k) && (k == k0 ==> t in done + {tag})
      ensures Backed(s', t, k)
    {
      assert k != tk;
      assert s.cells[k] == s'.cells[k];
      if t == tag {
        if k != k0 { assert Backed(s, t, k); }
      } else {
        if TagKey(t) == tk { TagKeyInjective(t, tag); }
        assert Backed(s, t, k);
      }
    }
  }

  lemma AddToTagsKeeps<V>(s: Store<V>, ttls: Ttls, tags: seq<string>, k0: string, b: int)
    requires Shaped(s) && Short(s, ttls) && BackedExcept(s, k0, {})
    requires forall t | t in tags :: b in ttls(t)
    requires k0 in s.cells && s.cells[k0].value.Blob?
    ensures var s' := AddToTags(s, tags, k0, b * 2);
            Shaped(s') && Short(s', ttls) && BackedExcept(s', k0, LabelSet(tags))
            && k0 in s'.cells && s'.cells[k0] == s.cells[k0]
  {
    if tags != [] {
      var last := |tags| - 1;
      var done := LabelSet(tags[..last]);
      AddToTagsKeeps(s, ttls, tags[..last], k0, b);
      var s1 := AddToTags(s, tags[..last], k0, b * 2);
      AddToTagKeeps(s1, ttls, tags[last], k0, b, done);
      assert AddToTags(s, tags, k0, b * 2) == AddToTag(s1, tags[last], k0, b * 2);
      assert IsTagKey(TagKey(tags[last]));
    }
  }

  lemma DeadTagKeeps<V>(s: Store<V>, ttls: Ttls, tag: string, k0: string, b: int)
    requires Inv(s, ttls) && b <= 0 && b in ttls(tag)
    ensures Inv(AddToTag(s, tag, k0, b * 2), ttls)
  {
    var s' := AddToTag(s, tag, k0, b * 2);
    forall k, t | k in s'.cells && t in s'.cells[k].labels && Live(s', k) ensures Backed(s', t, k) {
      assert Backed(s, t, k) && Within(s.cells[k].expires, s.now, ttls(t));
      if TagKey(t) == TagKey(tag) { TagKeyInjective(t, tag); }
    }
  }

  // Nothing live, nothing to cover: what a non-positive TTL does to the tag sets.
  lemma DeadTagsKeep<V>(s: Store<V>, ttls: Ttls, tags: seq<string>, k0: string, b: int)
    requires Inv(s, ttls) && b <= 0 && forall t | t in tags :: b in ttls(t)
    ensures Inv(AddToTags(s, tags, k0, b * 2), ttls)
  {
    if tags != [] {
      var last := |tags| - 1;
      DeadTagsKeep(s, ttls, tags[..last], k0, b);
      DeadTagKeeps(AddToTags(s, tags[..last], k0, b * 2), ttls, tags[last], k0, b);
    }
  }

  lemma PutKeeps<V>(s: Store<V>, ttls: Ttls, key: string, payload: V, bytes: nat, ttl: int, tags: seq<string>)
    requires Inv(s, ttls) && Compatible(ttls) && Plain(key) && forall t | t in tags :: ttl in ttls(t)
    ensures Inv(Put(s, key, payload, bytes, ttl, tags), ttls)
  {
    if bytes <= MAX_PAYLOAD_BYTES {
      EntryKeyIsTagKey(key);
      var k0 := EntryKey(key);
      if ttl <= 0 {
        DeadTagsKeep(s, ttls, tags, k0, ttl);
      } else {
        var s1 := WriteEntry(s, key, payload, ttl, tags);
        forall k, t | k in s1.cells && t in s1.cells[k].labels && Live(s1, k) && k != k0
          ensures Backed(s1, t, k)
        {
          assert Backed(s, t, k);
          assert IsTagKey(TagKey(t));
        }
        AddToTagsKeeps(s1, ttls, tags, k0, ttl);
      }
    }
  }

  // Invalidating a tag of a well-formed store: the rest is untouched, and coverage survives.
  lemma DropTagKeeps<V>(s: Store<V>, ttls: Ttls, tag: string)
    requires Inv(s, ttls)
    ensures TagReadable(s, tag)
    ensures Inv(DropTag(s, tag), ttls)
    ensures forall k | k in DropTag(s, tag).cells && Live(s, k) :: tag !in s.cells[k].labels
  {
    var tk := TagKey(tag);
    assert IsTagKey(tk);
    var s' := DropTag(s, tag);
    forall k, t | k in s'.cells && t in s'.cells[k].labels && Live(s', k)
      ensures Backed(s', t, k) && t != tag
    {
      assert Backed(s, t, k);
      assert Live(s, TagKey(t));
      assert IsTagKey(TagKey(t));
    }
  }

  lemma InvalidateKeeps<V>(s: Store<V>, ttls: Ttls, tags: seq<string>)
    requires Inv(s, ttls)
    ensures var s' := Invalidate(s, tags);
            Inv(s', ttls) && s'.now == s.now
            && (forall k | k in s'.cells :: k in s.cells && s'.cells[k] == s.cells[k])
            && (forall k | k in s'.cells && Live(s, k) :: forall t | t in tags :: t !in s.cells[k].labels)
    decreases |tags|
  {
    if tags != [] {
      DropTagKeeps(s, ttls, tags[0]);
      InvalidateKeeps(DropTag(s, tags[0]), ttls, tags[1..]);
    }
  }

  lemma DropMembersKeeps<V>(s: Store<V>, ttls: Ttls, gone: set<string>)
    requires Inv(s, ttls) && forall k | k in gone :: !IsTagKey(k)
    ensures Inv(s.(cells := s.cells - gone), ttls)
  {
    var s' := s.(cells := s.cells - gone);
    forall k, t | k in s'.cells && t in s'.cells[k].labels && Live(s', k) ensures Backed(s', t, k) {
      assert Backed(s, t, k) && IsTagKey(TagKey(t));
    }
  }

  // An invalidation cut off anywhere leaves coverage intact: the entries it did not reach can
  // still be reached by the next one.
  lemma {:induction false} InvalidateUpToKeeps<V>(s: Store<V>, ttls: Ttls, tags: seq<string>, answered: nat)
    requires Inv(s, ttls)
    ensures var s' := InvalidateUpTo(s, tags, answered);
            Inv(s', ttls) && s'.now == s.now && forall k | k in s'.cells :: k in s.cells && s'.cells[k] == s.cells[k]
    decreases |tags|
  {
    if tags != [] && answered > 0 {
      DropTagKeeps(s, ttls, tags[0]);
      var members := MembersOf(s, tags[0]);
      DropMembersKeeps(s, ttls, members);
      var s1 := if members != {} && answered > 1 then s.(cells := s.cells - members) else s;
      var spent := if members != {} then 2 else 1;
      if answered > spent {
        assert s1.cells - {TagKey(tags[0])} == DropTag(s, tags[0]).cells;
        InvalidateUpToKeeps(DropTag(s, tags[0]), ttls, tags[1..], answered - spent - 1);
      }
    }
  }

  lemma ApplyKeeps<V>(s: Store<V>, ttls: Ttls, op: Op<V>)
    requires Inv(s, ttls) && Compatible(ttls) && Allowed(op, ttls)
    ensures Inv(Apply(s, op), ttls)
  {
    match op
    case Write(key, payload, bytes, ttl, tags) => PutKeeps(s, ttls, key, payload, bytes, ttl, tags);
    case Drop(key) => EntryKeyIsTagKey(key); DropEntryKeeps(s, ttls, key);
    case InvalidateAll(tags) => InvalidateKeeps(s, ttls, tags);
    case InvalidateSome(tags, answered) => InvalidateUpToKeeps(s, ttls, tags, answered);
    case Tick(elapsed) =>
  }

  lemma DropEntryKeeps<V>(s: Store<V>, ttls: Ttls, key: string)
    requires Inv(s, ttls) && Plain(key)
    ensures Inv(Delete(s, [key]), ttls)
  {
    EntryKeyIsTagKey(key);
    var s' := Delete(s, [key]);
    forall k, t | k in s'.cells && t in s'.cells[k].labels && Live(s', k)
      ensures Backed(s', t, k)
    {
      assert Backed(s, t, k);
      assert IsTagKey(TagKey(t));
    }
  }

  lemma {:induction false} RunKeeps<V>(ops: seq<Op<V>>, ttls: Ttls)
    requires Compatible(ttls) && AllowedRun(ops, ttls)
    ensures Inv(Run(ops), ttls)
  {
    if ops != [] {
      RunKeeps(ops[..|ops| - 1], ttls);
      ApplyKeeps(Run(ops[..|ops| - 1]), ttls, ops[|ops| - 1]);
    }
  }

  // ── Main results ───────────────────────────────────────────────────────────

  // Two TTLs that break the factor of two: a second write of the same tag shortens
  // the tag set's life below that of the first entry.
  function ShorteningRun<V>(v: V, tag: string, a: int, b: int): seq<Op<V>> {
    [Write("long", v, 0, a, [tag]), Write("short", v, 0, b, [tag]),
     Tick(if b > 0 then b * 2 * SECOND else 0)]
  }

  lemma AddOneTag<V>(s: Store<V>, tag: string, member: string, ttl: int)
    ensures AddToTags(s, [tag], member, ttl) == AddToTag(s, tag, member, ttl)
  {
    assert [tag][..0] == [];
    assert AddToTags(s, [tag][..0], member, ttl) == s;
  }

  // What one write with one tag does to any key but the tag set itself.
  lemma PutEffect<V>(s: Store<V>, key: string, payload: V, bytes: nat, ttl: int, tag: string, k: string)
    requires ttl > 0 && bytes <= MAX_PAYLOAD_BYTES && !IsTagKey(k)
    ensures var s' := Put(s, key, payload, bytes, ttl, [tag]);
            && s'.now == s.now
            && (k == EntryKey(key) ==> k in s'.cells && s'.cells[k] == Cell(Blob(payload), s.now + ttl * SECOND, {tag}))
            && (k != EntryKey(key) ==>
                  (k in s'.cells <==> k in s.cells) && (k in s.cells ==> s'.cells[k] == s.cells[k]))
  {
    AddOneTag(WriteEntry(s, key, payload, ttl, [tag]), tag, EntryKey(key), ttl * 2);
    assert IsTagKey(TagKey(tag));
    assert LabelSet([tag]) == {tag};
  }

  // The state after one tagged write into a store that holds no live set for the tag.
  lemma TaggedWrite<V>(s: Store<V>, key: string, v: V, ttl: int, tag: string)
    requires ttl > 0 && EntryKey(key) != TagKey(tag)
    ensures var s', k, tk := Put(s, key, v, 0, ttl, [tag]), EntryKey(key), TagKey(tag);
            && s'.now == s.now && tk in s'.cells && s'.cells[tk].expires == s.now + ttl * 2 * SECOND
            && k in s'.cells && s'.cells[k].expires == s.now + ttl * SECOND && tag in s'.cells[k].labels
            && (forall k' | k' in s.cells && k' != k && k' != tk :: k' in s'.cells && s'.cells[k'] == s.cells[k'])
  {
    AddOneTag(WriteEntry(s, key, v, ttl, [tag]), tag, EntryKey(key), ttl * 2);
    assert tag == [tag][0];
  }

  lemma ShorteningUncovers<V>(v: V, tag: string, a: int, b: int)
    requires a > 0 && a > 2 * b
    ensures !Covered(Run(ShorteningRun(v, tag, a, b)))
  {
    var ops := ShorteningRun(v, tag, a, b);
    var s0: Store<V> := Store(map[], 0);
    var s1 := Put(s0, "long", v, 0, a, [tag]);
    var s2 := Put(s1, "short", v, 0, b, [tag]);
    assert Run(ops[..1]) == s1 by { assert ops[..1][..0] == []; }
    assert Run(ops[..2]) == s2 by { assert ops[..2][..1] == ops[..1]; }
    var s3 := Apply(s2, ops[2]);
    var k, k2, tk := EntryKey("long"), EntryKey("short"), TagKey(tag);
    assert k[6] == 'l' && k2[6] == 's' && tk[6] == 't';
    TaggedWrite(s0, "long", v, a, tag);
    if b > 0 {
      TaggedWrite(s1, "short", v, b, tag);
    } else {
      AddOneTag(s1, tag, k2, b * 2);
    }
    assert Live(s3, k) && tag in s3.cells[k].labels && !Live(s3, tk);
  }

  // Over all runs: coverage holds for every allowed run if and only if, tag by tag, no TTL in
  // use exceeds twice another.
  lemma CoverageExactly<V(!new)>(v: V, ttls: Ttls)
    ensures Compatible(ttls) <==> forall ops: seq<Op<V>> | AllowedRun(ops, ttls) :: Covered(Run(ops))
  {
    if Compatible(ttls) {
      forall ops: seq<Op<V>> | AllowedRun(ops, ttls) ensures Covered(Run(ops)) {
        RunKeeps(ops, ttls);
      }
    } else {
      var tag, a, b :| a in ttls(tag) && b in ttls(tag) && a > 0 && a > 2 * b;
      var ops := ShorteningRun(v, tag, a, b);
      ShorteningUncovers(v, tag, a, b);
      assert "long"[0] != "tag:"[0] && "short"[0] != "tag:"[0];
      assert Allowed(ops[0], ttls) && Allowed(ops[1], ttls) && Allowed(ops[2], ttls);
      assert AllowedRun(ops, ttls) && !Covered(Run(ops));
    }
  }

  predicate NeverTagged<V>(ops: seq<Op<V>>, key: string, tag: string) {
    forall i | 0 <= i < |ops| && ops[i].Write? && ops[i].key == key :: tag !in ops[i].tags
  }

  lemma InvalidateShrinks<V>(s: Store<V>, tags: seq<string>)
    ensures var s' := Invalidate(s, tags); forall k | k in s'.cells :: k in s.cells && s'.cells[k] == s.cells[k]
    decreases |tags|
  {
    if tags != [] && TagReadable(s, tags[0]) { InvalidateShrinks(DropTag(s, tags[0]), tags[1..]); }
  }

  lemma InvalidateUpToShrinks<V>(s: Store<V>, tags: seq<string>, answered: nat)
    ensures var s' := InvalidateUpTo(s, tags, answered);
            forall k | k in s'.cells :: k in s.cells && s'.cells[k] == s.cells[k]
    decreases |tags|
  {
  }

  // The set of `tag` holds no key that was never written with it, whatever the TTLs.
  lemma {:induction false} MembersWereTagged<V>(ops: seq<Op<V>>, key: string, tag: string)
    requires NeverTagged(ops, key, tag)
    ensures var s, tk := Run(ops), TagKey(tag);
            tk in s.cells && s.cells[tk].value.Members? ==> EntryKey(key) !in s.cells[tk].value.keys
  {
    if ops != [] {
      var before, op := ops[..|ops| - 1], ops[|ops| - 1];
      MembersWereTagged(before, key, tag);
      match op
      case Write(key', payload, bytes, ttl, tags) =>
        if key' == key { assert tag !in tags; }
        KeyInjective(key, key');
        AddedMembers(WriteEntry(Run(before), key', payload, ttl, tags), tags, EntryKey(key'), ttl * 2,
                     tag, EntryKey(key));
      case InvalidateAll(tags) => InvalidateShrinks(Run(before), tags);
      case InvalidateSome(tags, answered) => InvalidateUpToShrinks(Run(before), tags, answered);
      case _ =>
    }
  }

  lemma KeyInjective(a: string, b: string)
    ensures EntryKey(a) == EntryKey(b) ==> a == b
  {
    assert EntryKey(a)[6..] == a && EntryKey(b)[6..] == b;
  }

  lemma AddedMembers<V>(s: Store<V>, tags: seq<string>, member: string, ttl: int, tag: string, k: string)
    requires k == member ==> tag !in tags
    requires var tk := TagKey(tag);
             tk in s.cells && s.cells[tk].value.Members? ==> k !in s.cells[tk].value.keys
    ensures var s', tk := AddToTags(s, tags, member, ttl), TagKey(tag);
            tk in s'.cells && s'.cells[tk].value.Members? ==> k !in s'.cells[tk].value.keys
  {
    if tags != [] {
      var last := |tags| - 1;
      AddedMembers(s, tags[..last], member, ttl, tag, k);
      if TagKey(tags[last]) == TagKey(tag) { TagKeyInjective(tags[last], tag); }
    }
  }

  // ── One Redis for all services ─────────────────────────────────────────────

  // Sessions, components, feeds and search pages mixed in any order: coverage holds throughout.
  lemma ServicesAreCovered<V(!new)>(ops: seq<Op<V>>)
    requires AllowedRun(ops, TtlsOf)
    ensures Covered(Run(ops))
  {
    RunKeeps(ops, TtlsOf);
  }

  // What another service may do to the store of one whose keys start with `prefix`: anything
  // but write such a key. Its payloads are never read here.
  predicate Foreign<V>(op: Op<V>, prefix: string) {
    Allowed(op, TtlsOf) && (op.Write? ==> !(prefix <= op.key))
  }

  lemma AddToTagsElsewhere<V>(s: Store<V>, tags: seq<string>, member: string, ttl: int, k: string)
    requires !IsTagKey(k)
    ensures var s' := AddToTags(s, tags, member, ttl);
            s'.now == s.now && (k in s'.cells <==> k in s.cells) && (k in s.cells ==> s'.cells[k] == s.cells[k])
  {
    if tags != [] {
      AddToTagsElsewhere(s, tags[..|tags| - 1], member, ttl, k);
      assert IsTagKey(TagKey(tags[|tags| - 1]));
    }
  }

  // An entry it did not write it can only make vanish.
  lemma ForeignLeavesEntry<V>(s: Store<V>, op: Op<V>, prefix: string, key: string)
    requires Foreign(op, prefix) && prefix <= key && Plain(key) && Inv(s, TtlsOf)
    ensures var s', k := Apply(s, op), EntryKey(key);
            s.now <= s'.now && (k in s'.cells ==> k in s.cells && s'.cells[k] == s.cells[k])
    ensures Inv(Apply(s, op), TtlsOf)
  {
    ApplyKeeps(s, TtlsOf, op);
    EntryKeyIsTagKey(key);
    match op
    case Write(key', payload, bytes, ttl, tags) =>
      KeyInjective(key, key');
      AddToTagsElsewhere(WriteEntry(s, key', payload, ttl, tags), tags, EntryKey(key'), ttl * 2, EntryKey(key));
    case InvalidateAll(tags) => InvalidateKeeps(s, TtlsOf, tags);
    case InvalidateSome(tags, answered) => InvalidateUpToKeeps(s, TtlsOf, tags, answered);
    case _ =>
  }

  // Invalidation after any run: nothing tagged survives, nothing else is disturbed.
  lemma InvalidationIsComplete<V>(ops: seq<Op<V>>, ttls: Ttls, tag: string)
    requires Compatible(ttls) && AllowedRun(ops, ttls)
    ensures var s, s' := Run(ops), Run(ops + [InvalidateAll([tag])]);
            && (forall k | Live(s', k) :: tag !in s'.cells[k].labels)
            && (forall key | Plain(key) && NeverTagged(ops, key, tag) :: Lookup(s', key) == Lookup(s, key))
  {
    var s := Run(ops);
    assert (ops + [InvalidateAll([tag])])[..|ops|] == ops;
    RunKeeps(ops, ttls);
    InvalidateKeeps(s, ttls, [tag]);
    DropTagKeeps(s, ttls, tag);
    var s' := Invalidate(s, [tag]);
    assert s' == DropTag(s, tag) by { assert [tag][1..] == []; }
    forall key | Plain(key) && NeverTagged(ops, key, tag) ensures Lookup(s', key) == Lookup(s, key) {
      MembersWereTagged(ops, key, tag);
      EntryKeyIsTagKey(key);
      assert IsTagKey(TagKey(tag));
    }
  }

  // ── Invalidation split at its awaits ───────────────────────────────────────

  // Two of its three round trips, each on the store of its moment: DEL of the members that
  // SMEMBERS read, and DEL of the tag set.
  function DropMembers<V>(s: Store<V>, read: set<string>): Store<V> { s.(cells := s.cells - read) }

  function DropSet<V>(s: Store<V>, tag: string): Store<V> { s.(cells := s.cells - {TagKey(tag)}) }

  function ApplyAll<V>(s: Store<V>, ops: seq<Op<V>>): Store<V> {
    if ops == [] then s else Apply(ApplyAll(s, ops[..|ops| - 1]), ops[|ops| - 1])
  }

  predicate Tagged<V>(s: Store<V>, tag: string, k: string) {
    Live(s, k) && tag in s.cells[k].labels
  }

  lemma {:induction false} ApplyAllKeeps<V>(s: Store<V>, ttls: Ttls, ops: seq<Op<V>>)
    requires Inv(s, ttls) && Compatible(ttls) && AllowedRun(ops, ttls)
    ensures Inv(ApplyAll(s, ops), ttls)
  {
    if ops != [] {
      ApplyAllKeeps(s, ttls, ops[..|ops| - 1]);
      ApplyKeeps(ApplyAll(s, ops[..|ops| - 1]), ttls, ops[|ops| - 1]);
    }
  }

  // Deleting a tag set leaves the rest covered if and only if nothing live carries the tag.
  lemma DropSetCovers<V>(s: Store<V>, ttls: Ttls, tag: string)
    requires Inv(s, ttls)
    ensures Covered(DropSet(s, tag)) <==> forall k | k in s.cells :: !Tagged(s, tag, k)
  {
    var s' := DropSet(s, tag);
    assert IsTagKey(TagKey(tag));
    if k :| k in s.cells && Tagged(s, tag, k) {
      assert k in s'.cells && Live(s', k) && !Lists(s', tag, k);
    } else {
      forall k, t | k in s'.cells && t in s'.cells[k].labels && Live(s', k) ensures Lists(s', t, k) {
        assert Backed(s, t, k) && !Tagged(s, tag, k);
        if TagKey(t) == TagKey(tag) { TagKeyInjective(t, tag); }
      }
    }
  }

  // The store an invalidation of `tag` deletes the set from, when other operations come between
  // SMEMBERS and the first DEL, and between the two DELs.
  function BeforeLastDel<V>(s: Store<V>, tag: string, between: seq<Op<V>>, last: seq<Op<V>>): Store<V>
    requires TagReadable(s, tag)
  {
    ApplyAll(DropMembers(ApplyAll(s, between), MembersOf(s, tag)), last)
  }

  lemma BeforeLastDelKeeps<V>(s: Store<V>, ttls: Ttls, tag: string, between: seq<Op<V>>, last: seq<Op<V>>)
    requires Inv(s, ttls) && Compatible(ttls) && AllowedRun(between, ttls) && AllowedRun(last, ttls)
    ensures TagReadable(s, tag) && Inv(BeforeLastDel(s, tag, between, last), ttls)
  {
    assert IsTagKey(TagKey(tag));
    ApplyAllKeeps(s, ttls, between);
    DropMembersKeeps(ApplyAll(s, between), ttls, MembersOf(s, tag));
    ApplyAllKeeps(DropMembers(ApplyAll(s, between), MembersOf(s, tag)), ttls, last);
  }

  // Over all runs, with anything in between its round trips: an invalidation keeps coverage
  // until its last DEL, and beyond it if and only if no live entry carries the tag by then.
  lemma SplitInvalidationCovers<V>(ops: seq<Op<V>>, ttls: Ttls, tag: string, between: seq<Op<V>>, last: seq<Op<V>>)
    requires Compatible(ttls) && AllowedRun(ops, ttls) && AllowedRun(between, ttls) && AllowedRun(last, ttls)
    ensures TagReadable(Run(ops), tag)
    ensures var s := BeforeLastDel(Run(ops), tag, between, last);
            Covered(s) && (Covered(DropSet(s, tag)) <==> forall k | k in s.cells :: !Tagged(s, tag, k))
  {
    RunKeeps(ops, ttls);
    BeforeLastDelKeeps(Run(ops), ttls, tag, between, last);
    DropSetCovers(BeforeLastDel(Run(ops), tag, between, last), ttls, tag);
  }

  predicate NeverWritten<V>(ops: seq<Op<V>>, tag: string) {
    forall i | 0 <= i < |ops| && ops[i].Write? :: tag !in ops[i].tags
  }

  predicate TaggedWithin<V>(s: Store<V>, tag: string, keys: set<string>) {
    forall k | k in s.cells && Tagged(s, tag, k) :: k in keys
  }

  lemma NoNewTagged<V>(s: Store<V>, ttls: Ttls, op: Op<V>, tag: string, keys: set<string>)
    requires Inv(s, ttls) && TaggedWithin(s, tag, keys) && (op.Write? ==> tag !in op.tags)
    requires Inv(Apply(s, op), ttls)
    ensures TaggedWithin(Apply(s, op), tag, keys)
  {
    match op
    case Write(key, payload, bytes, ttl, tags) =>
      var s' := Apply(s, op);
      forall k | k in s'.cells && Tagged(s', tag, k) ensures k in keys {
        assert !IsTagKey(k);
        AddToTagsElsewhere(WriteEntry(s, key, payload, ttl, tags), tags, EntryKey(key), ttl * 2, k);
        assert Tagged(s, tag, k);
      }
    case InvalidateAll(tags) => InvalidateKeeps(s, ttls, tags);
    case InvalidateSome(tags, answered) => InvalidateUpToKeeps(s, ttls, tags, answered);
    case _ =>
  }

  lemma {:induction false} NoneNewTagged<V>(s: Store<V>, ttls: Ttls, ops: seq<Op<V>>, tag: string, keys: set<string>)
    requires Inv(s, ttls) && Compatible(ttls) && AllowedRun(ops, ttls)
    requires TaggedWithin(s, tag, keys) && NeverWritten(ops, tag)
    ensures TaggedWithin(ApplyAll(s, ops), tag, keys)
  {
    if ops != [] {
      NoneNewTagged(s, ttls, ops[..|ops| - 1], tag, keys);
      ApplyAllKeeps(s, ttls, ops[..|ops| - 1]);
      ApplyAllKeeps(s, ttls, ops);
      NoNewTagged(ApplyAll(s, ops[..|ops| - 1]), ttls, ops[|ops| - 1], tag, keys);
    }
  }

  // So only a `set` under the tag that lands between the first and the last round trip can
  // escape: without one, coverage survives and nothing tagged is left.
  lemma OnlyLateSetsEscape<V>(ops: seq<Op<V>>, ttls: Ttls, tag: string, between: seq<Op<V>>, last: seq<Op<V>>)
    requires Compatible(ttls) && AllowedRun(ops, ttls) && AllowedRun(between, ttls) && AllowedRun(last, ttls)
    requires NeverWritten(between, tag) && NeverWritten(last, tag)
    ensures TagReadable(Run(ops), tag)
    ensures var s := DropSet(BeforeLastDel(Run(ops), tag, between, last), tag);
            Covered(s) && forall k | k in s.cells :: !Tagged(s, tag, k)
  {
    SplitInvalidationCovers(ops, ttls, tag, between, last);
    RunKeeps(ops, ttls);
    var s := Run(ops);
    var read := MembersOf(s, tag);
    forall k | k in s.cells && Tagged(s, tag, k) ensures k in read { assert Backed(s, tag, k); }
    NoneNewTagged(s, ttls, between, tag, read);
    ApplyAllKeeps(s, ttls, between);
    assert IsTagKey(TagKey(tag));
    DropMembersKeeps(ApplyAll(s, between), ttls, read);
    var dropped := DropMembers(ApplyAll(s, between), read);
    assert TaggedWithin(dropped, tag, {});
    NoneNewTagged(dropped, ttls, last, tag, {});
  }

  // A write between SMEMBERS and the tag's DEL: an entry no later invalidation can reach.
  lemma SplitInvalidationOrphans<V>(v: V)
    ensures var s0: Store<V> := Store(map[], 0);
            var s1 := Put(s0, "late", v, 0, 30, ["t"]);   // after SMEMBERS read the empty set
            Lookup(Invalidate(DropSet(DropMembers(s1, {}), "t"), ["t"]), "late") == Some(v)
  {
    var s0: Store<V> := Store(map[], 0);
    AddOneTag(WriteEntry(s0, "late", v, 30, ["t"]), "t", EntryKey("late"), 60);
    assert EntryKey("late")[6] == 'l' && TagKey("t")[6] == 't';
    assert Invalidate(DropTag(s0, "t"), ["t"][1..]) == DropTag(s0, "t");
  }

  // A member that SMEMBERS did read, stored again between the two DELs: orphaned as well.
  lemma RefillOrphans<V>(v: V, w: V)
    ensures var s1: Store<V> := Put(Store(map[], 0), "k", v, 0, 30, ["t"]);
            && TagReadable(s1, "t") && MembersOf(s1, "t") == {EntryKey("k")}
            && var s2 := Put(DropMembers(s1, MembersOf(s1, "t")), "k", w, 0, 30, ["t"]);
               Lookup(Invalidate(DropSet(s2, "t"), ["t"]), "k") == Some(w)
  {
    var s0: Store<V> := Store(map[], 0);
    var k, tk := EntryKey("k"), TagKey("t");
    assert k[6] == 'k' && tk[6] == 't';
    assert ["t"][0] == "t" && LabelSet(["t"]) == {"t"};
    AddOneTag(WriteEntry(s0, "k", v, 30, ["t"]), "t", k, 60);
    var s1 := Put(s0, "k", v, 0, 30, ["t"]);
    assert s1.cells == map[k := Cell(Blob(v), 30 * SECOND, {"t"}), tk := Cell(Members({k}), 60 * SECOND, {})];
    var dropped := DropMembers(s1, {k});
    AddOneTag(WriteEntry(dropped, "k", w, 30, ["t"]), "t", k, 60);
    var s3 := DropSet(Put(dropped, "k", w, 0, 30, ["t"]), "t");
    assert s3.cells == map[k := Cell(Blob(w), 30 * SECOND, {"t"})];
    assert Invalidate(DropTag(s3, "t"), ["t"][1..]) == DropTag(s3, "t");
  }
}
