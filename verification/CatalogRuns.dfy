/** In every run the cached `findById` cannot be told apart from the uncached one, and no
  * two live components of an author share a slug. */
module CatalogRuns {
  import opened Basics
  import opened Cache
  import Coverage
  import opened Slugs
  import opened Catalog

  predicate EntryFaithful(w: World, id: Id) {
    var k := EntryKey(ComponentKey(id));
    Live(w.cache, k) ==>
      && w.cache.cells[k].value.Blob?
      && ComponentTag(id) in w.cache.cells[k].labels
      && Found(w, id)
      && w.rows[id].isPublic && !w.rows[id].isDraft
      && ViewOf(w.cache.cells[k].value.payload) == ViewOf(w.rows[id])
  }

  ghost predicate Faithful(w: World) {
    Coverage.Inv(w.cache, TtlsOf) && forall id: Id :: EntryFaithful(w, id)
  }

  lemma KeyIsPlain(id: Id)
    ensures Plain(ComponentKey(id))
  {
    assert ComponentKey(id)[0] == 'c' && "tag:"[0] == 't';
  }

  lemma KeyInjective(a: Id, b: Id)
    ensures EntryKey(ComponentKey(a)) == EntryKey(ComponentKey(b)) ==> a == b
  {
    var k := EntryKey(ComponentKey(a));
    assert k[16..|k| - 7] == a;
    if k == EntryKey(ComponentKey(b)) { assert k[16..|k| - 7] == b; }
  }

  // Dropping cached entries never hurts; dropping a component's tag frees its row to change.
  lemma InvalidateFaithful(w: World, rows: map<Id, Component>, tags: seq<string>, id: Id)
    requires Faithful(w)
    requires forall other | other != id && other in w.rows ::
                other in rows && rows[other].deleted == w.rows[other].deleted
                && ViewOf(rows[other]) == ViewOf(w.rows[other])
    requires ComponentTag(id) in tags
             || (Found(w, id) && (w.rows[id].isDraft || !w.rows[id].isPublic)) || id !in w.rows
    ensures Faithful(InvalidateAfter(w.(rows := rows), tags))
  {
    Coverage.InvalidateKeeps(w.cache, TtlsOf, tags);
    var w' := InvalidateAfter(w.(rows := rows), tags);
    forall other: Id ensures EntryFaithful(w', other) {
      assert EntryFaithful(w, other);
    }
  }

  lemma NothingToInvalidate(w: World)
    ensures InvalidateAfter(w, []) == w
  {
  }

  lemma FindFaithful(w: World, id: Id, viewer: Option<Id>)
    requires Faithful(w)
    ensures Faithful(FindById(w, id, viewer).world)
  {
    var w' := FindById(w, id, viewer).world;
    if w' != w {
      KeyIsPlain(id);
      assert "component:" <= ComponentTag(id);
      var c := w.rows[id];
      Coverage.PutKeeps(w.cache, TtlsOf, ComponentKey(id), c, 0, PUBLIC_TTL, [ComponentTag(id)]);
      forall other: Id ensures EntryFaithful(w', other) {
        KeyIsPlain(other);
        Coverage.EntryKeyIsTagKey(ComponentKey(other));
        KeyInjective(id, other);
        Coverage.PutEffect(
          w.cache, ComponentKey(id), c, 0, PUBLIC_TTL, ComponentTag(id), EntryKey(ComponentKey(other)));
        assert EntryFaithful(w, other);
      }
    }
  }

  // Steps that leave every visible field of every live row alone.
  lemma QuietFaithful(w: World, w': World)
    requires Faithful(w) && w'.cache == w.cache
    requires forall id | Found(w, id) :: Found(w', id) && ViewOf(w'.rows[id]) == ViewOf(w.rows[id])
    ensures Faithful(w')
  {
    forall id: Id ensures EntryFaithful(w', id) { assert EntryFaithful(w, id); }
  }

  lemma InsertFaithful(w: World, pre: PreNormalizer, step: Step)
    requires Faithful(w) && (step.DoCreate? || step.DoFork?)
    ensures Faithful(Next(w, pre, step))
  {
    var w' := Next(w, pre, step);
    if w' != w {
      var rows := w'.rows;
      if step.DoCreate? {
        if OrElse(step.dto.isDraft, false) {
          QuietFaithful(w, w');
        } else {
          InvalidateFaithful(w, rows, [TRENDING_TAG, AuthorTag(step.user)], step.id);
        }
      } else {
        InvalidateFaithful(w, rows, [ComponentTag(step.parent), TRENDING_TAG], step.id);
      }
    }
  }

  lemma WriteFaithful(w: World, pre: PreNormalizer, step: Step)
    requires Faithful(w)
    requires step.DoSaveDraft? || step.DoPublish? || step.DoUpdate? || step.DoSetThumbnail?
    ensures Faithful(Next(w, pre, step))
  {
    var w' := Next(w, pre, step);
    var rows := w'.rows;
    if Owns(w, step.id, step.user) && w'.rows != w.rows {
      match step
      case DoSaveDraft(id, user, patch, tags) =>
        InvalidateFaithful(w, rows, [], id);
        NothingToInvalidate(w.(rows := rows));
      case DoPublish(id, user) => InvalidateFaithful(w, rows, [TRENDING_TAG, AuthorTag(user)], id);
      case DoUpdate(id, user, patch) =>
        InvalidateFaithful(w, rows, [ComponentTag(id), AuthorTag(user), TRENDING_TAG], id);
      case DoSetThumbnail(id, user, url, host, parsed) =>
        if w.rows[id].isDraft {
          InvalidateFaithful(w, rows, [], id);
          NothingToInvalidate(w.(rows := rows));
        } else {
          InvalidateFaithful(w, rows, [ComponentTag(id), TRENDING_TAG], id);
        }
    } else if w' != w {
      UnchangedRows(w, pre, step);
    }
  }

  // A write that happens to change no row still drops cached entries.
  lemma UnchangedRows(w: World, pre: PreNormalizer, step: Step)
    requires Faithful(w) && Next(w, pre, step).rows == w.rows
    requires step.DoSaveDraft? || step.DoPublish? || step.DoUpdate? || step.DoSetThumbnail?
    ensures Faithful(Next(w, pre, step))
  {
    var w' := Next(w, pre, step);
    if w' != w {
      assert w.(rows := w.rows) == w;
      match step
      case DoUpdate(id, user, patch) =>
        InvalidateFaithful(w, w.rows, [ComponentTag(id), AuthorTag(user), TRENDING_TAG], id);
      case DoSetThumbnail(id, user, url, host, parsed) =>
        if !w.rows[id].isDraft { InvalidateFaithful(w, w.rows, [ComponentTag(id), TRENDING_TAG], id); }
      case _ =>
    }
  }

  lemma DeleteFaithful(w: World, id: Id)
    requires Faithful(w) && Found(w, id)
    ensures Faithful(SoftDelete(w, id))
  {
    InvalidateFaithful(w, w.rows[id := w.rows[id].(deleted := true)],
                       [ComponentTag(id), AuthorTag(w.rows[id].author), TRENDING_TAG], id);
  }

  lemma NextFaithful(w: World, pre: PreNormalizer, step: Step)
    requires Faithful(w)
    ensures Faithful(Next(w, pre, step))
  {
    match step
    case DoCreate(_, _, _) => InsertFaithful(w, pre, step);
    case DoFork(_, _, _, _, _) => InsertFaithful(w, pre, step);
    case DoSaveDraft(_, _, _, _) => WriteFaithful(w, pre, step);
    case DoPublish(_, _) => WriteFaithful(w, pre, step);
    case DoUpdate(_, _, _) => WriteFaithful(w, pre, step);
    case DoSetThumbnail(_, _, _, _, _) => WriteFaithful(w, pre, step);
    case DoRemove(id, user) => if Owns(w, id, user) { DeleteFaithful(w, id); }
    case DoTakeDown(id) => if Found(w, id) { DeleteFaithful(w, id); }
    case DoFind(id, viewer) => FindFaithful(w, id, viewer);
    case Purge(id) => QuietFaithful(w, Next(w, pre, step));
    case Count(id, _, _) => QuietFaithful(w, Next(w, pre, step));
    case DropCached(id) =>
      assert w.(rows := w.rows) == w;
      InvalidateFaithful(w, w.rows, [ComponentTag(id)], id);
    case Block(a, b) => QuietFaithful(w, Next(w, pre, step));
    case Unblock(a, b) => QuietFaithful(w, Next(w, pre, step));
    case Evict(id) =>
      KeyIsPlain(id);
      Coverage.DropEntryKeeps(w.cache, TtlsOf, ComponentKey(id));
      var w' := Next(w, pre, step);
      forall other: Id ensures EntryFaithful(w', other) { assert EntryFaithful(w, other); }
    case Elsewhere(op) => ElsewhereFaithful(w, pre, op);
    case Tick(elapsed) =>
      var w' := Next(w, pre, step);
      forall other: Id ensures EntryFaithful(w', other) { assert EntryFaithful(w, other); }
  }

  lemma ElsewhereFaithful(w: World, pre: PreNormalizer, op: Coverage.Op<Component>)
    requires Faithful(w)
    ensures Faithful(Next(w, pre, Elsewhere(op)))
  {
    var w' := Next(w, pre, Elsewhere(op));
    if Coverage.Foreign(op, COMPONENTS) {
      forall id: Id ensures EntryFaithful(w', id) && Coverage.Inv(w'.cache, TtlsOf) {
        KeyIsPlain(id);
        Coverage.ForeignLeavesEntry(w.cache, op, COMPONENTS, ComponentKey(id));
        assert EntryFaithful(w, id);
      }
      assert EntryFaithful(w', []);
    }
  }

  lemma {:induction false} RunFaithful(pre: PreNormalizer, steps: seq<Step>)
    ensures Faithful(Run(pre, steps))
  {
    if steps == [] {
      assert forall id: Id :: EntryFaithful(EMPTY, id);
    } else {
      RunFaithful(pre, steps[..|steps| - 1]);
      NextFaithful(Run(pre, steps[..|steps| - 1]), pre, steps[|steps| - 1]);
    }
  }

  // Same verdict for every viewer, and the same visible fields, in every reachable state.
  lemma CacheTransparent(pre: PreNormalizer, steps: seq<Step>, id: Id, viewer: Option<Id>)
    ensures var w := Run(pre, steps);
            var cached, direct := FindById(w, id, viewer).result, FindUncached(w, id, viewer);
            && (cached.Ok? <==> direct.Ok?)
            && (cached.Ok? ==> ViewOf(cached.value) == ViewOf(direct.value))
            && (cached.Err? ==> cached == direct)
  {
    RunFaithful(pre, steps);
    assert EntryFaithful(Run(pre, steps), id);
  }

  lemma CachedReadIsFresh(pre: PreNormalizer, steps: seq<Step>, step: Step, id: Id, viewer: Option<Id>)
    ensures var w := Next(Run(pre, steps), pre, step);
            var cached, direct := FindById(w, id, viewer).result, FindUncached(w, id, viewer);
            (cached.Ok? <==> direct.Ok?) && (cached.Ok? ==> ViewOf(cached.value) == ViewOf(direct.value))
  {
    assert (steps + [step])[..|steps|] == steps;
    CacheTransparent(pre, steps + [step], id, viewer);
  }

  // What an author creates is what they read back, under the first free slug of the name,
  // with publication and draft status defaulting to public and published.
  lemma CreatedIsReadBack(pre: PreNormalizer, steps: seq<Step>, id: Id, user: Id, dto: NewComponent)
    requires id !in Run(pre, steps).rows && Create(Run(pre, steps), pre, id, user, dto).result.Ok?
    ensures var w := Run(pre, steps);
            var read := FindById(Create(w, pre, id, user, dto).world, id, Some(user)).result;
      && read.Ok?
      && Some(read.value.slug) == FirstFree(Slugify(pre, dto.name), Taken(w.rows, user, None), 0)
      && ViewOf(read.value) == View(user, dto.name, read.value.slug, dto.description, dto.framework, dto.category,
                                    dto.isPublic != Some(false), dto.isDraft == Some(true), None, dto.tags)
  {
    CachedReadIsFresh(pre, steps, DoCreate(id, user, dto), id, Some(user));
  }

  // A fork is a published copy of what its parent shows, by the forking user, public unless
  // asked otherwise, under the first free slug of its name.
  lemma ForkIsReadBack(pre: PreNormalizer, steps: seq<Step>, id: Id, parent: Id, user: Id,
                       name: Option<string>, isPublic: Option<bool>)
    requires id !in Run(pre, steps).rows && Fork(Run(pre, steps), pre, id, parent, user, name, isPublic).result.Ok?
    ensures var w := Run(pre, steps); var p := w.rows[parent];
            var read := FindById(Fork(w, pre, id, parent, user, name, isPublic).world, id, Some(user)).result;
      && read.Ok?
      && ViewOf(read.value) == ViewOf(p).(
           author := user, slug := read.value.slug, isPublic := isPublic != Some(false), thumbnail := None,
           name := if name.Some? then name.value else p.name + " (fork)")
      && Some(read.value.slug) == FirstFree(Slugify(pre, read.value.name), Taken(w.rows, user, None), 0)
  {
    CachedReadIsFresh(pre, steps, DoFork(id, parent, user, name, isPublic), id, Some(user));
  }

  // After an update the author reads the fields sent, and every other field as before; the
  // slug moves exactly when the name does.
  lemma UpdateIsReadBack(pre: PreNormalizer, steps: seq<Step>, id: Id, user: Id, patch: Patch)
    requires Update(Run(pre, steps), pre, id, user, patch).result.Ok?
    ensures var w := Run(pre, steps); var before := ViewOf(w.rows[id]);
            var read := FindById(Update(w, pre, id, user, patch).world, id, Some(user)).result;
      && read.Ok?
      && ViewOf(read.value) == before.(
           name := if Renames(w.rows[id], patch) then patch.name.value else before.name,
           slug := read.value.slug,
           description := if patch.description.Some? then patch.description.value else before.description,
            framework := if patch.framework.Some? && patch.framework.value != [] then patch.framework.value
                         else before.framework,
           category := if patch.category.Some? then patch.category.value else before.category,
           isPublic := if patch.isPublic.Some? then patch.isPublic.value else before.isPublic)
      && (!Renames(w.rows[id], patch) ==> read.value.slug == before.slug)
      && (Renames(w.rows[id], patch) ==>
            Some(read.value.slug) == FirstFree(Slugify(pre, patch.name.value), Taken(w.rows, user, Some(id)), 0))
  {
    CachedReadIsFresh(pre, steps, DoUpdate(id, user, patch), id, Some(user));
  }

  // A removed component is not found by anyone, cached copies included.
  lemma RemovedIsGone(pre: PreNormalizer, steps: seq<Step>, id: Id, user: Id, viewer: Option<Id>)
    requires Remove(Run(pre, steps), id, user).result.Ok?
    ensures FindById(Remove(Run(pre, steps), id, user).world, id, viewer).result == Err(NotFound)
  {
    RunFaithful(pre, steps);
    NextFaithful(Run(pre, steps), pre, DoRemove(id, user));
    assert EntryFaithful(Remove(Run(pre, steps), id, user).world, id);
  }

  // ── Slugs ──────────────────────────────────────────────────────────────────

  predicate SlugsUnique(rows: map<Id, Component>) {
    forall a, b | a in rows && b in rows && a != b && !rows[a].deleted && !rows[b].deleted
               && rows[a].author == rows[b].author :: rows[a].slug != rows[b].slug
  }

  lemma FreshSlugUnique(rows: map<Id, Component>, id: Id, row: Component, base: string)
    requires SlugsUnique(rows)
    requires FirstFree(base, Taken(rows, row.author, Some(id)), 0) == Some(row.slug)
    ensures SlugsUnique(rows[id := row])
  {
    FirstFreeMeans(base, Taken(rows, row.author, Some(id)), 0);
    forall b | b in rows && b != id && !rows[b].deleted && rows[b].author == row.author
      ensures rows[b].slug != row.slug
    {
      assert rows[b].slug in Taken(rows, row.author, Some(id));
    }
  }

  lemma SameSlugUnique(rows: map<Id, Component>, id: Id, row: Component)
    requires SlugsUnique(rows) && id in rows
    requires row.author == rows[id].author && row.slug == rows[id].slug && (rows[id].deleted ==> row.deleted)
    ensures SlugsUnique(rows[id := row])
  {
  }

  lemma InsertedSlugUnique(w: World, pre: PreNormalizer, step: Step)
    requires SlugsUnique(w.rows) && (step.DoCreate? || step.DoFork?)
    ensures SlugsUnique(Next(w, pre, step).rows)
  {
    var rows' := Next(w, pre, step).rows;
    if rows' != w.rows {
      var user := step.user;
      var row := rows'[step.id];
      assert Taken(w.rows, user, None) == Taken(w.rows, user, Some(step.id));
      FreshSlugUnique(w.rows, step.id, row, Slugify(pre, row.name));
      assert rows' == w.rows[step.id := row];
    }
  }

  lemma PatchedSlugUnique(w: World, pre: PreNormalizer, step: Step)
    requires SlugsUnique(w.rows) && (step.DoSaveDraft? || step.DoUpdate?)
    ensures SlugsUnique(Next(w, pre, step).rows)
  {
    var rows' := Next(w, pre, step).rows;
    if rows' != w.rows {
      var row := rows'[step.id];
      var patch := step.patch;
      if Renames(w.rows[step.id], patch) { FreshSlugUnique(w.rows, step.id, row, Slugify(pre, row.name)); }
      else { SameSlugUnique(w.rows, step.id, row); }
      assert rows' == w.rows[step.id := row];
    }
  }

  lemma NextSlugsUnique(w: World, pre: PreNormalizer, step: Step)
    requires SlugsUnique(w.rows)
    ensures SlugsUnique(Next(w, pre, step).rows)
  {
    match step
    case DoCreate(_, _, _) => InsertedSlugUnique(w, pre, step);
    case DoFork(_, _, _, _, _) => InsertedSlugUnique(w, pre, step);
    case DoSaveDraft(_, _, _, _) => PatchedSlugUnique(w, pre, step);
    case DoUpdate(_, _, _) => PatchedSlugUnique(w, pre, step);
    case DoPublish(id, _) => SameSlugStep(w, Next(w, pre, step), id);
    case DoRemove(id, _) => SameSlugStep(w, Next(w, pre, step), id);
    case DoTakeDown(id) => SameSlugStep(w, Next(w, pre, step), id);
    case DoSetThumbnail(id, _, _, _, _) => SameSlugStep(w, Next(w, pre, step), id);
    case Count(id, _, _) => SameSlugStep(w, Next(w, pre, step), id);
    case Purge(id) => FewerRowsUnique(w.rows, Next(w, pre, step).rows);
    case _ => assert Next(w, pre, step).rows == w.rows;
  }

  lemma FewerRowsUnique(rows: map<Id, Component>, rows': map<Id, Component>)
    requires SlugsUnique(rows) && forall id | id in rows' :: id in rows && rows'[id] == rows[id]
    ensures SlugsUnique(rows')
  {
  }

  lemma SameSlugStep(w: World, w': World, id: Id)
    requires SlugsUnique(w.rows)
    requires w'.rows == w.rows || (
               && id in w.rows && id in w'.rows && w'.rows == w.rows[id := w'.rows[id]]
               && w'.rows[id].author == w.rows[id].author && w'.rows[id].slug == w.rows[id].slug
               && (w.rows[id].deleted ==> w'.rows[id].deleted))
    ensures SlugsUnique(w'.rows)
  {
    if w'.rows != w.rows { SameSlugUnique(w.rows, id, w'.rows[id]); }
  }

  // (author, slug) identifies a live component in every sequential run.
  lemma {:induction false} SlugsStayUnique(pre: PreNormalizer, steps: seq<Step>)
    ensures SlugsUnique(Run(pre, steps).rows)
  {
    if steps != [] {
      SlugsStayUnique(pre, steps[..|steps| - 1]);
      NextSlugsUnique(Run(pre, steps[..|steps| - 1]), pre, steps[|steps| - 1]);
    }
  }
}
