/** Who may read, copy and change a component, what exactly a call changes, and which cached
  * answers it takes down. */
module CatalogEffects {
  import opened Basics
  import opened Cache
  import Coverage
  import opened Slugs
  import opened Catalog
  import opened CatalogRuns

  // ── Answers ────────────────────────────────────────────────────────────────

  predicate There(w: World, id: Id) { id in w.rows && !w.rows[id].deleted }

  predicate Barred(w: World, a: Id, b: Id) { a != b && ((a, b) in w.blocks || (b, a) in w.blocks) }

  // What everybody may read, and what only its author may: private rows and drafts; and across
  // a block nothing is there.
  predicate Readable(w: World, id: Id, viewer: Option<Id>) {
    && There(w, id)
    && (viewer == Some(w.rows[id].author) || (w.rows[id].isPublic && !w.rows[id].isDraft))
    && (viewer.Some? ==> !Barred(w, viewer.value, w.rows[id].author))
  }

  lemma WhoMayRead(w: World, id: Id, viewer: Option<Id>)
    ensures FindUncached(w, id, viewer) == if Readable(w, id, viewer) then Ok(w.rows[id]) else Err(NotFound)
  {
  }

  // A slug is free for a component that has the author.
  ghost predicate Named(w: World, pre: PreNormalizer, author: Id, except: Option<Id>, name: string) {
    FirstFree(Slugify(pre, name), Taken(w.rows, author, except), 0).Some?
  }

  // Only what one can read can be copied, and drafts not even by their author; what is not found
  // looks like what may not be seen.
  lemma WhoMayFork(w: World, pre: PreNormalizer, id: Id, parent: Id, user: Id, name: Option<string>,
                   isPublic: Option<bool>)
    ensures var r := Fork(w, pre, id, parent, user, name, isPublic).result;
      && (r == Err(NotFound) <==>
            FindUncached(w, parent, Some(user)) == Err(NotFound) || w.rows[parent].isDraft)
      && (r.Ok? ==>
            var p := w.rows[parent];
            && There(w, parent) && !p.isDraft && (p.isPublic || p.author == user) && !Barred(w, user, p.author))
      && (r.Ok? <==>
            && Readable(w, parent, Some(user)) && !w.rows[parent].isDraft && w.rows[parent].currentVersion.Some?
            && Named(w, pre, user, None, if name.Some? then name.value else w.rows[parent].name + " (fork)"))
      && (r.Ok? || r == Err(NotFound) || r == Err(BadRequest))
  {
  }

  predicate Mine(w: World, id: Id, user: Id) { There(w, id) && w.rows[id].author == user }

  predicate NewName(w: World, id: Id, patch: Patch)
    requires id in w.rows
  {
    patch.name.Some? && patch.name.value != [] && patch.name.value != w.rows[id].name
  }

  // Everything else is its author's alone; to anyone else the component is not there.
  lemma WhoMayChange(w: World, pre: PreNormalizer, id: Id, user: Id, patch: Patch, tags: Option<set<string>>)
    ensures var r := Update(w, pre, id, user, patch).result;
      && (r == Err(NotFound) <==> !Mine(w, id, user))
      && (r.Ok? <==> Mine(w, id, user)
                     && (NewName(w, id, patch) ==> Named(w, pre, user, Some(id), patch.name.value)))
      && (r.Ok? || r == Err(NotFound) || r == Err(BadRequest))
    ensures var r := SaveDraft(w, pre, id, user, patch, tags).result;
      && (r == Err(NotFound) <==> !Mine(w, id, user))
      && (r.Ok? <==> Mine(w, id, user) && w.rows[id].isDraft
                     && (NewName(w, id, patch) ==> Named(w, pre, user, Some(id), patch.name.value)))
      && (r.Ok? || r == Err(NotFound) || r == Err(BadRequest))
    ensures var r := Publish(w, id, user).result;
      && (r == Err(NotFound) <==> !Mine(w, id, user))
      && (r.Ok? <==> Mine(w, id, user) && w.rows[id].isDraft && w.rows[id].currentVersion.Some?)
      && (r.Ok? || r == Err(NotFound) || r == Err(BadRequest))
    ensures Remove(w, id, user).result == if Mine(w, id, user) then Ok(()) else Err(NotFound)
    ensures TakeDown(w, id).result == if There(w, id) then Ok(()) else Err(NotFound)
  {
  }

  // A thumbnail must be an https address on the storage's own host, which is looked at first.
  lemma WhoMaySetThumbnail(w: World, id: Id, user: Id, url: string, host: Option<string>, parsed: Option<Url>)
    ensures var r := SetThumbnail(w, id, user, url, host, parsed).result;
            var safe := host.Some? && parsed.Some? && parsed.value.protocol == "https:"
                        && parsed.value.host == host.value;
      r == if !safe then Err(BadRequest) else if !Mine(w, id, user) then Err(NotFound) else Ok(())
  {
  }

  // ── Rows ───────────────────────────────────────────────────────────────────

  // Who makes the call, and on what.
  function Caller(step: Step): Option<(Id, Id)> {
    match step
    case DoSaveDraft(id, user, _, _) => Some((user, id))
    case DoPublish(id, user) => Some((user, id))
    case DoUpdate(id, user, _) => Some((user, id))
    case DoRemove(id, user) => Some((user, id))
    case DoSetThumbnail(id, user, _, _, _) => Some((user, id))
    case _ => None
  }

  // A stored row changes only by its author's own calls, a moderator's takedown, its counters
  // and current version apart; it goes only by the purge, once it is removed; and its author
  // never changes.
  lemma OnlyOwnersChange(w: World, pre: PreNormalizer, step: Step, id: Id)
    requires id in w.rows
    ensures var rows := Next(w, pre, step).rows;
      && (id !in rows <==> step == Purge(id) && w.rows[id].deleted)
      && (id in rows && rows[id] != w.rows[id] ==>
            Caller(step) == Some((w.rows[id].author, id)) || step == DoTakeDown(id) || (step.Count? && step.id == id))
      && (id in rows ==> rows[id].author == w.rows[id].author)
      && (id in rows && rows[id] != w.rows[id] && !step.Count? ==>
            !w.rows[id].deleted && rows[id].counters == w.rows[id].counters
            && rows[id].currentVersion == w.rows[id].currentVersion)
  {
  }

  // Only its author's publication ends a draft, and only removal hides a row.
  lemma EveryFlag(w: World, pre: PreNormalizer, step: Step, id: Id)
    requires id in w.rows && id in Next(w, pre, step).rows
    ensures var was, row := w.rows[id], Next(w, pre, step).rows[id];
      && (row.deleted <==> was.deleted || step == DoTakeDown(id) || step == DoRemove(id, was.author))
      && (row.isDraft <==>
            was.isDraft && !(step == DoPublish(id, was.author) && !was.deleted && was.currentVersion.Some?))
  {
  }

  // Publishing, removing and a new thumbnail move that one column.
  lemma OneColumn(w: World, pre: PreNormalizer, step: Step, id: Id)
    requires id in w.rows && id in Next(w, pre, step).rows
    ensures var was, row := w.rows[id], Next(w, pre, step).rows[id];
      && (step.DoPublish? ==> row == was.(isDraft := row.isDraft))
      && (step.DoRemove? || step.DoTakeDown? ==> row == was.(deleted := row.deleted))
      && (step.DoSetThumbnail? ==> row == was.(thumbnail := row.thumbnail))
      && (row.thumbnail != was.thumbnail ==> step.DoSetThumbnail? && row.thumbnail == Some(step.url))
      && (step.Count? && step.id == id ==> row == was.(counters := step.counters, currentVersion := step.version))
  {
  }

  // A thumbnail that is accepted is the one stored.
  lemma ThumbnailIsStored(w: World, id: Id, user: Id, url: string, host: Option<string>, parsed: Option<Url>)
    requires SetThumbnail(w, id, user, url, host, parsed).result.Ok?
    ensures var w' := SetThumbnail(w, id, user, url, host, parsed).world;
      id in w.rows && w'.rows == w.rows[id := w.rows[id].(thumbnail := Some(url))] && w'.blocks == w.blocks
  {
  }

  // A saved draft has the fields that were sent, the slug moves exactly with the name, tags are
  // replaced when sent, and no other row and no cached answer moves.
  lemma DraftIsSaved(w: World, pre: PreNormalizer, id: Id, user: Id, patch: Patch, tags: Option<set<string>>)
    requires SaveDraft(w, pre, id, user, patch, tags).result.Ok?
    ensures var w' := SaveDraft(w, pre, id, user, patch, tags).world; var was := w.rows[id];
      && id in w'.rows && w' == w.(rows := w.rows[id := w'.rows[id]])
      && w'.rows[id] == was.(
           name := if NewName(w, id, patch) then patch.name.value else was.name,
           slug := w'.rows[id].slug,
           description := if patch.description.Some? then patch.description.value else was.description,
           framework := if patch.framework.Some? && patch.framework.value != [] then patch.framework.value
                        else was.framework,
           category := if patch.category.Some? then patch.category.value else was.category,
           isPublic := if patch.isPublic.Some? then patch.isPublic.value else was.isPublic,
           tags := if tags.Some? then tags.value else was.tags)
      && (!NewName(w, id, patch) ==> w'.rows[id].slug == was.slug)
      && (NewName(w, id, patch) ==>
            Some(w'.rows[id].slug) == FirstFree(Slugify(pre, patch.name.value), Taken(w.rows, user, Some(id)), 0))
  {
  }

  // The slugs that are taken: those of the author's other components that are not removed.
  lemma TakenMeans(rows: map<Id, Component>, author: Id, except: Option<Id>, slug: string)
    ensures slug in Taken(rows, author, except) <==>
            exists id | id in rows :: rows[id].slug == slug && rows[id].author == author && !rows[id].deleted
                                      && except != Some(id)
  {
  }

  // New rows come with a creation or a fork, under the caller's name, and only one at a time.
  lemma NewRow(w: World, pre: PreNormalizer, step: Step, id: Id)
    requires id !in w.rows && id in Next(w, pre, step).rows
    ensures var c := Next(w, pre, step).rows[id];
      && (step.DoCreate? || step.DoFork?) && step.id == id && step.user == c.author
      && !c.deleted && c.currentVersion == Some(1) && c.counters == 0 && c.thumbnail == None
      && (step.DoFork? ==> !c.isDraft)
  {
  }

  // ── Cached answers ─────────────────────────────────────────────────────────

  predicate Untagged(w: World, tags: set<string>) {
    forall k | k in w.cache.cells && Live(w.cache, k) :: w.cache.cells[k].labels !! tags
  }

  lemma DropsTags(w: World, w': World, tags: seq<string>)
    requires Coverage.Inv(w.cache, TtlsOf) && w' == InvalidateAfter(w'.(cache := w.cache), tags)
    ensures Untagged(w', set t | t in tags)
  {
    Coverage.InvalidateKeeps(w.cache, TtlsOf, tags);
  }

  // Which lists and pages a change takes out of the cache, by tag. Work on drafts takes out none.
  predicate NewRowDrops(w: World, step: Step, w': World) {
    && (step.DoCreate? && step.id !in w.rows && step.id in w'.rows ==>
          if w'.rows[step.id].isDraft then w'.cache == w.cache
          else Untagged(w', {"feed:trending", "author:" + step.user}))
    && (step.DoFork? && step.id !in w.rows && step.id in w'.rows ==>
          Untagged(w', {"component:" + step.parent, "feed:trending"}))
  }

  predicate ChangeDrops(w: World, step: Step, w': World) {
    && (step.DoPublish? && w'.rows != w.rows ==> Untagged(w', {"feed:trending", "author:" + step.user}))
    && (step.DoUpdate? && w'.rows != w.rows ==>
          Untagged(w', {"component:" + step.id, "author:" + step.user, "feed:trending"}))
    && (step.DoSetThumbnail? && step.id in w.rows && w'.rows != w.rows ==>
          if w.rows[step.id].isDraft then w'.cache == w.cache
          else Untagged(w', {"component:" + step.id, "feed:trending"}))
    && (step.DoSaveDraft? ==> w'.cache == w.cache)
  }

  predicate RemovalDrops(w: World, step: Step, w': World) {
    && (step.DoRemove? && w'.rows != w.rows ==>
          Untagged(w', {"component:" + step.id, "author:" + step.user, "feed:trending"}))
    && (step.DoTakeDown? && step.id in w.rows && w'.rows != w.rows ==>
          Untagged(w', {"component:" + step.id, "author:" + w.rows[step.id].author, "feed:trending"}))
  }

  lemma NewRowDropsTags(w: World, pre: PreNormalizer, step: Step)
    requires Coverage.Inv(w.cache, TtlsOf)
    ensures NewRowDrops(w, step, Next(w, pre, step))
  {
    var w' := Next(w, pre, step);
    match step
    case DoCreate(id, user, dto) =>
      if id !in w.rows && id in w'.rows && !w'.rows[id].isDraft { DropsTags(w, w', [TRENDING_TAG, AuthorTag(user)]); }
    case DoFork(id, parent, _, _, _) =>
      if id !in w.rows && id in w'.rows { DropsTags(w, w', [ComponentTag(parent), TRENDING_TAG]); }
    case _ =>
  }

  lemma ChangeDropsTags(w: World, pre: PreNormalizer, step: Step)
    requires Coverage.Inv(w.cache, TtlsOf)
    ensures ChangeDrops(w, step, Next(w, pre, step))
  {
    var w' := Next(w, pre, step);
    if w'.rows != w.rows {
      match step
      case DoPublish(id, user) => DropsTags(w, w', [TRENDING_TAG, AuthorTag(user)]);
      case DoUpdate(id, user, patch) => DropsTags(w, w', [ComponentTag(id), AuthorTag(user), TRENDING_TAG]);
      case DoSetThumbnail(id, user, _, _, _) =>
        if !w.rows[id].isDraft { DropsTags(w, w', [ComponentTag(id), TRENDING_TAG]); }
      case _ =>
    }
  }

  lemma RemovalDropsTags(w: World, pre: PreNormalizer, step: Step)
    requires Coverage.Inv(w.cache, TtlsOf)
    ensures RemovalDrops(w, step, Next(w, pre, step))
  {
    var w' := Next(w, pre, step);
    if w'.rows != w.rows {
      match step
      case DoRemove(id, user) => DropsTags(w, w', [ComponentTag(id), AuthorTag(user), TRENDING_TAG]);
      case DoTakeDown(id) => DropsTags(w, w', [ComponentTag(id), AuthorTag(w.rows[id].author), TRENDING_TAG]);
      case _ =>
    }
  }

  // In every reachable state.
  lemma ChangesDropTags(pre: PreNormalizer, steps: seq<Step>, step: Step)
    ensures var w := Run(pre, steps); var w' := Next(w, pre, step);
      NewRowDrops(w, step, w') && ChangeDrops(w, step, w') && RemovalDrops(w, step, w')
  {
    RunFaithful(pre, steps);
    NewRowDropsTags(Run(pre, steps), pre, step);
    ChangeDropsTags(Run(pre, steps), pre, step);
    RemovalDropsTags(Run(pre, steps), pre, step);
  }

  // A cached row is shown as it is, across a block apart; a public, published row that is read
  // from the table stays cached for 120 seconds; what is cached, private or
  // a draft leaves the cache as it was.
  lemma ReadIsCached(w: World, id: Id, viewer: Option<Id>, later: nat)
    ensures var w', hit := FindById(w, id, viewer).world, Lookup(w.cache, ComponentKey(id));
      && w' == w.(cache := w'.cache)
      && (hit.Some? ==>
            FindById(w, id, viewer).result
            == if viewer.Some? && Barred(w, viewer.value, hit.value.author) then Err(NotFound) else Ok(hit.value))
      && (hit.None? ==> FindById(w, id, viewer).result == FindUncached(w, id, viewer))
      && (hit.Some? || !Readable(w, id, viewer) || !w.rows[id].isPublic || w.rows[id].isDraft ==> w' == w)
      && (hit.None? && Readable(w, id, viewer) && w.rows[id].isPublic && !w.rows[id].isDraft ==>
            Lookup(w'.cache.(now := w'.cache.now + later), ComponentKey(id)) ==
            if later < 120_000 then Some(w.rows[id]) else None)
  {
    KeyIsPlain(id);
    Coverage.EntryKeyIsTagKey(ComponentKey(id));
    if There(w, id) {
      Coverage.PutEffect(w.cache, ComponentKey(id), w.rows[id], 0, PUBLIC_TTL, ComponentTag(id),
                         EntryKey(ComponentKey(id)));
    }
  }
}
