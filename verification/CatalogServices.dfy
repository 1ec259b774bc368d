/** The component service statement by statement: slug retry loops, in-place metadata
  * changes and the cache calls around them. */
module CatalogServices {
  import opened Basics
  import opened Cache
  import opened Slugs
  import opened Catalog

  class ComponentsService {
    var rows: map<Id, Component>
    var blocks: set<(Id, Id)>
    const cache: CacheService<Component>
    const pre: PreNormalizer
    const storageHost: Option<string>   // of the configured storage, if there is one

    constructor (cache: CacheService<Component>, pre: PreNormalizer, storageHost: Option<string>)
      ensures this.cache == cache && this.pre == pre && this.storageHost == storageHost
      ensures rows == map[] && blocks == {}
    {
      this.cache, this.pre, this.storageHost := cache, pre, storageHost;
      rows, blocks := map[], {};
    }

    function Snapshot(): World reads this, cache { World(rows, blocks, cache.store) }

    // Insert under the unique index: a candidate in use is a conflict, try the next.
    method InsertWithUniqueSlug(id: Id, draft: Component, baseSlug: string) returns (r: Result<()>)
      modifies this`rows
      ensures match FirstFree(baseSlug, Taken(old(rows), draft.author, None), 0)
              case None => r == Err(BadRequest) && rows == old(rows)
              case Some(slug) => r == Ok(()) && rows == old(rows)[id := draft.(slug := slug)]
    {
      var attempt := 0;
      while attempt < SLUG_RETRY_LIMIT
        invariant 0 <= attempt <= SLUG_RETRY_LIMIT && rows == old(rows)
        invariant FirstFree(baseSlug, Taken(rows, draft.author, None), attempt)
                  == FirstFree(baseSlug, Taken(rows, draft.author, None), 0)
      {
        var candidate := Candidate(baseSlug, attempt);
        var conflict := exists other | other in rows ::
          !rows[other].deleted && rows[other].author == draft.author && rows[other].slug == candidate;
        assert conflict <==> candidate in Taken(rows, draft.author, None);
        if !conflict {
          rows := rows[id := draft.(slug := candidate)];
          return Ok(());
        }
        attempt := attempt + 1;
      }
      return Err(BadRequest);
    }

    // Look the candidate up; a row that is the component itself is no conflict.
    method FindUniqueSlug(authorId: Id, baseSlug: string, excludeId: Id) returns (r: Option<string>)
      ensures r == FirstFree(baseSlug, Taken(rows, authorId, Some(excludeId)), 0)
    {
      var taken := Taken(rows, authorId, Some(excludeId));
      var attempt := 0;
      while attempt < SLUG_RETRY_LIMIT
        invariant 0 <= attempt <= SLUG_RETRY_LIMIT
        invariant FirstFree(baseSlug, taken, attempt) == FirstFree(baseSlug, taken, 0)
      {
        var candidate := Candidate(baseSlug, attempt);
        var conflict := exists other | other in rows ::
          !rows[other].deleted && rows[other].author == authorId && rows[other].slug == candidate && other != excludeId;
        assert conflict <==> candidate in taken;
        if !conflict { return Some(candidate); }
        attempt := attempt + 1;
      }
      return None;
    }

    method FindById(id: Id, viewer: Option<Id>) returns (r: Result<Component>)
      modifies cache
      ensures Reply(Snapshot(), r) == Catalog.FindById(old(Snapshot()), id, viewer)
    {
      var cached := cache.Get(ComponentKey(id), true);
      if cached.Some? {
        var author := cached.value.author;
        if viewer.Some? && viewer.value != author && BlockedEitherWay(blocks, viewer.value, author) {
          return Err(NotFound);
        }
        return Ok(cached.value);
      }
      if id !in rows || rows[id].deleted { return Err(NotFound); }
      var found := rows[id];
      if !found.isPublic && Some(found.author) != viewer { return Err(NotFound); }
      if found.isDraft && Some(found.author) != viewer { return Err(NotFound); }
      if viewer.Some? && viewer.value != found.author && BlockedEitherWay(blocks, viewer.value, found.author) {
        return Err(NotFound);
      }
      if found.isPublic && !found.isDraft {
        cache.Set(ComponentKey(id), found, 0, PUBLIC_TTL, [ComponentTag(id)], true);
      }
      return Ok(found);
    }

    method Create(id: Id, user: Id, dto: NewComponent) returns (r: Result<()>)
      modifies this`rows, cache
      ensures Reply(Snapshot(), r) == Catalog.Create(old(Snapshot()), pre, id, user, dto)
    {
      var row := Component(user, dto.name, [], dto.description, dto.framework, dto.category,
                           OrElse(dto.isPublic, true), OrElse(dto.isDraft, false), None, dto.tags, false, Some(1), 0);
      r := InsertWithUniqueSlug(id, row, Slugify(pre, dto.name));
      if r.Ok? && !row.isDraft { cache.InvalidateTags([TRENDING_TAG, AuthorTag(user)], None); }
    }

    method Fork(id: Id, parentId: Id, user: Id, name: Option<string>, isPublic: Option<bool>) returns (r: Result<()>)
      modifies this`rows, cache
      ensures Reply(Snapshot(), r) == Catalog.Fork(old(Snapshot()), pre, id, parentId, user, name, isPublic)
    {
      if parentId !in rows || rows[parentId].deleted { return Err(NotFound); }
      var parent := rows[parentId];
      if !parent.isPublic && parent.author != user { return Err(NotFound); }
      if parent.isDraft { return Err(NotFound); }
      if parent.author != user && BlockedEitherWay(blocks, user, parent.author) { return Err(NotFound); }
      if parent.currentVersion.None? { return Err(BadRequest); }
      var forkName := if name.Some? then name.value else parent.name + " (fork)";
      var row := Component(user, forkName, [], parent.description, parent.framework, parent.category,
                           OrElse(isPublic, true), false, None, parent.tags, false, Some(1), 0);
      r := InsertWithUniqueSlug(id, row, Slugify(pre, forkName));
      if r.Ok? { cache.InvalidateTags([ComponentTag(parentId), TRENDING_TAG], None); }
    }

    method ApplyMetadata(id: Id, patch: Patch) returns (r: Result<Component>)
      requires id in rows
      ensures r == Catalog.ApplyMetadata(Snapshot(), pre, id, patch)
    {
      var component := rows[id];
      if patch.name.Some? && patch.name.value != [] && patch.name.value != component.name {
        var slug := FindUniqueSlug(component.author, Slugify(pre, patch.name.value), id);
        if slug.None? { return Err(BadRequest); }
        component := component.(name := patch.name.value, slug := slug.value);
      }
      component := SetFields(component, patch);
      return Ok(component);
    }

    method SetFields(row: Component, patch: Patch) returns (component: Component)
      ensures component == ApplyFields(row, patch)
    {
      component := row;
      if patch.description.Some? { component := component.(description := patch.description.value); }
      if patch.framework.Some? && patch.framework.value != [] {
        component := component.(framework := patch.framework.value);
      }
      if patch.category.Some? { component := component.(category := patch.category.value); }
      if patch.isPublic.Some? { component := component.(isPublic := patch.isPublic.value); }
    }

    method SaveDraft(id: Id, user: Id, patch: Patch, tags: Option<set<string>>) returns (r: Result<()>)
      modifies this`rows
      ensures Reply(Snapshot(), r) == Catalog.SaveDraft(old(Snapshot()), pre, id, user, patch, tags)
    {
      if id !in rows || rows[id].deleted || rows[id].author != user { return Err(NotFound); }
      if !rows[id].isDraft { return Err(BadRequest); }
      var applied := ApplyMetadata(id, patch);
      if applied.Err? { return Err(applied.error); }
      var component := applied.value;
      if tags.Some? { component := component.(tags := tags.value); }
      rows := rows[id := component];
      return Ok(());
    }

    method Publish(id: Id, user: Id) returns (r: Result<()>)
      modifies this`rows, cache
      ensures Reply(Snapshot(), r) == Catalog.Publish(old(Snapshot()), id, user)
    {
      if id !in rows || rows[id].deleted || rows[id].author != user { return Err(NotFound); }
      if !rows[id].isDraft || rows[id].currentVersion.None? { return Err(BadRequest); }
      rows := rows[id := rows[id].(isDraft := false)];
      cache.InvalidateTags([TRENDING_TAG, AuthorTag(user)], None);
      return Ok(());
    }

    method Update(id: Id, user: Id, patch: Patch) returns (r: Result<()>)
      modifies this`rows, cache
      ensures Reply(Snapshot(), r) == Catalog.Update(old(Snapshot()), pre, id, user, patch)
    {
      if id !in rows || rows[id].deleted || rows[id].author != user { return Err(NotFound); }
      var applied := ApplyMetadata(id, patch);
      if applied.Err? { return Err(applied.error); }
      rows := rows[id := applied.value];
      cache.InvalidateTags([ComponentTag(id), AuthorTag(user), TRENDING_TAG], None);
      return Ok(());
    }

    method Remove(id: Id, user: Id) returns (r: Result<()>)
      modifies this`rows, cache
      ensures Reply(Snapshot(), r) == Catalog.Remove(old(Snapshot()), id, user)
    {
      if id !in rows || rows[id].deleted || rows[id].author != user { return Err(NotFound); }
      rows := rows[id := rows[id].(deleted := true)];
      cache.InvalidateTags([ComponentTag(id), AuthorTag(user), TRENDING_TAG], None);
      return Ok(());
    }

    method SetThumbnail(id: Id, user: Id, url: string, parsed: Option<Url>) returns (r: Result<()>)
      modifies this`rows, cache
      ensures Reply(Snapshot(), r) == Catalog.SetThumbnail(old(Snapshot()), id, user, url, storageHost, parsed)
    {
      if storageHost.None? || parsed.None? { return Err(BadRequest); }
      if parsed.value.protocol != "https:" || parsed.value.host != storageHost.value { return Err(BadRequest); }
      if id !in rows || rows[id].deleted || rows[id].author != user { return Err(NotFound); }
      rows := rows[id := rows[id].(thumbnail := Some(url))];
      if !rows[id].isDraft { cache.InvalidateTags([ComponentTag(id), TRENDING_TAG], None); }
      return Ok(());
    }
  }
}
