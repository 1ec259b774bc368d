/** Components and the cached `findById`: every service call, with the invalidation it
  * performs, as one step on the rows, the blocks and the cache. */
module Catalog {
  import opened Basics
  import opened Cache
  import Coverage
  import opened Slugs

  type Id = string

  datatype Component = Component(
    author: Id,
    name: string,
    slug: string,
    description: Option<string>,
    framework: string,
    category: Option<string>,
    isPublic: bool,
    isDraft: bool,
    thumbnail: Option<string>,
    tags: set<string>,
    deleted: bool,
    currentVersion: Option<nat>,
    counters: int)              // likes, favorites, comments, forks: never invalidated for

  // The fields a reader is promised; counters and the current version may lag by the TTL.
  datatype View = View(
    author: Id, name: string, slug: string, description: Option<string>, framework: string,
    category: Option<string>, isPublic: bool, isDraft: bool, thumbnail: Option<string>, tags: set<string>)

  function ViewOf(c: Component): View {
    View(c.author, c.name, c.slug, c.description, c.framework, c.category, c.isPublic, c.isDraft, c.thumbnail, c.tags)
  }

  datatype World = World(rows: map<Id, Component>, blocks: set<(Id, Id)>, cache: Store<Component>)

  datatype Reply<T> = Reply(world: World, result: Result<T>)

  predicate Found(w: World, id: Id) { id in w.rows && !w.rows[id].deleted }

  const COMPONENTS := "component:"

  function ComponentKey(id: Id): string { COMPONENTS + id + ":public" }

  function ComponentTag(id: Id): string { "component:" + id }

  function AuthorTag(id: Id): string { "author:" + id }

  const TRENDING_TAG := "feed:trending"

  // ── Reading ────────────────────────────────────────────────────────────────

  function FindUncached(w: World, id: Id, viewer: Option<Id>): Result<Component> {
    if !Found(w, id) then Err(NotFound)
    else
      var c := w.rows[id];
      if !c.isPublic && viewer != Some(c.author) then Err(NotFound)
      else if c.isDraft && viewer != Some(c.author) then Err(NotFound)
      else if viewer.Some? && viewer.value != c.author && BlockedEitherWay(w.blocks, viewer.value, c.author)
      then Err(NotFound)
      else Ok(c)
  }

  function FindById(w: World, id: Id, viewer: Option<Id>): Reply<Component> {
    var hit := Lookup(w.cache, ComponentKey(id));
    if hit.Some? then
      var c := hit.value;
      Reply(w, if viewer.Some? && viewer.value != c.author && BlockedEitherWay(w.blocks, viewer.value, c.author)
               then Err(NotFound) else Ok(c))
    else
      var r := FindUncached(w, id, viewer);
      Reply(if r.Ok? && r.value.isPublic && !r.value.isDraft
            then w.(cache := Put(w.cache, ComponentKey(id), r.value, 0, PUBLIC_TTL, [ComponentTag(id)])) else w, r)
  }

  // ── Writing ────────────────────────────────────────────────────────────────

  // Slugs an author's other live components hold.
  function Taken(rows: map<Id, Component>, author: Id, except: Option<Id>): set<string> {
    set id | id in rows && !rows[id].deleted && rows[id].author == author && Some(id) != except :: rows[id].slug
  }

  function InvalidateAfter(w: World, tags: seq<string>): World { w.(cache := Invalidate(w.cache, tags)) }

  function Insert(w: World, pre: PreNormalizer, id: Id, draft: Component): Result<World> {
    match FirstFree(Slugify(pre, draft.name), Taken(w.rows, draft.author, None), 0)
    case None => Err(BadRequest)
    case Some(slug) => Ok(w.(rows := w.rows[id := draft.(slug := slug)]))
  }

  datatype NewComponent = NewComponent(
    name: string, description: Option<string>, framework: string, category: Option<string>,
    isPublic: Option<bool>, isDraft: Option<bool>, tags: set<string>)

  function OrElse<T>(o: Option<T>, d: T): T { if o.Some? then o.value else d }

  function Create(w: World, pre: PreNormalizer, id: Id, user: Id, dto: NewComponent): Reply<()> {
    var row := Component(user, dto.name, [], dto.description, dto.framework, dto.category,
                         OrElse(dto.isPublic, true), OrElse(dto.isDraft, false), None, dto.tags, false, Some(1), 0);
    match Insert(w, pre, id, row)
    case Err(e) => Reply(w, Err(e))
    case Ok(w') =>
      Reply(if row.isDraft then w' else InvalidateAfter(w', [TRENDING_TAG, AuthorTag(user)]), Ok(()))
  }

  function ForkError(w: World, parent: Id, user: Id): Option<Error> {
    if !Found(w, parent) then Some(NotFound)
    else
      var p := w.rows[parent];
      if !p.isPublic && p.author != user then Some(NotFound)
      else if p.isDraft then Some(NotFound)
      else if p.author != user && BlockedEitherWay(w.blocks, user, p.author) then Some(NotFound)
      else if p.currentVersion.None? then Some(BadRequest)
      else None
  }

  function Fork(w: World, pre: PreNormalizer, id: Id, parent: Id, user: Id, name: Option<string>,
                isPublic: Option<bool>): Reply<()> {
    var err := ForkError(w, parent, user);
    if err.Some? then Reply(w, Err(err.value))
    else
      var p := w.rows[parent];
      var row := Component(user, OrElse(name, p.name + " (fork)"), [], p.description, p.framework, p.category,
                           OrElse(isPublic, true), false, None, p.tags, false, Some(1), 0);
      match Insert(w, pre, id, row)
      case Err(e) => Reply(w, Err(e))
      case Ok(w') => Reply(InvalidateAfter(w', [ComponentTag(parent), TRENDING_TAG]), Ok(()))
  }

  // A field left out is None; a description or category sent as null is Some(None).
  datatype Patch = Patch(
    name: Option<string>, description: Option<Option<string>>, framework: Option<string>,
    category: Option<Option<string>>, isPublic: Option<bool>)

  predicate Renames(c: Component, p: Patch) { p.name.Some? && p.name.value != [] && p.name.value != c.name }

  function ApplyFields(c: Component, p: Patch): Component {
    c.(description := OrElse(p.description, c.description),
       framework := if p.framework.Some? && p.framework.value != [] then p.framework.value else c.framework,
       category := OrElse(p.category, c.category),
       isPublic := OrElse(p.isPublic, c.isPublic))
  }

  function ApplyMetadata(w: World, pre: PreNormalizer, id: Id, p: Patch): Result<Component>
    requires id in w.rows
  {
    var c := w.rows[id];
    if !Renames(c, p) then Ok(ApplyFields(c, p))
    else match FirstFree(Slugify(pre, p.name.value), Taken(w.rows, c.author, Some(id)), 0)
      case None => Err(BadRequest)
      case Some(slug) => Ok(ApplyFields(c.(name := p.name.value, slug := slug), p))
  }

  predicate Owns(w: World, id: Id, user: Id) { Found(w, id) && w.rows[id].author == user }

  function SaveDraft(w: World, pre: PreNormalizer, id: Id, user: Id, p: Patch, tags: Option<set<string>>): Reply<()> {
    if !Owns(w, id, user) then Reply(w, Err(NotFound))
    else if !w.rows[id].isDraft then Reply(w, Err(BadRequest))
    else match ApplyMetadata(w, pre, id, p)
      case Err(e) => Reply(w, Err(e))
      case Ok(c) => Reply(w.(rows := w.rows[id := c.(tags := OrElse(tags, c.tags))]), Ok(()))
  }

  function Publish(w: World, id: Id, user: Id): Reply<()> {
    if !Owns(w, id, user) then Reply(w, Err(NotFound))
    else if !w.rows[id].isDraft || w.rows[id].currentVersion.None? then Reply(w, Err(BadRequest))
    else Reply(InvalidateAfter(w.(rows := w.rows[id := w.rows[id].(isDraft := false)]),
                               [TRENDING_TAG, AuthorTag(user)]), Ok(()))
  }

  function Update(w: World, pre: PreNormalizer, id: Id, user: Id, p: Patch): Reply<()> {
    if !Owns(w, id, user) then Reply(w, Err(NotFound))
    else match ApplyMetadata(w, pre, id, p)
      case Err(e) => Reply(w, Err(e))
      case Ok(c) =>
        Reply(InvalidateAfter(w.(rows := w.rows[id := c]), [ComponentTag(id), AuthorTag(user), TRENDING_TAG]), Ok(()))
  }

  function SoftDelete(w: World, id: Id): World
    requires id in w.rows
  {
    InvalidateAfter(w.(rows := w.rows[id := w.rows[id].(deleted := true)]),
                    [ComponentTag(id), AuthorTag(w.rows[id].author), TRENDING_TAG])
  }

  function Remove(w: World, id: Id, user: Id): Reply<()> {
    if Owns(w, id, user) then Reply(SoftDelete(w, id), Ok(())) else Reply(w, Err(NotFound))
  }

  // The moderator's takedown; its audit entry is the accounts model's concern.
  function TakeDown(w: World, id: Id): Reply<()> {
    if Found(w, id) then Reply(SoftDelete(w, id), Ok(())) else Reply(w, Err(NotFound))
  }

  // What the URL parser makes of a thumbnail address; None when it throws.
  datatype Url = Url(protocol: string, host: string)

  predicate AllowedOrigin(storageHost: Option<string>, parsed: Option<Url>) {
    storageHost.Some? && parsed.Some? && parsed.value == Url("https:", storageHost.value)
  }

  function SetThumbnail(w: World, id: Id, user: Id, url: string, storageHost: Option<string>, parsed: Option<Url>)
    : Reply<()>
  {
    if !AllowedOrigin(storageHost, parsed) then Reply(w, Err(BadRequest))
    else if !Owns(w, id, user) then Reply(w, Err(NotFound))
    else
      var w' := w.(rows := w.rows[id := w.rows[id].(thumbnail := Some(url))]);
      Reply(if w.rows[id].isDraft then w' else InvalidateAfter(w', [ComponentTag(id), TRENDING_TAG]), Ok(()))
  }

  // ── Runs ───────────────────────────────────────────────────────────────────

  datatype Step =
    | DoCreate(id: Id, user: Id, dto: NewComponent)
    | DoFork(id: Id, parent: Id, user: Id, name: Option<string>, isPub: Option<bool>)
    | DoSaveDraft(id: Id, user: Id, patch: Patch, tags: Option<set<string>>)
    | DoPublish(id: Id, user: Id)
    | DoUpdate(id: Id, user: Id, patch: Patch)
    | DoRemove(id: Id, user: Id)
    | DoTakeDown(id: Id)
    | DoSetThumbnail(id: Id, user: Id, url: string, storageHost: Option<string>, parsed: Option<Url>)
    | DoFind(id: Id, viewer: Option<Id>)
    | Purge(id: Id)                                   // hard delete of a soft-deleted row
    | Count(id: Id, counters: int, version: Option<nat>)   // likes, comments, new versions
    | DropCached(id: Id)                              // a comment takedown invalidates its component
    | Block(a: Id, b: Id)
    | Unblock(a: Id, b: Id)
    | Evict(id: Id)
    | Elsewhere(op: Coverage.Op<Component>)           // other services in the same Redis
    | Tick(elapsed: nat)

  function Next(w: World, pre: PreNormalizer, step: Step): World {
    match step
    case DoCreate(id, user, dto) => if id in w.rows then w else Create(w, pre, id, user, dto).world
    case DoFork(id, parent, user, name, isPub) =>
      if id in w.rows then w else Fork(w, pre, id, parent, user, name, isPub).world
    case DoSaveDraft(id, user, patch, tags) => SaveDraft(w, pre, id, user, patch, tags).world
    case DoPublish(id, user) => Publish(w, id, user).world
    case DoUpdate(id, user, patch) => Update(w, pre, id, user, patch).world
    case DoRemove(id, user) => Remove(w, id, user).world
    case DoTakeDown(id) => TakeDown(w, id).world
    case DoSetThumbnail(id, user, url, host, parsed) => SetThumbnail(w, id, user, url, host, parsed).world
    case DoFind(id, viewer) => FindById(w, id, viewer).world
    case Purge(id) => if id in w.rows && w.rows[id].deleted then w.(rows := w.rows - {id}) else w
    case Count(id, counters, version) =>
      if id in w.rows then w.(rows := w.rows[id := w.rows[id].(counters := counters, currentVersion := version)]) else w
    case DropCached(id) => InvalidateAfter(w, [ComponentTag(id)])
    case Block(a, b) => w.(blocks := w.blocks + {(a, b)})
    case Unblock(a, b) => w.(blocks := w.blocks - {(a, b)})
    case Evict(id) => w.(cache := Delete(w.cache, [ComponentKey(id)]))
    case Elsewhere(op) =>
      if Coverage.Foreign(op, COMPONENTS) then w.(cache := Coverage.Apply(w.cache, op)) else w
    case Tick(elapsed) => w.(cache := w.cache.(now := w.cache.now + elapsed))
  }

  const EMPTY := World(map[], {}, Store(map[], 0))

  function Run(pre: PreNormalizer, steps: seq<Step>): World {
    if steps == [] then EMPTY else Next(Run(pre, steps[..|steps| - 1]), pre, steps[|steps| - 1])
  }
}
