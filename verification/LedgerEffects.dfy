/** The social ledger table by table: who may call, and exactly which steps put a row in, change
  * it or take it out. */
module LedgerEffects {
  import opened Basics
  import opened Relations
  import opened Ledger
  import opened LedgerRuns
  import Text

  // ── Answers ────────────────────────────────────────────────────────────────

  predicate Live(db: Db, c: Id) { c in db.components && !db.components[c].deleted }

  predicate LiveMember(db: Db, u: Id) { u in db.users && !db.users[u] }

  predicate Barred(db: Db, a: Id, b: Id) { a != b && ((a, b) in db.blocks || (b, a) in db.blocks) }

  // Reactions to what is there, not across a block, by somebody who is there.
  predicate MayReact(db: Db, u: Id, c: Id) {
    Live(db, c) && !Barred(db, u, db.components[c].author) && u in db.users
  }

  lemma WhoMayReact(db: Db, u: Id, c: Id)
    ensures var r := Like(db, u, c).result;
      && r == Favorite(db, u, c).result
      && (r.Ok? <==> MayReact(db, u, c))
      && (r == Err(NotFound) <==> !Live(db, c) || Barred(db, u, db.components[c].author))
      && (r.Ok? || r == Err(NotFound) || r == Err(Conflict))
    ensures Unlike(db, u, c).result.Ok? && Unfavorite(db, u, c).result.Ok?
  {
  }

  lemma WhoMayFollowAndBlock(db: Db, a: Id, b: Id)
    ensures var r := Follow(db, a, b).result;
      && (r.Ok? <==> a != b && LiveMember(db, b) && !Barred(db, a, b) && a in db.users)
      && (r == Err(BadRequest) <==> a == b)
      && (r == Err(NotFound) <==> a != b && (!LiveMember(db, b) || Barred(db, a, b)))
    ensures var r := Block(db, a, b).result;
      && (r.Ok? <==> a != b && LiveMember(db, b) && a in db.users)
      && (r == Err(BadRequest) <==> a == b)
      && (r == Err(NotFound) <==> a != b && !LiveMember(db, b))
    ensures Unfollow(db, a, b).result.Ok? && Unblock(db, a, b).result.Ok?
  {
  }

  predicate MayFork(db: Db, u: Id, parent: Id) { MayReact(db, u, parent) }

  // Components are removed by their author or, with a reason, by a moderator; to anyone else
  // they are not there.
  lemma WhoMayChangeComponents(db: Db, u: Id, c: Id, tags: set<Id>, visible: bool, ready: bool, draft: bool,
                               reason: string)
    ensures CreateComponent(db, u, tags, ready).result.Ok? <==> u in db.users && ready
    ensures var r := ForkComponent(db, u, c, visible, ready).result;
      && (r.Ok? <==> MayFork(db, u, c) && visible && ready)
      && (r == Err(NotFound) <==> !Live(db, c) || !visible || Barred(db, u, db.components[c].author))
    ensures Remove(db, u, c).result
            == if Live(db, c) && db.components[c].author == u then Ok(()) else Err(NotFound)
    ensures TakeDown(db, c, reason).result
            == if !Live(db, c) then Err(NotFound) else if Text.Trim(reason) == [] then Err(BadRequest) else Ok(())
    ensures ReplaceTags(db, u, c, draft, tags).result
            == if !(Live(db, c) && db.components[c].author == u) then Err(NotFound)
               else if draft then Ok(()) else Err(BadRequest)
  {
  }

  predicate LiveComment(db: Db, m: Id) { m in db.comments && !db.comments[m].deleted }

  // Anyone comments on what is there; a comment is removed by its author or, with a reason, by
  // a moderator.
  lemma WhoMayComment(db: Db, u: Id, c: Id, reply: Option<Id>, m: Id, reason: string)
    ensures AddComment(db, u, c, reply).result
            == if !Live(db, c) then Err(NotFound)
               else if u in db.users && (reply.Some? ==> reply.value in db.comments) then Ok(()) else Err(Conflict)
    ensures RemoveComment(db, u, m).result
            == if LiveComment(db, m) && db.comments[m].author == u then Ok(()) else Err(NotFound)
    ensures TakeDownComment(db, m, reason).result
            == if !LiveComment(db, m) then Err(NotFound)
               else if Text.Trim(reason) == [] then Err(BadRequest) else Ok(())
  {
  }

  predicate LiveCollection(db: Db, k: Id) { k in db.collections && !db.collections[k].deleted }

  predicate AnswersOwner(db: Db, u: Id, k: Id, r: Result<()>) {
    && (r == Err(NotFound) <==> !LiveCollection(db, k))
    && (r == Err(Forbidden) <==> LiveCollection(db, k) && db.collections[k].owner != u)
  }

  // A collection is its owner's: a stranger is forbidden, whatever they ask for.
  lemma WhoMayCollect(db: Db, u: Id, k: Id, c: Id)
    ensures AnswersOwner(db, u, k, AddItem(db, u, k, c).result)
    ensures AnswersOwner(db, u, k, RemoveItem(db, u, k, c).result)
    ensures AnswersOwner(db, u, k, RemoveCollection(db, u, k).result)
    ensures LiveCollection(db, k) && db.collections[k].owner == u ==>
      && RemoveItem(db, u, k, c).result.Ok? && RemoveCollection(db, u, k).result.Ok?
      && AddItem(db, u, k, c).result
         == if c in db.components || (k, c) in db.items.edges then Ok(()) else Err(Conflict)
    ensures CreateCollection(db, u).result == if u in db.users then Ok(()) else Err(Conflict)
    ensures Erase(db, u).result == if LiveMember(db, u) then Ok(()) else Err(NotFound)
  {
  }

  // ── Reactions, follows and blocks ──────────────────────────────────────────

  predicate Erases(db: Db, step: Step, u: Id) { step == Bulk(DoErase(u)) && LiveMember(db, u) }

  // The purge takes a component that was removed before and has expired.
  predicate Purges(db: Db, step: Step, c: Id) {
    step.Bulk? && step.b.DoPurgeComponents? && c in step.b.expired && c in db.components && db.components[c].deleted
  }

  predicate ReactionLaw(db: Db, step: Step, db': Db, c: Id, u: Id) {
    && ((c, u) in db'.likes.edges <==>
          || (step == Social(DoLike(u, c)) && MayReact(db, u, c))
          || ((c, u) in db.likes.edges
              && step != Social(DoUnlike(u, c)) && !Erases(db, step, u) && !Purges(db, step, c)))
    && ((c, u) in db'.favorites.edges <==>
          || (step == Social(DoFavorite(u, c)) && MayReact(db, u, c))
          || ((c, u) in db.favorites.edges
              && step != Social(DoUnfavorite(u, c)) && !Erases(db, step, u) && !Purges(db, step, c)))
  }

  lemma SocialReaction(db: Db, s: SocialStep, c: Id, u: Id)
    ensures ReactionLaw(db, Social(s), NextSocial(db, s), c, u)
  {
    if s.DoBlock? { BlockFrame(db, s.a, s.b); }
  }

  lemma ContentReaction(db: Db, t: ContentStep, c: Id, u: Id)
    ensures ReactionLaw(db, Content(t), NextContent(db, t), c, u)
  {
  }

  lemma BulkReaction(db: Db, b: BulkStep, c: Id, u: Id)
    ensures ReactionLaw(db, Bulk(b), NextBulk(db, b), c, u)
  {
  }

  // A like and a favorite come with their user's call and go with its undoing, with the user's
  // account and with the component.
  lemma EveryReaction(db: Db, step: Step, c: Id, u: Id)
    ensures ReactionLaw(db, step, Next(db, step), c, u)
  {
    match step
    case Social(s) => SocialReaction(db, s, c, u);
    case Content(t) => ContentReaction(db, t, c, u);
    case Shelf(k) => ShelfFrame(db, k);
    case Bulk(b) => BulkReaction(db, b, c, u);
  }

  // A first block between two users.
  predicate Severs(db: Db, step: Step, a: Id, b: Id) {
    step == Social(DoBlock(a, b)) && a != b && LiveMember(db, b) && a in db.users && (a, b) !in db.blocks
  }

  predicate FollowLaw(db: Db, step: Step, db': Db, a: Id, b: Id) {
    && ((a, b) in db'.following.edges <==>
          || (step == Social(DoFollow(a, b)) && a != b && LiveMember(db, b) && !Barred(db, a, b) && a in db.users)
          || ((a, b) in db.following.edges
              && step != Social(DoUnfollow(a, b)) && !Severs(db, step, a, b) && !Severs(db, step, b, a)
              && !Erases(db, step, a) && !Erases(db, step, b)))
    && ((a, b) in db'.blocks <==>
          || (step == Social(DoBlock(a, b)) && a != b && LiveMember(db, b) && a in db.users)
          || ((a, b) in db.blocks
              && step != Social(DoUnblock(a, b)) && !Erases(db, step, a) && !Erases(db, step, b)))
  }

  lemma DropFollowRows(db: Db, a: Id, b: Id)
    ensures DropFollow(db, a, b).following.edges == db.following.edges - {(a, b)}
    ensures DropFollow(db, a, b).blocks == db.blocks
  {
  }

  lemma BlockRows(db: Db, x: Id, y: Id, a: Id, b: Id)
    ensures FollowLaw(db, Social(DoBlock(x, y)), Block(db, x, y).db, a, b)
  {
    var db1 := db.(blocks := db.blocks + {(x, y)});
    DropFollowRows(db1, x, y);
    DropFollowRows(DropFollow(db1, x, y), y, x);
  }

  lemma SocialFollow(db: Db, s: SocialStep, a: Id, b: Id)
    requires !s.DoBlock?
    ensures FollowLaw(db, Social(s), NextSocial(db, s), a, b)
  {
  }

  lemma BulkFollow(db: Db, b: BulkStep, x: Id, y: Id)
    ensures FollowLaw(db, Bulk(b), NextBulk(db, b), x, y)
  {
  }

  // A follow and a block come with their user's call; a follow goes with its undoing and with a
  // first block in either direction, a block with its lifting, and both with either account.
  lemma EveryFollow(db: Db, step: Step, a: Id, b: Id)
    ensures FollowLaw(db, step, Next(db, step), a, b)
  {
    match step
    case Social(s) => if s.DoBlock? { BlockRows(db, s.a, s.b, a, b); } else { SocialFollow(db, s, a, b); }
    case Content(t) => ContentFrame(db, t);
    case Shelf(k) => ShelfFrame(db, k);
    case Bulk(bulk) => BulkFollow(db, bulk, a, b);
  }

  // ── Users, components and comments ─────────────────────────────────────────

  predicate UserLaw(db: Db, step: Step, db': Db, u: Id) {
    && (u in db'.users <==> u in db.users || (step == Social(DoRegister) && u == db.next))
    && (u in db'.users ==> (db'.users[u] <==> u in db.users && (db.users[u] || step == Bulk(DoErase(u)))))
  }

  lemma SocialUser(db: Db, s: SocialStep, u: Id)
    requires u in db.users ==> u < db.next
    ensures UserLaw(db, Social(s), NextSocial(db, s), u)
  {
    if s.DoBlock? { BlockFrame(db, s.a, s.b); }
  }

  // Users come by registration and are marked by their own erasure alone.
  lemma EveryUser(db: Db, step: Step, u: Id)
    requires IdsOk(db)
    ensures UserLaw(db, step, Next(db, step), u)
  {
    match step
    case Social(s) => SocialUser(db, s, u);
    case Content(t) => ContentFrame(db, t);
    case Shelf(k) => ShelfFrame(db, k);
    case Bulk(b) =>
  }

  predicate Removes(db: Db, step: Step, c: Id)
    requires c in db.components
  {
    || step == Content(DoRemove(db.components[c].author, c))
    || (step.Content? && step.t.DoTakeDown? && step.t.c == c && Text.Trim(step.t.reason) != [])
  }

  predicate ComponentLaw(db: Db, step: Step, db': Db, c: Id)
    requires c in db.components
  {
    var was := db.components[c];
    && (c in db'.components <==> !Purges(db, step, c))
    && (c in db'.components ==>
          && db'.components[c].author == was.author
          && (db'.components[c].deleted <==> was.deleted || Removes(db, step, c))
          && db'.components[c].forkedFrom
             == if was.forkedFrom.Some? && Purges(db, step, was.forkedFrom.value) then None else was.forkedFrom)
  }

  lemma ContentComponent(db: Db, t: ContentStep, c: Id)
    requires c in db.components && c < db.next
    ensures ComponentLaw(db, Content(t), NextContent(db, t), c)
  {
  }

  lemma BulkComponent(db: Db, b: BulkStep, c: Id)
    requires c in db.components
    ensures ComponentLaw(db, Bulk(b), NextBulk(db, b), c)
  {
  }

  // A stored component keeps its author; it is hidden by its author's removal or a reasoned
  // takedown, goes with the purge, and loses its fork link with its parent.
  lemma EveryComponent(db: Db, step: Step, c: Id)
    requires IdsOk(db) && c in db.components
    ensures ComponentLaw(db, step, Next(db, step), c)
  {
    match step
    case Social(s) => SocialFrame(db, s);
    case Content(t) => ContentComponent(db, t, c);
    case Shelf(k) => ShelfFrame(db, k);
    case Bulk(b) => BulkComponent(db, b, c);
  }

  // New ones are created or forked, by their author.
  lemma NewComponent(db: Db, step: Step, c: Id)
    requires c !in db.components
    ensures var db' := Next(db, step);
      && (c in db'.components <==>
            && c == db.next && step.Content?
            && match step.t
               case DoCreate(u, tags, named) => u in db.users && named
               case DoFork(u, parent, visible, ready) => MayFork(db, u, parent) && visible && ready
               case _ => false)
      && (c in db'.components ==>
            && db'.components[c].author == step.t.u && !db'.components[c].deleted
            && db'.components[c].forkedFrom == if step.t.DoFork? then Some(step.t.parent) else None)
  {
    match step
    case Social(s) => SocialFrame(db, s);
    case Content(t) =>
    case Shelf(k) => ShelfFrame(db, k);
    case Bulk(b) =>
  }

  // The comments a purge deletes outright: of purged components, or hidden and expired.
  predicate Struck(db: Db, step: Step, m: Id)
    requires m in db.comments
  {
    || Purges(db, step, db.comments[m].component)
    || (step.Bulk? && step.b.DoPurgeComments? && m in step.b.expired && db.comments[m].deleted)
  }

  predicate Hides(db: Db, step: Step, m: Id)
    requires m in db.comments
  {
    || step == Content(DoRemoveComment(db.comments[m].author, m))
    || (step.Content? && step.t.DoTakeDownComment? && step.t.m == m && Text.Trim(step.t.reason) != [])
  }

  predicate CommentLaw(db: Db, step: Step, db': Db, m: Id)
    requires m in db.comments
  {
    var was := db.comments[m];
    && (m !in db'.comments <==> Struck(db, step, m) || (was.parent.Some? && was.parent.value !in db'.comments))
    && (m in db'.comments ==>
          && db'.comments[m] == was.(deleted := db'.comments[m].deleted)
          && (db'.comments[m].deleted <==> was.deleted || Hides(db, step, m)))
  }

  predicate Nested(db: Db, m: Id)
    requires m in db.comments
  {
    var parent := db.comments[m].parent;
    m < db.next && (parent.Some? ==> parent.value in db.comments && parent.value < m)
  }

  lemma ContentComment(db: Db, t: ContentStep, m: Id)
    requires m in db.comments && Nested(db, m)
    ensures CommentLaw(db, Content(t), NextContent(db, t), m)
  {
  }

  lemma DropCommentsLaw(db: Db, direct: set<Id>, m: Id)
    requires m in db.comments && Nested(db, m)
    ensures var comments := DropComments(db, direct).comments; var parent := db.comments[m].parent;
      && (m !in comments <==> m in direct || (parent.Some? && parent.value !in comments))
      && (m in comments ==> comments[m] == db.comments[m])
  {
  }

  lemma BulkComment(db: Db, b: BulkStep, m: Id)
    requires m in db.comments && Nested(db, m)
    ensures CommentLaw(db, Bulk(b), NextBulk(db, b), m)
  {
    match b
    case DoErase(u) =>
    case DoPurgeComponents(expired) =>
      DropCommentsLaw(db, CommentsOn(db.comments, SoftDeleted(db.components, expired)), m);
    case DoPurgeComments(expired) => DropCommentsLaw(db, HiddenComments(db.comments, expired), m);
  }

  // A stored comment keeps its component, author and parent; it is hidden by its author's
  // removal or a reasoned takedown, and goes if it is struck or its parent goes.
  lemma EveryComment(db: Db, step: Step, m: Id)
    requires IdsOk(db) && RepliesOf(db) && m in db.comments
    ensures CommentLaw(db, step, Next(db, step), m)
  {
    assert Nested(db, m);
    match step
    case Social(s) => SocialFrame(db, s);
    case Content(t) => ContentComment(db, t, m);
    case Shelf(k) => ShelfFrame(db, k);
    case Bulk(b) => BulkComment(db, b, m);
  }

  lemma NewComment(db: Db, step: Step, m: Id)
    requires m !in db.comments
    ensures var db' := Next(db, step);
      && (m in db'.comments <==>
            m == db.next && step.Content? && step.t.DoComment?
            && AddComment(db, step.t.u, step.t.c, step.t.reply).result.Ok?)
      && (m in db'.comments ==> db'.comments[m] == Comment(step.t.c, step.t.u, step.t.reply, false))
  {
    match step
    case Social(s) => SocialFrame(db, s);
    case Content(t) =>
    case Shelf(k) => ShelfFrame(db, k);
    case Bulk(b) =>
  }

  lemma ContentOrdinal(db: Db, t: ContentStep)
    ensures NextContent(db, t).next == db.next + if Creates(db, Content(t)) then 1 else 0
  {
  }

  // Ids are given out one by one: to a new user, component, comment or collection.
  lemma EveryOrdinal(db: Db, step: Step)
    ensures Next(db, step).next == db.next + if Creates(db, step) then 1 else 0
  {
    match step
    case Social(s) => if s.DoBlock? { BlockFrame(db, s.a, s.b); }
    case Content(t) => ContentOrdinal(db, t);
    case Shelf(k) =>
    case Bulk(b) =>
  }

  predicate Creates(db: Db, step: Step) {
    match step
    case Social(s) => s.DoRegister?
    case Content(DoCreate(u, tags, named)) => u in db.users && named
    case Content(DoFork(u, parent, visible, ready)) => MayFork(db, u, parent) && visible && ready
    case Content(DoComment(u, c, reply)) =>
      Live(db, c) && u in db.users && (reply.Some? ==> reply.value in db.comments)
    case Shelf(DoCreateCollection(u)) => u in db.users
    case _ => false
  }

  // ── Collections and tags ───────────────────────────────────────────────────

  // A collection is its owner's from creation on, hidden by the owner alone and deleted with the
  // owner's account.
  lemma EveryCollection(db: Db, step: Step, k: Id)
    requires IdsOk(db)
    ensures var db' := Next(db, step);
      && (k in db.collections ==>
            && (k in db'.collections <==> !Erases(db, step, db.collections[k].owner))
            && (k in db'.collections ==>
                  && db'.collections[k].owner == db.collections[k].owner
                  && (db'.collections[k].deleted <==>
                        db.collections[k].deleted
                        || step == Shelf(DoRemoveCollection(db.collections[k].owner, k)))))
      && (k !in db.collections ==>
            && (k in db'.collections <==>
                  k == db.next && step.Shelf? && step.k.DoCreateCollection? && step.k.u in db.users)
            && (k in db'.collections ==> db'.collections[k] == Collection(step.k.u, false)))
  {
    match step
    case Social(s) => SocialFrame(db, s);
    case Content(t) => ContentFrame(db, t);
    case Shelf(s) =>
    case Bulk(b) =>
  }

  predicate ItemLaw(db: Db, step: Step, db': Db, k: Id, c: Id) {
    (k, c) in db'.items.edges <==>
      || (LiveCollection(db, k) && step == Shelf(DoAddItem(db.collections[k].owner, k, c)) && c in db.components)
      || ((k, c) in db.items.edges
          && k in db.collections
          && !(LiveCollection(db, k) && step == Shelf(DoRemoveItem(db.collections[k].owner, k, c)))
          && !Erases(db, step, db.collections[k].owner) && !Purges(db, step, c))
  }

  lemma ShelfItem(db: Db, s: ShelfStep, k: Id, c: Id)
    requires (k, c) in db.items.edges ==> k in db.collections && c in db.components
    ensures ItemLaw(db, Shelf(s), NextShelf(db, s), k, c)
  {
  }

  lemma BulkItem(db: Db, b: BulkStep, k: Id, c: Id)
    requires (k, c) in db.items.edges ==> k in db.collections
    ensures ItemLaw(db, Bulk(b), NextBulk(db, b), k, c)
  {
  }

  // An item comes and goes by its collection's owner, and goes with the owner's account and with
  // the component.
  lemma EveryItem(db: Db, step: Step, k: Id, c: Id)
    requires ItemsOf(db)
    ensures ItemLaw(db, step, Next(db, step), k, c)
  {
    assert (k, c) in db.items.edges ==> (k, c).0 in db.items.counters && (k, c).1 in db.components;
    match step
    case Social(s) => SocialFrame(db, s);
    case Content(t) => ContentFrame(db, t);
    case Shelf(s) => ShelfItem(db, s, k, c);
    case Bulk(b) => BulkItem(db, b, k, c);
  }

  // The tags a step gives a component, which replace what it had.
  function Tagged(db: Db, step: Step, c: Id): Option<set<Id>> {
    if !step.Content? then None
    else match step.t
      case DoCreate(u, tags, named) => if c == db.next && u in db.users && named then Some(tags) else None
      case DoFork(u, parent, visible, ready) =>
        if c == db.next && MayFork(db, u, parent) && visible && ready
        then Some(set e | e in db.labels.edges && e.1 == parent :: e.0) else None
      case DoReplaceTags(u, d, draft, tags) =>
        if c == d && Live(db, c) && db.components[c].author == u && draft then Some(tags) else None
      case _ => None
  }

  predicate LabelLaw(db: Db, step: Step, db': Db, t: Id, c: Id) {
    (t, c) in db'.labels.edges <==>
      if Tagged(db, step, c).Some? then t in Tagged(db, step, c).value
      else (t, c) in db.labels.edges && !Purges(db, step, c)
  }

  lemma AddComponentLabel(db: Db, u: Id, forkedFrom: Option<Id>, tags: set<Id>, t: Id, c: Id)
    requires forall e | e in db.labels.edges :: e.1 != db.next
    ensures (t, c) in AddComponent(db, u, forkedFrom, tags).labels.edges <==>
            if c == db.next then t in tags else (t, c) in db.labels.edges
  {
    assert Links(tags, db.next) !! db.labels.edges;
  }

  lemma ReplaceTagsLabel(db: Db, u: Id, d: Id, tags: set<Id>, t: Id, c: Id)
    requires ReplaceTags(db, u, d, true, tags).result.Ok?
    ensures (t, c) in ReplaceTags(db, u, d, true, tags).db.labels.edges <==>
            if c == d then t in tags else (t, c) in db.labels.edges
  {
    var pruned := Prune(db.labels, set e | e in db.labels.edges && e.1 == d);
    assert Links(tags, d) !! pruned.edges;
  }

  lemma ContentLabel(db: Db, s: ContentStep, t: Id, c: Id)
    requires forall e | e in db.labels.edges :: e.1 < db.next
    ensures LabelLaw(db, Content(s), NextContent(db, s), t, c)
  {
    match s
    case DoCreate(u, tags, named) => AddComponentLabel(db, u, None, tags, t, c);
    case DoFork(u, parent, visible, ready) => AddComponentLabel(db, u, Some(parent), TagsOf(db, parent), t, c);
    case DoReplaceTags(u, d, draft, tags) =>
      if ReplaceTags(db, u, d, draft, tags).result.Ok? { ReplaceTagsLabel(db, u, d, tags, t, c); }
    case _ =>
  }

  // A component has the tags it was created, forked or last re-tagged with, until it is purged.
  lemma EveryLabel(db: Db, step: Step, t: Id, c: Id)
    requires IdsOk(db) && LabelsOf(db)
    ensures LabelLaw(db, step, Next(db, step), t, c)
  {
    assert forall e | e in db.labels.edges :: e.1 in db.components && e.1 < db.next;
    match step
    case Social(s) => SocialFrame(db, s);
    case Content(s) => ContentLabel(db, s, t, c);
    case Shelf(k) => ShelfFrame(db, k);
    case Bulk(b) =>
  }
}
