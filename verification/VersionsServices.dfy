/** Publishing, creating, forking and saving versions, statement by statement. */
module VersionsServices {
  import opened Basics
  import opened Versions

  class VersionsService {
    var next: Id
    var components: map<Id, Head>
    var rows: map<Key, Body>

    constructor ()
      ensures Snapshot() == EMPTY
    {
      next, components, rows := 0, map[], map[];
    }

    function Snapshot(): Db reads this { Db(next, components, rows, map[], map[]) }

    // The query for the highest number.
    method LatestNumber(c: Id) returns (latest: nat)
      ensures latest == Latest(rows, c)
    {
      latest := 0;
      var todo := Numbers(rows, c);
      while todo != {}
        invariant todo <= Numbers(rows, c)
        invariant latest == 0 || latest in Numbers(rows, c)
        invariant forall k | k in Numbers(rows, c) && k !in todo :: k <= latest
        decreases todo
      {
        var k :| k in todo;
        todo := todo - {k};
        if latest < k { latest := k; }
      }
    }

    method Publish(c: Id, u: Id, body: Body) returns (r: Result<()>)
      modifies this`rows, this`components
      ensures Reply(Snapshot(), r) == Versions.Publish(old(Snapshot()), c, u, body)
    {
      if c !in components || components[c].deleted { return Err(NotFound); }
      if components[c].author != u { return Err(Forbidden); }
      var latest := LatestNumber(c);
      rows := rows[(c, latest + 1) := body];
      components := components[c := components[c].(current := Some((c, latest + 1)))];
      return Ok(());
    }

    method Create(u: Id, draft: bool, body: Body) returns (c: Id)
      modifies this
      ensures c == old(next) && Snapshot() == NewComponent(old(Snapshot()), u, draft, body)
    {
      c := next;
      next := next + 1;
      components := components[c := Head(u, false, draft, None)];
      rows := rows[(c, 1) := body];
      components := components[c := components[c].(current := Some((c, 1)))];
    }

    method Fork(u: Id, parent: Id, visible: bool) returns (r: Result<()>)
      modifies this
      ensures Reply(Snapshot(), r) == Versions.Fork(old(Snapshot()), u, parent, visible)
    {
      if parent !in components || components[parent].deleted || !visible { return Err(NotFound); }
      if components[parent].draft { return Err(NotFound); }
      var source := components[parent].current;
      if source.None? || source.value !in rows { return Err(BadRequest); }
      var _ := Create(u, false, rows[source.value]);
      return Ok(());
    }

    method SaveDraft(c: Id, u: Id, code: Option<string>, dependencies: Option<string>) returns (r: Result<()>)
      modifies this`rows
      ensures Reply(Snapshot(), r) == Versions.SaveDraft(old(Snapshot()), c, u, code, dependencies)
    {
      if c !in components || components[c].deleted || components[c].author != u { return Err(NotFound); }
      if !components[c].draft { return Err(BadRequest); }
      var current := components[c].current;
      if current.None? || current.value !in rows { return Ok(()); }
      var version := rows[current.value];
      if code.Some? { version := version.(code := code.value); }
      if dependencies.Some? { version := version.(dependencies := dependencies.value); }
      rows := rows[current.value := version];
      return Ok(());
    }
  }
}
