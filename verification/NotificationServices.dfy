/** Enqueueing and delivering notifications over the inbox table and the job queue. */
module NotificationServices {
  import opened Basics
  import opened Notifications

  class NotificationsService {
    var rows: seq<Row>
    var queue: seq<Job>
    const workersEnabled: bool

    constructor (workersEnabled: bool)
      ensures this.workersEnabled == workersEnabled && rows == [] && queue == []
    {
      this.workersEnabled := workersEnabled;
      rows, queue := [], [];
    }

    // With workers on the job is queued; with workers off it is delivered in place, and a
    // failed delivery is only logged.
    method Enqueue(job: Job, now: int, fails: bool)
      modifies this
      ensures job.actor == Some(job.user) && job.user != [] ==> rows == old(rows) && queue == old(queue)
      ensures !(job.actor == Some(job.user) && job.user != []) && workersEnabled ==>
                rows == old(rows) && queue == old(queue) + [job]
      ensures !(job.actor == Some(job.user) && job.user != []) && !workersEnabled ==>
                queue == old(queue)
                && rows == if fails then old(rows) else Notifications.Deliver(World(old(rows), now), job).rows
    {
      if job.actor.Some? && job.actor.value != [] && job.actor.value == job.user { return; }
      if !workersEnabled {
        var _ := Deliver(job, now, fails);
        return;
      }
      queue := queue + [job];
    }

    // `fails`: the database refuses the insert.
    method Deliver(job: Job, now: int, fails: bool) returns (ok: bool)
      modifies this`rows
      ensures rows == if fails then old(rows) else Notifications.Deliver(World(old(rows), now), job).rows
      ensures ok <==> !fails || Duplicate(old(rows), job, now)
    {
      if job.key.Some? && job.key.value != [] {
        var recent := exists r | r in rows ::
          r.user == job.user && r.key == job.key && r.createdAt > now - WINDOW;
        assert recent <==> Duplicate(rows, job, now);
        if recent { return true; }
      }
      if fails { return false; }
      rows := rows + [RowOf(job, now)];
      return true;
    }
  }
}
