/**
 * The start and stop endpoints of the time tracker.  Starting writes one fresh entry twice, as
 * the user's active-entry marker and under its own id, in one atomic batch; stopping copies the
 * marker with its end time set back under the entry's id and deletes the marker, again in one
 * batch, or answers 404 when there is no marker.
 */
module TimeTracking {
  import opened Common
  import opened Keys
  import opened Store
  import opened Schema

  /** The answer of the stop endpoint: the closed entry, or status 404 "No active time entry found". */
  datatype StopResponse = Stopped(entry: TimeEntry) | NoActiveEntry

  /** The entry the start endpoint creates: no project, open, empty description, no tags, rate 0. */
  function NewEntry(userId: string, id: string, now: Time): TimeEntry {
    TimeEntry(id, userId, None, now, None, "", [], 0.0)
  }

  /** The start batch: the marker first, then the entry under its id, both holding the same record. */
  function StartMutations(userId: string, e: TimeEntry): seq<Mutation<Value>> {
    [Put(ActiveEntryKey(userId), TimeEntryRecord(e), None), Put(TimeEntryKey(userId, e.id), TimeEntryRecord(e), None)]
  }

  /** The stop batch: the closed entry under its id, then the marker's deletion. */
  function StopMutations(userId: string, e: TimeEntry): seq<Mutation<Value>> {
    [Put(TimeEntryKey(userId, e.id), TimeEntryRecord(e), None), Remove(ActiveEntryKey(userId))]
  }

  /** The store after `startTimeTracking(userId)` with fresh id `id` at instant `now`. */
  function StartState(d: Db, userId: string, id: string, now: Time): Db {
    ApplyAll(d, StartMutations(userId, NewEntry(userId, id, now)))
  }

  /** The answer of `stopTimeTracking(userId)` at instant `now`, and the store after it. */
  function Stop(d: Db, userId: string, now: Time): (StopResponse, Db)
    requires WellFormed(d)
  {
    var marker := ActiveEntryKey(userId);
    if marker !in d then (NoActiveEntry, d)
    else
      var e := d[marker].value.entry.(endTime := Some(now));
      (Stopped(e), ApplyAll(d, StopMutations(userId, e)))
  }

  /** The marker, when present, is a copy of the entry stored under its id. */
  predicate ActiveConsistent(d: Db, userId: string) {
    ActiveEntryKey(userId) in d ==>
      && d[ActiveEntryKey(userId)].value.TimeEntryRecord?
      && var e := d[ActiveEntryKey(userId)].value.entry;
         TimeEntryKey(userId, e.id) in d && d[TimeEntryKey(userId, e.id)].value == TimeEntryRecord(e)
  }

  /**
   * Starting stores one open entry for the user, with no project, an empty description, no tags
   * and rate 0, identically as the marker and under its id; no other key changes and the store
   * invariant is kept.
   */
  lemma StartEffect(d: Db, userId: string, id: string, now: Time)
    requires WellFormed(d)
    ensures var d' := StartState(d, userId, id, now);
      && ActiveEntryKey(userId) in d' && TimeEntryKey(userId, id) in d'
      && d'[ActiveEntryKey(userId)] == d'[TimeEntryKey(userId, id)]
      && d'[TimeEntryKey(userId, id)].value.TimeEntryRecord?
      && (var e := d'[TimeEntryKey(userId, id)].value.entry;
          e.id == id && e.userId == userId && e.startTime == now && e.endTime.None?
          && e.projectId.None? && e.description == "" && e.tags == [] && e.rate == 0.0)
      && d'.Keys == d.Keys + {ActiveEntryKey(userId), TimeEntryKey(userId, id)}
      && (forall k :: k in d && k != ActiveEntryKey(userId) && k != TimeEntryKey(userId, id) ==> d'[k] == d[k])
      && WellFormed(d') && ActiveConsistent(d', userId)
      && UnchangedOutside(d, d', UserKey(userId))
  {
    var e := NewEntry(userId, id, now);
    ApplyAllTwo(d, StartMutations(userId, e)[0], StartMutations(userId, e)[1]);
    KeySpacesDisjoint(userId, userId, id, "");
  }

  /**
   * Starting while an entry is already active overwrites the marker and leaves the previous
   * entry stored as it was (still open if it was open): a later stop closes the new entry only.
   */
  lemma StartOrphansPrevious(d: Db, userId: string, id: string, now: Time)
    requires WellFormed(d) && ActiveConsistent(d, userId) && ActiveEntryKey(userId) in d
    requires d[ActiveEntryKey(userId)].value.entry.id != id
    ensures var old_ := d[ActiveEntryKey(userId)].value.entry;
      var d' := StartState(d, userId, id, now);
      && TimeEntryKey(userId, old_.id) in d'
      && d'[TimeEntryKey(userId, old_.id)] == d[TimeEntryKey(userId, old_.id)]
      && d'[TimeEntryKey(userId, old_.id)].value == TimeEntryRecord(old_)
      && ActiveEntryKey(userId) in d' && d'[ActiveEntryKey(userId)].value.TimeEntryRecord?
      && d'[ActiveEntryKey(userId)].value.entry.id == id
  {
    StartEffect(d, userId, id, now);
    KeySpacesDisjoint(userId, userId, d[ActiveEntryKey(userId)].value.entry.id, "");
  }

  /**
   * Without a marker, stopping answers 404 and changes nothing.  With one, it answers the marked
   * entry with its end time set to `now` and every other field kept, stores that under the
   * entry's id, deletes the marker, changes no other key and keeps the store invariant.
   */
  lemma StopEffect(d: Db, userId: string, now: Time)
    requires WellFormed(d)
    ensures var (resp, d') := Stop(d, userId, now);
      && (resp.NoActiveEntry? <==> ActiveEntryKey(userId) !in d)
      && (resp.NoActiveEntry? ==> d' == d)
      && (resp.Stopped? ==>
            var m := d[ActiveEntryKey(userId)].value.entry;
            && resp.entry.endTime == Some(now) && resp.entry.(endTime := m.endTime) == m
            && ActiveEntryKey(userId) !in d'
            && TimeEntryKey(userId, m.id) in d' && d'[TimeEntryKey(userId, m.id)] == Entry(TimeEntryRecord(resp.entry), None)
            && d'.Keys == d.Keys - {ActiveEntryKey(userId)} + {TimeEntryKey(userId, m.id)}
            && (forall k :: k in d && k != ActiveEntryKey(userId) && k != TimeEntryKey(userId, m.id) ==> d'[k] == d[k]))
      && WellFormed(d') && ActiveConsistent(d', userId)
      && UnchangedOutside(d, d', UserKey(userId))
  {
    if ActiveEntryKey(userId) in d {
      var e := d[ActiveEntryKey(userId)].value.entry.(endTime := Some(now));
      ApplyAllTwo(d, StopMutations(userId, e)[0], StopMutations(userId, e)[1]);
      KeySpacesDisjoint(userId, userId, e.id, "");
    }
  }

  /**
   * A start followed by a stop closes exactly the entry the start created, at the stop's instant,
   * and leaves no marker; a second stop then answers 404 and changes nothing.
   */
  lemma StartThenStop(d: Db, userId: string, id: string, t0: Time, t1: Time)
    requires WellFormed(d)
    ensures var d1 := StartState(d, userId, id, t0);
      WellFormed(d1) &&
      var (r1, d2) := Stop(d1, userId, t1);
      && r1 == Stopped(NewEntry(userId, id, t0).(endTime := Some(t1)))
      && TimeEntryKey(userId, id) in d2
      && d2[TimeEntryKey(userId, id)].value == TimeEntryRecord(r1.entry)
      && ActiveEntryKey(userId) !in d2
      && WellFormed(d2)
      && Stop(d2, userId, t1 + 1) == (NoActiveEntry, d2)
  {
    StartEffect(d, userId, id, t0);
    var d1 := StartState(d, userId, id, t0);
    StopEffect(d1, userId, t1);
    var d2 := Stop(d1, userId, t1).1;
    StopEffect(d2, userId, t1 + 1);
  }

  /** `startTimeTracking`: one fresh open entry, written as marker and as entry in one batch. */
  method StartTimeTracking(kv: Kv<Value>, userId: string, id: string, now: Time) returns (r: TimeEntry)
    requires WellFormed(kv.data)
    modifies kv
    ensures r == NewEntry(userId, id, now)
    ensures kv.data == StartState(old(kv.data), userId, id, now)
    ensures WellFormed(kv.data)
  {
    r := NewEntry(userId, id, now);
    StartEffect(kv.data, userId, id, now);
    var ok := kv.Commit(AtomicOp([], StartMutations(userId, r)));
  }

  /** `stopTimeTracking`: closes the marked entry at `now` and removes the marker, or answers 404. */
  method StopTimeTracking(kv: Kv<Value>, userId: string, now: Time) returns (r: StopResponse)
    requires WellFormed(kv.data)
    modifies kv
    ensures (r, kv.data) == Stop(old(kv.data), userId, now)
    ensures WellFormed(kv.data)
  {
    StopEffect(kv.data, userId, now);
    var active := kv.Get(ActiveEntryKey(userId));
    if active.None? {
      return NoActiveEntry;
    }
    var e := active.value.entry.(endTime := Some(now));
    var ok := kv.Commit(AtomicOp([], StopMutations(userId, e)));
    r := Stopped(e);
  }
}
