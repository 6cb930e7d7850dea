/**
  Stream streaks and score multipliers (src/stream_rewards.rs). The tracker keeps
  one counter per user; it is proved to be the length of the run of consecutive
  streams the user attended, over the streams closed since the process started.
  What the counter is worth is computed in `Multipliers`.
 */
module Streaks {
  import opened Basics
  import opened Multipliers

  type User = string

  /** A stream that has ended, and who was there. */
  datatype Stream = Stream(id: Uuid, audience: set<User>)

  // ── Runs of attendance ─────────────────────────────────────────────────

  /** How many streams in a row, up to the latest, the user attended. */
  function Run(history: seq<Stream>, user: User): nat {
    if history == [] || user !in history[|history| - 1].audience then 0
    else 1 + Run(history[..|history| - 1], user)
  }

  /** The position of the last stream the user attended, if any. */
  function LastSeen(history: seq<Stream>, user: User): (k: Option<nat>)
    ensures k.Some? ==> k.value < |history| && user in history[k.value].audience
  {
    if history == [] then None
    else if user in history[|history| - 1].audience then Some(|history| - 1)
    else LastSeen(history[..|history| - 1], user)
  }

  /** The streak a user is left with: the run that ended at their last stream. */
  function Streak(history: seq<Stream>, user: User): nat {
    var k := LastSeen(history, user);
    if k.None? then 0 else Run(history[..k.value + 1], user)
  }

  /** `count` streams in a row, ending with number `last`, and none before or after them. */
  ghost predicate IsLastRun(history: seq<Stream>, user: User, last: nat, count: nat) {
    && 0 < count <= last + 1 <= |history|
    && (forall i :: last + 1 - count <= i <= last ==> user in history[i].audience)
    && (last + 1 > count ==> user !in history[last - count].audience)
    && (forall i :: last < i < |history| ==> user !in history[i].audience)
  }

  lemma {:induction false} RunIs(history: seq<Stream>, user: User)
    ensures var n := Run(history, user);
      && n <= |history|
      && (forall i :: |history| - n <= i < |history| ==> user in history[i].audience)
      && (n < |history| ==> user !in history[|history| - n - 1].audience)
  {
    if history != [] && user in history[|history| - 1].audience {
      RunIs(history[..|history| - 1], user);
    }
  }

  lemma {:induction false} LastSeenIs(history: seq<Stream>, user: User)
    ensures var k := LastSeen(history, user);
      forall i :: (if k.Some? then k.value else -1) < i < |history| ==> user !in history[i].audience
  {
    if history != [] && user !in history[|history| - 1].audience {
      LastSeenIs(history[..|history| - 1], user);
    }
  }

  /** The streak is exactly the length of the last unbroken run of attendance. */
  lemma StreakIsLastRun(history: seq<Stream>, user: User, last: nat, count: nat)
    ensures IsLastRun(history, user, last, count) <==>
      LastSeen(history, user) == Some(last) && Streak(history, user) == count
  {
    LastSeenIs(history, user);
    var k := LastSeen(history, user);
    if k.Some? {
      var upTo := history[..k.value + 1];
      RunIs(upTo, user);
      assert forall i :: 0 <= i <= k.value ==> upTo[i] == history[i];
      if IsLastRun(history, user, last, count) {
        RunLength(upTo, user, count);
      }
    }
  }

  /** Where a run starts settles its length. */
  lemma RunLength(history: seq<Stream>, user: User, count: nat)
    requires count <= |history|
    requires forall i :: |history| - count <= i < |history| ==> user in history[i].audience
    requires count < |history| ==> user !in history[|history| - count - 1].audience
    ensures Run(history, user) == count
  {
    RunIs(history, user);
  }

  lemma SeenAfter(history: seq<Stream>, s: Stream, user: User)
    ensures LastSeen(history + [s], user) == if user in s.audience then Some(|history|) else LastSeen(history, user)
  {
    assert (history + [s])[..|history|] == history;
  }

  lemma StreakAfter(history: seq<Stream>, s: Stream, user: User)
    ensures Streak(history + [s], user) == if user in s.audience then Run(history, user) + 1 else Streak(history, user)
    ensures LastSeen(history + [s], user) == if user in s.audience then Some(|history|) else LastSeen(history, user)
  {
    SeenAfter(history, s, user);
    var all := history + [s];
    if user in s.audience {
      assert all[..|history| + 1] == all && all[..|history|] == history;
      assert Run(all, user) == 1 + Run(all[..|history|], user);
    } else if LastSeen(history, user).Some? {
      var k := LastSeen(history, user).value;
      assert all[..k + 1] == history[..k + 1];
    }
  }

  /** A run that reaches the latest stream is the streak. */
  lemma RunIsStreak(history: seq<Stream>, user: User)
    ensures Run(history, user) ==
      if history != [] && LastSeen(history, user) == Some(|history| - 1) then Streak(history, user) else 0
  {
    if history != [] {
      assert history[..|history|] == history;
    }
  }

  /**
    A restart keeps the stored rows but forgets which stream came last, so the
    first stream after it counts 1 for everybody. That is the count the user would
    have had without the restart exactly when they were not on a run.
   */
  lemma RestartForgetsRuns(before: seq<Stream>, next: Stream, user: User)
    requires user in next.audience
    ensures Streak([next], user) == 1
    ensures Streak(before + [next], user) == Streak([next], user) <==> Run(before, user) == 0
  {
    StreakAfter(before, next, user);
    StreakAfter([], next, user);
    assert [] + [next] == [next];
  }

  // ── The tracker ────────────────────────────────────────────────────────

  type Row = (User, Uuid, int)

  /** `order` lists the attendees once each, in the order of their hash map. */
  ghost predicate Lists(order: seq<User>, users: set<User>) {
    (forall u :: u in order <==> u in users) && forall i, j :: 0 <= i < j < |order| ==> order[i] != order[j]
  }

  /** The count an attendee gets next: one more if their last stream is the previous one. */
  function CountNext(streaks: map<User, (Uuid, int)>, previous: Option<Uuid>, user: User): int {
    if user in streaks && Some(streaks[user].0) == previous then streaks[user].1 + 1 else 1
  }

  function Seeded(streaks: map<User, (Uuid, int)>, rows: seq<Row>): map<User, (Uuid, int)> {
    if rows == [] then streaks
    else
      var (user, last, count) := rows[|rows| - 1];
      Seeded(streaks, rows[..|rows| - 1])[user := (last, count)]
  }

  ghost predicate Used(history: seq<Stream>, loaded: map<User, (Uuid, int)>, id: Uuid) {
    (exists i :: 0 <= i < |history| && history[i].id == id) || (exists u :: u in loaded && loaded[u].0 == id)
  }

  /** The stored row of a user is their streak; one not seen yet keeps the row that was loaded. */
  ghost predicate RecordedOf(history: seq<Stream>, loaded: map<User, (Uuid, int)>, streaks: map<User, (Uuid, int)>, u: User) {
    var k := LastSeen(history, u);
    if k.Some? then u in streaks && streaks[u] == (history[k.value].id, Streak(history, u))
    else if u in loaded then u in streaks && streaks[u] == loaded[u]
    else u !in streaks
  }

  ghost predicate Recorded(history: seq<Stream>, loaded: map<User, (Uuid, int)>, streaks: map<User, (Uuid, int)>) {
    forall u {:trigger RecordedOf(history, loaded, streaks, u)} :: RecordedOf(history, loaded, streaks, u)
  }

  ghost predicate Consistent(history: seq<Stream>, loaded: map<User, (Uuid, int)>, previous: Option<Uuid>) {
    && previous == (if history == [] then None else Some(history[|history| - 1].id))
    && (forall i, j :: 0 <= i < j < |history| ==> history[i].id != history[j].id)
    && (forall i, u :: 0 <= i < |history| && u in loaded ==> history[i].id != loaded[u].0)
  }

  /** The count of the next attendance is the run so far and one more. */
  lemma NextIsRun(history: seq<Stream>, loaded: map<User, (Uuid, int)>, streaks: map<User, (Uuid, int)>, previous: Option<Uuid>, user: User)
    requires Consistent(history, loaded, previous) && Recorded(history, loaded, streaks)
    ensures CountNext(streaks, previous, user) == Run(history, user) + 1
  {
    RunIsStreak(history, user);
    assert RecordedOf(history, loaded, streaks, user);
  }

  lemma NextIsStreak(history: seq<Stream>, loaded: map<User, (Uuid, int)>, streaks: map<User, (Uuid, int)>, previous: Option<Uuid>,
                     s: Stream, user: User)
    requires Consistent(history, loaded, previous) && Recorded(history, loaded, streaks) && user in s.audience
    ensures CountNext(streaks, previous, user) == Streak(history + [s], user)
  {
    NextIsRun(history, loaded, streaks, previous, user);
    StreakAfter(history, s, user);
  }

  /** The stored rows once everybody in `audience` has been counted for stream `cur`. */
  function Stored(streaks: map<User, (Uuid, int)>, previous: Option<Uuid>, audience: set<User>, cur: Uuid): map<User, (Uuid, int)> {
    map u | u in streaks.Keys + audience :: if u in audience then (cur, CountNext(streaks, previous, u)) else streaks[u]
  }

  lemma StoredMeansRecorded(history: seq<Stream>, loaded: map<User, (Uuid, int)>, streaks: map<User, (Uuid, int)>, previous: Option<Uuid>,
                            s: Stream, streaks': map<User, (Uuid, int)>)
    requires Consistent(history, loaded, previous) && Recorded(history, loaded, streaks)
    requires streaks' == Stored(streaks, previous, s.audience, s.id)
    ensures Recorded(history + [s], loaded, streaks')
  {
    forall u
      ensures RecordedOf(history + [s], loaded, streaks', u)
    {
      StreakAfter(history, s, u);
      NextIsRun(history, loaded, streaks, previous, u);
      assert RecordedOf(history, loaded, streaks, u);
    }
  }

  class StreamTracker {
    var current: Option<Uuid>
    var startedMs: int
    var previous: Option<Uuid>
    /** First and last sighting within the open stream. */
    var attendance: map<User, (int, int)>
    /** Last stream attended, and the consecutive count. */
    var streaks: map<User, (Uuid, int)>
    var cache: map<User, int>
    /** The streams closed by this process, and the rows it was seeded with. */
    ghost var history: seq<Stream>
    ghost var loaded: map<User, (Uuid, int)>

    ghost predicate Valid()
      reads this
    {
      && Consistent(history, loaded, previous)
      && (if current.Some? then !Used(history, loaded, current.value) else attendance == map[] && cache == map[])
      && Recorded(history, loaded, streaks)
      && (forall u :: u in cache ==> cache[u] == Run(history, u) + 1)
    }

    constructor ()
      ensures Valid() && history == [] && current.None? && loaded == map[]
    {
      current, startedMs, previous := None, 0, None;
      attendance, streaks, cache := map[], map[], map[];
      history, loaded := [], map[];
    }

    /** Seeds the stored rows at startup. Which stream came last is not among them. */
    method LoadStreaks(rows: seq<Row>)
      requires Valid() && history == [] && current.None?
      modifies this
      ensures Valid() && history == [] && current.None?
      ensures loaded == streaks == Seeded(old(streaks), rows)
    {
      ghost var before := streaks;
      for i := 0 to |rows|
        invariant history == [] && current.None? && previous.None? && attendance == map[] && cache == map[]
        invariant streaks == Seeded(before, rows[..i])
      {
        assert rows[..i + 1][..i] == rows[..i];
        streaks := streaks[rows[i].0 := (rows[i].1, rows[i].2)];
      }
      assert rows[..|rows|] == rows;
      loaded := streaks;
    }

    /** `id` is the uuid7 made for the stream: one never used before. */
    method OpenStream(id: Uuid, now: int, order: seq<User>)
      requires Valid() && !Used(history, loaded, id) && current != Some(id)
      requires Lists(order, attendance.Keys)
      modifies this
      ensures Valid() && current == Some(id) && startedMs == now && attendance == map[] && cache == map[]
      ensures loaded == old(loaded)
      ensures history == if old(current).Some? then old(history) + [Stream(old(current).value, old(attendance).Keys)] else old(history)
    {
      if current.Some? {
        var rows := CloseStream(order);
      }
      current, startedMs := Some(id), now;
      attendance, cache := map[], map[];
    }

    /**
      Ends the stream: every attendee's row becomes the run up to this stream, and
      those rows are returned. `order` is the order of the attendance hash map.
     */
    method CloseStream(order: seq<User>) returns (updated: seq<Row>)
      requires Valid() && Lists(order, attendance.Keys)
      modifies this
      ensures Valid() && current.None? && loaded == old(loaded)
      ensures old(current).None? ==> updated == [] && history == old(history)
      ensures old(current).Some? ==>
        && history == old(history) + [Stream(old(current).value, old(attendance).Keys)]
        && |updated| == |order|
        && forall i :: 0 <= i < |order| ==> updated[i] == (order[i], old(current).value, Streak(history, order[i]))
    {
      updated := [];
      if current.None? {
        return;
      }
      var cur := current.value;
      updated := StoreCounts(order, cur);
      forall i | 0 <= i < |order|
        ensures updated[i].2 == Streak(history + [Stream(cur, attendance.Keys)], order[i])
      {
        assert order[i] in order;
        NextIsStreak(history, loaded, old(streaks), previous, Stream(cur, attendance.Keys), order[i]);
      }
      StoredMeansRecorded(history, loaded, old(streaks), previous, Stream(cur, attendance.Keys), streaks);
      history := history + [Stream(cur, attendance.Keys)];
      previous, current := Some(cur), None;
      attendance, cache := map[], map[];
    }

    method StoreCounts(order: seq<User>, cur: Uuid) returns (updated: seq<Row>)
      requires Lists(order, attendance.Keys)
      modifies this`streaks
      ensures streaks == Stored(old(streaks), previous, attendance.Keys, cur)
      ensures |updated| == |order|
      ensures forall i :: 0 <= i < |order| ==> updated[i] == (order[i], cur, CountNext(old(streaks), previous, order[i]))
    {
      updated := [];
      ghost var seen: set<User> := {};
      for i := 0 to |order|
        invariant forall j :: 0 <= j < |order| ==> (order[j] in seen <==> j < i)
        invariant seen <= attendance.Keys
        invariant streaks == Stored(old(streaks), previous, seen, cur)
        invariant |updated| == i
        invariant forall j :: 0 <= j < i ==> updated[j] == (order[j], cur, CountNext(old(streaks), previous, order[j]))
      {
        var user := order[i];
        var count := CountNext(streaks, previous, user);
        assert order[i] in order;
        streaks := streaks[user := (cur, count)];
        updated := updated + [(user, cur, count)];
        seen := seen + {user};
      }
      assert seen == attendance.Keys;
    }

    method NoteAttendance(user: User, now: int)
      requires Valid()
      modifies this`attendance
      ensures Valid()
      ensures attendance ==
        if current.None? || user == "" then old(attendance)
        else if user !in old(attendance) then old(attendance)[user := (now, now)]
        else old(attendance)[user := (old(attendance)[user].0, if now > old(attendance)[user].1 then now else old(attendance)[user].1)]
    {
      if current.None? || user == "" {
        return;
      }
      if user in attendance {
        var (seen, last) := attendance[user];
        attendance := attendance[user := (seen, if now > last then now else last)];
      } else {
        attendance := attendance[user := (now, now)];
      }
    }

    /**
      The count shown during a stream is the one closing it will store for an
      attendee, whatever call cached it.
     */
    method StreakCount(user: User) returns (count: int)
      requires Valid() && current.Some?
      modifies this`cache
      ensures Valid()
      ensures count == Run(history, user) + 1
      ensures forall audience :: user in audience ==> count == Streak(history + [Stream(current.value, audience)], user)
    {
      NextIsRun(history, loaded, streaks, previous, user);
      if user in cache {
        count := cache[user];
      } else {
        count := CountNext(streaks, previous, user);
        cache := cache[user := count];
      }
      forall audience: set<User> | user in audience
        ensures count == Streak(history + [Stream(current.value, audience)], user)
      {
        StreakAfter(history, Stream(current.value, audience), user);
      }
    }

    method Multiplier(narrow: Narrow, user: User, now: int) returns (count: int, combined: real)
      requires Valid() && Rounds(narrow)
      modifies this`cache
      ensures Valid()
      ensures current.None? ==> count == 0 && combined == 1.0 && cache == old(cache)
      ensures current.Some? ==> count == Run(history, user) + 1
      ensures current.Some? ==> combined == CombinedMultiplier(narrow, StreakMultiplier(narrow, count), Presence(narrow, user, now))
      ensures 1.0 <= combined <= 4.0
    {
      if current.None? {
        return 0, 1.0;
      }
      count := StreakCount(user);
      combined := CombinedMultiplier(narrow, StreakMultiplier(narrow, count), Presence(narrow, user, now));
      StreakAnchors(narrow, count);
      CapNeverBinds(narrow, StreakMultiplier(narrow, count), Presence(narrow, user, now));
    }

    /** The activity factor; 1.0 for a user who has not been seen. */
    function Presence(narrow: Narrow, user: User, now: int): (r: real)
      requires Rounds(narrow)
      reads this
      ensures 1.0 <= r <= 2.0
    {
      if user in attendance then
        ActivityAnchors(narrow, now, attendance[user].0, startedMs);
        ActivityMultiplier(narrow, now, attendance[user].0, startedMs)
      else 1.0
    }
  }
}
