/** The timeline table and the statements the pipeline runs on it (src/database.rs). */
module Database {
  import opened Basics
  import opened Rows
  import AudioFlags
  import Text

  /** What a queued row still knows about its message. */
  datatype QueuedMessage = QueuedMessage(
    eventType: int, platform: string, raw: string, command: string, flags: string, user: string)

  // ── Lifecycle noise ────────────────────────────────────────────────────

  /** SQL `LIKE '%pattern%'`: ASCII case is ignored and `_` matches any character. */
  predicate Like(s: string, pattern: string) {
    exists i :: 0 <= i <= |s| - |pattern| && LikeAt(s, pattern, i)
  }

  predicate LikeAt(s: string, pattern: string, i: nat)
    requires i + |pattern| <= |s|
  {
    forall j :: 0 <= j < |pattern| ==> pattern[j] == '_' || Text.AsciiLowerChar(s[i + j]) == Text.AsciiLowerChar(pattern[j])
  }

  predicate IsNoise(row: Row) {
    && row.eventType == 5 && row.command == "module_lifecycle" && row.flags.Some?
    && (|| Like(row.flags.value, "\"kind\":\"module_log\"")
        || Like(row.flags.value, "\"kind\":\"module_connect\"")
        || Like(row.flags.value, "\"kind\":\"module_disconnect\""))
  }

  function NoiseIds(rows: map<Uuid, Row>): set<Uuid> {
    set u | u in rows && IsNoise(rows[u])
  }

  /** `rest` is what is left of `all` when only its `keep` largest members stay. */
  ghost predicate NewestKept(all: set<Uuid>, rest: set<Uuid>, keep: nat) {
    && rest <= all
    && |rest| == (if keep < |all| then keep else |all|)
    && forall a, b :: a in rest && b in all - rest ==> b < a
  }

  lemma {:induction false} AscendingSize(r: seq<Uuid>, s: set<Uuid>)
    requires Ascending(r, s)
    ensures |r| == |s|
    decreases |r|
  {
    if r == [] {
      assert s == {};
    } else {
      var n := |r| - 1;
      assert r == r[..n] + [r[n]];
      assert forall u :: u in r[..n] ==> u != r[n];
      AscendingSize(r[..n], s - {r[n]});
    }
  }

  /** The members from position `k` of the ascending list on are the `|r| - k` largest. */
  lemma NewestFrom(r: seq<Uuid>, s: set<Uuid>, k: nat)
    requires Ascending(r, s) && k < |r|
    ensures NewestKept(s, set u | u in s && u >= r[k], |r| - k)
  {
    var top := set u | u in s && u >= r[k];
    var tail := r[k..];
    assert forall u :: u in tail ==> u in r;
    forall u | u in top
      ensures u in tail
    {
      var i :| 0 <= i < |r| && r[i] == u;
      assert i >= k;
      assert tail[i - k] == u;
    }
    forall u | u in tail
      ensures u in top
    {
      var i :| 0 <= i < |tail| && tail[i] == u;
      assert u == r[k + i];
    }
    AscendingSize(tail, top);
    AscendingSize(r, s);
  }

  class TimelineDb {
    var rows: map<Uuid, Row>

    ghost function RowOf(u: Uuid): Option<Row>
      reads this
    {
      if u in rows then Some(rows[u]) else None
    }

    constructor ()
      ensures rows == map[]
    {
      rows := map[];
    }

    /** The ingest INSERT. A second row for one uuid7 violates the primary key. */
    method InsertEvent(u: Uuid, eventType: int, platform: string, rawData: Blob, raw: string, command: string, flags: string) returns (ok: bool)
      modifies this
      ensures ok <==> u !in old(rows)
      ensures rows == if ok then old(rows)[u := Row(Queued, SCHEMA_VERSION, eventType, platform, rawData, raw, command, None, Some(flags),
                                                    None, None, None, None, None, None, None)]
                      else old(rows)
    {
      ok := u !in rows;
      if ok {
        rows := rows[u := Row(Queued, SCHEMA_VERSION, eventType, platform, rawData, raw, command, None, Some(flags), None, None, None, None, None, None, None)];
      }
    }

    method SetUserUuid(u: Uuid, user: string)
      modifies this
      ensures rows == if u in old(rows) && old(rows)[u].user.None?
                      then old(rows)[u := old(rows)[u].(user := Some(user))] else old(rows)
    {
      if u in rows && rows[u].user.None? {
        rows := rows[u := rows[u].(user := Some(user))];
      }
    }

    /**
      The one write that ends a message: a SET list built by pushes, leaving out
      the columns the run never produced, and one guarded UPDATE.
     */
    method WriteTerminalOutcome(u: Uuid, outcome: Outcome, result: RunResult, now: int)
      modifies this
      ensures rows == if u in old(rows) then old(rows)[u := TerminalRow(old(rows)[u], outcome, result, now)] else old(rows)
    {
      ghost var row := if u in rows then rows[u] else Row(Queued, 0, 0, "", [], "", "", None, None, None, None, None, None, None, None, None);
      var sets := BuildSets(outcome, result, now, row);
      if sets == [] {
        assert u in rows ==> rows[u := rows[u]] == rows;
        return;
      }
      if u in rows && !(outcome.EndComplete? && rows[u].status.Audit?) {
        rows := rows[u := AssignAll(sets, rows[u])];
      } else {
        assert u in rows ==> rows[u := rows[u]] == rows;
      }
    }

    static method Push(sets: seq<Assignment>, a: Assignment, ghost row: Row) returns (r: seq<Assignment>)
      ensures r == sets + [a] && AssignAll(r, row) == Assign(a, AssignAll(sets, row))
    {
      AssignSnoc(sets, a, row);
      r := sets + [a];
    }

    static method BuildSets(outcome: Outcome, result: RunResult, now: int, ghost row: Row) returns (sets: seq<Assignment>)
      ensures !(outcome.EndComplete? && row.status.Audit?) ==>
        AssignAll(sets, row) == TerminalRow(row, outcome, result, now)
    {
      sets := PushOutcome(outcome, row);
      sets := PushProcessed(sets, result, row);
      sets := PushStamps(sets, outcome, result, now, row);
      sets := PushAudio(sets, outcome, result, row);
    }

    static method PushOutcome(outcome: Outcome, ghost row: Row) returns (sets: seq<Assignment>)
      ensures AssignAll(sets, row) == row.(
        status := if outcome.NewStatus().Some? then outcome.NewStatus().value else row.status,
        error := if outcome.Error().Some? then outcome.Error() else row.error)
    {
      sets := [];
      if outcome.NewStatus().Some? { sets := Push(sets, SetStatus(outcome.NewStatus().value), row); }
      if outcome.Error().Some? { sets := Push(sets, SetError(outcome.Error().value), row); }
    }

    static method PushProcessed(before: seq<Assignment>, result: RunResult, ghost row: Row) returns (sets: seq<Assignment>)
      ensures var r := AssignAll(before, row);
        AssignAll(sets, row) == r.(processed := if result.processed.Some? then result.processed else r.processed)
    {
      sets := before;
      if result.processed.Some? { sets := Push(sets, SetProcessed(result.processed.value), row); }
    }

    static method PushAudio(before: seq<Assignment>, outcome: Outcome, result: RunResult, ghost row: Row) returns (sets: seq<Assignment>)
      ensures var r := AssignAll(before, row);
        AssignAll(sets, row) ==
          if result.HasAudio() then r.(blob := Some(result.audio.value.1), flags := Some(AppendedFlags(r.flags, Text.Join(result.markers, ","))))
          else if outcome.TakeHold? then r.(flags := Some(outcome.reason))
          else r
    {
      sets := before;
      if result.HasAudio() {
        sets := Push(sets, SetBlob(result.audio.value.1), row);
        sets := Push(sets, AppendFlags(Text.Join(result.markers, ",")), row);
      } else if outcome.TakeHold? {
        sets := Push(sets, SetFlags(outcome.reason), row);
      }
    }

    static method PushStamps(before: seq<Assignment>, outcome: Outcome, result: RunResult, now: int, ghost row: Row)
      returns (sets: seq<Assignment>)
      ensures var r := AssignAll(before, row);
        AssignAll(sets, row) == r.(
          preAt := if result.preAt.Some? then result.preAt else r.preAt,
          inAt := if result.inAt.Some? then result.inAt else r.inAt,
          postAt := if outcome.EndComplete? then Some(now) else r.postAt,
          persistedAt := if outcome.EndComplete? then Some(now) else r.persistedAt)
    {
      sets := before;
      if result.preAt.Some? { sets := Push(sets, SetPreAt(result.preAt.value), row); }
      if result.inAt.Some? { sets := Push(sets, SetInAt(result.inAt.value), row); }
      if outcome.EndComplete? {
        sets := Push(sets, SetPostAt(now), row);
        sets := Push(sets, SetPersistedAt(now), row);
      }
    }

    method MarkAudit(u: Uuid, reason: string, now: int)
      modifies this
      ensures rows == if u in old(rows) then old(rows)[u := TerminalRow(old(rows)[u], TakeHold(reason), EMPTY_RESULT, now)] else old(rows)
    {
      WriteTerminalOutcome(u, TakeHold(reason), EMPTY_RESULT, now);
    }

    method IsAudited(u: Uuid) returns (found: bool)
      ensures found == Audited(RowOf(u))
    {
      found := u in rows && rows[u].status.Audit?;
    }

    method ReleaseAudit(u: Uuid, approve: bool, now: int)
      modifies this
      ensures rows ==
        if !Audited(old(RowOf(u))) then old(rows)
        else if approve then old(rows)[u := old(rows)[u].(status := Complete, persistedAt := Some(now))]
        else old(rows)[u := old(rows)[u].(status := Failed)]
    {
      if u in rows && rows[u].status.Audit? {
        if approve {
          rows := rows[u := rows[u].(status := Complete, persistedAt := Some(now))];
        } else {
          rows := rows[u := rows[u].(status := Failed)];
        }
      }
    }

    method LoadQueued(u: Uuid) returns (msg: Option<QueuedMessage>)
      ensures msg.Some? <==> u in rows && rows[u].status.Queued?
      ensures msg.Some? ==>
        var row := rows[u];
        msg.value == QueuedMessage(row.eventType, row.platform, row.rawMessage, row.command, OrEmpty(row.flags), OrEmpty(row.user))
    {
      if u in rows && rows[u].status.Queued? {
        var row := rows[u];
        msg := Some(QueuedMessage(
          row.eventType, row.platform, row.rawMessage, row.command, OrEmpty(row.flags), OrEmpty(row.user)));
      } else {
        msg := None;
      }
    }

    static function OrEmpty(text: Option<string>): string {
      if text.Some? then text.value else ""
    }

    /** The crash-recovery drain set, oldest first. */
    method QueuedUuids() returns (uuids: seq<Uuid>)
      ensures Ascending(uuids, QueuedSet()) && |uuids| == |QueuedSet()|
    {
      uuids := InOrder(QueuedSet());
      AscendingSize(uuids, QueuedSet());
    }

    function QueuedSet(): set<Uuid>
      reads this
    {
      set u | u in rows && rows[u].status.Queued?
    }

    method SetAudio(u: Uuid, mime: string, bytes: Blob)
      modifies this
      ensures rows == if u in old(rows) then old(rows)[u := AudioFlags.SetAudio(old(rows)[u], mime, bytes)] else old(rows)
    {
      var flags := SelectFlags(u);
      var marker := AudioFlags.Marker(mime);
      var listed := IsPiece(flags, marker);
      if !listed {
        if flags != "" {
          flags := flags + ",";
        }
        assert "" + marker == marker;
        flags := flags + marker;
      }
      if u in rows {
        rows := rows[u := rows[u].(blob := Some(bytes), flags := Some(flags))];
      }
    }

    /** The flags column, NULL and a missing row read as the empty string. */
    method SelectFlags(u: Uuid) returns (flags: string)
      ensures flags == if u in rows then FlagText(rows[u]) else ""
    {
      flags := "";
      if u in rows && rows[u].flags.Some? {
        flags := rows[u].flags.value;
      }
    }

    static method IsPiece(flags: string, marker: string) returns (found: bool)
      ensures found <==> marker in Text.Split(flags, ',')
    {
      var pieces := Text.Split(flags, ',');
      found := false;
      for i := 0 to |pieces|
        invariant found <==> marker in pieces[..i]
      {
        assert pieces[..i + 1] == pieces[..i] + [pieces[i]];
        found := found || pieces[i] == marker;
      }
      assert pieces[..|pieces|] == pieces;
    }

    /** Deletes all lifecycle noise but the newest `keep` rows, by one cutoff. */
    method CullTimelineNoise(keep: nat) returns (deleted: nat)
      modifies this
      ensures NewestKept(old(NoiseIds(rows)), NoiseIds(rows), keep)
      ensures rows == map u | u in old(rows) && (u in NoiseIds(rows) || u !in old(NoiseIds(rows))) :: old(rows)[u]
      ensures deleted == |old(NoiseIds(rows))| - |NoiseIds(rows)|
    {
      ghost var before, noise := rows, NoiseIds(rows);
      if keep == 0 {
        deleted := |NoiseIds(rows)|;
        rows := map u | u in rows && !IsNoise(rows[u]) :: rows[u];
        Cut(before, rows, {});
      } else {
        var ids := InOrder(NoiseIds(rows));
        AscendingSize(ids, noise);
        if keep <= |ids| {
          var cutoff := ids[|ids| - keep];
          NewestFrom(ids, noise, |ids| - keep);
          var count := |NoiseIds(rows)|;
          rows := map u | u in rows && !(IsNoise(rows[u]) && u < cutoff) :: rows[u];
          Cut(before, rows, set u | u in noise && u >= cutoff);
          deleted := count - |NoiseIds(rows)|;
        } else {
          deleted := 0;
          Cut(before, rows, noise);
        }
      }
    }
  }

  /** Deleting the noise rows outside `rest` leaves `rest` as the noise, and every other row. */
  lemma Cut(before: map<Uuid, Row>, after: map<Uuid, Row>, rest: set<Uuid>)
    requires rest <= NoiseIds(before)
    requires after == map u | u in before && (u in rest || u !in NoiseIds(before)) :: before[u]
    ensures NoiseIds(after) == rest
    ensures after == map u | u in before && (u in NoiseIds(after) || u !in NoiseIds(before)) :: before[u]
  {
  }
}
