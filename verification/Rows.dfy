/**
  The timeline row of one message and the single write that ends it
  (src/database.rs). A row update is a function from the old row to the new
  one; the `TimelineDb` class applies it to the table.
 */
module Rows {
  import opened Basics
  import Text

  datatype Status = Queued | Complete | Failed | Dropped | Audit

  const SCHEMA_VERSION := 1

  datatype Row = Row(
    status: Status,
    schemaVersion: int,
    eventType: int,
    platform: string,
    rawData: Blob,
    rawMessage: string,
    command: string,
    user: Option<string>,
    flags: Option<string>,
    blob: Option<Blob>,
    processed: Option<string>,
    error: Option<string>,
    preAt: Option<int>,
    inAt: Option<int>,
    postAt: Option<int>,
    persistedAt: Option<int>)

  /** How a message's chain ends. `AuditHeld` lands data on a row that is already held. */
  datatype Outcome =
    | EndComplete
    | EndFailed(reason: string)
    | EndDropped(reason: string)
    | TakeHold(reason: string)
    | AuditHeld
  {
    function NewStatus(): Option<Status> {
      match this
      case EndComplete => Some(Complete)
      case EndFailed(_) => Some(Failed)
      case EndDropped(_) => Some(Dropped)
      case TakeHold(_) => Some(Audit)
      case AuditHeld => None
    }

    function Error(): Option<string> {
      match this
      case EndFailed(e) => Some(e)
      case EndDropped(e) => Some(e)
      case _ => None
    }
  }

  /** What a run accumulated in memory, handed over once at the end. */
  datatype RunResult = RunResult(
    processed: Option<string>,
    preAt: Option<int>,
    inAt: Option<int>,
    audio: Option<(string, Blob)>,
    markers: seq<string>)
  {
    predicate HasAudio() {
      audio.Some? && audio.value.1 != [] && markers != []
    }
  }

  const EMPTY_RESULT := RunResult(None, None, None, None, [])

  /** One column assignment of an UPDATE statement. */
  datatype Assignment =
    | SetStatus(status: Status)
    | SetError(error: string)
    | SetProcessed(processed: string)
    | SetPreAt(at: int)
    | SetInAt(at: int)
    | SetPostAt(at: int)
    | SetPersistedAt(at: int)
    | SetBlob(bytes: Blob)
    | AppendFlags(joined: string)
    | SetFlags(flags: string)

  function Assign(a: Assignment, row: Row): Row {
    match a
    case SetStatus(s) => row.(status := s)
    case SetError(e) => row.(error := Some(e))
    case SetProcessed(p) => row.(processed := Some(p))
    case SetPreAt(t) => row.(preAt := Some(t))
    case SetInAt(t) => row.(inAt := Some(t))
    case SetPostAt(t) => row.(postAt := Some(t))
    case SetPersistedAt(t) => row.(persistedAt := Some(t))
    case SetBlob(b) => row.(blob := Some(b))
    case AppendFlags(j) => row.(flags := Some(AppendedFlags(row.flags, j)))
    case SetFlags(f) => row.(flags := Some(f))
  }

  function AssignAll(sets: seq<Assignment>, row: Row): Row {
    if sets == [] then row
    else Assign(sets[|sets| - 1], AssignAll(sets[..|sets| - 1], row))
  }

  /** `CASE WHEN flags IS NULL OR flags = '' THEN joined ELSE flags || ',' || joined END`. */
  function AppendedFlags(flags: Option<string>, joined: string): string {
    if flags.None? || flags.value == "" then joined else flags.value + "," + joined
  }

  /** The row after `write_terminal_outcome`, column by column. */
  function TerminalRow(row: Row, outcome: Outcome, result: RunResult, now: int): Row {
    if outcome.EndComplete? && row.status.Audit? then row
    else
      row.(
        status := if outcome.NewStatus().Some? then outcome.NewStatus().value else row.status,
        error := if outcome.Error().Some? then outcome.Error() else row.error,
        processed := if result.processed.Some? then result.processed else row.processed,
        preAt := if result.preAt.Some? then result.preAt else row.preAt,
        inAt := if result.inAt.Some? then result.inAt else row.inAt,
        postAt := if outcome.EndComplete? then Some(now) else row.postAt,
        persistedAt := if outcome.EndComplete? then Some(now) else row.persistedAt,
        blob := if result.HasAudio() then Some(result.audio.value.1) else row.blob,
        flags :=
          if result.HasAudio() then Some(AppendedFlags(row.flags, Text.Join(result.markers, ",")))
          else if outcome.TakeHold? then Some(outcome.reason)
          else row.flags)
  }

  predicate Audited(row: Option<Row>) {
    row.Some? && row.value.status.Audit?
  }

  /** The flags column as text, NULL read as the empty string. */
  function FlagText(row: Row): string {
    if row.flags.Some? then row.flags.value else ""
  }

  /**
    A hold may land after a terminal path's hold check and before its write.
    Exactly the outcomes that write no foreign status keep the hold, and those also keep the hold reason as a prefix of
    the flags; a late failure or drop clobbers it.
   */
  lemma LateWriteKeepsHold(row: Row, outcome: Outcome, result: RunResult, now: int)
    requires row.status.Audit?
    ensures TerminalRow(row, outcome, result, now).status.Audit?
       <==> outcome.EndComplete? || outcome.AuditHeld? || outcome.TakeHold?
    ensures outcome.EndComplete? ==> TerminalRow(row, outcome, result, now) == row
    ensures outcome.AuditHeld? ==> FlagText(row) <= FlagText(TerminalRow(row, outcome, result, now))
  {
    if outcome.AuditHeld? && result.HasAudio() {
      var j := Text.Join(result.markers, ",");
      assert FlagText(row) <= AppendedFlags(row.flags, j);
    }
  }

  /** An UPDATE that reads no other row: the order of distinct columns is immaterial. */
  lemma AssignSnoc(sets: seq<Assignment>, a: Assignment, row: Row)
    ensures AssignAll(sets + [a], row) == Assign(a, AssignAll(sets, row))
  {
    assert (sets + [a])[..|sets|] == sets;
  }
}
