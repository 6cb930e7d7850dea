/**
  The orchestrator (src/pipeline.rs, `PipelineOrchestrator`): the tables a
  message is spread over and the handlers that update them in place. Each
  handler is proved to make exactly one `Step` of the messages it concerns and
  to leave every other message alone, so every run-level result about cells
  holds of the engine.
 */
module Engine {
  import opened Basics
  import opened Messages
  import opened Replays
  import opened Tracker
  import Rows
  import AudioFlags
  import Database
  import Delivery

  /** A dependency the engine cannot run without; the broken timeline outranks the user database. */
  datatype BlockedReason = UserDb | TimelineDb {
    function Priority(): nat {
      if TimelineDb? then 2 else 1
    }
  }

  /** The cell of one message, gathered from the tables. */
  ghost function CellAt(
    rows: map<Uuid, Rows.Row>, states: map<Uuid, MsgState>, pending: seq<Ack>, held: map<Uuid, HoldPoint>,
    backlog: multiset<HoldPoint>, logs: map<Uuid, seq<Dispatch>>, flagged: set<Uuid>, u: Uuid): Cell
  {
    Cell(if u in rows then Some(rows[u]) else None,
         if u in states then Some(states[u]) else None,
         pending,
         if u in held then Some(held[u]) else None,
         backlog,
         if u in logs then logs[u] else [],
         u in flagged)
  }

  /** A message is critical for a sweep when one of its expired entries is. */
  lemma {:induction false} CriticalUuids(w: World, batch: seq<(Ack, bool)>, v: Uuid)
    ensures HasCritical(w, EntriesOf(batch, v)) <==>
      exists i :: 0 <= i < |batch| && batch[i].0.uuid == v && batch[i].0.moduleName in w.config.critical
  {
    if batch != [] {
      var n := |batch| - 1;
      CriticalUuids(w, batch[..n], v);
      if batch[n].0.uuid == v {
        Delivery.CriticalSnoc(w, EntriesOf(batch[..n], v), batch[n].0);
      } else {
        assert EntriesOf(batch[..n], v) + [] == EntriesOf(batch[..n], v);
      }
    }
  }

  ghost function StrandedAmong(cells: seq<Cell>): nat {
    if cells == [] then 0
    else StrandedAmong(cells[..|cells| - 1]) + if Stranded(cells[|cells| - 1]) then 1 else 0
  }

  lemma StrandedNext(cells: seq<Cell>, k: nat)
    requires k < |cells|
    ensures StrandedAmong(cells[..k + 1]) == StrandedAmong(cells[..k]) + if Stranded(cells[k]) then 1 else 0
  {
    assert cells[..k + 1][..k] == cells[..k];
  }

  lemma {:induction false} StrandedSize(uuids: seq<Uuid>, cells: seq<Cell>, s: set<Uuid>)
    requires Increasing(uuids) && |cells| == |uuids|
    requires forall u :: u in s ==> u in uuids
    requires forall i :: 0 <= i < |uuids| ==> (Stranded(cells[i]) <==> uuids[i] in s)
    ensures StrandedAmong(cells) == |s|
  {
    if uuids == [] {
      assert s == {};
    } else {
      var n := |uuids| - 1;
      assert uuids == uuids[..n] + [uuids[n]];
      StrandedSize(uuids[..n], cells[..n], s - {uuids[n]});
    }
  }

  /** The message has had its turn in a drain if it is among the first `k`. */
  ghost predicate Drained(w: World, now: int, gated: bool, uuids: seq<Uuid>, k: nat, v: Uuid, c: Cell, c': Cell)
    requires k <= |uuids|
  {
    c' == if v in uuids[..k] then Recovered(w, v, now, gated, c) else c
  }

  lemma DrainedNext(w: World, now: int, gated: bool, uuids: seq<Uuid>, k: nat, v: Uuid, c: Cell, mid: Cell, c': Cell)
    requires Increasing(uuids) && k < |uuids| && Drained(w, now, gated, uuids, k, v, c, mid)
    requires v != uuids[k] ==> c' == mid
    requires v == uuids[k] ==> c' == Recovered(w, v, now, gated, mid)
    ensures Drained(w, now, gated, uuids, k + 1, v, c, c')
    ensures v == uuids[k] ==> mid == c
  {
    assert uuids[..k + 1] == uuids[..k] + [uuids[k]];
  }

  lemma DrainedAll(w: World, now: int, gated: bool, uuids: seq<Uuid>, v: Uuid, c: Cell, c': Cell)
    requires Drained(w, now, gated, uuids, |uuids|, v, c, c')
    requires v !in uuids ==> !Stranded(c)
    ensures c' == Recovered(w, v, now, gated, c)
  {
    assert uuids[..|uuids|] == uuids;
  }

  /** The sets a sweep fills while it runs. */
  datatype Marks = Marks(advanced: set<Uuid>, failed: set<Uuid>, resent: set<Uuid>)

  /** The message has been through its own entries among the first `k` of the batch. */
  ghost predicate Swept(w: World, now: int, criticals: set<Uuid>, batch: seq<(Ack, bool)>, k: nat, v: Uuid, c: Cell, s: Sweeping)
    requires k <= |batch|
  {
    s == SweepAll(w, v, now, c.pending != [], v in criticals, EntriesOf(batch[..k], v), Sweeping(c, false, false, false))
  }

  lemma SweptNone(w: World, now: int, criticals: set<Uuid>, batch: seq<(Ack, bool)>, v: Uuid, c: Cell)
    ensures Swept(w, now, criticals, batch, 0, v, c, Sweeping(c, false, false, false))
  {
    assert batch[..0] == [];
  }

  lemma SweptNext(w: World, now: int, criticals: set<Uuid>, batch: seq<(Ack, bool)>, k: nat, v: Uuid, c: Cell, s: Sweeping, s': Sweeping)
    requires k < |batch| && Swept(w, now, criticals, batch, k, v, c, s)
    requires v != batch[k].0.uuid ==> s' == s
    requires v == batch[k].0.uuid ==>
      s' == SweepOne(w, v, now, c.pending != [], v in criticals, batch[k].0, s)
    ensures Swept(w, now, criticals, batch, k + 1, v, c, s')
  {
    assert batch[..k + 1] == batch[..k] + [batch[k]];
    EntriesSnoc(batch[..k], batch[k], v);
    var es := EntriesOf(batch[..k], v);
    if v == batch[k].0.uuid {
      assert (es + [batch[k].0])[..|es|] == es;
    } else {
      assert es + [] == es;
    }
  }

  ghost function SweptCell(w: World, now: int, batch: seq<(Ack, bool)>, v: Uuid, c: Cell): Cell {
    var es := EntriesOf(batch, v);
    SweepAll(w, v, now, c.pending != [], HasCritical(w, es), es, Sweeping(c, false, false, false)).cell
  }

  lemma SweptAll(w: World, now: int, criticals: set<Uuid>, batch: seq<(Ack, bool)>, v: Uuid, c: Cell, s: Sweeping)
    requires Swept(w, now, criticals, batch, |batch|, v, c, s)
    requires forall u :: u in criticals <==>
      exists i :: 0 <= i < |batch| && batch[i].0.uuid == u && batch[i].0.moduleName in w.config.critical
    ensures s.cell == SweptCell(w, now, batch, v, c)
  {
    CriticalUuids(w, batch, v);
    assert batch[..|batch|] == batch;
  }

  class Orchestrator {
    const tracker: AckTracker
    const db: Database.TimelineDb
    const replays: ReplayTasks
    /** `pipeline_states`. */
    var states: map<Uuid, MsgState>
    // `PauseState`
    var paused: bool
    var held: map<Uuid, HoldPoint>
    var blocked: Option<BlockedReason>
    var resumeWhenUnblocked: bool
    ghost var logs: map<Uuid, seq<Dispatch>>
    ghost var flagged: set<Uuid>

    ghost function CellOf(u: Uuid): Cell
      reads this, tracker, db, replays
    {
      CellAt(db.rows, states, tracker.Of(u), held, replays.Of(u), logs, flagged, u)
    }

    /** Every message's cell as it is now. */
    lemma Snapshot() returns (cells: imap<Uuid, Cell>)
      ensures forall v: Uuid :: v in cells
      ensures forall v: Uuid :: cells[v] == CellOf(v)
    {
      cells := imap v: Uuid | true :: CellOf(v);
    }

    ghost predicate Sound()
      reads this, tracker, db, replays
    {
      tracker.Valid() && replays.Valid() && forall u :: Delivery.Safe(CellOf(u))
    }

    predicate Gated()
      reads this
    {
      paused || blocked.Some?
    }

    /** An engine started over the timeline a previous one left behind, and the frames it sent. */
    constructor Boot(db: Database.TimelineDb, ghost logs: map<Uuid, seq<Dispatch>>, ghost flagged: set<Uuid>)
      requires forall u :: u in db.rows && db.rows[u].status.Audit? ==> u in flagged
      ensures this.db == db && fresh(tracker) && fresh(replays)
      ensures Sound() && !Gated() && replays.tasks == []
      ensures forall u :: CellOf(u) == CellAt(db.rows, map[], [], map[], multiset{}, logs, flagged, u)
    {
      this.db := db;
      tracker := new AckTracker();
      replays := new ReplayTasks();
      states, paused, held, blocked, resumeWhenUnblocked := map[], false, map[], None, false;
      this.logs, this.flagged := logs, flagged;
    }

    /** A handler that makes one step of one message and touches no other keeps the engine sound. */
    lemma StillSound(t: Tick, u: Uuid, before: Cell)
      requires tracker.Valid() && replays.Valid() && Delivery.Safe(before)
      requires CellOf(u) == Step(t.world, u, t.now, t.gated, t.event, before)
      requires forall v :: v != u ==> Delivery.Safe(CellOf(v))
      ensures Sound()
    {
      Delivery.StepSafe(t, u, before);
    }

    // ── The gate ───────────────────────────────────────────────────────────

    method Pause() returns (changed: bool)
      modifies this`paused
      ensures changed == !old(paused) && paused
      ensures forall u :: CellOf(u) == old(CellOf(u))
    {
      changed := !paused;
      paused := true;
    }

    method DeferPause()
      modifies this`paused, this`resumeWhenUnblocked
      ensures paused && !resumeWhenUnblocked
      ensures forall u :: CellOf(u) == old(CellOf(u))
    {
      resumeWhenUnblocked, paused := false, true;
    }

    method DeferResume()
      modifies this`resumeWhenUnblocked
      ensures resumeWhenUnblocked
      ensures forall u :: CellOf(u) == old(CellOf(u))
    {
      resumeWhenUnblocked := true;
    }

    /** The more fundamental fault is the one reported. */
    method SetBlock(reason: BlockedReason)
      modifies this`blocked
      ensures blocked == if old(blocked) == Some(TimelineDb) then Some(TimelineDb) else Some(reason)
      ensures forall u :: CellOf(u) == old(CellOf(u))
    {
      if blocked.None? || reason.Priority() > blocked.value.Priority() {
        blocked := Some(reason);
      }
    }

    /** Opens the block but releases nobody: draining is the resume the caller is told to run. */
    method ClearBlock(reason: BlockedReason) returns (resume: bool)
      modifies this`blocked, this`resumeWhenUnblocked
      ensures old(blocked) != Some(reason) ==> !resume && blocked == old(blocked) && resumeWhenUnblocked == old(resumeWhenUnblocked)
      ensures old(blocked) == Some(reason) ==> blocked.None? && resume == old(resumeWhenUnblocked) && !resumeWhenUnblocked
      ensures forall u :: CellOf(u) == old(CellOf(u))
    {
      if blocked != Some(reason) {
        return false;
      }
      blocked := None;
      resume := resumeWhenUnblocked;
      resumeWhenUnblocked := false;
    }

    method HoldIfGated(u: Uuid, p: HoldPoint) returns (gated: bool)
      modifies this`held
      ensures gated == Gated()
      ensures CellOf(u) == if gated then Hold(old(CellOf(u)), p) else old(CellOf(u))
      ensures forall v :: v != u ==> CellOf(v) == old(CellOf(v))
    {
      gated := paused || blocked.Some?;
      if gated {
        held := held[u := p];
      }
    }

    // ── Dispatching ────────────────────────────────────────────────────────

    method SendTracked(w: World, u: Uuid, stage: Stage, now: int, m: Module)
      requires tracker.Valid()
      modifies this`logs, tracker
      ensures tracker.Valid()
      ensures CellOf(u) == Track(w, u, stage, now, m, old(CellOf(u)))
      ensures forall v :: v != u ==> CellOf(v) == old(CellOf(v))
    {
      tracker.Track(u, stage, m, w.config.ackTimeout, now);
      logs := logs[u := (if u in logs then logs[u] else []) + [Dispatch(stage, m, 0)]];
    }

    method FanOutTo(w: World, u: Uuid, stage: Stage, now: int, ms: seq<Module>) returns (sentAny: bool)
      requires tracker.Valid()
      modifies this`logs, tracker
      ensures tracker.Valid()
      ensures CellOf(u) == FanOut(w, u, stage, now, ms, old(CellOf(u)))
      ensures sentAny == AnyReached(w, u, stage, ms)
      ensures forall v :: v != u ==> CellOf(v) == old(CellOf(v))
    {
      sentAny := false;
      for k := 0 to |ms|
        invariant tracker.Valid()
        invariant CellOf(u) == FanOut(w, u, stage, now, ms[..k], old(CellOf(u)))
        invariant sentAny == AnyReached(w, u, stage, ms[..k])
        invariant forall v :: v != u ==> CellOf(v) == old(CellOf(v))
      {
        assert ms[..k + 1] == ms[..k] + [ms[k]];
        if w.permit(u, stage, ms[k]) && w.send(u, stage, ms[k]) == SendOutcome.Sent {
          assert ms[k] in ms[..k + 1];
          SendTracked(w, u, stage, now, ms[k]);
          sentAny := true;
        }
      }
      assert ms[..|ms|] == ms;
    }

    method PutState(u: Uuid, s: MsgState)
      modifies this`states
      ensures CellOf(u) == old(CellOf(u)).(mem := Some(s))
      ensures forall v :: v != u ==> CellOf(v) == old(CellOf(v))
    {
      states := states[u := s];
    }

    method DropState(u: Uuid)
      modifies this`states
      ensures CellOf(u) == old(CellOf(u)).(mem := None)
      ensures forall v :: v != u ==> CellOf(v) == old(CellOf(v))
    {
      states := states - {u};
    }

    method ClearAcks(u: Uuid)
      requires tracker.Valid()
      modifies tracker
      ensures tracker.Valid()
      ensures CellOf(u) == old(CellOf(u)).(pending := [])
      ensures forall v :: v != u ==> CellOf(v) == old(CellOf(v))
    {
      tracker.Clear(u);
    }

    // ── Terminal paths ─────────────────────────────────────────────────────

    method ResultSnapshot(u: Uuid) returns (result: Rows.RunResult)
      ensures result == ResultOf(CellOf(u).mem)
    {
      result := ResultOf(if u in states then Some(states[u]) else None);
    }

    method WriteOutcome(u: Uuid, outcome: Rows.Outcome, result: Rows.RunResult, now: int)
      modifies db
      ensures CellOf(u) == old(CellOf(u)).(row := Write(old(CellOf(u)), outcome, result, now))
      ensures forall v :: v != u ==> CellOf(v) == old(CellOf(v))
    {
      db.WriteTerminalOutcome(u, outcome, result, now);
    }

    /** Lands the run's data on a held row, without touching the hold. */
    method PreserveAuditHold(u: Uuid, now: int) returns (isHeld: bool)
      modifies db
      ensures isHeld == old(CellOf(u)).Audited()
      ensures CellOf(u) == if isHeld then PreserveHold(now, old(CellOf(u))) else old(CellOf(u))
      ensures forall v :: v != u ==> CellOf(v) == old(CellOf(v))
    {
      isHeld := db.IsAudited(u);
      if isHeld {
        var result := ResultSnapshot(u);
        WriteOutcome(u, Rows.AuditHeld, result, now);
      }
    }

    /** The common end of a run: one write, then nothing is left in memory to change it. */
    method End(u: Uuid, outcome: Rows.Outcome, now: int)
      requires tracker.Valid()
      modifies this`states, tracker, db
      ensures tracker.Valid()
      ensures CellOf(u) == MarkEnded(outcome, now, old(CellOf(u)))
      ensures forall v :: v != u ==> CellOf(v) == old(CellOf(v))
    {
      var isHeld := PreserveAuditHold(u, now);
      if isHeld {
        return;
      }
      var result := ResultSnapshot(u);
      DropState(u);
      WriteOutcome(u, outcome, result, now);
      ClearAcks(u);
    }

    /** An abandon for a message that is no longer in flight is ignored. */
    method Abandon(u: Uuid, reason: string, now: int)
      requires tracker.Valid()
      modifies this`states, tracker, db
      ensures tracker.Valid()
      ensures CellOf(u) == MarkDropped(reason, now, old(CellOf(u)))
      ensures forall v :: v != u ==> CellOf(v) == old(CellOf(v))
    {
      var isHeld := db.IsAudited(u);
      if isHeld || u in states {
        End(u, Rows.EndDropped(reason), now);
      }
    }

    // ── Stage starts ───────────────────────────────────────────────────────

    method StartPostProcess(w: World, u: Uuid, now: int)
      requires tracker.Valid()
      modifies this`states, this`held, this`logs, tracker, db
      ensures tracker.Valid()
      ensures CellOf(u) == StartPost(w, u, now, Gated(), old(CellOf(u)))
      ensures forall v :: v != u ==> CellOf(v) == old(CellOf(v))
    {
      var gated := HoldIfGated(u, AtPostProcess);
      if gated {
        return;
      }
      var isHeld := db.IsAudited(u);
      if isHeld || u !in states {
        return;
      }
      PutState(u, states[u].(stage := PostProcess));
      var sentAny := FanOutTo(w, u, PostProcess, now, PostRecipients(w, states[u].parsed, w.config.post));
      if !sentAny {
        End(u, Rows.EndComplete, now);
      }
    }

    method StartInProcess(w: World, u: Uuid, now: int)
      requires tracker.Valid()
      modifies this`states, this`held, this`logs, tracker, db
      ensures tracker.Valid()
      ensures CellOf(u) == StartIn(w, u, now, Gated(), old(CellOf(u)))
      ensures forall v :: v != u ==> CellOf(v) == old(CellOf(v))
      decreases if u in states then |w.config.inProcess| - states[u].index else 0, 0
    {
      var gated := HoldIfGated(u, AtInProcess);
      if gated {
        return;
      }
      var isHeld := db.IsAudited(u);
      if isHeld || u !in states {
        return;
      }
      PutState(u, states[u].(stage := InProcess));
      var i := states[u].index;
      if i >= |w.config.inProcess| {
        StartPostProcess(w, u, now);
        return;
      }
      var m := w.config.inProcess[i];
      if m in Recipients(w, states[u].parsed, w.config.inProcess)
         && w.permit(u, InProcess, m) && w.send(u, InProcess, m) == SendOutcome.Sent {
        SendTracked(w, u, InProcess, now, m);
      } else {
        NextInProcess(w, u, now);
      }
    }

    method NextInProcess(w: World, u: Uuid, now: int)
      requires tracker.Valid()
      modifies this`states, this`held, this`logs, tracker, db
      ensures tracker.Valid()
      ensures CellOf(u) == NextIn(w, u, now, Gated(), old(CellOf(u)))
      ensures forall v :: v != u ==> CellOf(v) == old(CellOf(v))
      decreases if u in states && states[u].index < |w.config.inProcess|
        then |w.config.inProcess| - states[u].index - 1 else 0, 1
    {
      if u !in states {
        return;
      }
      PutState(u, states[u].(index := states[u].index + 1));
      if states[u].index >= |w.config.inProcess| {
        StartPostProcess(w, u, now);
      } else {
        StartInProcess(w, u, now);
      }
    }

    method BroadcastPreProcess(w: World, u: Uuid, now: int)
      requires tracker.Valid()
      modifies this`states, this`held, this`logs, tracker, db
      ensures tracker.Valid()
      ensures CellOf(u) == BroadcastPre(w, u, now, Gated(), old(CellOf(u)))
      ensures forall v :: v != u ==> CellOf(v) == old(CellOf(v))
    {
      var gated := HoldIfGated(u, Entry);
      if gated || u !in states {
        return;
      }
      var sentAny := FanOutTo(w, u, PreProcess, now, Recipients(w, states[u].parsed, w.config.pre));
      if !sentAny {
        StartInProcess(w, u, now);
      }
    }

    method AdvanceFrom(stage: Stage, w: World, u: Uuid, now: int)
      requires tracker.Valid()
      modifies this`states, this`held, this`logs, tracker, db
      ensures tracker.Valid()
      ensures CellOf(u) == Advance(stage, w, u, now, Gated(), old(CellOf(u)))
      ensures forall v :: v != u ==> CellOf(v) == old(CellOf(v))
    {
      match stage
      case PreProcess =>
        if u in states { PutState(u, states[u].(preAt := Some(now))); }
        StartInProcess(w, u, now);
      case InProcess =>
        if u in states { PutState(u, states[u].(inAt := Some(now))); }
        NextInProcess(w, u, now);
      case PostProcess =>
        End(u, Rows.EndComplete, now);
    }

    // ── Replies ────────────────────────────────────────────────────────────

    /**
      Takes the acking module's entries out and moves the message on when the
      stage is done. The removal and the "still pending?" answer are one call.
     */
    method HandleAcked(w: World, u: Uuid, m: Module, now: int)
      requires tracker.Valid()
      modifies this`states, this`held, this`logs, tracker, db
      ensures tracker.Valid()
      ensures CellOf(u) == HandleAck(w, u, now, Gated(), m, old(CellOf(u)))
      ensures forall v :: v != u ==> CellOf(v) == old(CellOf(v))
    {
      var acked := TakeAck(u, m, now);
      if acked.Some? && (acked.value.stage.InProcess? || !acked.value.stillPending) {
        AdvanceFrom(acked.value.stage, w, u, now);
      }
    }

    method TakeAck(u: Uuid, m: Module, now: int) returns (acked: Option<Acked>)
      requires tracker.Valid()
      modifies tracker
      ensures tracker.Valid()
      ensures acked.Some? <==> AckedStage(old(CellOf(u)).pending, m).Some?
      ensures acked.Some? ==> acked.value.stage == AckedStage(old(CellOf(u)).pending, m).value
      ensures acked.Some? ==> acked.value.stillPending == (CellOf(u).pending != [])
      ensures CellOf(u) == old(CellOf(u)).(pending := if acked.Some? then Without(old(CellOf(u)).pending, m) else old(CellOf(u)).pending)
      ensures forall v :: v != u ==> CellOf(v) == old(CellOf(v))
    {
      ghost var before := tracker.Of(u);
      acked := tracker.AckModule(u, m, now);
      AckedEntryStage(before, m);
      WithoutNone(before, m);
    }

    method StoreReply(u: Uuid, stage: Stage, text: string, mime: string, bytes: Blob)
      modifies this`states
      ensures CellOf(u) == RecordReply(stage, text, mime, bytes, old(CellOf(u)))
      ensures forall v :: v != u ==> CellOf(v) == old(CellOf(v))
    {
      if u in states {
        var call := AudioFlags.AudioCall(AudioStageOf(stage), mime, bytes);
        PutState(u, states[u].(processed := text, audio := AudioFlags.Store(states[u].audio, call)));
      }
    }

    /** A stage reply; one from a module with no pending ack for that stage is ignored. */
    method HandleReply(w: World, u: Uuid, now: int, stage: Stage, sender: Module, text: string, mime: string, bytes: Blob, abandon: bool)
      requires Sound()
      modifies this`states, this`held, this`logs, tracker, db
      ensures Sound()
      ensures CellOf(u) == Step(w, u, now, Gated(), Reply(stage, sender, text, mime, bytes, abandon), old(CellOf(u)))
      ensures forall v :: v != u ==> CellOf(v) == old(CellOf(v))
    {
      ghost var before := CellOf(u);
      AnswerReply(w, u, now, stage, sender, text, mime, bytes, abandon);
      Delivery.StepSafe(Tick(w, now, Gated(), Reply(stage, sender, text, mime, bytes, abandon)), u, before);
    }

    method AnswerReply(w: World, u: Uuid, now: int, stage: Stage, sender: Module, text: string, mime: string, bytes: Blob, abandon: bool)
      requires tracker.Valid()
      modifies this`states, this`held, this`logs, tracker, db
      ensures tracker.Valid()
      ensures CellOf(u) == Replied(w, u, now, Gated(), Reply(stage, sender, text, mime, bytes, abandon), old(CellOf(u)))
      ensures forall v :: v != u ==> CellOf(v) == old(CellOf(v))
    {
      var owns := tracker.IsPendingFor(u, sender, stage);
      if owns {
        StoreReply(u, stage, text, mime, bytes);
        if stage.InProcess? && abandon {
          Abandon(u, AbandonReason(sender), now);
        } else {
          HandleAcked(w, u, sender, now);
        }
      }
    }

    method HandleReceipt(ghost w: World, u: Uuid, ghost now: int, sender: Module)
      requires Sound()
      modifies tracker
      ensures Sound()
      ensures CellOf(u) == Step(w, u, now, Gated(), Receipt(sender), old(CellOf(u)))
      ensures forall v :: v != u ==> CellOf(v) == old(CellOf(v))
    {
      ghost var before := CellOf(u);
      tracker.Receive(u, sender);
      assert forall v :: v != u ==> CellOf(v) == old(CellOf(v));
      StillSound(Tick(w, now, Gated(), Receipt(sender)), u, before);
    }

    // ── Entry and recovery ─────────────────────────────────────────────────

    /** Writes the row, claims the message in memory, and drives it into pre-process. */
    method InsertAndStart(w: World, u: Uuid, now: int, msg: Incoming) returns (ok: bool)
      requires Sound()
      modifies this`states, this`held, this`logs, tracker, db
      ensures Sound()
      ensures ok == old(CellOf(u)).row.None?
      ensures CellOf(u) == Step(w, u, now, Gated(), Ingest(msg), old(CellOf(u)))
      ensures forall v :: v != u ==> CellOf(v) == old(CellOf(v))
    {
      ghost var before := CellOf(u);
      ok := InsertRow(u, msg);
      if ok {
        PutState(u, NewState(msg.raw, msg.user, msg.parsed));
        assert CellOf(u) == Ingested(msg, before);
        BroadcastPreProcess(w, u, now);
      }
      Delivery.StepSafe(Tick(w, now, Gated(), Ingest(msg)), u, before);
    }

    method InsertRow(u: Uuid, msg: Incoming) returns (ok: bool)
      modifies db
      ensures ok == old(CellOf(u)).row.None?
      ensures CellOf(u) == if ok then old(CellOf(u)).(row := Some(NewRow(msg))) else old(CellOf(u))
      ensures forall v :: v != u ==> CellOf(v) == old(CellOf(v))
    {
      ok := db.InsertEvent(u, msg.eventType, msg.platform, [], msg.raw, if msg.command.Some? then msg.command.value else "",
                           if msg.flags.Some? then msg.flags.value else "{}");
      if ok && msg.user != "" {
        db.SetUserUuid(u, msg.user);
      }
    }

    /** Re-drives a stranded row; the in-memory state is the claim registry. */
    method RecoverOne(w: World, u: Uuid, now: int) returns (claimed: bool)
      requires tracker.Valid()
      modifies this`states, this`held, this`logs, tracker, db
      ensures tracker.Valid()
      ensures claimed == Stranded(old(CellOf(u)))
      ensures CellOf(u) == Recovered(w, u, now, Gated(), old(CellOf(u)))
      ensures forall v :: v != u ==> CellOf(v) == old(CellOf(v))
    {
      ghost var before := CellOf(u);
      if u in states {
        return false;
      }
      var msg := db.LoadQueued(u);
      if msg.None? {
        return false;
      }
      PutState(u, NewState(msg.value.raw, msg.value.user, None));
      assert CellOf(u) == Reclaimed(before);
      BroadcastPreProcess(w, u, now);
      claimed := true;
    }

    ghost function StrandedRows(): set<Uuid>
      reads this, tracker, db, replays
    {
      set u | u in db.rows && Stranded(CellOf(u))
    }

    /** The cells of the listed messages, in the list's order. */
    ghost function CellsOf(uuids: seq<Uuid>): (cells: seq<Cell>)
      reads this, tracker, db, replays
      ensures |cells| == |uuids| && forall i :: 0 <= i < |uuids| ==> cells[i] == CellOf(uuids[i])
    {
      seq(|uuids|, i requires 0 <= i < |uuids| reads this, tracker, db, replays => CellOf(uuids[i]))
    }

    /** The drain set lists every stranded row. */
    method DrainSet(ghost start: imap<Uuid, Cell>) returns (uuids: seq<Uuid>, ghost was: seq<Cell>)
      requires forall v: Uuid :: v in start
      requires forall v: Uuid :: CellOf(v) == start[v]
      ensures Increasing(uuids) && |uuids| == |db.QueuedSet()| == |was|
      ensures forall i :: 0 <= i < |uuids| ==> was[i] == start[uuids[i]]
      ensures forall v: Uuid :: v !in uuids ==> !Stranded(start[v])
      ensures StrandedAmong(was) == |StrandedRows()|
      ensures forall v: Uuid :: CellOf(v) == start[v]
    {
      uuids := db.QueuedUuids();
      was := CellsOf(uuids);
      StrandedSize(uuids, was, StrandedRows());
    }

    /**
      One pass of the crash-recovery drain, oldest row first. It claims exactly
      the stranded rows, leaves none behind, and never re-drives a live message.
     */
    method DrainQueuedOnce(w: World, now: int) returns (considered: nat, claimed: nat)
      requires Sound()
      modifies this`states, this`held, this`logs, tracker, db
      ensures Sound()
      ensures forall u :: CellOf(u) == Step(w, u, now, Gated(), Recover, old(CellOf(u)))
      ensures forall u :: !Stranded(CellOf(u))
      ensures considered == |old(db.QueuedSet())|
      ensures claimed == |old(StrandedRows())|
    {
      considered, claimed := RecoverQueued(w, now);
      forall u
        ensures CellOf(u) == Step(w, u, now, Gated(), Recover, old(CellOf(u)))
        ensures !Stranded(CellOf(u)) && Delivery.Safe(CellOf(u))
      {
        Delivery.StepSafe(Tick(w, now, Gated(), Recover), u, old(CellOf(u)));
      }
    }

    method RecoverQueued(w: World, now: int) returns (considered: nat, claimed: nat)
      requires tracker.Valid()
      modifies this`states, this`held, this`logs, tracker, db
      ensures tracker.Valid()
      ensures forall u :: CellOf(u) == Recovered(w, u, now, Gated(), old(CellOf(u)))
      ensures considered == |old(db.QueuedSet())|
      ensures claimed == |old(StrandedRows())|
    {
      var start := Snapshot();
      var uuids, was := DrainSet(start);
      considered := |uuids|;
      claimed := RecoverEach(w, now, uuids, start, was);
    }

    method RecoverEach(w: World, now: int, uuids: seq<Uuid>, ghost start: imap<Uuid, Cell>, ghost was: seq<Cell>)
      returns (claimed: nat)
      requires tracker.Valid() && Increasing(uuids) && |was| == |uuids|
      requires forall v: Uuid :: v in start
      requires forall v: Uuid :: CellOf(v) == start[v]
      requires forall i :: 0 <= i < |uuids| ==> was[i] == start[uuids[i]]
      requires forall v: Uuid :: v !in uuids ==> !Stranded(start[v])
      modifies this`states, this`held, this`logs, tracker, db
      ensures tracker.Valid()
      ensures forall v :: CellOf(v) == Recovered(w, v, now, Gated(), start[v])
      ensures claimed == StrandedAmong(was)
    {
      claimed := 0;
      for k := 0 to |uuids|
        invariant tracker.Valid()
        invariant forall v :: Drained(w, now, Gated(), uuids, k, v, start[v], CellOf(v))
        invariant claimed == StrandedAmong(was[..k])
      {
        StrandedNext(was, k);
        var again := RecoverAt(w, uuids, k, now, start);
        claimed := claimed + if again then 1 else 0;
      }
      forall v
        ensures CellOf(v) == Recovered(w, v, now, Gated(), start[v])
      {
        DrainedAll(w, now, Gated(), uuids, v, start[v], CellOf(v));
      }
      assert was[..|was|] == was;
    }

    method RecoverAt(w: World, uuids: seq<Uuid>, k: nat, now: int, ghost start: imap<Uuid, Cell>) returns (again: bool)
      requires tracker.Valid() && Increasing(uuids) && k < |uuids|
      requires forall v: Uuid :: v in start
      requires forall v :: Drained(w, now, Gated(), uuids, k, v, start[v], CellOf(v))
      modifies this`states, this`held, this`logs, tracker, db
      ensures tracker.Valid()
      ensures again == Stranded(start[uuids[k]])
      ensures forall v :: Drained(w, now, Gated(), uuids, k + 1, v, start[v], CellOf(v))
    {
      again := RecoverOne(w, uuids[k], now);
      forall v
        ensures Drained(w, now, Gated(), uuids, k + 1, v, start[v], CellOf(v))
        ensures v == uuids[k] ==> old(CellOf(v)) == start[v]
      {
        DrainedNext(w, now, Gated(), uuids, k, v, start[v], old(CellOf(v)), CellOf(v));
      }
    }

    // ── Audit ──────────────────────────────────────────────────────────────

    /** A module's audit flag: a message already held is not held again. */
    method FlagForAudit(ghost w: World, u: Uuid, reason: string, now: int) returns (newlyHeld: bool)
      requires Sound()
      modifies this`flagged, db
      ensures Sound()
      ensures newlyHeld == !old(CellOf(u)).Audited()
      ensures CellOf(u) == Step(w, u, now, Gated(), TakeAudit(reason), old(CellOf(u)))
      ensures forall v :: v != u ==> CellOf(v) == old(CellOf(v))
    {
      ghost var before := CellOf(u);
      var already := db.IsAudited(u);
      newlyHeld := !already;
      if !already {
        db.MarkAudit(u, reason, now);
        flagged := if u in db.rows then flagged + {u} else flagged;
      }
      assert forall v :: v != u ==> CellOf(v) == old(CellOf(v));
      StillSound(Tick(w, now, Gated(), TakeAudit(reason)), u, before);
    }

    method ReleaseFromAudit(ghost w: World, u: Uuid, approve: bool, now: int)
      requires Sound()
      modifies db
      ensures Sound()
      ensures CellOf(u) == Step(w, u, now, Gated(), ReleaseAudit(approve), old(CellOf(u)))
      ensures forall v :: v != u ==> CellOf(v) == old(CellOf(v))
    {
      ghost var before := CellOf(u);
      db.ReleaseAudit(u, approve, now);
      assert forall v :: v != u ==> CellOf(v) == old(CellOf(v));
      StillSound(Tick(w, now, Gated(), Messages.ReleaseAudit(approve)), u, before);
    }

    // ── The timeout sweep ──────────────────────────────────────────────────

    method ResendStage(w: World, e: Ack, now: int) returns (sent: bool)
      requires tracker.Valid()
      modifies this`logs, tracker
      ensures tracker.Valid()
      ensures sent == (old(CellOf(e.uuid)).mem.Some? && w.send(e.uuid, e.stage, e.moduleName) == SendOutcome.Sent)
      ensures CellOf(e.uuid) == if sent then Resend(now, e, old(CellOf(e.uuid))) else old(CellOf(e.uuid))
      ensures forall v :: v != e.uuid ==> CellOf(v) == old(CellOf(v))
    {
      sent := e.uuid in states && w.send(e.uuid, e.stage, e.moduleName) == SendOutcome.Sent;
      if sent {
        tracker.ReTrack(e, now);
        logs := logs[e.uuid := (if e.uuid in logs then logs[e.uuid] else []) + [Dispatch(e.stage, e.moduleName, e.resends + 1)]];
      }
    }

    /** One expired entry: resent, or failing its message, or moving it on. */
    method SweepEntry(w: World, now: int, e: Ack, still: bool, criticals: set<Uuid>, marks: Marks) returns (marks': Marks)
      requires tracker.Valid() && !Gated()
      modifies this`states, this`held, this`logs, tracker, db
      ensures tracker.Valid()
      ensures SweepingAt(marks', e.uuid)
        == SweepOne(w, e.uuid, now, still, e.uuid in criticals, e, old(SweepingAt(marks, e.uuid)))
      ensures forall v :: v != e.uuid ==> SweepingAt(marks', v) == old(SweepingAt(marks, v))
    {
      marks' := marks;
      if !e.receipt && e.resends < MAX_ACK_RESENDS {
        var sent := ResendStage(w, e, now);
        if sent {
          marks' := marks.(resent := marks.resent + {e.uuid});
          return;
        }
      }
      if e.moduleName in w.config.critical {
        if e.uuid !in marks.failed {
          marks' := marks.(failed := marks.failed + {e.uuid});
          End(e.uuid, Rows.EndFailed(TimeoutReason(e)), now);
        }
      } else if !still && e.uuid !in marks.resent && e.uuid !in criticals && e.uuid !in marks.advanced {
        marks' := marks.(advanced := marks.advanced + {e.uuid});
        AdvanceFrom(e.stage, w, e.uuid, now);
      }
    }

    ghost function SweepingAt(marks: Marks, u: Uuid): Sweeping
      reads this, tracker, db, replays
    {
      Sweeping(CellOf(u), u in marks.advanced, u in marks.failed, u in marks.resent)
    }

    /** Goes through the expired entries in the order the tracker listed them. */
    method SweepBatch(w: World, now: int, batch: seq<(Ack, bool)>)
      requires tracker.Valid() && !Gated()
      requires forall i :: 0 <= i < |batch| ==> batch[i].1 == (CellOf(batch[i].0.uuid).pending != [])
      modifies this`states, this`held, this`logs, tracker, db
      ensures tracker.Valid()
      ensures forall v :: CellOf(v) == SweptCell(w, now, batch, v, old(CellOf(v)))
    {
      var criticals := set i | 0 <= i < |batch| && batch[i].0.moduleName in w.config.critical :: batch[i].0.uuid;
      var start := Snapshot();
      var marks := SweepEach(w, now, criticals, batch, start);
      forall v
        ensures CellOf(v) == SweptCell(w, now, batch, v, start[v])
      {
        SweptAll(w, now, criticals, batch, v, start[v], SweepingAt(marks, v));
      }
    }

    method SweepEach(w: World, now: int, criticals: set<Uuid>, batch: seq<(Ack, bool)>, ghost start: imap<Uuid, Cell>)
      returns (marks: Marks)
      requires tracker.Valid() && !Gated()
      requires forall v: Uuid :: v in start
      requires forall v: Uuid :: CellOf(v) == start[v]
      requires forall i :: 0 <= i < |batch| ==> batch[i].1 == (start[batch[i].0.uuid].pending != [])
      modifies this`states, this`held, this`logs, tracker, db
      ensures tracker.Valid()
      ensures forall v: Uuid :: Swept(w, now, criticals, batch, |batch|, v, start[v], SweepingAt(marks, v))
    {
      marks := Marks({}, {}, {});
      forall v: Uuid
        ensures Swept(w, now, criticals, batch, 0, v, start[v], SweepingAt(marks, v))
      {
        SweptNone(w, now, criticals, batch, v, start[v]);
      }
      for k := 0 to |batch|
        invariant tracker.Valid()
        invariant forall v: Uuid :: Swept(w, now, criticals, batch, k, v, start[v], SweepingAt(marks, v))
      {
        marks := SweepAt(w, now, criticals, batch, k, marks, start);
      }
    }

    method SweepAt(w: World, now: int, criticals: set<Uuid>, batch: seq<(Ack, bool)>, k: nat, marks: Marks, ghost start: imap<Uuid, Cell>)
      returns (marks': Marks)
      requires tracker.Valid() && !Gated() && k < |batch|
      requires forall v: Uuid :: v in start
      requires batch[k].1 == (start[batch[k].0.uuid].pending != [])
      requires forall v :: Swept(w, now, criticals, batch, k, v, start[v], SweepingAt(marks, v))
      modifies this`states, this`held, this`logs, tracker, db
      ensures tracker.Valid()
      ensures forall v :: Swept(w, now, criticals, batch, k + 1, v, start[v], SweepingAt(marks', v))
    {
      var (e, still) := batch[k];
      marks' := SweepEntry(w, now, e, still, criticals, marks);
      forall v
        ensures Swept(w, now, criticals, batch, k + 1, v, start[v], SweepingAt(marks', v))
      {
        SweptNext(w, now, criticals, batch, k, v, start[v], old(SweepingAt(marks, v)), SweepingAt(marks', v));
      }
    }

    /**
      The ack-timeout sweep. It does nothing while the gate is closed; otherwise
      every message gets its own `Sweep`, whatever order the hash map lists the
      messages in.
     */
    method HandleTimeout(w: World, now: int, order: seq<Uuid>)
      requires Sound() && Enumerates(order, tracker.pending.Keys)
      modifies this`states, this`held, this`logs, tracker, db
      ensures Sound()
      ensures forall v :: CellOf(v) == Step(w, v, now, Gated(), Expire(Due(old(CellOf(v)).pending, now)), old(CellOf(v)))
    {
      if paused || blocked.Some? {
        return;
      }
      SweepDue(w, now, order);
      forall v
        ensures Delivery.Safe(CellOf(v))
      {
        Delivery.SweepSafe(w, v, now, Due(old(CellOf(v)).pending, now), old(CellOf(v)));
      }
    }

    method SweepDue(w: World, now: int, order: seq<Uuid>)
      requires tracker.Valid() && !Gated() && Enumerates(order, tracker.pending.Keys)
      modifies this`states, this`held, this`logs, tracker, db
      ensures tracker.Valid()
      ensures forall v :: CellOf(v) == Sweep(w, v, now, Due(old(CellOf(v)).pending, now), old(CellOf(v)))
    {
      var timedOut := tracker.CheckTimeouts(now, order);
      SweepBatch(w, now, timedOut);
    }

    // ── Resume and the replay backlog ──────────────────────────────────────

    /** Lifts the pause, hands the held set to a replay task, and restarts every clock. */
    method LiftHolds(restart: int) returns (released: nat)
      requires tracker.Valid() && replays.Valid()
      modifies this`paused, this`held, tracker, replays
      ensures tracker.Valid() && replays.Valid() && tracker.pending.Keys == old(tracker.pending.Keys)
      ensures !paused && released == |old(held)|
      ensures exists list :: ListsHeld(list, old(held)) && replays.tasks == Spawned(old(replays.tasks), list)
      ensures forall v :: CellOf(v) == Unhold(restart, old(CellOf(v)))
    {
      var list := InUuidOrder(held);
      released := |list|;
      HandOver(list);
      RestartBudgets(restart);
    }

    method RestartBudgets(restart: int)
      requires tracker.Valid()
      modifies tracker
      ensures tracker.Valid() && tracker.pending.Keys == old(tracker.pending.Keys)
      ensures forall v :: CellOf(v) == old(CellOf(v)).(pending := RestartClocks(old(CellOf(v)).pending, restart))
    {
      tracker.Rebase(restart);
    }

    method HandOver(list: seq<Held>)
      requires replays.Valid() && ListsHeld(list, held)
      modifies this`paused, this`held, replays
      ensures !paused && replays.Valid() && replays.tasks == Spawned(old(replays.tasks), list)
      ensures forall v :: (var c := old(CellOf(v)); CellOf(v) == c.(
        held := None, backlog := c.backlog + if c.held.Some? then multiset{c.held.value} else multiset{}))
    {
      replays.Spawn(list, held);
      held, paused := map[], false;
    }

    /**
      Releases the pause: every held dispatch is owed a replay, in uuid7 order,
      and the sweep that runs on the way starts from the restarted clocks.
     */
    method Resume(w: World, restart: int, now: int, order: seq<Uuid>) returns (wasPaused: bool, released: nat)
      requires Sound() && Enumerates(order, tracker.pending.Keys)
      modifies this`paused, this`states, this`held, this`logs, tracker, db, replays
      ensures Sound() && !paused
      ensures wasPaused == old(paused) && released == |old(held)|
      ensures exists list :: ListsHeld(list, old(held)) && replays.tasks == Spawned(old(replays.tasks), list)
      ensures forall v :: (var c := old(CellOf(v));
        CellOf(v) == Step(w, v, now, Gated(), Event.Resume(restart, Due(RestartClocks(c.pending, restart), now)), c))
    {
      wasPaused := paused;
      released := LiftHolds(restart);
      forall v
        ensures Delivery.Safe(CellOf(v))
      {
        Delivery.StepSafe(Tick(w, now, true, Event.Resume(restart, {})), v, old(CellOf(v)));
      }
      HandleTimeout(w, now, order);
    }

    /** A detached task replays the next dispatch on its list; the replay asks the gate again. */
    method ReplayNext(w: World, now: int, i: nat)
      requires Sound() && i < |replays.tasks| && replays.tasks[i] != []
      modifies this`states, this`held, this`logs, tracker, db, replays
      ensures Sound()
      ensures replays.tasks == old(replays.tasks)[i := old(replays.tasks)[i][1..]]
      ensures var (u, p) := old(replays.tasks)[i][0];
        && CellOf(u) == Step(w, u, now, Gated(), Replay(p), old(CellOf(u)))
        && forall v :: v != u ==> CellOf(v) == old(CellOf(v))
    {
      var next := PopReplay(i);
      var (u, p) := next;
      ghost var before := old(CellOf(u));
      match p {
        case Entry => BroadcastPreProcess(w, u, now);
        case AtInProcess => StartInProcess(w, u, now);
        case AtPostProcess => StartPostProcess(w, u, now);
      }
      assert forall v :: v != u ==> CellOf(v) == old(CellOf(v));
      StillSound(Tick(w, now, Gated(), Replay(p)), u, before);
    }

    method PopReplay(i: nat) returns (next: Held)
      requires replays.Valid() && i < |replays.tasks| && replays.tasks[i] != []
      modifies replays
      ensures replays.Valid() && next == old(replays.tasks)[i][0]
      ensures replays.tasks == old(replays.tasks)[i := old(replays.tasks)[i][1..]]
      ensures next.1 in old(CellOf(next.0)).backlog
      ensures CellOf(next.0) == old(CellOf(next.0)).(backlog := old(CellOf(next.0)).backlog - multiset{next.1})
      ensures forall v :: v != next.0 ==> CellOf(v) == old(CellOf(v))
    {
      next := replays.Pop(i);
    }
  }
}
