/**
  An operator's hold is safe over every run of whole handlers (`HoldRace` has the
  runs in which one is caught between its hold check and what follows it): from the
  flag to the release, whatever acks, receipts, timeouts, critical failures,
  abandons, pauses, replays, crashes and recoveries happen, the row stays held, the
  message does not advance a stage, and the reason stays at the head of the flags.
 */
module AuditHold {
  import opened Basics
  import opened Rows
  import opened Messages

  /** The first dispatches into the in-process and post-process stages. */
  ghost function StageEntries(log: seq<Dispatch>): seq<Dispatch> {
    if log == [] then []
    else
      var n := |log| - 1;
      StageEntries(log[..n]) + if log[n].attempt == 0 && !log[n].stage.PreProcess? then [log[n]] else []
  }

  /** The row is held throughout, and what the flags said stays at their head. */
  ghost predicate RowKept(c: Cell, c': Cell) {
    && c.Audited() && c'.Audited()
    && FlagText(c.row.value) <= FlagText(c'.row.value)
  }

  /** A live message is at the stage it was at, and was dispatched to no further one. */
  ghost predicate PlaceKept(c: Cell, c': Cell) {
    && (c'.mem.Some? ==> c.mem.Some? && c'.mem.value.stage == c.mem.value.stage)
    && StageEntries(c'.log) == StageEntries(c.log)
  }

  /** `c'` is `c` after some time under the same hold. */
  ghost predicate HoldKept(c: Cell, c': Cell) {
    RowKept(c, c') && PlaceKept(c, c')
  }

  lemma HoldKeptTrans(a: Cell, b: Cell, c: Cell)
    requires HoldKept(a, b) && HoldKept(b, c)
    ensures HoldKept(a, c)
  {
  }

  lemma StageEntriesSnoc(log: seq<Dispatch>, d: Dispatch)
    ensures StageEntries(log + [d]) == StageEntries(log) + if d.attempt == 0 && !d.stage.PreProcess? then [d] else []
  {
    assert (log + [d])[..|log|] == log;
  }

  lemma EndedKeeps(outcome: Outcome, now: int, c: Cell)
    requires c.Audited()
    ensures HoldKept(c, MarkEnded(outcome, now, c))
  {
    var result := ResultOf(c.mem);
    LateWriteKeepsHold(c.row.value, AuditHeld, result, now);
  }

  lemma StartPostKeeps(w: World, u: Uuid, now: int, gated: bool, c: Cell)
    requires c.Audited()
    ensures HoldKept(c, StartPost(w, u, now, gated, c))
  {
  }

  lemma StartInKeeps(w: World, u: Uuid, now: int, gated: bool, c: Cell)
    requires c.Audited()
    ensures HoldKept(c, StartIn(w, u, now, gated, c))
  {
  }

  lemma NextInKeeps(w: World, u: Uuid, now: int, gated: bool, c: Cell)
    requires c.Audited()
    ensures HoldKept(c, NextIn(w, u, now, gated, c))
  {
    if c.mem.Some? {
      var c1 := c.(mem := Some(c.mem.value.(index := c.mem.value.index + 1)));
      StartInKeeps(w, u, now, gated, c1);
      StartPostKeeps(w, u, now, gated, c1);
    }
  }

  lemma AdvanceKeeps(stage: Stage, w: World, u: Uuid, now: int, gated: bool, c: Cell)
    requires c.Audited()
    ensures HoldKept(c, Advance(stage, w, u, now, gated, c))
  {
    match stage
    case PreProcess => StartInKeeps(w, u, now, gated, StampPre(now, c));
    case InProcess => NextInKeeps(w, u, now, gated, StampIn(now, c));
    case PostProcess => EndedKeeps(EndComplete, now, c);
  }

  /** The entry fan-out has no audit check, but it only ever sends pre-process frames. */
  lemma {:induction false} PreFanOutKeeps(w: World, u: Uuid, now: int, ms: seq<Module>, c: Cell)
    requires c.Audited()
    ensures HoldKept(c, FanOut(w, u, PreProcess, now, ms, c))
  {
    if ms != [] {
      var n := |ms| - 1;
      PreFanOutKeeps(w, u, now, ms[..n], c);
      StageEntriesSnoc(FanOut(w, u, PreProcess, now, ms[..n], c).log, Dispatch(PreProcess, ms[n], 0));
    }
  }

  lemma BroadcastPreKeeps(w: World, u: Uuid, now: int, gated: bool, c: Cell)
    requires c.Audited()
    ensures HoldKept(c, BroadcastPre(w, u, now, gated, c))
  {
    if !gated && c.mem.Some? {
      var ms := Recipients(w, c.mem.value.parsed, w.config.pre);
      PreFanOutKeeps(w, u, now, ms, c);
      StartInKeeps(w, u, now, gated, FanOut(w, u, PreProcess, now, ms, c));
    }
  }

  lemma SweepOneKeeps(w: World, u: Uuid, now: int, still: bool, critical: bool, e: Ack, s: Sweeping)
    requires s.cell.Audited()
    ensures HoldKept(s.cell, SweepOne(w, u, now, still, critical, e, s).cell)
  {
    if s.cell.mem.Some? && Resendable(w, u, e) {
      StageEntriesSnoc(s.cell.log, Dispatch(e.stage, e.moduleName, e.resends + 1));
    } else if e.moduleName in w.config.critical {
      EndedKeeps(EndFailed(TimeoutReason(e)), now, s.cell);
    } else {
      AdvanceKeeps(e.stage, w, u, now, false, s.cell);
    }
  }

  lemma {:induction false} SweepAllKeeps(w: World, u: Uuid, now: int, still: bool, critical: bool, es: seq<Ack>, s: Sweeping)
    requires s.cell.Audited()
    ensures HoldKept(s.cell, SweepAll(w, u, now, still, critical, es, s).cell)
  {
    if es != [] {
      var n := |es| - 1;
      SweepAllKeeps(w, u, now, still, critical, es[..n], s);
      SweepOneKeeps(w, u, now, still, critical, es[n], SweepAll(w, u, now, still, critical, es[..n], s));
    }
  }

  lemma SweepKeeps(w: World, u: Uuid, now: int, which: set<nat>, c: Cell)
    requires c.Audited()
    ensures HoldKept(c, Sweep(w, u, now, which, c))
  {
    var kept, expired := Kept(c.pending, which), Expired(c.pending, which);
    SweepAllKeeps(w, u, now, kept != [], HasCritical(w, expired), expired,
                  Sweeping(c.(pending := kept), false, false, false));
  }

  lemma AckKeeps(w: World, u: Uuid, now: int, gated: bool, m: Module, c: Cell)
    requires c.Audited()
    ensures HoldKept(c, HandleAck(w, u, now, gated, m, c))
  {
    var acked := AckedStage(c.pending, m);
    if acked.Some? {
      AdvanceKeeps(acked.value, w, u, now, gated, c.(pending := Without(c.pending, m)));
    }
  }

  lemma ReplyKeeps(w: World, u: Uuid, now: int, gated: bool, e: Event, c: Cell)
    requires c.Audited() && e.Reply?
    ensures HoldKept(c, Replied(w, u, now, gated, e, c))
  {
    var c1 := RecordReply(e.stage, e.text, e.mime, e.bytes, c);
    EndedKeeps(EndDropped(AbandonReason(e.sender)), now, c1);
    AckKeeps(w, u, now, gated, e.sender, c1);
  }

  lemma ReplayKeeps(w: World, u: Uuid, now: int, gated: bool, p: HoldPoint, c: Cell)
    requires c.Audited()
    ensures HoldKept(c, Replayed(w, u, now, gated, p, c))
  {
    var c1 := c.(backlog := c.backlog - multiset{p});
    match p {
      case Entry => BroadcastPreKeeps(w, u, now, gated, c1);
      case AtInProcess => StartInKeeps(w, u, now, gated, c1);
      case AtPostProcess => StartPostKeeps(w, u, now, gated, c1);
    }
  }

  lemma StepKeeps(t: Tick, u: Uuid, c: Cell)
    requires c.Audited() && !t.event.ReleaseAudit?
    ensures HoldKept(c, Step(t.world, u, t.now, t.gated, t.event, c))
  {
    var w, now, gated := t.world, t.now, t.gated;
    match t.event
    case Ingest(_) =>
    case Recover =>
    case Reply(_, _, _, _, _, _) => ReplyKeeps(w, u, now, gated, t.event, c);
    case Receipt(_) =>
    case Expire(which) => SweepKeeps(w, u, now, which, c);
    case Resume(restart, which) => SweepKeeps(w, u, now, which, Unhold(restart, c));
    case Replay(p) => ReplayKeeps(w, u, now, gated, p, c);
    case TakeAudit(_) =>
    case Crash =>
  }

  /** Hold safety over whole runs: nothing but a release ends a hold. */
  lemma {:induction false} HoldIsSafe(u: Uuid, ticks: seq<Tick>, c: Cell)
    requires c.Audited()
    requires forall i :: 0 <= i < |ticks| ==> !ticks[i].event.ReleaseAudit?
    ensures HoldKept(c, Run(u, ticks, c))
  {
    if ticks != [] {
      var n := |ticks| - 1;
      HoldIsSafe(u, ticks[..n], c);
      StepKeeps(ticks[n], u, Run(u, ticks[..n], c));
      HoldKeptTrans(c, Run(u, ticks[..n], c), Run(u, ticks, c));
    }
  }

  /** In particular, from the flag on: the row is held and starts with the reason given. */
  lemma FlaggedStaysHeld(u: Uuid, reason: string, flagTime: Tick, ticks: seq<Tick>, c: Cell)
    requires c.row.Some? && !c.Audited() && flagTime.event == TakeAudit(reason)
    requires forall i :: 0 <= i < |ticks| ==> !ticks[i].event.ReleaseAudit?
    ensures var flagged := Step(flagTime.world, u, flagTime.now, flagTime.gated, flagTime.event, c);
      var c' := Run(u, ticks, flagged);
      && c'.Audited() && reason <= FlagText(c'.row.value)
      && (c'.mem.Some? ==> c.mem.Some? && c'.mem.value.stage == c.mem.value.stage)
      && StageEntries(c'.log) == StageEntries(c.log)
  {
    HoldIsSafe(u, ticks, Step(flagTime.world, u, flagTime.now, flagTime.gated, flagTime.event, c));
  }
}
