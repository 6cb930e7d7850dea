/**
  Clock readings never steer a message. Erasing every timestamp from a cell
  commutes with every open-gate step, once a sweep is given as the entries it
  expires.
 */
module Untimed {
  import opened Basics
  import opened Rows
  import opened Messages

  function Zeroed(t: Option<int>): Option<int> {
    if t.Some? then Some(0) else None
  }

  function NoClocks(es: seq<Ack>): seq<Ack> {
    seq(|es|, i requires 0 <= i < |es| => es[i].(sentAt := 0))
  }

  function NoTimes(row: Option<Row>): Option<Row> {
    if row.None? then None
    else
      var r := row.value;
      Some(r.(preAt := Zeroed(r.preAt), inAt := Zeroed(r.inAt),
              postAt := Zeroed(r.postAt), persistedAt := Zeroed(r.persistedAt)))
  }

  function NoStamps(mem: Option<MsgState>): Option<MsgState> {
    if mem.None? then None
    else Some(mem.value.(preAt := Zeroed(mem.value.preAt), inAt := Zeroed(mem.value.inAt)))
  }

  /** The cell with every clock reading erased. */
  function Erase(c: Cell): Cell {
    c.(row := NoTimes(c.row), mem := NoStamps(c.mem), pending := NoClocks(c.pending))
  }

  lemma NoClocksAppend(a: seq<Ack>, b: seq<Ack>)
    ensures NoClocks(a + b) == NoClocks(a) + NoClocks(b)
  {
  }

  lemma TrackErases(w: World, u: Uuid, stage: Stage, now: int, m: Module, c: Cell)
    ensures Erase(Track(w, u, stage, now, m, c)) == Track(w, u, stage, 0, m, Erase(c))
  {
    assert NoClocks(Track(w, u, stage, now, m, c).pending) == Track(w, u, stage, 0, m, Erase(c)).pending;
  }

  lemma {:induction false} FanOutErases(w: World, u: Uuid, stage: Stage, now: int, ms: seq<Module>, c: Cell)
    ensures Erase(FanOut(w, u, stage, now, ms, c)) == FanOut(w, u, stage, 0, ms, Erase(c))
  {
    if ms != [] {
      var n := |ms| - 1;
      FanOutErases(w, u, stage, now, ms[..n], c);
      TrackErases(w, u, stage, now, ms[n], FanOut(w, u, stage, now, ms[..n], c));
    }
  }

  lemma TerminalErases(row: Row, outcome: Outcome, result: RunResult, now: int)
    ensures NoTimes(Some(TerminalRow(row, outcome, result, now)))
         == Some(TerminalRow(NoTimes(Some(row)).value, outcome,
                             result.(preAt := Zeroed(result.preAt), inAt := Zeroed(result.inAt)), 0))
  {
  }

  lemma WriteErases(c: Cell, outcome: Outcome, now: int)
    ensures NoTimes(Write(c, outcome, ResultOf(c.mem), now))
         == Write(Erase(c), outcome, ResultOf(Erase(c).mem), 0)
  {
    if c.row.Some? {
      var result := ResultOf(c.mem);
      TerminalErases(c.row.value, outcome, result, now);
      assert ResultOf(NoStamps(c.mem)) == result.(preAt := Zeroed(result.preAt), inAt := Zeroed(result.inAt));
    }
  }

  lemma EndedErases(outcome: Outcome, now: int, c: Cell)
    ensures Erase(MarkEnded(outcome, now, c)) == MarkEnded(outcome, 0, Erase(c))
  {
    WriteErases(c, outcome, now);
    WriteErases(c, AuditHeld, now);
    assert NoClocks([]) == [];
    assert c.Audited() <==> Erase(c).Audited();
  }

  lemma StartPostErases(w: World, u: Uuid, now: int, c: Cell)
    ensures Erase(StartPost(w, u, now, false, c)) == StartPost(w, u, 0, false, Erase(c))
  {
    if !c.Audited() && c.mem.Some? {
      var c1 := c.(mem := Some(c.mem.value.(stage := PostProcess)));
      var ms := PostRecipients(w, c.mem.value.parsed, w.config.post);
      FanOutErases(w, u, PostProcess, now, ms, c1);
      EndedErases(EndComplete, now, FanOut(w, u, PostProcess, now, ms, c1));
    }
  }

  lemma {:induction false} StartInErases(w: World, u: Uuid, now: int, c: Cell)
    ensures Erase(StartIn(w, u, now, false, c)) == StartIn(w, u, 0, false, Erase(c))
    decreases if c.mem.Some? then |w.config.inProcess| - c.mem.value.index else 0, 0
  {
    if !c.Audited() && c.mem.Some? {
      var c1 := c.(mem := Some(c.mem.value.(stage := InProcess)));
      var ms, i := w.config.inProcess, c.mem.value.index;
      if i >= |ms| {
        StartPostErases(w, u, now, c1);
      } else if InProcessTurn(w, u, c.mem.value.parsed, ms[i]) {
        TrackErases(w, u, InProcess, now, ms[i], c1);
      } else {
        NextInErases(w, u, now, c1);
      }
    }
  }

  lemma {:induction false} NextInErases(w: World, u: Uuid, now: int, c: Cell)
    ensures Erase(NextIn(w, u, now, false, c)) == NextIn(w, u, 0, false, Erase(c))
    decreases if c.mem.Some? && c.mem.value.index < |w.config.inProcess|
      then |w.config.inProcess| - c.mem.value.index - 1 else 0, 1
  {
    if c.mem.Some? {
      var c1 := c.(mem := Some(c.mem.value.(index := c.mem.value.index + 1)));
      if c1.mem.value.index >= |w.config.inProcess| {
        StartPostErases(w, u, now, c1);
      } else {
        StartInErases(w, u, now, c1);
      }
    }
  }

  lemma BroadcastPreErases(w: World, u: Uuid, now: int, c: Cell)
    ensures Erase(BroadcastPre(w, u, now, false, c)) == BroadcastPre(w, u, 0, false, Erase(c))
  {
    if c.mem.Some? {
      var ms := Recipients(w, c.mem.value.parsed, w.config.pre);
      FanOutErases(w, u, PreProcess, now, ms, c);
      StartInErases(w, u, now, FanOut(w, u, PreProcess, now, ms, c));
    }
  }

  lemma DispatchErases(p: HoldPoint, w: World, u: Uuid, now: int, c: Cell)
    ensures Erase(DispatchFrom(p, w, u, now, false, c)) == DispatchFrom(p, w, u, 0, false, Erase(c))
  {
    match p
    case Entry => BroadcastPreErases(w, u, now, c);
    case AtInProcess => StartInErases(w, u, now, c);
    case AtPostProcess => StartPostErases(w, u, now, c);
  }

  lemma AdvanceErases(stage: Stage, w: World, u: Uuid, now: int, c: Cell)
    ensures Erase(Advance(stage, w, u, now, false, c)) == Advance(stage, w, u, 0, false, Erase(c))
  {
    match stage
    case PreProcess => StartInErases(w, u, now, StampPre(now, c));
    case InProcess => NextInErases(w, u, now, StampIn(now, c));
    case PostProcess => EndedErases(EndComplete, now, c);
  }

  // ── Tracker entries ────────────────────────────────────────────────────

  lemma {:induction false} WithoutErases(es: seq<Ack>, m: Module)
    ensures NoClocks(Without(es, m)) == Without(NoClocks(es), m)
    ensures AckedStage(NoClocks(es), m) == AckedStage(es, m)
  {
    if es != [] {
      WithoutErases(es[1..], m);
      assert NoClocks(es)[1..] == NoClocks(es[1..]);
      NoClocksAppend([es[0]], Without(es[1..], m));
      assert NoClocks([es[0]]) == [NoClocks(es)[0]];
    }
  }

  lemma OwnsErases(es: seq<Ack>, m: Module, stage: Stage)
    ensures Owns(NoClocks(es), m, stage) <==> Owns(es, m, stage)
  {
    if i :| 0 <= i < |es| && es[i].moduleName == m && es[i].stage == stage {
      assert NoClocks(es)[i].moduleName == m;
    }
  }

  lemma {:induction false} ReceiptErases(es: seq<Ack>, m: Module)
    ensures NoClocks(MarkReceipt(es, m)) == MarkReceipt(NoClocks(es), m)
  {
    if es != [] {
      ReceiptErases(es[1..], m);
      assert NoClocks(es)[1..] == NoClocks(es[1..]);
      NoClocksAppend([es[0]], MarkReceipt(es[1..], m));
      NoClocksAppend([es[0].(receipt := true)], es[1..]);
      assert NoClocks([es[0]]) == [NoClocks(es)[0]];
      assert NoClocks([es[0].(receipt := true)]) == [NoClocks(es)[0].(receipt := true)];
    }
  }

  lemma {:induction false} SplitErases(es: seq<Ack>, which: set<nat>)
    ensures NoClocks(Kept(es, which)) == Kept(NoClocks(es), which)
    ensures NoClocks(Expired(es, which)) == Expired(NoClocks(es), which)
  {
    if es != [] {
      var n := |es| - 1;
      SplitErases(es[..n], which);
      assert NoClocks(es)[..n] == NoClocks(es[..n]);
      assert NoClocks([es[n]]) == [NoClocks(es)[n]];
      NoClocksAppend(Kept(es[..n], which), [es[n]]);
      NoClocksAppend(Expired(es[..n], which), [es[n]]);
    }
  }

  lemma CriticalErases(w: World, es: seq<Ack>)
    ensures HasCritical(w, NoClocks(es)) <==> HasCritical(w, es)
  {
    if i :| 0 <= i < |es| && es[i].moduleName in w.config.critical {
      assert NoClocks(es)[i].moduleName in w.config.critical;
    }
  }

  function EraseSweep(s: Sweeping): Sweeping {
    s.(cell := Erase(s.cell))
  }

  lemma SweepOneErases(w: World, u: Uuid, now: int, still: bool, critical: bool, e: Ack, s: Sweeping)
    ensures EraseSweep(SweepOne(w, u, now, still, critical, e, s))
         == SweepOne(w, u, 0, still, critical, e.(sentAt := 0), EraseSweep(s))
  {
    var e' := e.(sentAt := 0);
    assert Resendable(w, u, e') <==> Resendable(w, u, e);
    if s.cell.mem.Some? && Resendable(w, u, e) {
      assert Erase(Resend(now, e, s.cell)).pending == Resend(0, e', Erase(s.cell)).pending;
    } else if e.moduleName in w.config.critical {
      EndedErases(EndFailed(TimeoutReason(e)), now, s.cell);
    } else {
      AdvanceErases(e.stage, w, u, now, s.cell);
    }
  }

  lemma {:induction false} SweepAllErases(w: World, u: Uuid, now: int, still: bool, critical: bool, es: seq<Ack>, s: Sweeping)
    ensures EraseSweep(SweepAll(w, u, now, still, critical, es, s))
         == SweepAll(w, u, 0, still, critical, NoClocks(es), EraseSweep(s))
  {
    if es != [] {
      var n := |es| - 1;
      SweepAllErases(w, u, now, still, critical, es[..n], s);
      assert NoClocks(es)[..n] == NoClocks(es[..n]);
      SweepOneErases(w, u, now, still, critical, es[n], SweepAll(w, u, now, still, critical, es[..n], s));
    }
  }

  lemma SweepErases(w: World, u: Uuid, now: int, which: set<nat>, c: Cell)
    ensures Erase(Sweep(w, u, now, which, c)) == Sweep(w, u, 0, which, Erase(c))
  {
    var kept, expired := Kept(c.pending, which), Expired(c.pending, which);
    SplitErases(c.pending, which);
    CriticalErases(w, expired);
    SweepAllErases(w, u, now, kept != [], HasCritical(w, expired), expired,
                   Sweeping(c.(pending := kept), false, false, false));
  }

  lemma ReplyErases(w: World, u: Uuid, now: int, e: Event, c: Cell)
    requires e.Reply?
    ensures Erase(Replied(w, u, now, false, e, c)) == Replied(w, u, 0, false, e, Erase(c))
  {
    var Reply(stage, m, text, mime, bytes, abandon) := e;
    OwnsErases(c.pending, m, stage);
    if Owns(c.pending, m, stage) {
      var c1 := RecordReply(stage, text, mime, bytes, c);
      assert Erase(c1) == RecordReply(stage, text, mime, bytes, Erase(c));
      if stage.InProcess? && abandon {
        EndedErases(EndDropped(AbandonReason(m)), now, c1);
      } else {
        AckErases(w, u, now, m, c1);
      }
    }
  }

  lemma AckErases(w: World, u: Uuid, now: int, m: Module, c: Cell)
    ensures Erase(HandleAck(w, u, now, false, m, c)) == HandleAck(w, u, 0, false, m, Erase(c))
  {
    WithoutErases(c.pending, m);
    var acked := AckedStage(c.pending, m);
    if acked.Some? {
      AdvanceErases(acked.value, w, u, now, c.(pending := Without(c.pending, m)));
    }
  }

  lemma IngestErases(w: World, u: Uuid, now: int, msg: Incoming, c: Cell)
    ensures Erase(Entered(w, u, now, false, msg, c)) == Entered(w, u, 0, false, msg, Erase(c))
  {
    if c.row.None? {
      BroadcastPreErases(w, u, now, Ingested(msg, c));
    }
  }

  lemma AuditErases(reason: string, approve: bool, now: int, c: Cell)
    ensures Erase(TakenHold(reason, now, c)) == TakenHold(reason, 0, Erase(c))
    ensures Erase(Released(approve, now, c)) == Released(approve, 0, Erase(c))
  {
  }

  lemma RecoverErases(w: World, u: Uuid, now: int, c: Cell)
    ensures Erase(Recovered(w, u, now, false, c)) == Recovered(w, u, 0, false, Erase(c))
  {
    if Stranded(c) {
      BroadcastPreErases(w, u, now, Reclaimed(c));
    }
  }

  /** The steps of a run that never pauses. */
  predicate Plain(e: Event) {
    !e.Resume? && !e.Replay?
  }

  lemma StepErases(w: World, u: Uuid, now: int, e: Event, c: Cell)
    requires Plain(e)
    ensures Erase(Step(w, u, now, false, e, c)) == Step(w, u, 0, false, e, Erase(c))
  {
    match e
    case Ingest(msg) => IngestErases(w, u, now, msg, c);
    case Recover => RecoverErases(w, u, now, c);
    case Reply(_, _, _, _, _, _) => ReplyErases(w, u, now, e, c);
    case Receipt(m) => ReceiptErases(c.pending, m);
    case Expire(which) => SweepErases(w, u, now, which, c);
    case TakeAudit(reason) => AuditErases(reason, true, now, c);
    case ReleaseAudit(approve) => AuditErases("", approve, now, c);
    case Crash => assert NoClocks([]) == [];
  }
}
