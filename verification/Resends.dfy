/**
  Resends are bounded over every run: attempt k+1 of a dispatch needs an entry
  that carried attempt k out of the tracker. The argument is a conservation law
  between the frames sent and the acks still tracked, and it needs nothing about
  schedules, duplicate module names or sweeps.
 */
module Resends {
  import opened Basics
  import opened Rows
  import opened Messages

  /** How many tracked entries stand for the attempt `d`. */
  ghost function Standing(es: seq<Ack>, d: Dispatch): nat {
    if es == [] then 0
    else
      var e := es[|es| - 1];
      Standing(es[..|es| - 1], d) + if Dispatch(e.stage, e.moduleName, e.resends) == d then 1 else 0
  }

  /** How many times the frame `d` was sent. */
  ghost function Times(log: seq<Dispatch>, d: Dispatch): nat {
    if log == [] then 0
    else Times(log[..|log| - 1], d) + if log[|log| - 1] == d then 1 else 0
  }

  ghost function NextTry(d: Dispatch): Dispatch {
    d.(attempt := d.attempt + 1)
  }

  /**
    Attempt k+1 plus the entries still standing at attempt k never exceed attempt
    k, and the last permitted attempt has no successor. `owed` are entries a sweep
    has taken out of the tracker but not looked at yet.
   */
  ghost predicate Conserved(d: Dispatch, c: Cell, owed: seq<Ack>) {
    && Times(c.log, NextTry(d)) + Standing(c.pending, d) + Standing(owed, d) <= Times(c.log, d)
    && (d.attempt >= MAX_ACK_RESENDS ==> Times(c.log, NextTry(d)) == 0)
  }

  lemma TimesSnoc(log: seq<Dispatch>, x: Dispatch, d: Dispatch)
    ensures Times(log + [x], d) == Times(log, d) + if x == d then 1 else 0
  {
    assert (log + [x])[..|log|] == log;
  }

  lemma StandingSnoc(es: seq<Ack>, e: Ack, d: Dispatch)
    ensures Standing(es + [e], d) == Standing(es, d) + if Dispatch(e.stage, e.moduleName, e.resends) == d then 1 else 0
  {
    assert (es + [e])[..|es|] == es;
  }

  lemma {:induction false} StandingAppend(a: seq<Ack>, b: seq<Ack>, d: Dispatch)
    ensures Standing(a + b, d) == Standing(a, d) + Standing(b, d)
  {
    if b == [] {
      assert a + b == a;
    } else {
      var n := |b| - 1;
      var all := a + b;
      StandingAppend(a, b[..n], d);
      assert all[..|all| - 1] == a + b[..n] && all[|all| - 1] == b[n];
    }
  }

  lemma StandingOne(e: Ack, d: Dispatch)
    ensures Standing([e], d) == if Dispatch(e.stage, e.moduleName, e.resends) == d then 1 else 0
  {
    StandingSnoc([], e, d);
    assert [] + [e] == [e];
  }

  lemma {:induction false} SplitStanding(es: seq<Ack>, which: set<nat>, d: Dispatch)
    ensures Standing(Kept(es, which), d) + Standing(Expired(es, which), d) == Standing(es, d)
  {
    if es != [] {
      var n := |es| - 1;
      SplitStanding(es[..n], which, d);
      if n in which {
        StandingSnoc(Expired(es[..n], which), es[n], d);
        assert Kept(es[..n], which) + [] == Kept(es[..n], which);
      } else {
        StandingSnoc(Kept(es[..n], which), es[n], d);
        assert Expired(es[..n], which) + [] == Expired(es[..n], which);
      }
    }
  }

  lemma {:induction false} WithoutStanding(es: seq<Ack>, m: Module, d: Dispatch)
    ensures Standing(Without(es, m), d) <= Standing(es, d)
  {
    if es != [] {
      WithoutStanding(es[1..], m, d);
      assert es == [es[0]] + es[1..];
      StandingAppend([es[0]], es[1..], d);
      StandingAppend([es[0]], Without(es[1..], m), d);
    }
  }

  lemma {:induction false} ReceiptStanding(es: seq<Ack>, m: Module, d: Dispatch)
    ensures Standing(MarkReceipt(es, m), d) == Standing(es, d)
  {
    if es != [] {
      ReceiptStanding(es[1..], m, d);
      assert es == [es[0]] + es[1..];
      var e' := es[0].(receipt := true);
      StandingAppend([es[0]], es[1..], d);
      StandingAppend([e'], es[1..], d);
      StandingAppend([es[0]], MarkReceipt(es[1..], m), d);
      StandingOne(es[0], d);
      StandingOne(e', d);
    }
  }

  lemma {:induction false} RestartStanding(es: seq<Ack>, now: int, d: Dispatch)
    ensures Standing(RestartClocks(es, now), d) == Standing(es, d)
  {
    if es != [] {
      var n := |es| - 1;
      RestartStanding(es[..n], now, d);
      assert RestartClocks(es, now)[..n] == RestartClocks(es[..n], now);
    }
  }

  // ── The dispatching functions ──────────────────────────────────────────

  lemma TrackConserves(d: Dispatch, w: World, u: Uuid, stage: Stage, now: int, m: Module, c: Cell, owed: seq<Ack>)
    requires Conserved(d, c, owed)
    ensures Conserved(d, Track(w, u, stage, now, m, c), owed)
  {
    var c' := Track(w, u, stage, now, m, c);
    StandingSnoc(c.pending, c'.pending[|c.pending|], d);
    TimesSnoc(c.log, Dispatch(stage, m, 0), d);
    TimesSnoc(c.log, Dispatch(stage, m, 0), NextTry(d));
  }

  lemma ResendConserves(d: Dispatch, now: int, e: Ack, c: Cell, owed: seq<Ack>)
    requires Conserved(d, c, [e] + owed) && e.resends < MAX_ACK_RESENDS
    ensures Conserved(d, Resend(now, e, c), owed)
  {
    var c', x := Resend(now, e, c), Dispatch(e.stage, e.moduleName, e.resends);
    StandingSnoc(c.pending, c'.pending[|c.pending|], d);
    StandingAppend([e], owed, d);
    StandingOne(e, d);
    TimesSnoc(c.log, NextTry(x), d);
    TimesSnoc(c.log, NextTry(x), NextTry(d));
  }

  lemma {:induction false} FanOutConserves(d: Dispatch, w: World, u: Uuid, stage: Stage, now: int, ms: seq<Module>, c: Cell, owed: seq<Ack>)
    requires Conserved(d, c, owed)
    ensures Conserved(d, FanOut(w, u, stage, now, ms, c), owed)
  {
    if ms != [] {
      var n := |ms| - 1;
      FanOutConserves(d, w, u, stage, now, ms[..n], c, owed);
      if w.Reaches(u, stage, ms[n]) {
        TrackConserves(d, w, u, stage, now, ms[n], FanOut(w, u, stage, now, ms[..n], c), owed);
      }
    }
  }

  lemma StartPostConserves(d: Dispatch, w: World, u: Uuid, now: int, gated: bool, c: Cell, owed: seq<Ack>)
    requires Conserved(d, c, owed)
    ensures Conserved(d, StartPost(w, u, now, gated, c), owed)
  {
    if !gated && !c.Audited() && c.mem.Some? {
      var c1 := c.(mem := Some(c.mem.value.(stage := PostProcess)));
      FanOutConserves(d, w, u, PostProcess, now, PostRecipients(w, c.mem.value.parsed, w.config.post), c1, owed);
    }
  }

  lemma {:induction false} StartInConserves(d: Dispatch, w: World, u: Uuid, now: int, gated: bool, c: Cell, owed: seq<Ack>)
    requires Conserved(d, c, owed)
    ensures Conserved(d, StartIn(w, u, now, gated, c), owed)
    decreases if c.mem.Some? then |w.config.inProcess| - c.mem.value.index else 0, 0
  {
    if !gated && !c.Audited() && c.mem.Some? {
      var c1 := c.(mem := Some(c.mem.value.(stage := InProcess)));
      var ms, i := w.config.inProcess, c.mem.value.index;
      if i >= |ms| {
        StartPostConserves(d, w, u, now, gated, c1, owed);
      } else if InProcessTurn(w, u, c.mem.value.parsed, ms[i]) {
        TrackConserves(d, w, u, InProcess, now, ms[i], c1, owed);
      } else {
        NextInConserves(d, w, u, now, gated, c1, owed);
      }
    }
  }

  lemma {:induction false} NextInConserves(d: Dispatch, w: World, u: Uuid, now: int, gated: bool, c: Cell, owed: seq<Ack>)
    requires Conserved(d, c, owed)
    ensures Conserved(d, NextIn(w, u, now, gated, c), owed)
    decreases if c.mem.Some? && c.mem.value.index < |w.config.inProcess|
      then |w.config.inProcess| - c.mem.value.index - 1 else 0, 1
  {
    if c.mem.Some? {
      var c1 := c.(mem := Some(c.mem.value.(index := c.mem.value.index + 1)));
      if c1.mem.value.index >= |w.config.inProcess| {
        StartPostConserves(d, w, u, now, gated, c1, owed);
      } else {
        StartInConserves(d, w, u, now, gated, c1, owed);
      }
    }
  }

  lemma BroadcastPreConserves(d: Dispatch, w: World, u: Uuid, now: int, gated: bool, c: Cell)
    requires Conserved(d, c, [])
    ensures Conserved(d, BroadcastPre(w, u, now, gated, c), [])
  {
    if !gated && c.mem.Some? {
      var ms := Recipients(w, c.mem.value.parsed, w.config.pre);
      FanOutConserves(d, w, u, PreProcess, now, ms, c, []);
      StartInConserves(d, w, u, now, gated, FanOut(w, u, PreProcess, now, ms, c), []);
    }
  }

  lemma AdvanceConserves(d: Dispatch, stage: Stage, w: World, u: Uuid, now: int, gated: bool, c: Cell, owed: seq<Ack>)
    requires Conserved(d, c, owed)
    ensures Conserved(d, Advance(stage, w, u, now, gated, c), owed)
  {
    match stage
    case PreProcess => StartInConserves(d, w, u, now, gated, StampPre(now, c), owed);
    case InProcess => NextInConserves(d, w, u, now, gated, StampIn(now, c), owed);
    case PostProcess =>
  }

  lemma OwedLess(d: Dispatch, c: Cell, e: Ack, owed: seq<Ack>)
    requires Conserved(d, c, [e] + owed)
    ensures Conserved(d, c, owed)
  {
    StandingAppend([e], owed, d);
  }

  /** A sweep spends one expired entry per resend. */
  lemma SweepOneConserves(d: Dispatch, w: World, u: Uuid, now: int, still: bool, critical: bool, e: Ack, s: Sweeping, owed: seq<Ack>)
    requires Conserved(d, s.cell, [e] + owed)
    ensures Conserved(d, SweepOne(w, u, now, still, critical, e, s).cell, owed)
  {
    OwedLess(d, s.cell, e, owed);
    if s.cell.mem.Some? && Resendable(w, u, e) {
      ResendConserves(d, now, e, s.cell, owed);
    } else if e.moduleName !in w.config.critical && !still && !s.resent && !critical && !s.advanced {
      AdvanceConserves(d, e.stage, w, u, now, false, s.cell, owed);
    }
  }

  lemma {:induction false} SweepAllConserves(d: Dispatch, w: World, u: Uuid, now: int, still: bool, critical: bool, es: seq<Ack>, s: Sweeping, owed: seq<Ack>)
    requires Conserved(d, s.cell, es + owed)
    ensures Conserved(d, SweepAll(w, u, now, still, critical, es, s).cell, owed)
  {
    if es == [] {
      assert es + owed == owed;
    } else {
      var n := |es| - 1;
      assert es + owed == es[..n] + ([es[n]] + owed);
      SweepAllConserves(d, w, u, now, still, critical, es[..n], s, [es[n]] + owed);
      SweepOneConserves(d, w, u, now, still, critical, es[n], SweepAll(w, u, now, still, critical, es[..n], s), owed);
    }
  }

  lemma SweepConserves(d: Dispatch, w: World, u: Uuid, now: int, which: set<nat>, c: Cell)
    requires Conserved(d, c, [])
    ensures Conserved(d, Sweep(w, u, now, which, c), [])
  {
    var kept, expired := Kept(c.pending, which), Expired(c.pending, which);
    SplitStanding(c.pending, which, d);
    var c1 := c.(pending := kept);
    assert expired + [] == expired;
    assert Conserved(d, c1, expired + []);
    SweepAllConserves(d, w, u, now, kept != [], HasCritical(w, expired), expired, Sweeping(c1, false, false, false), []);
  }

  lemma HandleAckConserves(d: Dispatch, w: World, u: Uuid, now: int, gated: bool, m: Module, c: Cell)
    requires Conserved(d, c, [])
    ensures Conserved(d, HandleAck(w, u, now, gated, m, c), [])
  {
    WithoutStanding(c.pending, m, d);
    var acked := AckedStage(c.pending, m);
    if acked.Some? {
      AdvanceConserves(d, acked.value, w, u, now, gated, c.(pending := Without(c.pending, m)), []);
    }
  }

  lemma DispatchConserves(d: Dispatch, p: HoldPoint, w: World, u: Uuid, now: int, gated: bool, c: Cell)
    requires Conserved(d, c, [])
    ensures Conserved(d, DispatchFrom(p, w, u, now, gated, c), [])
  {
    match p
    case Entry => BroadcastPreConserves(d, w, u, now, gated, c);
    case AtInProcess => StartInConserves(d, w, u, now, gated, c, []);
    case AtPostProcess => StartPostConserves(d, w, u, now, gated, c, []);
  }

  lemma ReplyConserves(d: Dispatch, t: Tick, u: Uuid, c: Cell)
    requires Conserved(d, c, []) && t.event.Reply?
    ensures Conserved(d, Replied(t.world, u, t.now, t.gated, t.event, c), [])
  {
    var Reply(stage, m, text, mime, bytes, abandon) := t.event;
    if Owns(c.pending, m, stage) {
      var c1 := RecordReply(stage, text, mime, bytes, c);
      if stage.InProcess? && abandon {
        assert Conserved(d, MarkDropped(AbandonReason(m), t.now, c1), []);
      } else {
        HandleAckConserves(d, t.world, u, t.now, t.gated, m, c1);
      }
    }
  }

  lemma ClockConserves(d: Dispatch, t: Tick, u: Uuid, c: Cell)
    requires Conserved(d, c, []) && (t.event.Expire? || t.event.Resume?)
    ensures Conserved(d, Step(t.world, u, t.now, t.gated, t.event, c), [])
  {
    if t.event.Expire? {
      SweepConserves(d, t.world, u, t.now, t.event.which, c);
    } else {
      RestartStanding(c.pending, t.event.restart, d);
      SweepConserves(d, t.world, u, t.now, t.event.which, Unhold(t.event.restart, c));
    }
  }

  lemma StepConserves(d: Dispatch, t: Tick, u: Uuid, c: Cell)
    requires Conserved(d, c, [])
    ensures Conserved(d, Step(t.world, u, t.now, t.gated, t.event, c), [])
  {
    match t.event
    case Ingest(msg) =>
      if c.row.None? { BroadcastPreConserves(d, t.world, u, t.now, t.gated, Ingested(msg, c)); }
    case Recover =>
      if Stranded(c) { BroadcastPreConserves(d, t.world, u, t.now, t.gated, Reclaimed(c)); }
    case Reply(_, _, _, _, _, _) => ReplyConserves(d, t, u, c);
    case Receipt(m) => ReceiptStanding(c.pending, m, d);
    case Expire(_) => ClockConserves(d, t, u, c);
    case Resume(_, _) => ClockConserves(d, t, u, c);
    case Replay(p) => DispatchConserves(d, p, t.world, u, t.now, t.gated, c.(backlog := c.backlog - multiset{p}));
    case TakeAudit(_) =>
    case ReleaseAudit(_) =>
    case Crash =>
  }

  lemma {:induction false} RunConserves(d: Dispatch, u: Uuid, ticks: seq<Tick>)
    ensures Conserved(d, Run(u, ticks, UNKNOWN), [])
  {
    if ticks != [] {
      RunConserves(d, u, ticks[..|ticks| - 1]);
      StepConserves(d, ticks[|ticks| - 1], u, Run(u, ticks[..|ticks| - 1], UNKNOWN));
    }
  }

  /** How many frames of this stage were put on the module's channel. */
  ghost function Frames(log: seq<Dispatch>, stage: Stage, m: Module): nat {
    if log == [] then 0
    else
      var d := log[|log| - 1];
      Frames(log[..|log| - 1], stage, m) + if d.stage == stage && d.moduleName == m then 1 else 0
  }

  lemma {:induction false} FramesByAttempt(log: seq<Dispatch>, stage: Stage, m: Module)
    requires forall x :: x in log ==> x.attempt <= MAX_ACK_RESENDS
    ensures Frames(log, stage, m) ==
      Times(log, Dispatch(stage, m, 0)) + Times(log, Dispatch(stage, m, 1))
      + Times(log, Dispatch(stage, m, 2)) + Times(log, Dispatch(stage, m, 3))
  {
    if log != [] {
      var n := |log| - 1;
      assert log == log[..n] + [log[n]];
      FramesByAttempt(log[..n], stage, m);
      assert log[n] in log;
    }
  }

  lemma {:induction false} SentIsCounted(log: seq<Dispatch>, x: Dispatch)
    requires x in log
    ensures Times(log, x) > 0
  {
    var n := |log| - 1;
    if log[n] != x {
      assert log == log[..n] + [log[n]];
      SentIsCounted(log[..n], x);
    }
  }

  lemma LogConserved(d: Dispatch, u: Uuid, ticks: seq<Tick>)
    ensures var log := Run(u, ticks, UNKNOWN).log;
      && Times(log, NextTry(d)) <= Times(log, d)
      && (d.attempt >= MAX_ACK_RESENDS ==> Times(log, NextTry(d)) == 0)
  {
    RunConserves(d, u, ticks);
  }

  lemma AttemptBounded(u: Uuid, ticks: seq<Tick>, x: Dispatch)
    requires x in Run(u, ticks, UNKNOWN).log
    ensures x.attempt <= MAX_ACK_RESENDS
  {
    SentIsCounted(Run(u, ticks, UNKNOWN).log, x);
    if x.attempt > MAX_ACK_RESENDS {
      var last := x.(attempt := x.attempt - 1);
      assert NextTry(last) == x;
      LogConserved(last, u, ticks);
    }
  }

  /**
    Over any run, a module is sent a stage message at most 1 + MAX_ACK_RESENDS
    times for each time the stage was dispatched to it.
   */
  lemma ResendsAreBounded(u: Uuid, ticks: seq<Tick>, stage: Stage, m: Module)
    ensures var log := Run(u, ticks, UNKNOWN).log;
      Frames(log, stage, m) <= (1 + MAX_ACK_RESENDS) * Times(log, Dispatch(stage, m, 0))
  {
    var log := Run(u, ticks, UNKNOWN).log;
    forall x | x in log
      ensures x.attempt <= MAX_ACK_RESENDS
    {
      AttemptBounded(u, ticks, x);
    }
    FramesByAttempt(log, stage, m);
    LogConserved(Dispatch(stage, m, 0), u, ticks);
    LogConserved(Dispatch(stage, m, 1), u, ticks);
    LogConserved(Dispatch(stage, m, 2), u, ticks);
  }
}
