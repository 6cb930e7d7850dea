/**
  Pausing is transparent. A pause, a block, a resume and its detached replay may
  fall anywhere in a message's run; once the message is released, it is exactly
  where the run without any of them would have put it, clock readings aside, and
  the same frames went to the same modules in the same order.
 */
module Pausing {
  import opened Basics
  import opened Rows
  import opened Messages
  import opened Untimed
  import Sweeps
  import Coherence
  import Delivery

  lemma GatedNextIn(w: World, u: Uuid, now: int, c: Cell)
    requires c.mem.Some?
    ensures var c1 := c.(mem := Some(c.mem.value.(index := c.mem.value.index + 1)));
      var p := if c1.mem.value.index >= |w.config.inProcess| then AtPostProcess else AtInProcess;
      && NextIn(w, u, now, true, c) == Hold(c1, p)
      && NextIn(w, u, now, false, c) == DispatchFrom(p, w, u, now, false, c1)
  {
    var c1 := c.(mem := Some(c.mem.value.(index := c.mem.value.index + 1)));
    assert StartIn(w, u, now, true, c1) == Hold(c1, AtInProcess);
  }

  /** `c'` has sent no frame since `c`, and was not failed since. */
  ghost predicate Quiet(c: Cell, c': Cell) {
    && c'.log == c.log
    && (c'.row.Some? && c'.row.value.status.Failed? ==> c.row.Some? && c.row.value.status.Failed?)
  }

  lemma ClosedAdvance(stage: Stage, w: World, u: Uuid, now: int, c: Cell)
    ensures Quiet(c, Advance(stage, w, u, now, true, c))
  {
    if stage.InProcess? && c.mem.Some? {
      GatedNextIn(w, u, now, StampIn(now, c));
    }
  }

  lemma ClosedReply(t: Tick, u: Uuid, c: Cell)
    requires t.gated && t.event.Reply?
    ensures Quiet(c, Replied(t.world, u, t.now, t.gated, t.event, c))
  {
    var Reply(stage, m, text, mime, bytes, abandon) := t.event;
    if Owns(c.pending, m, stage) {
      var c1 := RecordReply(stage, text, mime, bytes, c);
      var acked := AckedStage(c1.pending, m);
      if stage.InProcess? && abandon {
        assert Quiet(c, MarkDropped(AbandonReason(m), t.now, c1));
      } else if acked.Some? {
        ClosedAdvance(acked.value, t.world, u, t.now, c1.(pending := Without(c1.pending, m)));
      }
    }
  }

  /** While the gate is closed nothing is sent, and nothing fails a message but an operator. */
  lemma ClosedGateSendsNothing(t: Tick, u: Uuid, c: Cell)
    requires t.gated && !t.event.Crash? && !t.event.ReleaseAudit?
    ensures Quiet(c, Step(t.world, u, t.now, t.gated, t.event, c))
  {
    if t.event.Reply? {
      ClosedReply(t, u, c);
    }
  }

  /** Where the message is parked. */
  function Point(c: Cell): Option<HoldPoint> {
    if c.held.Some? then c.held
    else if Entry in c.backlog then Some(Entry)
    else if AtInProcess in c.backlog then Some(AtInProcess)
    else if AtPostProcess in c.backlog then Some(AtPostProcess)
    else None
  }

  function Unparked(c: Cell): Cell {
    c.(held := None, backlog := multiset{})
  }

  /** The message once the dispatch it was held at has been made. */
  function Flush(w: World, u: Uuid, c: Cell): Cell {
    if Point(c).None? then c
    else DispatchFrom(Point(c).value, w, u, 0, false, Unparked(c))
  }

  lemma ParkedAtAPoint(c: Cell)
    ensures Point(c).None? <==> !c.Parked()
  {
    if c.backlog != multiset{} {
      var p :| p in c.backlog;
      assert p == Entry || p == AtInProcess || p == AtPostProcess;
    }
  }

  ghost predicate SameParking(c: Cell, c': Cell) {
    c'.held == c.held && c'.backlog == c.backlog
  }

  // ── An open gate parks nothing ─────────────────────────────────────────

  lemma StartPostOpen(w: World, u: Uuid, now: int, c: Cell)
    ensures SameParking(c, StartPost(w, u, now, false, c))
  {
    if !c.Audited() && c.mem.Some? {
      var c1 := c.(mem := Some(c.mem.value.(stage := PostProcess)));
      Delivery.FanOutShape(w, u, PostProcess, now, PostRecipients(w, c.mem.value.parsed, w.config.post), c1);
    }
  }

  lemma {:induction false} StartInOpen(w: World, u: Uuid, now: int, c: Cell)
    ensures SameParking(c, StartIn(w, u, now, false, c))
    decreases if c.mem.Some? then |w.config.inProcess| - c.mem.value.index else 0, 0
  {
    if !c.Audited() && c.mem.Some? {
      var c1 := c.(mem := Some(c.mem.value.(stage := InProcess)));
      var ms, i := w.config.inProcess, c.mem.value.index;
      if i >= |ms| {
        StartPostOpen(w, u, now, c1);
      } else if !InProcessTurn(w, u, c.mem.value.parsed, ms[i]) {
        NextInOpen(w, u, now, c1);
      }
    }
  }

  lemma {:induction false} NextInOpen(w: World, u: Uuid, now: int, c: Cell)
    ensures SameParking(c, NextIn(w, u, now, false, c))
    decreases if c.mem.Some? && c.mem.value.index < |w.config.inProcess|
      then |w.config.inProcess| - c.mem.value.index - 1 else 0, 1
  {
    if c.mem.Some? {
      var c1 := c.(mem := Some(c.mem.value.(index := c.mem.value.index + 1)));
      if c1.mem.value.index >= |w.config.inProcess| {
        StartPostOpen(w, u, now, c1);
      } else {
        StartInOpen(w, u, now, c1);
      }
    }
  }

  lemma DispatchOpen(p: HoldPoint, w: World, u: Uuid, now: int, c: Cell)
    ensures SameParking(c, DispatchFrom(p, w, u, now, false, c))
  {
    match p
    case Entry =>
      if c.mem.Some? {
        var ms := Recipients(w, c.mem.value.parsed, w.config.pre);
        Delivery.FanOutShape(w, u, PreProcess, now, ms, c);
        StartInOpen(w, u, now, FanOut(w, u, PreProcess, now, ms, c));
      }
    case AtInProcess => StartInOpen(w, u, now, c);
    case AtPostProcess => StartPostOpen(w, u, now, c);
  }

  lemma AdvanceOpen(stage: Stage, w: World, u: Uuid, now: int, c: Cell)
    ensures SameParking(c, Advance(stage, w, u, now, false, c))
  {
    match stage
    case PreProcess => StartInOpen(w, u, now, StampPre(now, c));
    case InProcess => NextInOpen(w, u, now, StampIn(now, c));
    case PostProcess =>
  }

  lemma SweepOneOpen(w: World, u: Uuid, now: int, still: bool, critical: bool, e: Ack, s: Sweeping)
    ensures SameParking(s.cell, SweepOne(w, u, now, still, critical, e, s).cell)
  {
    AdvanceOpen(e.stage, w, u, now, s.cell);
  }

  lemma {:induction false} SweepAllOpen(w: World, u: Uuid, now: int, still: bool, critical: bool, es: seq<Ack>, s: Sweeping)
    ensures SameParking(s.cell, SweepAll(w, u, now, still, critical, es, s).cell)
  {
    if es != [] {
      var n := |es| - 1;
      SweepAllOpen(w, u, now, still, critical, es[..n], s);
      SweepOneOpen(w, u, now, still, critical, es[n], SweepAll(w, u, now, still, critical, es[..n], s));
    }
  }

  lemma StepOpen(w: World, u: Uuid, now: int, e: Event, c: Cell)
    requires Plain(e) && !c.Parked()
    ensures SameParking(c, Step(w, u, now, false, e, c))
  {
    match e
    case Ingest(msg) => DispatchOpen(Entry, w, u, now, Ingested(msg, c));
    case Recover => if Stranded(c) { DispatchOpen(Entry, w, u, now, Reclaimed(c)); }
    case Reply(stage, m, text, mime, bytes, abandon) =>
      var c1 := RecordReply(stage, text, mime, bytes, c);
      var acked := AckedStage(c1.pending, m);
      if acked.Some? { AdvanceOpen(acked.value, w, u, now, c1.(pending := Without(c1.pending, m))); }
    case Receipt(_) =>
    case Expire(which) =>
      var kept, expired := Kept(c.pending, which), Expired(c.pending, which);
      SweepAllOpen(w, u, now, kept != [], HasCritical(w, expired), expired,
                   Sweeping(c.(pending := kept), false, false, false));
    case TakeAudit(_) =>
    case ReleaseAudit(_) =>
    case Crash =>
  }

  // ── Holding and replaying commutes with dispatching ────────────────────

  /** Replaying a hold later is the dispatch that would have been made. */
  lemma HoldThenFlush(p: HoldPoint, w: World, u: Uuid, now: int, c: Cell)
    requires !c.Parked()
    ensures Erase(Flush(w, u, Hold(c, p))) == Erase(DispatchFrom(p, w, u, now, false, c))
  {
    assert Unparked(Hold(c, p)) == c;
    DispatchErases(p, w, u, now, c);
    DispatchErases(p, w, u, 0, c);
  }

  lemma OpenFlush(w: World, u: Uuid, c: Cell)
    requires !c.Parked()
    ensures Flush(w, u, c) == c
  {
    ParkedAtAPoint(c);
  }

  lemma GatedAdvance(stage: Stage, w: World, u: Uuid, now: int, c: Cell)
    requires !c.Parked()
    ensures Erase(Flush(w, u, Advance(stage, w, u, now, true, c))) == Erase(Advance(stage, w, u, now, false, c))
  {
    match stage
    case PreProcess => HoldThenFlush(AtInProcess, w, u, now, StampPre(now, c));
    case InProcess =>
      if c.mem.None? {
        OpenFlush(w, u, c);
      } else {
        var c1 := StampIn(now, c);
        var c2 := c1.(mem := Some(c1.mem.value.(index := c1.mem.value.index + 1)));
        GatedNextIn(w, u, now, c1);
        HoldThenFlush(if c2.mem.value.index >= |w.config.inProcess| then AtPostProcess else AtInProcess, w, u, now, c2);
      }
    case PostProcess => OpenFlush(w, u, MarkComplete(now, c));
  }

  lemma GatedReply(w: World, u: Uuid, now: int, e: Event, c: Cell)
    requires e.Reply? && !c.Parked()
    ensures Erase(Flush(w, u, Replied(w, u, now, true, e, c))) == Erase(Replied(w, u, now, false, e, c))
  {
    var Reply(stage, m, text, mime, bytes, abandon) := e;
    var c1 := RecordReply(stage, text, mime, bytes, c);
    var acked, rest := AckedStage(c1.pending, m), c1.(pending := Without(c1.pending, m));
    if !Owns(c.pending, m, stage) || (stage.InProcess? && abandon) || acked.None?
       || (!acked.value.InProcess? && rest.pending != []) {
      OpenFlush(w, u, Replied(w, u, now, true, e, c));
    } else {
      GatedAdvance(acked.value, w, u, now, rest);
    }
  }

  /** A closed gate only postpones: flushed, the step is the open-gate step. */
  lemma GatedStep(w: World, u: Uuid, now: int, e: Event, c: Cell)
    requires Plain(e) && !e.Expire? && !c.Parked()
    ensures Erase(Flush(w, u, Step(w, u, now, true, e, c))) == Erase(Step(w, u, now, false, e, c))
  {
    match e
    case Ingest(msg) =>
      if c.row.None? { HoldThenFlush(Entry, w, u, now, Ingested(msg, c)); } else { OpenFlush(w, u, c); }
    case Recover =>
      if Stranded(c) { HoldThenFlush(Entry, w, u, now, Reclaimed(c)); } else { OpenFlush(w, u, c); }
    case Reply(_, _, _, _, _, _) => GatedReply(w, u, now, e, c);
    case Receipt(_) => OpenFlush(w, u, Step(w, u, now, true, e, c));
    case TakeAudit(_) => OpenFlush(w, u, Step(w, u, now, true, e, c));
    case ReleaseAudit(_) => OpenFlush(w, u, Step(w, u, now, true, e, c));
    case Crash => OpenFlush(w, u, Step(w, u, now, true, e, c));
  }

  // ── Runs with and without the gate ─────────────────────────────────────

  /**
    The run without pausing: the gate never closes, releases and replays are
    gone, a resume is just the sweep it runs, and what reached a parked message
    without effect is dropped.
   */
  function Ungated(u: Uuid, ticks: seq<Tick>): seq<Tick> {
    if ticks == [] then []
    else
      var n := |ticks| - 1;
      var before, c, t := Ungated(u, ticks[..n]), Run(u, ticks[..n], UNKNOWN), ticks[n];
      if c.Parked() || t.event.Replay? then before
      else if t.event.Resume? then
        if t.gated then before else before + [Tick(t.world, t.now, false, Expire(t.event.which))]
      else if t.event.Expire? && t.gated then before
      else before + [t.(gated := false)]
  }

  /**
    While the message is parked the engine does not crash, and its surroundings
    (routing, permits, connectivity) and its audit status stay what they were.
   */
  ghost predicate Steady(u: Uuid, ticks: seq<Tick>) {
    ticks == [] ||
    var n := |ticks| - 1;
    && Steady(u, ticks[..n])
    && (n > 0 && Run(u, ticks[..n], UNKNOWN).Parked() ==>
          && ticks[n].world == ticks[n - 1].world
          && !ticks[n].event.Crash? && !ticks[n].event.TakeAudit? && !ticks[n].event.ReleaseAudit?)
  }

  /** A parked message has a state and owes no ack, so nothing but its release concerns it. */
  lemma ParkedIgnores(t: Tick, u: Uuid, c: Cell)
    requires c.Parked() && Coherence.Coherent(c)
    requires t.event.Ingest? || t.event.Recover? || t.event.Reply? || t.event.Receipt? || t.event.Expire?
    ensures Step(t.world, u, t.now, t.gated, t.event, c) == c
  {
    if t.event.Expire? {
      Sweeps.NothingToSweep(t.world, u, t.now, t.event.which, c);
    }
  }

  /** What happens to a parked message: only its release moves it. */
  lemma ParkedStep(t: Tick, u: Uuid, c: Cell)
    requires c.Parked() && Coherence.Coherent(c)
    requires !t.event.Crash? && !t.event.TakeAudit? && !t.event.ReleaseAudit?
    ensures Erase(Flush(t.world, u, Step(t.world, u, t.now, t.gated, t.event, c))) == Erase(Flush(t.world, u, c))
  {
    match t.event
    case Resume(restart, which) => ResumeStep(t.world, u, t.now, t.gated, restart, which, c);
    case Replay(p) => ReplayStep(t.world, u, t.now, t.gated, p, c);
    case _ => ParkedIgnores(t, u, c);
  }

  /** A resume hands the held message over to the replay, at the same point. */
  lemma ResumeStep(w: World, u: Uuid, now: int, gated: bool, restart: int, which: set<nat>, c: Cell)
    requires c.Parked() && Coherence.Coherent(c)
    ensures Flush(w, u, Resumed(w, u, now, gated, restart, which, c)) == Flush(w, u, c)
  {
    var c1 := Unhold(restart, c);
    assert c1.pending == [];
    Sweeps.NothingToSweep(w, u, now, which, c1);
    assert Unparked(c1) == Unparked(c);
    if c.held.Some? {
      assert c1.backlog == multiset{c.held.value};
    }
    assert Point(c1) == Point(c);
  }

  lemma ReplayOpen(p: HoldPoint, w: World, u: Uuid, now: int, c: Cell)
    requires !c.Parked()
    ensures Erase(Flush(w, u, DispatchFrom(p, w, u, now, false, c))) == Erase(DispatchFrom(p, w, u, 0, false, c))
  {
    DispatchOpen(p, w, u, now, c);
    OpenFlush(w, u, DispatchFrom(p, w, u, now, false, c));
    DispatchErases(p, w, u, now, c);
    DispatchErases(p, w, u, 0, c);
  }

  lemma ReplayStep(w: World, u: Uuid, now: int, gated: bool, p: HoldPoint, c: Cell)
    requires c.Parked() && Coherence.Coherent(c)
    ensures Erase(Flush(w, u, Replayed(w, u, now, gated, p, c))) == Erase(Flush(w, u, c))
  {
    if p in c.backlog {
      Coherence.BacklogOfOne(c.backlog, p);
      var c1 := Unparked(c);
      assert c.(backlog := c.backlog - multiset{p}) == c1;
      assert Point(c) == Some(p);
      if gated {
        assert Flush(w, u, Hold(c1, p)) == Flush(w, u, c);
      } else {
        ReplayOpen(p, w, u, now, c1);
      }
    }
  }

  /** Two cells that differ only in clock readings stay so. */
  lemma SameErasure(w: World, u: Uuid, now: int, e: Event, c: Cell, d: Cell)
    requires Plain(e) && Erase(c) == Erase(d)
    ensures Erase(Step(w, u, now, false, e, c)) == Erase(Step(w, u, now, false, e, d))
  {
    StepErases(w, u, now, e, c);
    StepErases(w, u, now, e, d);
  }

  lemma UnparkedResume(w: World, u: Uuid, now: int, gated: bool, restart: int, which: set<nat>, c: Cell, d: Cell)
    requires !c.Parked() && Erase(c) == Erase(d)
    ensures Erase(Flush(w, u, Resumed(w, u, now, gated, restart, which, c))) ==
      if gated then Erase(d) else Erase(Step(w, u, now, false, Expire(which), d))
  {
    var c1 := Unhold(restart, c);
    assert Erase(c1) == Erase(c) by {
      assert NoClocks(c1.pending) == NoClocks(c.pending);
    }
    if gated {
      OpenFlush(w, u, c1);
    } else {
      StepOpen(w, u, now, Expire(which), c1);
      OpenFlush(w, u, Sweep(w, u, now, which, c1));
      SameErasure(w, u, now, Expire(which), c1, d);
    }
  }

  /** One tick on a message that is not parked. */
  lemma UnparkedStep(t: Tick, u: Uuid, c: Cell, d: Cell)
    requires !c.Parked() && Erase(c) == Erase(d)
    ensures var c' := Step(t.world, u, t.now, t.gated, t.event, c);
      Erase(Flush(t.world, u, c')) ==
        if t.event.Replay? || (t.gated && (t.event.Resume? || t.event.Expire?)) then Erase(d)
        else if t.event.Resume? then Erase(Step(t.world, u, t.now, false, Expire(t.event.which), d))
        else Erase(Step(t.world, u, t.now, false, t.event, d))
  {
    var w, now := t.world, t.now;
    if t.event.Replay? || (t.gated && t.event.Expire?) {
      OpenFlush(w, u, c);
    } else if t.event.Resume? {
      UnparkedResume(w, u, now, t.gated, t.event.restart, t.event.which, c, d);
    } else {
      if t.gated {
        GatedStep(w, u, now, t.event, c);
      } else {
        StepOpen(w, u, now, t.event, c);
        OpenFlush(w, u, Step(w, u, now, false, t.event, c));
      }
      SameErasure(w, u, now, t.event, c, d);
    }
  }

  /** The simulation: a gated run, flushed, is the ungated run. */
  lemma {:induction false} GateCommutes(u: Uuid, ticks: seq<Tick>, w: World)
    requires Steady(u, ticks) && Coherence.Unmixed(u, ticks, UNKNOWN)
    requires ticks != [] && Run(u, ticks, UNKNOWN).Parked() ==> w == ticks[|ticks| - 1].world
    ensures Erase(Flush(w, u, Run(u, ticks, UNKNOWN))) == Erase(Run(u, Ungated(u, ticks), UNKNOWN))
  {
    if ticks == [] {
      OpenFlush(w, u, UNKNOWN);
    } else {
      var n := |ticks| - 1;
      var c, d, t := Run(u, ticks[..n], UNKNOWN), Run(u, Ungated(u, ticks[..n]), UNKNOWN), ticks[n];
      var c' := Run(u, ticks, UNKNOWN);
      GateCommutes(u, ticks[..n], t.world);
      Coherence.RunCoherent(u, ticks[..n], UNKNOWN);
      if !c'.Parked() {
        OpenFlush(w, u, c');
        OpenFlush(t.world, u, c');
      }
      if c.Parked() {
        ParkedStep(t, u, c);
      } else {
        OpenFlush(t.world, u, c);
        UnparkedStep(t, u, c, d);
        RunAppend(u, Ungated(u, ticks[..n]), Tick(t.world, t.now, false,
          if t.event.Resume? then Expire(t.event.which) else t.event), UNKNOWN);
      }
    }
  }

  lemma {:induction false} UngatedIsOpen(u: Uuid, ticks: seq<Tick>)
    ensures forall i :: 0 <= i < |Ungated(u, ticks)| ==>
      !Ungated(u, ticks)[i].gated && !Ungated(u, ticks)[i].event.Resume? && !Ungated(u, ticks)[i].event.Replay?
  {
    if ticks != [] {
      UngatedIsOpen(u, ticks[..|ticks| - 1]);
    }
  }

  /**
    Pausing is transparent: for any schedule of pauses, blocks, resumes and
    replays, once the message is neither held nor owed a replay, the frames sent
    are those of the run that never paused, in the same order, and the row, the
    state and the pending acks agree with it up to clock readings.
   */
  lemma PauseIsTransparent(u: Uuid, ticks: seq<Tick>)
    requires Steady(u, ticks) && Coherence.Unmixed(u, ticks, UNKNOWN)
    requires !Run(u, ticks, UNKNOWN).Parked()
    ensures var c, d := Run(u, ticks, UNKNOWN), Run(u, Ungated(u, ticks), UNKNOWN);
      c.log == d.log && Erase(c) == Erase(d)
    ensures forall i :: 0 <= i < |Ungated(u, ticks)| ==>
      !Ungated(u, ticks)[i].gated && !Ungated(u, ticks)[i].event.Resume? && !Ungated(u, ticks)[i].event.Replay?
  {
    UngatedIsOpen(u, ticks);
    if ticks == [] {
      return;
    }
    var w := ticks[|ticks| - 1].world;
    GateCommutes(u, ticks, w);
    OpenFlush(w, u, Run(u, ticks, UNKNOWN));
    assert Erase(Run(u, ticks, UNKNOWN)).log == Run(u, ticks, UNKNOWN).log;
  }
}
