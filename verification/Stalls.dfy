/**
  A message that finishes a stage under a hold is left with a state that nothing
  will ever move: the stage starts turn away a held message, and no ack, hold or
  replay is left to try again after the release. This module says exactly which
  steps leave a message so, and that it stays so until the engine restarts.
 */
module Stalls {
  import opened Basics
  import opened Rows
  import opened Messages
  import opened Sweeps
  import opened Coherence
  import AuditHold
  import Delivery
  import MixedSweep

  // ── A stalled message never moves ──────────────────────────────────────

  /** Nothing but the row of an idle message changes, releases included. */
  lemma IdleStays(t: Tick, u: Uuid, c: Cell)
    requires Idle(c) && !t.event.Crash?
    ensures var c' := Step(t.world, u, t.now, t.gated, t.event, c);
      Idle(c') && c' == c.(row := c'.row, everHeld := c'.everHeld)
  {
    assert RestartClocks([], 0) == [];
    match t.event
    case Expire(which) => NothingToSweep(t.world, u, t.now, which, c);
    case Resume(restart, which) =>
      assert Unhold(restart, c) == c;
      NothingToSweep(t.world, u, t.now, which, c);
    case _ =>
  }

  /** Over any run without a restart, whatever happens to its row. */
  lemma {:induction false} StalledForGood(u: Uuid, ticks: seq<Tick>, c: Cell)
    requires Idle(c) && forall i :: 0 <= i < |ticks| ==> !ticks[i].event.Crash?
    ensures var c' := Run(u, ticks, c);
      Idle(c') && c'.mem == c.mem && c'.log == c.log && c'.pending == []
  {
    if ticks != [] {
      var n := |ticks| - 1;
      StalledForGood(u, ticks[..n], c);
      IdleStays(ticks[n], u, Run(u, ticks[..n], c));
    }
  }

  // ── Without a hold no step leaves a message idle ───────────────────────

  lemma StartPostBusy(w: World, u: Uuid, now: int, gated: bool, c: Cell)
    requires !c.Audited()
    ensures !Idle(StartPost(w, u, now, gated, c))
  {
    if !gated && c.mem.Some? {
      var c1 := c.(mem := Some(c.mem.value.(stage := PostProcess)));
      Delivery.FanOutShape(w, u, PostProcess, now, PostRecipients(w, c.mem.value.parsed, w.config.post), c1);
    }
  }

  lemma {:induction false} StartInBusy(w: World, u: Uuid, now: int, gated: bool, c: Cell)
    requires !c.Audited()
    ensures !Idle(StartIn(w, u, now, gated, c))
    decreases if c.mem.Some? then |w.config.inProcess| - c.mem.value.index else 0, 0
  {
    if !gated && c.mem.Some? {
      var c1 := c.(mem := Some(c.mem.value.(stage := InProcess)));
      var ms, i := w.config.inProcess, c.mem.value.index;
      if i >= |ms| {
        StartPostBusy(w, u, now, gated, c1);
      } else if !InProcessTurn(w, u, c.mem.value.parsed, ms[i]) {
        NextInBusy(w, u, now, gated, c1);
      }
    }
  }

  lemma {:induction false} NextInBusy(w: World, u: Uuid, now: int, gated: bool, c: Cell)
    requires !c.Audited()
    ensures !Idle(NextIn(w, u, now, gated, c))
    decreases if c.mem.Some? && c.mem.value.index < |w.config.inProcess|
      then |w.config.inProcess| - c.mem.value.index - 1 else 0, 1
  {
    if c.mem.Some? {
      var c1 := c.(mem := Some(c.mem.value.(index := c.mem.value.index + 1)));
      if c1.mem.value.index >= |w.config.inProcess| {
        StartPostBusy(w, u, now, gated, c1);
      } else {
        StartInBusy(w, u, now, gated, c1);
      }
    }
  }

  lemma BroadcastPreBusy(w: World, u: Uuid, now: int, gated: bool, c: Cell)
    requires !c.Audited()
    ensures !Idle(BroadcastPre(w, u, now, gated, c))
  {
    if !gated && c.mem.Some? {
      var ms := Recipients(w, c.mem.value.parsed, w.config.pre);
      Delivery.FanOutShape(w, u, PreProcess, now, ms, c);
      StartInBusy(w, u, now, gated, FanOut(w, u, PreProcess, now, ms, c));
    }
  }

  lemma AdvanceBusy(stage: Stage, w: World, u: Uuid, now: int, gated: bool, c: Cell)
    requires !c.Audited()
    ensures !Idle(Advance(stage, w, u, now, gated, c))
  {
    match stage
    case PreProcess => StartInBusy(w, u, now, gated, StampPre(now, c));
    case InProcess => NextInBusy(w, u, now, gated, StampIn(now, c));
    case PostProcess =>
  }

  // ── Exactly the steps that stall a message ─────────────────────────────

  /** A held message is stopped at the next stage start, unless the gate parks it there first. */
  lemma HeldAdvance(stage: Stage, w: World, u: Uuid, now: int, gated: bool, c: Cell)
    requires Idle(c) && c.Audited()
    ensures Idle(Advance(stage, w, u, now, gated, c)) <==> stage.PostProcess? || !gated
    ensures Advance(stage, w, u, now, gated, c).log == c.log
  {
    match stage
    case PreProcess => assert StampPre(now, c).Audited();
    case InProcess =>
      var c1 := StampIn(now, c);
      var c2 := c1.(mem := Some(c1.mem.value.(index := c1.mem.value.index + 1)));
      assert c2.Audited();
      assert NextIn(w, u, now, gated, c1).Parked() == gated;
    case PostProcess =>
  }

  /** The reply takes out the last ack of its stage, and the gate does not park what follows. */
  predicate LastAnswer(gated: bool, e: Event, c: Cell)
    requires e.Reply?
  {
    && Owns(c.pending, e.sender, e.stage) && !(e.stage.InProcess? && e.abandon)
    && Without(c.pending, e.sender) == []
    && (e.stage.PostProcess? || !gated)
  }

  lemma ReplyStallsIff(w: World, u: Uuid, now: int, gated: bool, e: Event, c: Cell)
    requires Coherent(c) && !Idle(c) && e.Reply?
    ensures Idle(Replied(w, u, now, gated, e, c)) <==> c.Audited() && LastAnswer(gated, e, c)
  {
    if Owns(c.pending, e.sender, e.stage) {
      var c1 := RecordReply(e.stage, e.text, e.mime, e.bytes, c);
      WithoutShape(c1.pending, e.sender, c.mem.value.stage);
      assert e.stage == c.mem.value.stage;
      if e.stage.InProcess? && e.abandon {
        assert c1.pending != [];
      } else {
        var rest := Without(c1.pending, e.sender);
        if rest == [] {
          if c.Audited() {
            HeldAdvance(e.stage, w, u, now, gated, c1.(pending := []));
          } else {
            AdvanceBusy(e.stage, w, u, now, gated, c1.(pending := []));
          }
        }
      }
    }
  }

  /** The sweep expires everything pending and resends none of it. */
  ghost predicate AllSpent(w: World, u: Uuid, which: set<nat>, es: seq<Ack>) {
    && es != [] && Kept(es, which) == []
    && forall i :: 0 <= i < |Expired(es, which)| ==> !Resendable(w, u, Expired(es, which)[i])
  }

  lemma ResultStallsIff(w: World, u: Uuid, now: int, kept: seq<Ack>, expired: seq<Ack>, c: Cell)
    requires Coherent(c) && c.pending != [] && |kept| + |expired| == |c.pending|
    ensures Idle(SweepResult(w, u, now, kept, expired, c)) <==>
      c.Audited() && kept == [] && forall i :: 0 <= i < |expired| ==> !Resendable(w, u, expired[i])
  {
    var c0, k := c.(pending := kept), FirstFatal(w, u, expired);
    if k < |expired| {
      var resent := if c.Audited() then expired else expired[..k];
      ResendAllShape(w, u, now, resent, c0);
    } else if Advancing(w, u, kept, expired) {
      MovingStallsIff(w, u, now, expired, c0);
    } else {
      ResendAllShape(w, u, now, expired, c0);
      if kept == [] {
        assert HasCritical(w, expired) || Resendable(w, u, expired[0]);
        if HasCritical(w, expired) {
          var i :| 0 <= i < |expired| && expired[i].moduleName in w.config.critical;
          assert !Fatal(w, u, expired[i]);
        }
      }
    }
  }

  lemma MovingStallsIff(w: World, u: Uuid, now: int, expired: seq<Ack>, c: Cell)
    requires Idle(c) && expired != [] && !Resendable(w, u, expired[0])
    ensures Idle(Moving(w, u, now, expired, c)) <==>
      c.Audited() && forall i :: 0 <= i < |expired| ==> !Resendable(w, u, expired[i])
  {
    var stage, rest := expired[0].stage, expired[1..];
    var moved := Advance(stage, w, u, now, false, c);
    assert forall i :: 0 < i < |expired| ==> expired[i] == rest[i - 1];
    ResendAllShape(w, u, now, rest, moved);
    if c.Audited() {
      HeldAdvance(stage, w, u, now, false, c);
    } else {
      AdvanceBusy(stage, w, u, now, false, c);
    }
  }

  lemma SweepStallsIff(w: World, u: Uuid, now: int, which: set<nat>, c: Cell)
    requires Coherent(c) && !Idle(c)
    ensures Idle(Sweep(w, u, now, which, c)) <==> c.Audited() && AllSpent(w, u, which, c.pending)
  {
    if c.pending == [] {
      NothingToSweep(w, u, now, which, c);
    } else {
      SplitStages(c.pending, which, c.mem.value.stage);
      SweepClosedForm(w, u, now, which, c);
      ResultStallsIff(w, u, now, Kept(c.pending, which), Expired(c.pending, which), c);
    }
  }

  /** Restarting the clocks changes neither what is kept nor what can be resent. */
  lemma {:induction false} RestartSpent(w: World, u: Uuid, which: set<nat>, es: seq<Ack>, now: int)
    ensures Kept(RestartClocks(es, now), which) == RestartClocks(Kept(es, which), now)
    ensures Expired(RestartClocks(es, now), which) == RestartClocks(Expired(es, which), now)
  {
    if es != [] {
      var n := |es| - 1;
      RestartSpent(w, u, which, es[..n], now);
      assert RestartClocks(es, now)[..n] == RestartClocks(es[..n], now);
      assert RestartClocks([es[n]], now) == [es[n].(sentAt := now)];
    }
  }

  lemma AllSpentRestarted(w: World, u: Uuid, which: set<nat>, es: seq<Ack>, now: int)
    ensures AllSpent(w, u, which, RestartClocks(es, now)) <==> AllSpent(w, u, which, es)
  {
    RestartSpent(w, u, which, es, now);
    var a, b := Expired(es, which), Expired(RestartClocks(es, now), which);
    assert forall i :: 0 <= i < |a| ==> (Resendable(w, u, b[i]) <==> Resendable(w, u, a[i]));
  }

  lemma ResumeStallsIff(w: World, u: Uuid, now: int, gated: bool, restart: int, which: set<nat>, c: Cell)
    requires Coherent(c) && !Idle(c)
    ensures Idle(Resumed(w, u, now, gated, restart, which, c)) <==>
      c.Audited() && !gated && AllSpent(w, u, which, c.pending)
  {
    var c1 := Unhold(restart, c);
    UnholdCoherent(restart, c);
    AllSpentRestarted(w, u, which, c.pending, restart);
    if !gated {
      SweepStallsIff(w, u, now, which, c1);
    }
  }

  /** A replay owed, the gate open, and, at the entry, nobody to send to. */
  predicate LastReplay(w: World, u: Uuid, gated: bool, p: HoldPoint, c: Cell) {
    && p in c.backlog && !gated && c.mem.Some?
    && (p.Entry? ==> !AnyReached(w, u, PreProcess, Recipients(w, c.mem.value.parsed, w.config.pre)))
  }

  lemma ReplayStallsIff(w: World, u: Uuid, now: int, gated: bool, p: HoldPoint, c: Cell)
    requires Coherent(c) && !Idle(c)
    ensures Idle(Replayed(w, u, now, gated, p, c)) <==> c.Audited() && LastReplay(w, u, gated, p, c)
  {
    if p in c.backlog {
      BacklogOfOne(c.backlog, p);
      var c1 := c.(backlog := c.backlog - multiset{p});
      if c.Audited() {
        HeldReplay(w, u, now, gated, p, c1);
      } else {
        match p
        case Entry => BroadcastPreBusy(w, u, now, gated, c1);
        case AtInProcess => StartInBusy(w, u, now, gated, c1);
        case AtPostProcess => StartPostBusy(w, u, now, gated, c1);
      }
    }
  }

  lemma HeldReplay(w: World, u: Uuid, now: int, gated: bool, p: HoldPoint, c: Cell)
    requires Idle(c) && c.Audited()
    ensures Idle(DispatchFrom(p, w, u, now, gated, c)) <==>
      !gated && (p.Entry? ==> !AnyReached(w, u, PreProcess, Recipients(w, c.mem.value.parsed, w.config.pre)))
  {
    if p.Entry? && !gated {
      Delivery.FanOutShape(w, u, PreProcess, now, Recipients(w, c.mem.value.parsed, w.config.pre), c);
    }
  }

  /** The step that leaves a held message with nothing to wait for. */
  ghost predicate LastMove(t: Tick, u: Uuid, c: Cell) {
    match t.event
    case Reply(_, _, _, _, _, _) => LastAnswer(t.gated, t.event, c)
    case Expire(which) => !t.gated && AllSpent(t.world, u, which, c.pending)
    case Resume(_, which) => !t.gated && AllSpent(t.world, u, which, c.pending)
    case Replay(p) => LastReplay(t.world, u, t.gated, p, c)
    case _ => false
  }

  /**
    A step stalls a message if and only if the row is held and the step ends the
    message's stage, or makes the replay it was owed, with nothing sent again.
   */
  lemma StepStallsIff(t: Tick, u: Uuid, c: Cell)
    requires Coherent(c) && !Idle(c)
    ensures Idle(Step(t.world, u, t.now, t.gated, t.event, c)) <==> c.Audited() && LastMove(t, u, c)
  {
    var w, now, gated := t.world, t.now, t.gated;
    match t.event
    case Ingest(msg) => if c.row.None? { BroadcastPreBusy(w, u, now, gated, Ingested(msg, c)); }
    case Recover => if Stranded(c) { BroadcastPreBusy(w, u, now, gated, Reclaimed(c)); }
    case Reply(_, _, _, _, _, _) => ReplyStallsIff(w, u, now, gated, t.event, c);
    case Receipt(m) => ReceiptShape(c.pending, m);
    case Expire(which) => if !gated { SweepStallsIff(w, u, now, which, c); }
    case Resume(restart, which) => ResumeStallsIff(w, u, now, gated, restart, which, c);
    case Replay(p) => ReplayStallsIff(w, u, now, gated, p, c);
    case TakeAudit(_) =>
    case ReleaseAudit(_) =>
    case Crash =>
  }

  // ── A released message that is stuck ───────────────────────────────────

  /** Any message waiting for one module: flagged, answered, then approved. */
  lemma FlaggedAnsweredReleased(u: Uuid, c: Cell, w: World, reason: string, text: string, now: int)
    requires Coherent(c) && !c.Audited() && |c.pending| == 1
    ensures var e := c.pending[0];
      var c' := Run(u, [Tick(w, now, false, TakeAudit(reason)),
                        Tick(w, now, false, Reply(e.stage, e.moduleName, text, "", [], false)),
                        Tick(w, now, false, ReleaseAudit(true))], c);
      Idle(c') && c'.row.value.status.Complete? && c'.log == c.log
  {
    var e := c.pending[0];
    var flag, answer := Tick(w, now, false, TakeAudit(reason)), Tick(w, now, false, Reply(e.stage, e.moduleName, text, "", [], false));
    var approve := Tick(w, now, false, ReleaseAudit(true));
    var ticks := [flag, answer, approve];
    assert ticks[..2] == [flag, answer] && [flag, answer][..1] == [flag] && [flag][..0] == [];
    var held := TakenHold(reason, now, c);
    assert Run(u, [flag], c) == held && held.Audited();
    assert Owns(held.pending, e.moduleName, e.stage) by { assert held.pending[0] == e; }
    assert c.pending[1..] == [] && Without(c.pending, e.moduleName) == Without([], e.moduleName) == [];
    var answered := Replied(w, u, now, false, answer.event, held);
    assert Run(u, [flag, answer], c) == answered;
    AnsweredHeld(w, u, now, answer.event, held);
    assert Run(u, ticks, c) == Released(true, now, answered);
  }

  lemma AnsweredHeld(w: World, u: Uuid, now: int, e: Event, c: Cell)
    requires Coherent(c) && c.Audited() && !Idle(c) && e.Reply? && LastAnswer(false, e, c)
    ensures var c' := Replied(w, u, now, false, e, c); Idle(c') && c'.Audited() && c'.log == c.log
  {
    ReplyStallsIff(w, u, now, false, e, c);
    AuditHold.ReplyKeeps(w, u, now, false, e, c);
    var c1 := RecordReply(e.stage, e.text, e.mime, e.bytes, c);
    WithoutShape(c1.pending, e.sender, c.mem.value.stage);
    HeldAdvance(e.stage, w, u, now, false, c1.(pending := []));
  }

  lemma LastOfSum<T>(a: seq<T>, b: seq<T>)
    requires b != []
    ensures var n := |b| - 1; b == b[..n] + [b[n]] && a + b == (a + b[..n]) + [b[n]]
  {
  }

  lemma {:induction false} RunSplit(u: Uuid, a: seq<Tick>, b: seq<Tick>, c: Cell)
    ensures Run(u, a + b, c) == Run(u, b, Run(u, a, c))
  {
    if b == [] {
      assert a + b == a;
    } else {
      var n := |b| - 1;
      RunSplit(u, a, b[..n], c);
      LastOfSum(a, b);
      RunAppend(u, a + b[..n], b[n], c);
      RunAppend(u, b[..n], b[n], Run(u, a, c));
    }
  }

  /** Two modules were sent the message and one has answered. */
  lemma OneLeft(u: Uuid, first: Tick, second: Tick)
    requires first == Tick(MixedSweep.Studio(), 0, false, Ingest(Incoming(1, "twitch", "hi", "", None, None, None)))
    requires second == Tick(MixedSweep.Studio(), 1, false, Reply(PreProcess, "a", "hi", "", [], false))
    ensures var c := Run(u, [first, second], UNKNOWN);
      && Coherent(c) && !c.Audited()
      && c.pending == [MixedSweep.AckOf(u, PreProcess, "b", 0, false, 0)]
      && c.log == [Dispatch(PreProcess, "a", 0), Dispatch(PreProcess, "b", 0)]
  {
    MixedSweep.AfterIngest(u);
    var c1 := Run(u, [first], UNKNOWN);
    assert [first][..0] == [] && [first, second][..1] == [first];
    assert MixedSweep.Trace()[0].event == first.event && Run(u, [], UNKNOWN) == UNKNOWN;
    assert c1 == Step(MixedSweep.Studio(), u, 0, false, first.event, UNKNOWN);
    var a, b := c1.pending[0], c1.pending[1];
    assert c1.pending[1..] == [b] && [b][1..] == [];
    assert Without([], "a") == [] && Without([b], "a") == [b] + [] == [b];
    assert Owns(c1.pending, "a", PreProcess) by { assert c1.pending[0] == a; }
    assert Run(u, [first, second], UNKNOWN) == Replied(MixedSweep.Studio(), u, 1, false, second.event, c1);
  }

  /** A whole run that ends so: approved by the operator, and shown to no display. */
  lemma ApprovedButStuck(u: Uuid, first: Tick, second: Tick, flag: Tick, answer: Tick, approve: Tick)
    requires var w := MixedSweep.Studio();
      && first == Tick(w, 0, false, Ingest(Incoming(1, "twitch", "hi", "", None, None, None)))
      && second == Tick(w, 1, false, Reply(PreProcess, "a", "hi", "", [], false))
      && flag == Tick(w, 2, false, TakeAudit("held"))
      && answer == Tick(w, 2, false, Reply(PreProcess, "b", "hi", "", [], false))
      && approve == Tick(w, 2, false, ReleaseAudit(true))
    ensures var c := Run(u, [first, second] + [flag, answer, approve], UNKNOWN);
      && Idle(c) && c.row.value.status.Complete?
      && c.log == [Dispatch(PreProcess, "a", 0), Dispatch(PreProcess, "b", 0)]
  {
    OneLeft(u, first, second);
    FlaggedAnsweredReleased(u, Run(u, [first, second], UNKNOWN), flag.world, "held", "hi", 2);
    RunSplit(u, [first, second], [flag, answer, approve], UNKNOWN);
  }
}
