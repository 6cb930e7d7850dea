/**
  The in-process chain is exact. With configuration, routing, permits and
  connectivity fixed, a message goes through the configured in-process modules
  that can take it, in order, once each, and reaches the displays only after the
  last of them, whatever acks, timeouts, pauses and replays happen on the way.
 */
module Chain {
  import opened Basics
  import opened Rows
  import opened Messages
  import opened Sweeps
  import opened Coherence
  import Delivery

  /** The in-process modules the message was dispatched to, in order, resends aside. */
  function FirstIn(log: seq<Dispatch>): seq<Module> {
    if log == [] then []
    else
      var d := log[|log| - 1];
      FirstIn(log[..|log| - 1]) + if d.stage.InProcess? && d.attempt == 0 then [d.moduleName] else []
  }

  /** The modules of `ms` that take the message: recipient, permitted and connected. */
  function Takers(w: World, u: Uuid, cmd: Option<Key>, ms: seq<Module>): seq<Module> {
    if ms == [] then []
    else
      var m := ms[|ms| - 1];
      Takers(w, u, cmd, ms[..|ms| - 1]) + if InProcessTurn(w, u, cmd, m) then [m] else []
  }

  predicate DisplaySeen(log: seq<Dispatch>) {
    exists i :: 0 <= i < |log| && log[i].stage.PostProcess?
  }

  /** The message has been through exactly the takers among the first `k` modules. */
  ghost predicate Through(w: World, u: Uuid, cmd: Option<Key>, k: int, log: seq<Dispatch>) {
    0 <= k <= |w.config.inProcess| && FirstIn(log) == Takers(w, u, cmd, w.config.inProcess[..k])
  }

  ghost predicate OnChain(w: World, u: Uuid, cmd: Option<Key>, c: Cell) {
    var n := |w.config.inProcess|;
    && (c.row.None? ==> c.log == [])
    && (c.Audited() ==> c.everHeld)
    && (DisplaySeen(c.log) ==> Through(w, u, cmd, n, c.log))
    && (c.mem.None? ==>
          && (c.row.Some? && c.row.value.status.Complete? && !c.everHeld ==> Through(w, u, cmd, n, c.log))
          && exists k :: Through(w, u, cmd, k, c.log))
    && (c.mem.Some? ==>
          var s := c.mem.value;
          && s.parsed == cmd
          && (s.stage.PreProcess? ==> s.index == 0 && Through(w, u, cmd, 0, c.log))
          && (s.stage.InProcess? ==> Through(w, u, cmd, s.index + |c.pending|, c.log))
          && (s.stage.PostProcess? ==> Through(w, u, cmd, n, c.log))
          && (c.held == Some(AtPostProcess) || AtPostProcess in c.backlog ==> s.index == n)
          && (!s.stage.PostProcess? ==> !DisplaySeen(c.log)))
  }

  lemma FirstInSnoc(log: seq<Dispatch>, d: Dispatch)
    ensures FirstIn(log + [d]) == FirstIn(log) + if d.stage.InProcess? && d.attempt == 0 then [d.moduleName] else []
    ensures DisplaySeen(log + [d]) <==> DisplaySeen(log) || d.stage.PostProcess?
  {
    var all := log + [d];
    assert all[..|log|] == log && all[|log|] == d;
    if i :| 0 <= i < |log| && log[i].stage.PostProcess? {
      assert all[i].stage.PostProcess?;
    }
  }

  lemma TakersNext(w: World, u: Uuid, cmd: Option<Key>, ms: seq<Module>, k: nat)
    requires k < |ms|
    ensures Takers(w, u, cmd, ms[..k + 1])
         == Takers(w, u, cmd, ms[..k]) + if InProcessTurn(w, u, cmd, ms[k]) then [ms[k]] else []
  {
    assert ms[..k + 1][..k] == ms[..k];
  }

  lemma {:induction false} FanOutFirstIn(w: World, u: Uuid, stage: Stage, now: int, ms: seq<Module>, c: Cell)
    requires !stage.InProcess?
    ensures var c' := FanOut(w, u, stage, now, ms, c);
      && FirstIn(c'.log) == FirstIn(c.log)
      && (stage.PreProcess? ==> (DisplaySeen(c'.log) <==> DisplaySeen(c.log)))
  {
    if ms != [] {
      var n := |ms| - 1;
      FanOutFirstIn(w, u, stage, now, ms[..n], c);
      FirstInSnoc(FanOut(w, u, stage, now, ms[..n], c).log, Dispatch(stage, ms[n], 0));
    }
  }

  lemma StartPostOnChain(w: World, u: Uuid, cmd: Option<Key>, now: int, gated: bool, c: Cell)
    requires OnChain(w, u, cmd, c) && Idle(c)
    requires c.mem.value.stage.InProcess? && c.mem.value.index == |w.config.inProcess|
    ensures OnChain(w, u, cmd, StartPost(w, u, now, gated, c))
  {
    if !gated && !c.Audited() {
      var c1 := c.(mem := Some(c.mem.value.(stage := PostProcess)));
      var ms := PostRecipients(w, c.mem.value.parsed, w.config.post);
      FanOutFirstIn(w, u, PostProcess, now, ms, c1);
      Delivery.FanOutShape(w, u, PostProcess, now, ms, c1);
    }
  }

  /** The module at the index takes the message: one step further on the chain. */
  lemma TakenOnChain(w: World, u: Uuid, cmd: Option<Key>, now: int, c: Cell)
    requires OnChain(w, u, cmd, c) && Idle(c)
    requires !c.mem.value.stage.PostProcess? && c.mem.value.index < |w.config.inProcess|
    requires InProcessTurn(w, u, cmd, w.config.inProcess[c.mem.value.index])
    ensures OnChain(w, u, cmd, Track(w, u, InProcess, now, w.config.inProcess[c.mem.value.index],
                                     c.(mem := Some(c.mem.value.(stage := InProcess)))))
  {
    var m := w.config.inProcess[c.mem.value.index];
    TakersNext(w, u, cmd, w.config.inProcess, c.mem.value.index);
    FirstInSnoc(c.log, Dispatch(InProcess, m, 0));
  }

  lemma {:induction false} StartInOnChain(w: World, u: Uuid, cmd: Option<Key>, now: int, gated: bool, c: Cell)
    requires OnChain(w, u, cmd, c) && Idle(c)
    requires !c.mem.value.stage.PostProcess? && c.mem.value.index <= |w.config.inProcess|
    ensures OnChain(w, u, cmd, StartIn(w, u, now, gated, c))
    decreases |w.config.inProcess| - c.mem.value.index, 0
  {
    if !gated && !c.Audited() {
      var c1 := c.(mem := Some(c.mem.value.(stage := InProcess)));
      var ms, i := w.config.inProcess, c.mem.value.index;
      EnteredOnChain(w, u, cmd, c);
      if i >= |ms| {
        StartPostOnChain(w, u, cmd, now, gated, c1);
      } else if InProcessTurn(w, u, cmd, ms[i]) {
        TakenOnChain(w, u, cmd, now, c);
      } else {
        SkippedOnChain(w, u, cmd, c1);
        MovedOn(w, u, cmd, now, gated, c1);
      }
    }
  }

  lemma EnteredOnChain(w: World, u: Uuid, cmd: Option<Key>, c: Cell)
    requires OnChain(w, u, cmd, c) && Idle(c) && !c.mem.value.stage.PostProcess?
    ensures OnChain(w, u, cmd, c.(mem := Some(c.mem.value.(stage := InProcess))))
  {
  }

  /** The module at the index cannot take the message: the chain so far is the same. */
  lemma SkippedOnChain(w: World, u: Uuid, cmd: Option<Key>, c: Cell)
    requires OnChain(w, u, cmd, c) && Idle(c) && c.mem.value.stage.InProcess?
    requires c.mem.value.index < |w.config.inProcess|
    requires !InProcessTurn(w, u, cmd, w.config.inProcess[c.mem.value.index])
    ensures OnChain(w, u, cmd, c.(mem := Some(c.mem.value.(index := c.mem.value.index + 1))))
  {
    TakersNext(w, u, cmd, w.config.inProcess, c.mem.value.index);
  }

  /** `NextIn` from a state that has been through the module at its index. */
  lemma {:induction false} MovedOn(w: World, u: Uuid, cmd: Option<Key>, now: int, gated: bool, c: Cell)
    requires Idle(c) && c.mem.value.stage.InProcess? && c.mem.value.index < |w.config.inProcess|
    requires OnChain(w, u, cmd, c.(mem := Some(c.mem.value.(index := c.mem.value.index + 1))))
    ensures OnChain(w, u, cmd, NextIn(w, u, now, gated, c))
    decreases |w.config.inProcess| - c.mem.value.index - 1, 1
  {
    var c1 := c.(mem := Some(c.mem.value.(index := c.mem.value.index + 1)));
    if c1.mem.value.index >= |w.config.inProcess| {
      StartPostOnChain(w, u, cmd, now, gated, c1);
    } else {
      StartInOnChain(w, u, cmd, now, gated, c1);
    }
  }

  lemma BroadcastPreOnChain(w: World, u: Uuid, cmd: Option<Key>, now: int, gated: bool, c: Cell)
    requires OnChain(w, u, cmd, c) && Idle(c) && c.mem.value.stage.PreProcess?
    ensures OnChain(w, u, cmd, BroadcastPre(w, u, now, gated, c))
  {
    if !gated {
      var ms := Recipients(w, c.mem.value.parsed, w.config.pre);
      FanOutFirstIn(w, u, PreProcess, now, ms, c);
      Delivery.FanOutShape(w, u, PreProcess, now, ms, c);
      if !AnyReached(w, u, PreProcess, ms) {
        StartInOnChain(w, u, cmd, now, gated, c);
      }
    }
  }

  /** The stage's last ack leaves the message, `done`, ready to advance. */
  lemma AdvanceOnChain(w: World, u: Uuid, cmd: Option<Key>, now: int, gated: bool, c: Cell, done: Cell)
    requires OnChain(w, u, cmd, c) && Coherent(c) && c.mem.Some? && c.pending != []
    requires done == c.(pending := [])
    ensures OnChain(w, u, cmd, Advance(c.mem.value.stage, w, u, now, gated, done))
  {
    match c.mem.value.stage
    case PreProcess => StartInOnChain(w, u, cmd, now, gated, StampPre(now, done));
    case InProcess => MovedOn(w, u, cmd, now, gated, StampIn(now, done));
    case PostProcess =>
  }

  lemma EndedOnChain(w: World, u: Uuid, cmd: Option<Key>, outcome: Outcome, now: int, c: Cell)
    requires OnChain(w, u, cmd, c) && (outcome.EndFailed? || outcome.EndDropped?)
    ensures OnChain(w, u, cmd, MarkEnded(outcome, now, c))
  {
  }

  lemma {:induction false} ResendAllFirstIn(w: World, u: Uuid, now: int, es: seq<Ack>, c: Cell)
    ensures var c' := ResendAll(w, u, now, es, c);
      && FirstIn(c'.log) == FirstIn(c.log)
      && ((forall i :: 0 <= i < |es| ==> !es[i].stage.PostProcess?) ==> (DisplaySeen(c'.log) <==> DisplaySeen(c.log)))
  {
    if es != [] {
      var n := |es| - 1;
      ResendAllFirstIn(w, u, now, es[..n], c);
      FirstInSnoc(ResendAll(w, u, now, es[..n], c).log, Dispatch(es[n].stage, es[n].moduleName, es[n].resends + 1));
    }
  }

  // ── The sweep ──────────────────────────────────────────────────────────

  lemma SomeDepth(w: World, u: Uuid, cmd: Option<Key>, c: Cell)
    requires OnChain(w, u, cmd, c)
    ensures exists k :: Through(w, u, cmd, k, c.log)
  {
    if c.mem.Some? && c.mem.value.stage.InProcess? {
      assert Through(w, u, cmd, c.mem.value.index + |c.pending|, c.log);
    }
  }

  /**
    A held message whose in-process ack is gone, with its index not moved on: it
    keeps its state, and nothing moves it any more (`Stalls.IdleStays`).
   */
  ghost predicate Shelved(w: World, u: Uuid, cmd: Option<Key>, c: Cell) {
    && c.everHeld && c.mem.Some? && c.row.Some? && c.pending == [] && !c.Parked()
    && (exists k :: Through(w, u, cmd, k, c.log))
    && (DisplaySeen(c.log) ==> Through(w, u, cmd, |w.config.inProcess|, c.log))
  }

  ghost predicate ChainKept(w: World, u: Uuid, cmd: Option<Key>, c: Cell) {
    OnChain(w, u, cmd, c) || Shelved(w, u, cmd, c)
  }

  /** Resends never put a message anywhere new on the chain. */
  lemma ResendsOnChain(w: World, u: Uuid, cmd: Option<Key>, now: int, es: seq<Ack>, c0: Cell, c: Cell)
    requires OnChain(w, u, cmd, c) && c.mem.Some? && c.row.Some? && c0 == c.(pending := c0.pending)
    requires AllAt(es, c.mem.value.stage)
    requires c.mem.value.stage.InProcess? ==> |ResendAll(w, u, now, es, c0).pending| == |c.pending|
    ensures OnChain(w, u, cmd, ResendAll(w, u, now, es, c0))
  {
    ResendAllShape(w, u, now, es, c0);
    ResendAllFirstIn(w, u, now, es, c0);
    SameOnChain(w, u, cmd, c, ResendAll(w, u, now, es, c0));
  }

  /** The place on the chain is told by the first in-process dispatches, whether a display has been sent it, and how many acks are pending. */
  lemma SameOnChain(w: World, u: Uuid, cmd: Option<Key>, c: Cell, c': Cell)
    requires OnChain(w, u, cmd, c) && c.mem.Some? && c.row.Some?
    requires c' == c.(pending := c'.pending, log := c'.log) && FirstIn(c'.log) == FirstIn(c.log)
    requires DisplaySeen(c'.log) ==> DisplaySeen(c.log) || c.mem.value.stage.PostProcess?
    requires c.mem.value.stage.InProcess? ==> |c'.pending| == |c.pending|
    ensures OnChain(w, u, cmd, c')
  {
  }

  lemma FailedOnChain(w: World, u: Uuid, cmd: Option<Key>, now: int, reason: string, es: seq<Ack>, c0: Cell, c: Cell)
    requires OnChain(w, u, cmd, c) && c.mem.Some? && c.row.Some? && c0 == c.(pending := c0.pending)
    requires AllAt(es, c.mem.value.stage) && !c.Parked()
    requires c.mem.value.stage.InProcess? ==> |ResendAll(w, u, now, es, c0).pending| <= |c.pending| <= 1
    ensures ChainKept(w, u, cmd, MarkFailed(reason, now, ResendAll(w, u, now, es, c0)))
  {
    ResendAllShape(w, u, now, es, c0);
    ResendAllFirstIn(w, u, now, es, c0);
    SomeDepth(w, u, cmd, c);
    var r := ResendAll(w, u, now, es, c0);
    var k :| Through(w, u, cmd, k, c.log);
    assert Through(w, u, cmd, k, r.log);
    assert c.mem.value.stage.InProcess? ==> !DisplaySeen(r.log);
    if c.Audited() && c.mem.value.stage.InProcess? && |r.pending| < |c.pending| {
      assert r.pending == [];
      assert Shelved(w, u, cmd, MarkFailed(reason, now, r));
    } else if c.Audited() {
      ResendsOnChain(w, u, cmd, now, es, c0, c);
      EndedOnChain(w, u, cmd, EndFailed(reason), now, r);
    } else {
      assert OnChain(w, u, cmd, MarkFailed(reason, now, r));
    }
  }

  lemma SweepOnChain(w: World, u: Uuid, cmd: Option<Key>, now: int, which: set<nat>, c: Cell)
    requires OnChain(w, u, cmd, c) && Coherent(c) && c.pending != [] && !Mixed(w, u, which, c)
    ensures ChainKept(w, u, cmd, Sweep(w, u, now, which, c))
  {
    SplitStages(c.pending, which, c.mem.value.stage);
    SweepClosedForm(w, u, now, which, c);
    ResultOnChain(w, u, cmd, now, Kept(c.pending, which), Expired(c.pending, which), c);
  }

  lemma ResultOnChain(w: World, u: Uuid, cmd: Option<Key>, now: int, kept: seq<Ack>, expired: seq<Ack>, c: Cell)
    requires OnChain(w, u, cmd, c) && Coherent(c) && c.pending != []
    requires AllAt(kept, c.mem.value.stage) && AllAt(expired, c.mem.value.stage) && |kept| + |expired| == |c.pending|
    requires !(Advancing(w, u, kept, expired) && MovesPast(w, u, expired, c))
    ensures ChainKept(w, u, cmd, SweepResult(w, u, now, kept, expired, c))
  {
    var stage, c0, k := c.mem.value.stage, c.(pending := kept), FirstFatal(w, u, expired);
    if k < |expired| {
      var es := if c.Audited() then expired else expired[..k];
      ResendAllLength(w, u, now, es, c0);
      FailedOnChain(w, u, cmd, now, TimeoutReason(expired[k]), es, c0, c);
    } else if Advancing(w, u, kept, expired) {
      MovingOnChain(w, u, cmd, now, expired, c, c0);
    } else {
      if stage.InProcess? { OneInProcess(w, u, now, kept, expired, c0); }
      ResendsOnChain(w, u, cmd, now, expired, c0, c);
    }
  }

  /** An in-process ack that neither fails nor advances is either kept or resent. */
  lemma OneInProcess(w: World, u: Uuid, now: int, kept: seq<Ack>, expired: seq<Ack>, c0: Cell)
    requires |kept| + |expired| == 1 && c0.pending == kept
    requires FirstFatal(w, u, expired) == |expired| && !Advancing(w, u, kept, expired)
    ensures |ResendAll(w, u, now, expired, c0).pending| == 1
  {
    if expired != [] {
      var e := expired[0];
      assert expired == [e] && [e][..0] == [];
      assert !Fatal(w, u, e);
      assert ResendAll(w, u, now, [], c0) == c0;
      if HasCritical(w, expired) {
        assert e.moduleName in w.config.critical;
      }
    }
  }

  lemma MovingOnChain(w: World, u: Uuid, cmd: Option<Key>, now: int, expired: seq<Ack>, c: Cell, c0: Cell)
    requires OnChain(w, u, cmd, c) && Coherent(c) && c.pending != [] && c0 == c.(pending := [])
    requires AllAt(expired, c.mem.value.stage) && expired != [] && !MovesPast(w, u, expired, c0)
    requires c.mem.value.stage.InProcess? ==> |expired| == 1
    ensures OnChain(w, u, cmd, Moving(w, u, now, expired, c0))
  {
    var stage, rest := c.mem.value.stage, expired[1..];
    var moved := Advance(stage, w, u, now, false, c0);
    AdvanceOnChain(w, u, cmd, now, false, c, c0);
    TailAt(expired, stage);
    if stage.InProcess? {
      assert rest == [];
    } else if c.Audited() {
      HeldStays(stage, w, u, now, c0);
      ResendsOnChain(w, u, cmd, now, rest, moved, moved);
    } else if stage.PreProcess? {
      StartInOutcome(w, u, now, StampPre(now, c0));
      if moved.mem.Some? {
        NoResends(w, u, expired);
        ResendAllShape(w, u, now, rest, moved);
      }
    }
  }

  lemma NoResends(w: World, u: Uuid, es: seq<Ack>)
    requires es != [] && !exists i :: 0 <= i < |es| && Resendable(w, u, es[i])
    ensures forall i :: 0 <= i < |es| - 1 ==> !Resendable(w, u, es[1..][i])
  {
    assert forall i :: 0 <= i < |es| - 1 ==> es[1..][i] == es[i + 1];
  }

  // ── Steps and runs ─────────────────────────────────────────────────────

  lemma RecordOnChain(w: World, u: Uuid, cmd: Option<Key>, stage: Stage, text: string, mime: string, bytes: Blob, c: Cell)
    requires OnChain(w, u, cmd, c) && Coherent(c)
    ensures var c1 := RecordReply(stage, text, mime, bytes, c);
      OnChain(w, u, cmd, c1) && Coherent(c1) && c1.pending == c.pending
  {
  }

  lemma AckOnChain(w: World, u: Uuid, cmd: Option<Key>, now: int, gated: bool, m: Module, c: Cell)
    requires OnChain(w, u, cmd, c) && Coherent(c) && c.mem.Some? && Owns(c.pending, m, c.mem.value.stage)
    ensures OnChain(w, u, cmd, HandleAck(w, u, now, gated, m, c))
  {
    var stage := c.mem.value.stage;
    WithoutShape(c.pending, m, stage);
    if stage.InProcess? || Without(c.pending, m) == [] {
      AdvanceOnChain(w, u, cmd, now, gated, c, c.(pending := []));
    } else {
      FewerOnChain(w, u, cmd, Without(c.pending, m), c);
    }
  }

  /** Outside the in-process stage the place on the chain does not depend on the acks. */
  lemma FewerOnChain(w: World, u: Uuid, cmd: Option<Key>, es: seq<Ack>, c: Cell)
    requires OnChain(w, u, cmd, c) && c.mem.Some? && !c.mem.value.stage.InProcess?
    ensures OnChain(w, u, cmd, c.(pending := es))
  {
  }

  lemma ReplyOnChain(w: World, u: Uuid, cmd: Option<Key>, now: int, gated: bool, e: Event, c: Cell)
    requires OnChain(w, u, cmd, c) && Coherent(c) && e.Reply?
    ensures OnChain(w, u, cmd, Replied(w, u, now, gated, e, c))
  {
    var Reply(stage, m, text, mime, bytes, abandon) := e;
    if Owns(c.pending, m, stage) {
      var c1 := RecordReply(stage, text, mime, bytes, c);
      RecordOnChain(w, u, cmd, stage, text, mime, bytes, c);
      if stage.InProcess? && abandon {
        EndedOnChain(w, u, cmd, EndDropped(AbandonReason(m)), now, c1);
      } else {
        assert stage == c1.mem.value.stage;
        AckOnChain(w, u, cmd, now, gated, m, c1);
      }
    }
  }

  lemma ReplayOnChain(w: World, u: Uuid, cmd: Option<Key>, now: int, gated: bool, p: HoldPoint, c: Cell)
    requires OnChain(w, u, cmd, c) && Coherent(c)
    ensures OnChain(w, u, cmd, Replayed(w, u, now, gated, p, c))
  {
    if p in c.backlog {
      BacklogOfOne(c.backlog, p);
      var c1 := c.(backlog := c.backlog - multiset{p});
      assert PointFits(p, c.mem.value.stage);
      match p
      case Entry => BroadcastPreOnChain(w, u, cmd, now, gated, c1);
      case AtInProcess => StartInOnChain(w, u, cmd, now, gated, c1);
      case AtPostProcess => StartPostOnChain(w, u, cmd, now, gated, c1);
    }
  }

  lemma UnholdOnChain(w: World, u: Uuid, cmd: Option<Key>, now: int, c: Cell)
    requires OnChain(w, u, cmd, c)
    ensures OnChain(w, u, cmd, Unhold(now, c))
  {
  }

  /** Nothing moves a shelved message. */
  lemma ShelvedStays(t: Tick, u: Uuid, cmd: Option<Key>, c: Cell)
    requires Shelved(t.world, u, cmd, c) && !t.event.Crash?
    ensures Shelved(t.world, u, cmd, Step(t.world, u, t.now, t.gated, t.event, c))
  {
  }

  lemma OpenSweepOnChain(w: World, u: Uuid, cmd: Option<Key>, now: int, which: set<nat>, c: Cell)
    requires OnChain(w, u, cmd, c) && Coherent(c) && !Mixed(w, u, which, c)
    ensures ChainKept(w, u, cmd, Sweep(w, u, now, which, c))
  {
    if c.pending == [] {
      NothingToSweep(w, u, now, which, c);
    } else {
      SweepOnChain(w, u, cmd, now, which, c);
    }
  }

  lemma ResumeOnChain(w: World, u: Uuid, cmd: Option<Key>, now: int, gated: bool, restart: int, which: set<nat>, c: Cell)
    requires OnChain(w, u, cmd, c) && Coherent(c) && (gated || !Mixed(w, u, which, Unhold(restart, c)))
    ensures ChainKept(w, u, cmd, Resumed(w, u, now, gated, restart, which, c))
  {
    UnholdOnChain(w, u, cmd, restart, c);
    UnholdCoherent(restart, c);
    if !gated {
      OpenSweepOnChain(w, u, cmd, now, which, Unhold(restart, c));
    }
  }

  lemma HoldOnChain(w: World, u: Uuid, cmd: Option<Key>, reason: string, now: int, c: Cell)
    requires OnChain(w, u, cmd, c)
    ensures OnChain(w, u, cmd, TakenHold(reason, now, c))
  {
  }

  lemma ReleaseOnChain(w: World, u: Uuid, cmd: Option<Key>, approve: bool, now: int, c: Cell)
    requires OnChain(w, u, cmd, c)
    ensures OnChain(w, u, cmd, Released(approve, now, c))
  {
  }

  lemma ReceiptOnChain(w: World, u: Uuid, cmd: Option<Key>, m: Module, c: Cell)
    requires OnChain(w, u, cmd, c)
    ensures OnChain(w, u, cmd, c.(pending := MarkReceipt(c.pending, m)))
  {
    ReceiptShape(c.pending, m);
    if c.mem.Some? && c.row.Some? {
      SameOnChain(w, u, cmd, c, c.(pending := MarkReceipt(c.pending, m)));
    }
  }

  lemma ExpireOnChain(w: World, u: Uuid, cmd: Option<Key>, now: int, gated: bool, which: set<nat>, c: Cell)
    requires OnChain(w, u, cmd, c) && Coherent(c) && (gated || !Mixed(w, u, which, c))
    ensures ChainKept(w, u, cmd, Lapsed(w, u, now, gated, which, c))
  {
    if !gated {
      OpenSweepOnChain(w, u, cmd, now, which, c);
    }
  }

  lemma StepOnChain(t: Tick, u: Uuid, cmd: Option<Key>, c: Cell)
    requires OnChain(t.world, u, cmd, c) && Coherent(c) && !Stranded(c)
    requires !t.event.Crash? && !MixedTick(t, u, c)
    requires t.event.Ingest? ==> t.event.msg.parsed == cmd
    ensures ChainKept(t.world, u, cmd, Step(t.world, u, t.now, t.gated, t.event, c))
  {
    match t.event
    case Ingest(msg) => IngestOnChain(t.world, u, cmd, t.now, t.gated, msg, c);
    case Reply(_, _, _, _, _, _) => ReplyOnChain(t.world, u, cmd, t.now, t.gated, t.event, c);
    case Expire(which) => ExpireOnChain(t.world, u, cmd, t.now, t.gated, which, c);
    case Resume(restart, which) => ResumeOnChain(t.world, u, cmd, t.now, t.gated, restart, which, c);
    case Replay(p) => ReplayOnChain(t.world, u, cmd, t.now, t.gated, p, c);
    case _ => QuietOnChain(t, u, cmd, c);
  }

  lemma QuietOnChain(t: Tick, u: Uuid, cmd: Option<Key>, c: Cell)
    requires OnChain(t.world, u, cmd, c) && !Stranded(c)
    requires t.event.Recover? || t.event.Receipt? || t.event.TakeAudit? || t.event.ReleaseAudit?
    ensures OnChain(t.world, u, cmd, Step(t.world, u, t.now, t.gated, t.event, c))
  {
    match t.event
    case Recover =>
    case Receipt(m) => ReceiptOnChain(t.world, u, cmd, m, c);
    case TakeAudit(reason) => HoldOnChain(t.world, u, cmd, reason, t.now, c);
    case ReleaseAudit(approve) => ReleaseOnChain(t.world, u, cmd, approve, t.now, c);
  }

  lemma IngestOnChain(w: World, u: Uuid, cmd: Option<Key>, now: int, gated: bool, msg: Incoming, c: Cell)
    requires OnChain(w, u, cmd, c) && Coherent(c) && msg.parsed == cmd
    ensures OnChain(w, u, cmd, Entered(w, u, now, gated, msg, c))
  {
    if c.row.None? {
      assert w.config.inProcess[..0] == [];
      BroadcastPreOnChain(w, u, cmd, now, gated, Ingested(msg, c));
    }
  }

  /** The surroundings of a run in which the chain is exact. */
  ghost predicate Fixed(w: World, cmd: Option<Key>, ticks: seq<Tick>) {
    forall i :: 0 <= i < |ticks| ==>
      && ticks[i].world == w && !ticks[i].event.Crash?
      && (ticks[i].event.Ingest? ==> ticks[i].event.msg.parsed == cmd)
  }

  lemma {:induction false} RunOnChain(w: World, u: Uuid, cmd: Option<Key>, ticks: seq<Tick>)
    requires Fixed(w, cmd, ticks) && Unmixed(u, ticks, UNKNOWN)
    ensures ChainKept(w, u, cmd, Run(u, ticks, UNKNOWN))
  {
    if ticks == [] {
      assert w.config.inProcess[..0] == [];
      assert Through(w, u, cmd, 0, []);
    } else {
      var n := |ticks| - 1;
      assert forall i :: 0 <= i < n ==> ticks[..n][i] == ticks[i];
      RunOnChain(w, u, cmd, ticks[..n]);
      RunCoherent(u, ticks[..n], UNKNOWN);
      Delivery.QueuedMeansClaimed(u, ticks[..n]);
      var c := Run(u, ticks[..n], UNKNOWN);
      if OnChain(w, u, cmd, c) {
        StepOnChain(ticks[n], u, cmd, c);
      } else {
        ShelvedStays(ticks[n], u, cmd, c);
      }
    }
  }

  /**
    The chain is exact over whole runs: the in-process dispatches are always the
    takers of a first part of the configured list, in order and once each; they
    are all of them once a display has seen the message or it has completed; and
    at most one in-process ack is ever pending.
   */
  lemma ChainIsExact(w: World, u: Uuid, cmd: Option<Key>, ticks: seq<Tick>)
    requires Fixed(w, cmd, ticks) && Unmixed(u, ticks, UNKNOWN)
    ensures var c, all := Run(u, ticks, UNKNOWN), w.config.inProcess;
      && (exists k :: 0 <= k <= |all| && FirstIn(c.log) == Takers(w, u, cmd, all[..k]))
      && (DisplaySeen(c.log) ==> FirstIn(c.log) == Takers(w, u, cmd, all))
      && (c.row.Some? && c.row.value.status.Complete? && !c.everHeld ==> FirstIn(c.log) == Takers(w, u, cmd, all))
      && (c.pending != [] && c.pending[0].stage.InProcess? ==> |c.pending| == 1)
  {
    RunOnChain(w, u, cmd, ticks);
    RunCoherent(u, ticks, UNKNOWN);
    Delivery.NeverLost(u, ticks);
    var c, all := Run(u, ticks, UNKNOWN), w.config.inProcess;
    assert all[..|all|] == all;
    if OnChain(w, u, cmd, c) {
      SomeDepth(w, u, cmd, c);
    }
    var k :| Through(w, u, cmd, k, c.log);
    assert FirstIn(c.log) == Takers(w, u, cmd, all[..k]);
  }
}
