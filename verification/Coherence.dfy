/**
  Stage coherence: every pending ack carries the message's current stage, a
  parked message has no pending ack and is parked at one point only, and at most
  one in-process ack is ever pending. One kind of sweep breaks it, and this
  module says exactly which.
 */
module Coherence {
  import opened Basics
  import opened Rows
  import opened Messages
  import opened Sweeps
  import Delivery

  ghost predicate AllAt(es: seq<Ack>, stage: Stage) {
    forall i :: 0 <= i < |es| ==> es[i].stage == stage
  }

  predicate PointFits(p: HoldPoint, stage: Stage) {
    match p
    case Entry => stage.PreProcess?
    case AtInProcess => !stage.PostProcess?
    case AtPostProcess => stage.InProcess?
  }

  ghost predicate Coherent(c: Cell) {
    && (c.mem.None? ==> c.pending == [] && !c.Parked())
    && (c.mem.Some? ==> c.row.Some?)
    && (c.Parked() ==> c.pending == [])
    && (c.held.Some? ==> c.backlog == multiset{})
    && |c.backlog| <= 1
    && (c.mem.Some? ==>
          var stage := c.mem.value.stage;
          && AllAt(c.pending, stage)
          && (stage.InProcess? ==> |c.pending| <= 1)
          && (c.held.Some? ==> PointFits(c.held.value, stage))
          && (forall p :: p in c.backlog ==> PointFits(p, stage)))
  }

  /** A live message with nothing outstanding: the state every stage start begins from. */
  ghost predicate Idle(c: Cell) {
    c.mem.Some? && c.row.Some? && c.pending == [] && !c.Parked()
  }

  lemma {:induction false} FanOutCoherent(w: World, u: Uuid, stage: Stage, now: int, ms: seq<Module>, c: Cell)
    requires AllAt(c.pending, stage)
    ensures AllAt(FanOut(w, u, stage, now, ms, c).pending, stage)
  {
    if ms != [] {
      FanOutCoherent(w, u, stage, now, ms[..|ms| - 1], c);
    }
  }

  lemma StartPostCoherent(w: World, u: Uuid, now: int, gated: bool, c: Cell)
    requires Idle(c) && c.mem.value.stage.InProcess?
    ensures Coherent(StartPost(w, u, now, gated, c))
  {
    if !gated && !c.Audited() {
      var c1 := c.(mem := Some(c.mem.value.(stage := PostProcess)));
      var ms := PostRecipients(w, c.mem.value.parsed, w.config.post);
      FanOutCoherent(w, u, PostProcess, now, ms, c1);
      Delivery.FanOutShape(w, u, PostProcess, now, ms, c1);
    }
  }

  lemma {:induction false} StartInCoherent(w: World, u: Uuid, now: int, gated: bool, c: Cell)
    requires Idle(c) && !c.mem.value.stage.PostProcess?
    ensures Coherent(StartIn(w, u, now, gated, c))
    decreases |w.config.inProcess| - c.mem.value.index, 0
  {
    if !gated && !c.Audited() {
      var c1 := c.(mem := Some(c.mem.value.(stage := InProcess)));
      var ms, i := w.config.inProcess, c.mem.value.index;
      if i >= |ms| {
        StartPostCoherent(w, u, now, gated, c1);
      } else if !InProcessTurn(w, u, c.mem.value.parsed, ms[i]) {
        NextInCoherent(w, u, now, gated, c1);
      }
    }
  }

  lemma {:induction false} NextInCoherent(w: World, u: Uuid, now: int, gated: bool, c: Cell)
    requires Idle(c) && c.mem.value.stage.InProcess?
    ensures Coherent(NextIn(w, u, now, gated, c))
    decreases if c.mem.value.index < |w.config.inProcess| then |w.config.inProcess| - c.mem.value.index - 1 else 0, 1
  {
    var c1 := c.(mem := Some(c.mem.value.(index := c.mem.value.index + 1)));
    if c1.mem.value.index >= |w.config.inProcess| {
      StartPostCoherent(w, u, now, gated, c1);
    } else {
      StartInCoherent(w, u, now, gated, c1);
    }
  }

  lemma BroadcastPreCoherent(w: World, u: Uuid, now: int, gated: bool, c: Cell)
    requires Idle(c) && c.mem.value.stage.PreProcess?
    ensures Coherent(BroadcastPre(w, u, now, gated, c))
  {
    if !gated {
      var ms := Recipients(w, c.mem.value.parsed, w.config.pre);
      FanOutCoherent(w, u, PreProcess, now, ms, c);
      Delivery.FanOutShape(w, u, PreProcess, now, ms, c);
      if !AnyReached(w, u, PreProcess, ms) {
        StartInCoherent(w, u, now, gated, c);
      }
    }
  }

  lemma AdvanceCoherent(stage: Stage, w: World, u: Uuid, now: int, gated: bool, c: Cell)
    requires Idle(c) && c.mem.value.stage == stage
    ensures Coherent(Advance(stage, w, u, now, gated, c))
  {
    match stage
    case PreProcess => StartInCoherent(w, u, now, gated, StampPre(now, c));
    case InProcess => NextInCoherent(w, u, now, gated, StampIn(now, c));
    case PostProcess =>
  }

  // ── Acks ───────────────────────────────────────────────────────────────

  lemma {:induction false} WithoutShape(es: seq<Ack>, m: Module, stage: Stage)
    requires AllAt(es, stage)
    ensures AllAt(Without(es, m), stage) && |Without(es, m)| <= |es|
    ensures AckedStage(es, m) == if exists i :: 0 <= i < |es| && es[i].moduleName == m then Some(stage) else None
    ensures AckedStage(es, m).Some? ==> |Without(es, m)| < |es|
  {
    if es != [] {
      WithoutShape(es[1..], m, stage);
      if i :| 0 <= i < |es| && es[i].moduleName == m {
        assert i > 0 ==> es[1..][i - 1].moduleName == m;
      }
    }
  }

  lemma HandleAckCoherent(w: World, u: Uuid, now: int, gated: bool, m: Module, c: Cell)
    requires Coherent(c)
    ensures Coherent(HandleAck(w, u, now, gated, m, c))
  {
    if c.mem.Some? {
      var stage := c.mem.value.stage;
      WithoutShape(c.pending, m, stage);
      var c1 := c.(pending := Without(c.pending, m));
      if AckedStage(c.pending, m).Some? && (stage.InProcess? || c1.pending == []) {
        AdvanceCoherent(stage, w, u, now, gated, c1);
      }
    }
  }

  lemma {:induction false} ReceiptShape(es: seq<Ack>, m: Module)
    ensures |MarkReceipt(es, m)| == |es|
    ensures forall i :: 0 <= i < |es| ==> MarkReceipt(es, m)[i].stage == es[i].stage
  {
    if es != [] {
      ReceiptShape(es[1..], m);
    }
  }

  // ── The sweep that breaks it ───────────────────────────────────────────

  /** Whether some module of the rest of the chain would take the message. */
  predicate ChainReaches(w: World, u: Uuid, parsed: Option<Key>, from: nat) {
    || (exists i :: from <= i < |w.config.inProcess| && InProcessTurn(w, u, parsed, w.config.inProcess[i]))
    || AnyReached(w, u, PostProcess, PostRecipients(w, parsed, w.config.post))
  }

  /**
    The mixed sweep: a whole pre-process fan-out expires, its first entry can no
    longer be resent and moves the message on, and a later entry is then resent
    at the stage the message has just left.
   */
  ghost predicate Mixed(w: World, u: Uuid, which: set<nat>, c: Cell) {
    var kept, expired := Kept(c.pending, which), Expired(c.pending, which);
    Advancing(w, u, kept, expired) && MovesPast(w, u, expired, c)
  }

  /** A pre-process message that moves on into the chain past an entry that is resent. */
  ghost predicate MovesPast(w: World, u: Uuid, expired: seq<Ack>, c: Cell) {
    && c.mem.Some? && c.mem.value.stage.PreProcess? && !c.Audited()
    && (exists i :: 0 <= i < |expired| && Resendable(w, u, expired[i]))
    && ChainReaches(w, u, c.mem.value.parsed, c.mem.value.index)
  }

  /** An open-gate start ends the message exactly when nothing further takes it. */
  lemma {:induction false} StartInOutcome(w: World, u: Uuid, now: int, c: Cell)
    requires c.mem.Some? && !c.Audited() && !c.mem.value.stage.PostProcess?
    ensures var c' := StartIn(w, u, now, false, c);
      && (c'.mem.Some? <==> ChainReaches(w, u, c.mem.value.parsed, c.mem.value.index))
      && (c'.mem.Some? ==> !c'.mem.value.stage.PreProcess? && c.pending < c'.pending)
      && c'.row.Some? == c.row.Some?
    decreases |w.config.inProcess| - c.mem.value.index
  {
    var ms, i, parsed := w.config.inProcess, c.mem.value.index, c.mem.value.parsed;
    var c1 := c.(mem := Some(c.mem.value.(stage := InProcess)));
    if i >= |ms| {
      StartPostOutcome(w, u, now, c1);
    } else if !InProcessTurn(w, u, parsed, ms[i]) {
      var c2 := c1.(mem := Some(c1.mem.value.(index := i + 1)));
      if i + 1 >= |ms| {
        StartPostOutcome(w, u, now, c2);
      } else {
        StartInOutcome(w, u, now, c2);
      }
      assert ChainReaches(w, u, parsed, i) <==> ChainReaches(w, u, parsed, i + 1);
    }
  }

  lemma StartPostOutcome(w: World, u: Uuid, now: int, c: Cell)
    requires c.mem.Some? && !c.Audited()
    ensures var c' := StartPost(w, u, now, false, c);
      && (c'.mem.Some? <==> AnyReached(w, u, PostProcess, PostRecipients(w, c.mem.value.parsed, w.config.post)))
      && (c'.mem.Some? ==> c'.mem.value.stage.PostProcess? && c.pending < c'.pending)
      && c'.row.Some? == c.row.Some?
  {
    var c1 := c.(mem := Some(c.mem.value.(stage := PostProcess)));
    Delivery.FanOutShape(w, u, PostProcess, now, PostRecipients(w, c.mem.value.parsed, w.config.post), c1);
  }

  lemma {:induction false} SplitStages(es: seq<Ack>, which: set<nat>, stage: Stage)
    requires AllAt(es, stage)
    ensures AllAt(Kept(es, which), stage) && AllAt(Expired(es, which), stage)
    ensures |Kept(es, which)| + |Expired(es, which)| == |es|
  {
    if es != [] {
      SplitStages(es[..|es| - 1], which, stage);
    }
  }

  lemma ResendAllCoherent(w: World, u: Uuid, now: int, es: seq<Ack>, c: Cell)
    requires c.mem.Some? && c.row.Some? && !c.Parked()
    requires AllAt(c.pending, c.mem.value.stage) && AllAt(es, c.mem.value.stage)
    requires c.mem.value.stage.InProcess? ==> |c.pending| + |es| <= 1
    ensures Coherent(ResendAll(w, u, now, es, c))
  {
    ResendAllShape(w, u, now, es, c);
    ResendAllLength(w, u, now, es, c);
    var c', stage := ResendAll(w, u, now, es, c), c.mem.value.stage;
    forall i | 0 <= i < |c'.pending|
      ensures c'.pending[i].stage == stage
    {
      if i < |c.pending| {
        assert c'.pending[i] == c.pending[i];
      }
    }
  }

  lemma {:induction false} ResendAllLength(w: World, u: Uuid, now: int, es: seq<Ack>, c: Cell)
    ensures |ResendAll(w, u, now, es, c).pending| <= |c.pending| + |es|
  {
    if es != [] {
      ResendAllLength(w, u, now, es[..|es| - 1], c);
    }
  }

  /** A sweep of a coherent message keeps it coherent if and only if it is not the mixed one. */
  lemma SweepCoherentIff(w: World, u: Uuid, now: int, which: set<nat>, c: Cell)
    requires Coherent(c)
    ensures Coherent(Sweep(w, u, now, which, c)) <==> !Mixed(w, u, which, c)
  {
    var kept, expired := Kept(c.pending, which), Expired(c.pending, which);
    if c.pending == [] {
      NothingToSweep(w, u, now, which, c);
    } else {
      var stage, c0, k := c.mem.value.stage, c.(pending := kept), FirstFatal(w, u, expired);
      SplitStages(c.pending, which, stage);
      SweepClosedForm(w, u, now, which, c);
      if k < |expired| {
        assert HasCritical(w, expired);
        FailingCoherent(w, u, now, if c.Audited() then expired else expired[..k], expired[k], c0);
      } else if Advancing(w, u, kept, expired) {
        MovingCoherent(w, u, now, expired, c0);
      } else {
        ResendAllCoherent(w, u, now, expired, c0);
      }
    }
  }

  lemma FailingCoherent(w: World, u: Uuid, now: int, resent: seq<Ack>, fatal: Ack, c: Cell)
    requires c.mem.Some? && c.row.Some? && !c.Parked()
    requires AllAt(c.pending, c.mem.value.stage) && AllAt(resent, c.mem.value.stage)
    requires c.mem.value.stage.InProcess? ==> |c.pending| + |resent| <= 1
    ensures Coherent(Failing(w, u, now, resent, fatal, c))
  {
    ResendAllCoherent(w, u, now, resent, c);
    ResendAllShape(w, u, now, resent, c);
    EndedCoherent(EndFailed(TimeoutReason(fatal)), now, ResendAll(w, u, now, resent, c));
  }

  lemma EndedCoherent(outcome: Outcome, now: int, c: Cell)
    requires Coherent(c) && !c.Parked()
    ensures Coherent(MarkEnded(outcome, now, c))
  {
  }

  /** The batch of a whole stage moves an idle message on; only pre-process can go wrong. */
  lemma MovingCoherent(w: World, u: Uuid, now: int, expired: seq<Ack>, c: Cell)
    requires Idle(c) && Coherent(c) && AllAt(expired, c.mem.value.stage) && expired != []
    requires !Resendable(w, u, expired[0])
    requires c.mem.value.stage.InProcess? ==> |expired| == 1
    ensures Coherent(Moving(w, u, now, expired, c)) <==> !MovesPast(w, u, expired, c)
  {
    var stage := c.mem.value.stage;
    var moved := Advance(stage, w, u, now, false, c);
    AdvanceCoherent(stage, w, u, now, false, c);
    TailAt(expired, stage);
    if c.Audited() {
      HeldStays(stage, w, u, now, c);
      ResendAllCoherent(w, u, now, expired[1..], moved);
    } else if stage.InProcess? {
      assert expired[1..] == [];
    } else if stage.PreProcess? {
      StartInOutcome(w, u, now, StampPre(now, c));
      if moved.mem.Some? { ResendsAfterMove(w, u, now, expired, moved); }
    }
  }

  lemma TailAt(es: seq<Ack>, stage: Stage)
    requires es != [] && AllAt(es, stage)
    ensures AllAt(es[1..], stage)
  {
    assert forall i :: 0 <= i < |es| - 1 ==> es[1..][i] == es[i + 1];
  }

  /** A held message does not leave its stage. */
  lemma HeldStays(stage: Stage, w: World, u: Uuid, now: int, c: Cell)
    requires Idle(c) && c.Audited() && c.mem.value.stage == stage
    ensures var c' := Advance(stage, w, u, now, false, c);
      Idle(c') && c'.mem.value.stage == stage
  {
    match stage
    case PreProcess => assert StampPre(now, c).Audited();
    case InProcess =>
      var c1 := StampIn(now, c);
      var c2 := c1.(mem := Some(c1.mem.value.(index := c1.mem.value.index + 1)));
      assert c2.Audited() && NextIn(w, u, now, false, c1) == c2;
    case PostProcess =>
  }

  lemma NotFatal(w: World, u: Uuid, es: seq<Ack>)
    requires !HasCritical(w, es)
    ensures FirstFatal(w, u, es) == |es|
  {
  }

  /** Resends that follow a move out of pre-process leave acks of two stages behind. */
  lemma ResendsAfterMove(w: World, u: Uuid, now: int, expired: seq<Ack>, moved: Cell)
    requires expired != [] && !Resendable(w, u, expired[0]) && AllAt(expired, PreProcess)
    requires moved.mem.Some? && !moved.mem.value.stage.PreProcess? && Coherent(moved)
    ensures Coherent(ResendAll(w, u, now, expired[1..], moved))
       <==> forall i :: 0 <= i < |expired| ==> !Resendable(w, u, expired[i])
  {
    var rest := expired[1..];
    ResendAllShape(w, u, now, rest, moved);
    var c' := ResendAll(w, u, now, rest, moved);
    assert forall i :: 0 < i < |expired| ==> expired[i] == rest[i - 1];
    if c'.pending != moved.pending {
      assert |c'.pending| > |moved.pending|;
      assert c'.pending[|moved.pending|].stage == PreProcess;
    }
  }

  // ── Steps and runs ─────────────────────────────────────────────────────

  /** The only ticks that may break coherence. */
  ghost predicate MixedTick(t: Tick, u: Uuid, c: Cell) {
    || (t.event.Expire? && !t.gated && Mixed(t.world, u, t.event.which, c))
    || (t.event.Resume? && !t.gated && Mixed(t.world, u, t.event.which, Unhold(t.event.restart, c)))
  }

  lemma UnholdCoherent(now: int, c: Cell)
    requires Coherent(c)
    ensures Coherent(Unhold(now, c))
  {
  }

  lemma ReplayCoherent(w: World, u: Uuid, now: int, gated: bool, p: HoldPoint, c: Cell)
    requires Coherent(c)
    ensures Coherent(Replayed(w, u, now, gated, p, c))
  {
    if p in c.backlog {
      BacklogOfOne(c.backlog, p);
      var c1 := c.(backlog := c.backlog - multiset{p});
      match p
      case Entry => BroadcastPreCoherent(w, u, now, gated, c1);
      case AtInProcess => StartInCoherent(w, u, now, gated, c1);
      case AtPostProcess => StartPostCoherent(w, u, now, gated, c1);
    }
  }

  lemma ReplyCoherent(w: World, u: Uuid, now: int, gated: bool, e: Event, c: Cell)
    requires Coherent(c) && e.Reply?
    ensures Coherent(Replied(w, u, now, gated, e, c))
  {
    if Owns(c.pending, e.sender, e.stage) {
      var c1 := RecordReply(e.stage, e.text, e.mime, e.bytes, c);
      HandleAckCoherent(w, u, now, gated, e.sender, c1);
      EndedCoherent(EndDropped(AbandonReason(e.sender)), now, c1);
    }
  }

  lemma BacklogOfOne(b: multiset<HoldPoint>, p: HoldPoint)
    requires p in b && |b| <= 1
    ensures b == multiset{p}
  {
    assert b == (b - multiset{p}) + multiset{p};
    assert |b - multiset{p}| == 0;
  }

  lemma EntryCoherent(w: World, u: Uuid, now: int, gated: bool, msg: Incoming, c: Cell)
    requires Coherent(c)
    ensures Coherent(Entered(w, u, now, gated, msg, c)) && Coherent(Recovered(w, u, now, gated, c))
  {
    if c.row.None? {
      BroadcastPreCoherent(w, u, now, gated, Ingested(msg, c));
    } else if Stranded(c) {
      BroadcastPreCoherent(w, u, now, gated, Reclaimed(c));
    }
  }

  lemma AuditCoherent(reason: string, approve: bool, now: int, c: Cell)
    requires Coherent(c)
    ensures Coherent(TakenHold(reason, now, c)) && Coherent(Released(approve, now, c))
  {
  }

  /** Every step keeps coherence, except exactly the mixed sweep. */
  lemma StepCoherentIff(t: Tick, u: Uuid, c: Cell)
    requires Coherent(c)
    ensures Coherent(Step(t.world, u, t.now, t.gated, t.event, c)) <==> !MixedTick(t, u, c)
  {
    var w, now, gated := t.world, t.now, t.gated;
    match t.event
    case Ingest(msg) => EntryCoherent(w, u, now, gated, msg, c);
    case Recover => EntryCoherent(w, u, now, gated, Incoming(0, "", "", "", None, None, None), c);
    case Reply(stage, m, text, mime, bytes, abandon) => ReplyCoherent(w, u, now, gated, t.event, c);
    case Receipt(m) => ReceiptShape(c.pending, m);
    case Expire(which) => SweepCoherentIff(w, u, now, which, c);
    case Resume(restart, which) =>
      UnholdCoherent(restart, c);
      SweepCoherentIff(w, u, now, which, Unhold(restart, c));
    case Replay(p) => ReplayCoherent(w, u, now, gated, p, c);
    case TakeAudit(reason) => AuditCoherent(reason, true, now, c);
    case ReleaseAudit(approve) => AuditCoherent("", approve, now, c);
    case Crash =>
  }

  /** No tick of the run sweeps the message in the mixed way. */
  ghost predicate Unmixed(u: Uuid, ticks: seq<Tick>, c: Cell) {
    ticks == [] ||
    var n := |ticks| - 1;
    Unmixed(u, ticks[..n], c) && !MixedTick(ticks[n], u, Run(u, ticks[..n], c))
  }

  /** Coherence over whole runs. */
  lemma {:induction false} RunCoherent(u: Uuid, ticks: seq<Tick>, c: Cell)
    requires Coherent(c) && Unmixed(u, ticks, c)
    ensures Coherent(Run(u, ticks, c))
  {
    if ticks != [] {
      var n := |ticks| - 1;
      RunCoherent(u, ticks[..n], c);
      StepCoherentIff(ticks[n], u, Run(u, ticks[..n], c));
    }
  }
}
