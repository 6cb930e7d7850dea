/**
  Each stage is dispatched to once in the life of an engine process. Over every run
  without a mixed sweep, the first frames a message sends at pre-process, and at
  post-process, are one fan-out after another, its reached recipients in order, and
  a crash lies between any two of them. With the bound on resends this bounds the
  frames a module gets.
 */
module Once {
  import opened Basics
  import opened Rows
  import opened Messages
  import opened Sweeps
  import opened Coherence
  import opened Routing
  import Chain
  import Delivery
  import Registry
  import Resends

  /** The modules the message was first dispatched to at a stage, in order. */
  function Opening(log: seq<Dispatch>, stage: Stage): seq<Module> {
    if log == [] then []
    else
      var d := log[|log| - 1];
      Opening(log[..|log| - 1], stage) + if d.stage == stage && d.attempt == 0 then [d.moduleName] else []
  }

  function RecipientsAt(w: World, stage: Stage, cmd: Option<Key>): seq<Module> {
    match stage
    case PreProcess => Recipients(w, cmd, w.config.pre)
    case InProcess => Recipients(w, cmd, w.config.inProcess)
    case PostProcess => PostRecipients(w, cmd, w.config.post)
  }

  /** Those of `ms` a fan-out reaches. */
  function Reached(w: World, u: Uuid, stage: Stage, ms: seq<Module>): seq<Module> {
    if ms == [] then []
    else Reached(w, u, stage, ms[..|ms| - 1]) + if w.Reaches(u, stage, ms[|ms| - 1]) then [ms[|ms| - 1]] else []
  }

  lemma OpeningSnoc(log: seq<Dispatch>, d: Dispatch, stage: Stage)
    ensures Opening(log + [d], stage) == Opening(log, stage) + if d.stage == stage && d.attempt == 0 then [d.moduleName] else []
  {
    assert (log + [d])[..|log|] == log;
  }

  lemma {:induction false} FanOutOpens(w: World, u: Uuid, stage: Stage, now: int, ms: seq<Module>, c: Cell, at: Stage)
    ensures Opening(FanOut(w, u, stage, now, ms, c).log, at)
         == Opening(c.log, at) + if at == stage then Reached(w, u, stage, ms) else []
  {
    if ms != [] {
      var n := |ms| - 1;
      FanOutOpens(w, u, stage, now, ms[..n], c, at);
      OpeningSnoc(FanOut(w, u, stage, now, ms[..n], c).log, Dispatch(stage, ms[n], 0), at);
    }
  }

  lemma {:induction false} ResendsOpenNothing(w: World, u: Uuid, now: int, es: seq<Ack>, c: Cell, at: Stage)
    ensures Opening(ResendAll(w, u, now, es, c).log, at) == Opening(c.log, at)
  {
    if es != [] {
      var n := |es| - 1;
      ResendsOpenNothing(w, u, now, es[..n], c, at);
      OpeningSnoc(ResendAll(w, u, now, es[..n], c).log, Dispatch(es[n].stage, es[n].moduleName, es[n].resends + 1), at);
    }
  }

  // ── What a stage start may add ─────────────────────────────────────────

  function Shown(w: World, u: Uuid, c: Cell): seq<Module> {
    if c.mem.Some? then Reached(w, u, PostProcess, RecipientsAt(w, PostProcess, c.mem.value.parsed)) else []
  }

  /** The displays were shown the message by this very step, which leaves it at post-process or ended. */
  ghost predicate Opens(w: World, u: Uuid, c: Cell, c': Cell) {
    && Opening(c'.log, PostProcess) == Opening(c.log, PostProcess) + Shown(w, u, c)
    && (c'.mem.Some? ==> c'.mem.value.stage.PostProcess?)
  }

  /** From `c` to `c'` by stage starts of `w`. */
  ghost predicate Goes(w: World, u: Uuid, c: Cell, c': Cell) {
    && Opening(c'.log, PreProcess) == Opening(c.log, PreProcess)
    && (Opening(c'.log, PostProcess) == Opening(c.log, PostProcess) || Opens(w, u, c, c'))
    && (c'.held == c.held || c'.held != Some(Entry)) && c'.backlog == c.backlog
    && c'.row.Some? == c.row.Some?
    && (c'.mem.Some? ==> c.mem.Some? && Later(c.mem.value.stage, c'.mem.value.stage)
                         && c'.mem.value.parsed == c.mem.value.parsed)
  }

  predicate Later(a: Stage, b: Stage) {
    match a
    case PreProcess => true
    case InProcess => !b.PreProcess?
    case PostProcess => b.PostProcess?
  }

  lemma StartPostGoes(w: World, u: Uuid, now: int, gated: bool, c: Cell)
    requires c.mem.Some?
    ensures Goes(w, u, c, StartPost(w, u, now, gated, c))
  {
    if !gated && !c.Audited() {
      var c1 := c.(mem := Some(c.mem.value.(stage := PostProcess)));
      var ms := RecipientsAt(w, PostProcess, c.mem.value.parsed);
      FanOutOpens(w, u, PostProcess, now, ms, c1, PreProcess);
      FanOutOpens(w, u, PostProcess, now, ms, c1, PostProcess);
      Delivery.FanOutShape(w, u, PostProcess, now, ms, c1);
    }
  }

  /** Stage starts compose, as long as the command stays and the displays were not shown it before. */
  lemma GoesOn(w: World, u: Uuid, c: Cell, c1: Cell, c2: Cell)
    requires Goes(w, u, c1, c2) && c.mem.Some? && c1.mem.Some?
    requires c1 == c.(mem := c1.mem) && c1.mem.value.parsed == c.mem.value.parsed
    requires Later(c.mem.value.stage, c1.mem.value.stage)
    ensures Goes(w, u, c, c2)
  {
  }

  lemma {:induction false} StartInGoes(w: World, u: Uuid, now: int, gated: bool, c: Cell)
    requires c.mem.Some? && !c.mem.value.stage.PostProcess?
    ensures Goes(w, u, c, StartIn(w, u, now, gated, c))
    decreases |w.config.inProcess| - c.mem.value.index, 0
  {
    if !gated && !c.Audited() {
      var c1 := c.(mem := Some(c.mem.value.(stage := InProcess)));
      var ms, i := w.config.inProcess, c.mem.value.index;
      if i >= |ms| {
        StartPostGoes(w, u, now, gated, c1);
        GoesOn(w, u, c, c1, StartPost(w, u, now, gated, c1));
      } else if InProcessTurn(w, u, c.mem.value.parsed, ms[i]) {
        OpeningSnoc(c1.log, Dispatch(InProcess, ms[i], 0), PreProcess);
        OpeningSnoc(c1.log, Dispatch(InProcess, ms[i], 0), PostProcess);
      } else {
        NextInGoes(w, u, now, gated, c1);
        GoesOn(w, u, c, c1, NextIn(w, u, now, gated, c1));
      }
    }
  }

  lemma {:induction false} NextInGoes(w: World, u: Uuid, now: int, gated: bool, c: Cell)
    requires c.mem.Some? && c.mem.value.stage.InProcess?
    ensures Goes(w, u, c, NextIn(w, u, now, gated, c))
    decreases if c.mem.value.index < |w.config.inProcess| then |w.config.inProcess| - c.mem.value.index - 1 else 0, 1
  {
    var c1 := c.(mem := Some(c.mem.value.(index := c.mem.value.index + 1)));
    if c1.mem.value.index >= |w.config.inProcess| {
      StartPostGoes(w, u, now, gated, c1);
    } else {
      StartInGoes(w, u, now, gated, c1);
    }
    GoesOn(w, u, c, c1, NextIn(w, u, now, gated, c));
  }

  lemma AdvanceGoes(stage: Stage, w: World, u: Uuid, now: int, gated: bool, c: Cell)
    requires c.mem.Some? && c.mem.value.stage == stage
    ensures Goes(w, u, c, Advance(stage, w, u, now, gated, c))
  {
    match stage
    case PreProcess =>
      StartInGoes(w, u, now, gated, StampPre(now, c));
      GoesOn(w, u, c, StampPre(now, c), Advance(stage, w, u, now, gated, c));
    case InProcess =>
      NextInGoes(w, u, now, gated, StampIn(now, c));
      GoesOn(w, u, c, StampIn(now, c), Advance(stage, w, u, now, gated, c));
    case PostProcess =>
  }

  // ── One fan-out at a time ──────────────────────────────────────────────

  /** What had been opened when the engine process started. */
  datatype Base = Base(pre: seq<Module>, post: seq<Module>)

  function OpenedBy(log: seq<Dispatch>): Base {
    Base(Opening(log, PreProcess), Opening(log, PostProcess))
  }

  predicate AtEntry(c: Cell) {
    c.held == Some(Entry) || Entry in c.backlog
  }

  /** Where the message stands decides what it may have sent in this process. */
  ghost predicate Unsent(b: Base, c: Cell) {
    && (c.row.None? || Stranded(c) || (c.mem.Some? && AtEntry(c)) ==> Opening(c.log, PreProcess) == b.pre)
    && (c.row.None? || Stranded(c) || (c.mem.Some? && !c.mem.value.stage.PostProcess?) ==> Opening(c.log, PostProcess) == b.post)
  }

  /** The message goes by the command `cmd`. */
  predicate Speaks(cmd: Option<Key>, c: Cell) {
    c.mem.Some? ==> c.mem.value.parsed == cmd
  }

  function FanOf(w: World, u: Uuid, stage: Stage, cmd: Option<Key>): seq<Module> {
    Reached(w, u, stage, RecipientsAt(w, stage, cmd))
  }

  /** From `c` to `c'` each stage opened nothing, or exactly what one fan-out reaches and for the first time. */
  ghost predicate Added(b: Base, u: Uuid, w: World, cmd: Option<Key>, c: Cell, c': Cell) {
    && (Opening(c'.log, PreProcess) == Opening(c.log, PreProcess)
        || Opening(c'.log, PreProcess) == b.pre + FanOf(w, u, PreProcess, cmd))
    && (Opening(c'.log, PostProcess) == Opening(c.log, PostProcess)
        || Opening(c'.log, PostProcess) == b.post + FanOf(w, u, PostProcess, cmd))
  }

  ghost predicate Adds(b: Base, u: Uuid, w: World, cmd: Option<Key>, c: Cell, c': Cell) {
    Added(b, u, w, cmd, c, c') && Unsent(b, c') && Speaks(cmd, c') && (c.row.Some? ==> c'.row.Some?)
  }

  /** A step that only goes on from a message that has not been shown yet. */
  lemma GoesAdded(b: Base, w: World, u: Uuid, cmd: Option<Key>, c: Cell, c': Cell)
    requires Goes(w, u, c, c') && c.mem.Some? && !Stranded(c') && c'.row.Some? && Speaks(cmd, c)
    requires !c.mem.value.stage.PostProcess? ==> Opening(c.log, PostProcess) == b.post
    requires c.mem.value.stage.PostProcess? ==> Opening(c'.log, PostProcess) == Opening(c.log, PostProcess)
    requires AtEntry(c') ==> Opening(c.log, PreProcess) == b.pre
    ensures Adds(b, u, w, cmd, c, c')
  {
  }

  lemma BroadcastAdded(b: Base, w: World, u: Uuid, now: int, gated: bool, cmd: Option<Key>, c: Cell)
    requires c.mem.Some? && c.row.Some? && c.mem.value.stage.PreProcess? && Entry !in c.backlog && c.held != Some(Entry)
    requires OpenedBy(c.log) == b && Speaks(cmd, c)
    ensures var c' := BroadcastPre(w, u, now, gated, c);
      Added(b, u, w, cmd, c, c') && Speaks(cmd, c') && c'.row.Some? && (!Stranded(c') ==> Unsent(b, c'))
  {
    if !gated {
      var ms := RecipientsAt(w, PreProcess, cmd);
      FanOutOpens(w, u, PreProcess, now, ms, c, PreProcess);
      FanOutOpens(w, u, PreProcess, now, ms, c, PostProcess);
      Delivery.FanOutShape(w, u, PreProcess, now, ms, c);
      if !AnyReached(w, u, PreProcess, ms) {
        StartInGoes(w, u, now, gated, c);
      }
    }
  }

  // ── Steps ──────────────────────────────────────────────────────────────

  lemma ReplyOnce(b: Base, w: World, u: Uuid, now: int, gated: bool, e: Event, cmd: Option<Key>, c: Cell)
    requires Coherent(c) && Unsent(b, c) && Speaks(cmd, c) && e.Reply?
    requires !Stranded(c) && !Stranded(Replied(w, u, now, gated, e, c))
    ensures Adds(b, u, w, cmd, c, Replied(w, u, now, gated, e, c))
  {
    if Owns(c.pending, e.sender, e.stage) {
      var c1, stage := RecordReply(e.stage, e.text, e.mime, e.bytes, c), c.mem.value.stage;
      assert e.stage == stage;
      assert Coherent(c1) && Unsent(b, c1) && Speaks(cmd, c1) && c1.log == c.log;
      if !(stage.InProcess? && e.abandon) {
        AckOnce(b, w, u, now, gated, e.sender, cmd, c1);
      }
    }
  }

  lemma AckOnce(b: Base, w: World, u: Uuid, now: int, gated: bool, m: Module, cmd: Option<Key>, c: Cell)
    requires Coherent(c) && Unsent(b, c) && Speaks(cmd, c) && c.mem.Some? && Owns(c.pending, m, c.mem.value.stage)
    requires !Stranded(HandleAck(w, u, now, gated, m, c))
    ensures Adds(b, u, w, cmd, c, HandleAck(w, u, now, gated, m, c))
  {
    var stage := c.mem.value.stage;
    WithoutShape(c.pending, m, stage);
    var rest := c.(pending := Without(c.pending, m));
    if stage.InProcess? || rest.pending == [] {
      AdvanceGoes(stage, w, u, now, gated, rest);
      GoesAdded(b, w, u, cmd, rest, Advance(stage, w, u, now, gated, rest));
    }
  }

  lemma ResultOnce(b: Base, w: World, u: Uuid, now: int, kept: seq<Ack>, expired: seq<Ack>, cmd: Option<Key>, c: Cell)
    requires Coherent(c) && Unsent(b, c) && Speaks(cmd, c) && c.pending != [] && AllAt(expired, c.mem.value.stage)
    requires !Stranded(SweepResult(w, u, now, kept, expired, c))
    ensures Adds(b, u, w, cmd, c, SweepResult(w, u, now, kept, expired, c))
  {
    var c0, k := c.(pending := kept), FirstFatal(w, u, expired);
    if k < |expired| {
      var resent := if c.Audited() then expired else expired[..k];
      ResendsAdd(w, u, now, resent, c0);
    } else if Advancing(w, u, kept, expired) {
      MovingOnce(b, w, u, now, expired, cmd, c0);
    } else {
      ResendsAdd(w, u, now, expired, c0);
    }
  }

  lemma ResendsAdd(w: World, u: Uuid, now: int, es: seq<Ack>, c: Cell)
    ensures var c' := ResendAll(w, u, now, es, c);
      c' == c.(pending := c'.pending, log := c'.log) && OpenedBy(c'.log) == OpenedBy(c.log)
  {
    ResendAllShape(w, u, now, es, c);
    ResendsOpenNothing(w, u, now, es, c, PreProcess);
    ResendsOpenNothing(w, u, now, es, c, PostProcess);
  }

  lemma MovingOnce(b: Base, w: World, u: Uuid, now: int, expired: seq<Ack>, cmd: Option<Key>, c: Cell)
    requires Idle(c) && Unsent(b, c) && Speaks(cmd, c) && expired != [] && expired[0].stage == c.mem.value.stage
    requires !Stranded(Moving(w, u, now, expired, c))
    ensures Adds(b, u, w, cmd, c, Moving(w, u, now, expired, c))
  {
    var stage := c.mem.value.stage;
    var moved := Advance(stage, w, u, now, false, c);
    AdvanceGoes(stage, w, u, now, false, c);
    ResendsAdd(w, u, now, expired[1..], moved);
    GoesAdded(b, w, u, cmd, c, moved);
  }

  lemma SweepOnce(b: Base, w: World, u: Uuid, now: int, which: set<nat>, cmd: Option<Key>, c: Cell)
    requires Coherent(c) && Unsent(b, c) && Speaks(cmd, c) && !Stranded(Sweep(w, u, now, which, c))
    ensures Adds(b, u, w, cmd, c, Sweep(w, u, now, which, c))
  {
    if c.pending == [] {
      NothingToSweep(w, u, now, which, c);
    } else {
      SplitStages(c.pending, which, c.mem.value.stage);
      SweepClosedForm(w, u, now, which, c);
      ResultOnce(b, w, u, now, Kept(c.pending, which), Expired(c.pending, which), cmd, c);
    }
  }

  lemma ReplayOnce(b: Base, w: World, u: Uuid, now: int, gated: bool, p: HoldPoint, cmd: Option<Key>, c: Cell)
    requires Coherent(c) && Unsent(b, c) && Speaks(cmd, c) && !Stranded(Replayed(w, u, now, gated, p, c))
    ensures Adds(b, u, w, cmd, c, Replayed(w, u, now, gated, p, c))
  {
    if p in c.backlog {
      BacklogOfOne(c.backlog, p);
      var c1 := c.(backlog := c.backlog - multiset{p});
      assert PointFits(p, c.mem.value.stage);
      match p
      case Entry => BroadcastAdded(b, w, u, now, gated, cmd, c1);
      case AtInProcess =>
        StartInGoes(w, u, now, gated, c1);
        GoesAdded(b, w, u, cmd, c1, StartIn(w, u, now, gated, c1));
      case AtPostProcess =>
        StartPostGoes(w, u, now, gated, c1);
        GoesAdded(b, w, u, cmd, c1, StartPost(w, u, now, gated, c1));
    }
  }

  lemma LapseOnce(b: Base, w: World, u: Uuid, now: int, gated: bool, which: set<nat>, cmd: Option<Key>, c: Cell)
    requires Coherent(c) && Unsent(b, c) && Speaks(cmd, c) && !Stranded(c) && !Stranded(Lapsed(w, u, now, gated, which, c))
    ensures Adds(b, u, w, cmd, c, Lapsed(w, u, now, gated, which, c))
  {
    if !gated {
      SweepOnce(b, w, u, now, which, cmd, c);
    }
  }

  lemma ResumeOnce(b: Base, w: World, u: Uuid, now: int, gated: bool, restart: int, which: set<nat>, cmd: Option<Key>, c: Cell)
    requires Coherent(c) && Unsent(b, c) && Speaks(cmd, c) && !Stranded(c) && !Stranded(Resumed(w, u, now, gated, restart, which, c))
    ensures Adds(b, u, w, cmd, c, Resumed(w, u, now, gated, restart, which, c))
  {
    var c1 := Unhold(restart, c);
    UnholdCoherent(restart, c);
    assert Unsent(b, c1) && Speaks(cmd, c1) && c1.log == c.log;
    if !gated {
      SweepOnce(b, w, u, now, which, cmd, c1);
    }
  }

  /** The command the message goes by after the tick: its own from the ingest on, none once it was recovered. */
  function NextCommand(t: Tick, c: Cell, cmd: Option<Key>): Option<Key> {
    if t.event.Ingest? && c.row.None? then t.event.msg.parsed
    else if t.event.Recover? && Stranded(c) then None
    else cmd
  }

  /** One step of a coherent message, other than a crash. */
  lemma StepOnce(b: Base, t: Tick, u: Uuid, cmd: Option<Key>, c: Cell)
    requires Coherent(c) && Delivery.Safe(c) && Unsent(b, c) && Speaks(cmd, c) && !t.event.Crash?
    ensures Adds(b, u, t.world, NextCommand(t, c, cmd), c, Step(t.world, u, t.now, t.gated, t.event, c))
  {
    Delivery.StepSafe(t, u, c);
    if Stranded(c) {
      StrandedOnce(b, t, u, cmd, c);
    } else {
      LiveOnce(b, t, u, cmd, c);
    }
  }

  lemma LiveOnce(b: Base, t: Tick, u: Uuid, cmd: Option<Key>, c: Cell)
    requires Coherent(c) && Unsent(b, c) && Speaks(cmd, c) && !t.event.Crash?
    requires !Stranded(c) && !Stranded(Step(t.world, u, t.now, t.gated, t.event, c))
    ensures Adds(b, u, t.world, NextCommand(t, c, cmd), c, Step(t.world, u, t.now, t.gated, t.event, c))
  {
    var w, now, gated := t.world, t.now, t.gated;
    match t.event
    case Ingest(msg) => IngestOnce(b, w, u, now, gated, msg, cmd, c);
    case Reply(_, _, _, _, _, _) => ReplyOnce(b, w, u, now, gated, t.event, cmd, c);
    case Expire(which) => LapseOnce(b, w, u, now, gated, which, cmd, c);
    case Resume(restart, which) => ResumeOnce(b, w, u, now, gated, restart, which, cmd, c);
    case Replay(p) => ReplayOnce(b, w, u, now, gated, p, cmd, c);
    case _ => QuietOnce(b, t, u, cmd, c);
  }

  lemma QuietOnce(b: Base, t: Tick, u: Uuid, cmd: Option<Key>, c: Cell)
    requires Unsent(b, c) && Speaks(cmd, c) && !Stranded(c) && !Stranded(Step(t.world, u, t.now, t.gated, t.event, c))
    requires t.event.Recover? || t.event.Receipt? || t.event.TakeAudit? || t.event.ReleaseAudit?
    ensures Adds(b, u, t.world, NextCommand(t, c, cmd), c, Step(t.world, u, t.now, t.gated, t.event, c))
  {
    match t.event
    case Recover => SameOnce(b, t.world, u, cmd, c, c);
    case Receipt(m) => SameOnce(b, t.world, u, cmd, c, c.(pending := MarkReceipt(c.pending, m)));
    case TakeAudit(reason) => SameOnce(b, t.world, u, cmd, c, TakenHold(reason, t.now, c));
    case ReleaseAudit(approve) => SameOnce(b, t.world, u, cmd, c, Released(approve, t.now, c));
  }

  lemma IngestOnce(b: Base, w: World, u: Uuid, now: int, gated: bool, msg: Incoming, cmd: Option<Key>, c: Cell)
    requires Coherent(c) && Unsent(b, c) && Speaks(cmd, c) && !Stranded(c) && !Stranded(Entered(w, u, now, gated, msg, c))
    ensures Adds(b, u, w, if c.row.None? then msg.parsed else cmd, c, Entered(w, u, now, gated, msg, c))
  {
    if c.row.None? {
      BroadcastAdded(b, w, u, now, gated, msg.parsed, Ingested(msg, c));
    }
  }

  /** A step that neither dispatches nor changes the state. */
  lemma SameOnce(b: Base, w: World, u: Uuid, cmd: Option<Key>, c: Cell, c': Cell)
    requires Unsent(b, c) && Speaks(cmd, c) && !Stranded(c')
    requires c' == c.(row := c'.row, pending := c'.pending, everHeld := c'.everHeld) && c'.row.Some? == c.row.Some?
    ensures Adds(b, u, w, cmd, c, c')
  {
  }

  /** Nothing but a recovery moves a stranded row's message. */
  lemma StrandedStep(t: Tick, u: Uuid, c: Cell)
    requires Stranded(c) && Coherent(c) && !t.event.Recover? && !t.event.Crash?
    ensures var c' := Step(t.world, u, t.now, t.gated, t.event, c);
      c'.log == c.log && c'.mem.None? && c'.row.Some?
  {
    match t.event
    case Expire(which) => NothingToSweep(t.world, u, t.now, which, c);
    case Resume(restart, which) =>
      assert Unhold(restart, c).pending == [];
      NothingToSweep(t.world, u, t.now, which, Unhold(restart, c));
    case _ =>
  }

  lemma StrandedOnce(b: Base, t: Tick, u: Uuid, cmd: Option<Key>, c: Cell)
    requires Stranded(c) && Coherent(c) && Unsent(b, c) && !t.event.Crash?
    requires t.event.Recover? ==> !Stranded(Step(t.world, u, t.now, t.gated, t.event, c))
    ensures Adds(b, u, t.world, NextCommand(t, c, cmd), c, Step(t.world, u, t.now, t.gated, t.event, c))
  {
    if t.event.Recover? {
      BroadcastAdded(b, t.world, u, t.now, t.gated, None, Reclaimed(c));
    } else {
      StrandedStep(t, u, c);
    }
  }

  // ── Runs ───────────────────────────────────────────────────────────────

  /** The command the message goes by. */
  function Command(u: Uuid, ticks: seq<Tick>): Option<Key> {
    if ticks == [] then None
    else
      var n := |ticks| - 1;
      NextCommand(ticks[n], Run(u, ticks[..n], UNKNOWN), Command(u, ticks[..n]))
  }

  /** The tick with which the latest engine process begins. */
  function Life(ticks: seq<Tick>): (k: nat)
    ensures k <= |ticks|
    ensures forall i :: k <= i < |ticks| ==> !ticks[i].event.Crash?
  {
    if ticks == [] then 0
    else if ticks[|ticks| - 1].event.Crash? then |ticks|
    else Life(ticks[..|ticks| - 1])
  }

  /** What a fan-out at tick `i` reaches: the recipients of the message's own command in that tick's world. */
  function FanAt(u: Uuid, ticks: seq<Tick>, stage: Stage, i: nat): seq<Module>
    requires i < |ticks|
  {
    FanOf(ticks[i].world, u, stage, Command(u, ticks[..i + 1]))
  }

  function FansOf(u: Uuid, ticks: seq<Tick>, stage: Stage): seq<seq<Module>> {
    seq(|ticks|, i requires 0 <= i < |ticks| => FanAt(u, ticks, stage, i))
  }

  /** `ms` is `before`, or `before` and one of the fan-outs from `from` on. */
  ghost predicate OneOf(fans: seq<seq<Module>>, from: nat, before: seq<Module>, ms: seq<Module>) {
    ms == before || exists i :: from <= i < |fans| && ms == before + fans[i]
  }

  ghost predicate AtMostOne(u: Uuid, ticks: seq<Tick>, stage: Stage, before: seq<Module>, ms: seq<Module>) {
    OneOf(FansOf(u, ticks, stage), Life(ticks), before, ms)
  }

  lemma FansBefore(u: Uuid, ticks: seq<Tick>, stage: Stage, k: nat)
    requires k <= |ticks|
    ensures FansOf(u, ticks[..k], stage) == FansOf(u, ticks, stage)[..k]
  {
    forall i | 0 <= i < k
      ensures FansOf(u, ticks[..k], stage)[i] == FansOf(u, ticks, stage)[i]
    {
      assert ticks[..k][..i + 1] == ticks[..i + 1];
    }
  }

  lemma AtMostOneStill(u: Uuid, ticks: seq<Tick>, stage: Stage, before: seq<Module>, ms: seq<Module>)
    requires ticks != [] && !ticks[|ticks| - 1].event.Crash?
    requires AtMostOne(u, ticks[..|ticks| - 1], stage, before, ms)
    ensures AtMostOne(u, ticks, stage, before, ms)
  {
    var n := |ticks| - 1;
    FansBefore(u, ticks, stage, n);
    if ms != before {
      var i :| Life(ticks[..n]) <= i < n && ms == before + FansOf(u, ticks[..n], stage)[i];
      assert FansOf(u, ticks, stage)[i] == FansOf(u, ticks[..n], stage)[i];
    }
  }

  lemma LastFan(u: Uuid, ticks: seq<Tick>, stage: Stage)
    requires ticks != []
    ensures FansOf(u, ticks, stage)[|ticks| - 1] == FanOf(ticks[|ticks| - 1].world, u, stage, Command(u, ticks))
  {
    assert ticks[..|ticks|] == ticks;
  }

  function BaseOf(u: Uuid, ticks: seq<Tick>): Base {
    OpenedBy(Run(u, ticks[..Life(ticks)], UNKNOWN).log)
  }

  ghost predicate OpenedOnce(u: Uuid, ticks: seq<Tick>, b: Base, c: Cell) {
    && Unsent(b, c) && Speaks(Command(u, ticks), c)
    && AtMostOne(u, ticks, PreProcess, b.pre, Opening(c.log, PreProcess))
    && AtMostOne(u, ticks, PostProcess, b.post, Opening(c.log, PostProcess))
  }

  lemma AddedOnce(u: Uuid, ticks: seq<Tick>, b: Base, c: Cell, c': Cell)
    requires ticks != [] && !ticks[|ticks| - 1].event.Crash? && OpenedOnce(u, ticks[..|ticks| - 1], b, c)
    requires Adds(b, u, ticks[|ticks| - 1].world, Command(u, ticks), c, c')
    ensures OpenedOnce(u, ticks, b, c')
  {
    AtMostOneStill(u, ticks, PreProcess, b.pre, Opening(c.log, PreProcess));
    AtMostOneStill(u, ticks, PostProcess, b.post, Opening(c.log, PostProcess));
    LastFan(u, ticks, PreProcess);
    LastFan(u, ticks, PostProcess);
  }

  /** Since the latest crash, each of the two stages was opened by at most one fan-out. */
  lemma {:induction false} OncePerLife(u: Uuid, ticks: seq<Tick>)
    requires Unmixed(u, ticks, UNKNOWN)
    ensures OpenedOnce(u, ticks, BaseOf(u, ticks), Run(u, ticks, UNKNOWN))
  {
    if ticks != [] {
      var n := |ticks| - 1;
      if ticks[n].event.Crash? {
        assert ticks[..|ticks|] == ticks;
      } else {
        var c := Run(u, ticks[..n], UNKNOWN);
        OncePerLife(u, ticks[..n]);
        RunCoherent(u, ticks[..n], UNKNOWN);
        Delivery.NeverLost(u, ticks[..n]);
        assert ticks[..n][..Life(ticks)] == ticks[..Life(ticks)];
        StepOnce(BaseOf(u, ticks), ticks[n], u, Command(u, ticks[..n]), c);
        AddedOnce(u, ticks, BaseOf(u, ticks), c, Run(u, ticks, UNKNOWN));
      }
    }
  }

  function Crashes(ticks: seq<Tick>): nat {
    if ticks == [] then 0
    else Crashes(ticks[..|ticks| - 1]) + if ticks[|ticks| - 1].event.Crash? then 1 else 0
  }

  /** The fan-outs at the listed ticks, one after the other. */
  function Picked(fans: seq<seq<Module>>, at: seq<nat>): seq<Module>
    requires forall k :: 0 <= k < |at| ==> at[k] < |fans|
  {
    if at == [] then [] else Picked(fans, at[..|at| - 1]) + fans[at[|at| - 1]]
  }

  predicate CrashBetween(ticks: seq<Tick>, i: nat, j: nat) {
    exists k :: i < k < j && k < |ticks| && ticks[k].event.Crash?
  }

  /** Ticks of the run in order, with a crash between any two neighbours. */
  ghost predicate OnePerLife(ticks: seq<Tick>, at: seq<nat>) {
    && |at| <= 1 + Crashes(ticks)
    && (forall k :: 0 <= k < |at| ==> at[k] < |ticks|)
    && forall k :: 0 <= k < |at| - 1 ==> CrashBetween(ticks, at[k], at[k + 1])
  }

  /**
    Over every run without a mixed sweep the first frames of pre-process, and those
    of post-process, are one fan-out after another: the reached recipients of the
    message's own command, in order and nothing besides, with a crash between any
    two of them. So there are at most as many as one more than crashes.
   */
  lemma {:induction false} DispatchedOncePerLife(u: Uuid, ticks: seq<Tick>, stage: Stage) returns (at: seq<nat>)
    requires Unmixed(u, ticks, UNKNOWN) && !stage.InProcess?
    ensures OnePerLife(ticks, at)
    ensures Opening(Run(u, ticks, UNKNOWN).log, stage) == Picked(FansOf(u, ticks, stage), at)
    decreases |ticks|
  {
    var k, fans := Life(ticks), FansOf(u, ticks, stage);
    at := [];
    if k > 0 {
      LifeAfterCrash(u, ticks);
      UnmixedBefore(u, ticks, k - 1);
      at := DispatchedOncePerLife(u, ticks[..k - 1], stage);
      FansBefore(u, ticks, stage, k - 1);
      SamePicked(fans, k - 1, at);
      LongerRun(ticks, k - 1, at);
    } else {
      assert ticks[..0] == [];
    }
    SinceCrash(u, ticks, stage);
    at := OneMore(ticks, fans, at, Opening(Run(u, ticks, UNKNOWN).log, stage));
  }

  lemma SinceCrash(u: Uuid, ticks: seq<Tick>, stage: Stage)
    requires Unmixed(u, ticks, UNKNOWN) && !stage.InProcess?
    ensures OneOf(FansOf(u, ticks, stage), Life(ticks), Opening(Run(u, ticks[..Life(ticks)], UNKNOWN).log, stage),
                  Opening(Run(u, ticks, UNKNOWN).log, stage))
  {
    OncePerLife(u, ticks);
  }

  /** A process that is not the first begins right after a crash, with what had been sent. */
  lemma LifeAfterCrash(u: Uuid, ticks: seq<Tick>)
    requires Life(ticks) > 0
    ensures var k := Life(ticks);
      ticks[k - 1].event.Crash? && Run(u, ticks[..k], UNKNOWN).log == Run(u, ticks[..k - 1], UNKNOWN).log
  {
    LifeStart(ticks);
    CrashKeepsLog(u, ticks[..Life(ticks) - 1], ticks[Life(ticks) - 1]);
    assert ticks[..Life(ticks)] == ticks[..Life(ticks) - 1] + [ticks[Life(ticks) - 1]];
  }

  lemma {:induction false} LifeStart(ticks: seq<Tick>)
    requires Life(ticks) > 0
    ensures ticks[Life(ticks) - 1].event.Crash?
  {
    if !ticks[|ticks| - 1].event.Crash? {
      LifeStart(ticks[..|ticks| - 1]);
    }
  }

  lemma CrashKeepsLog(u: Uuid, ticks: seq<Tick>, crash: Tick)
    requires crash.event.Crash?
    ensures Run(u, ticks + [crash], UNKNOWN).log == Run(u, ticks, UNKNOWN).log
  {
    RunAppend(u, ticks, crash, UNKNOWN);
  }

  lemma {:induction false} UnmixedBefore(u: Uuid, ticks: seq<Tick>, k: nat)
    requires Unmixed(u, ticks, UNKNOWN) && k <= |ticks|
    ensures Unmixed(u, ticks[..k], UNKNOWN)
  {
    if k < |ticks| {
      UnmixedBefore(u, ticks[..|ticks| - 1], k);
      assert ticks[..|ticks| - 1][..k] == ticks[..k];
    } else {
      assert ticks[..k] == ticks;
    }
  }

  lemma {:induction false} SamePicked(fans: seq<seq<Module>>, k: nat, at: seq<nat>)
    requires k <= |fans| && forall i :: 0 <= i < |at| ==> at[i] < k
    ensures Picked(fans, at) == Picked(fans[..k], at)
  {
    if at != [] {
      SamePicked(fans, k, at[..|at| - 1]);
    }
  }

  lemma {:induction false} MoreCrashes(ticks: seq<Tick>, k: nat)
    requires k <= |ticks|
    ensures Crashes(ticks[..k]) <= Crashes(ticks)
    ensures k < |ticks| && ticks[k].event.Crash? ==> Crashes(ticks[..k]) < Crashes(ticks)
  {
    if k < |ticks| {
      MoreCrashes(ticks[..|ticks| - 1], k);
      assert ticks[..|ticks| - 1][..k] == ticks[..k];
    } else {
      assert ticks[..k] == ticks;
    }
  }

  /** What a run has opened leaves room for one fan-out after a crash that ends it. */
  lemma LongerRun(ticks: seq<Tick>, k: nat, at: seq<nat>)
    requires k < |ticks| && ticks[k].event.Crash? && OnePerLife(ticks[..k], at)
    ensures OnePerLife(ticks, at) && |at| <= Crashes(ticks)
  {
    MoreCrashes(ticks, k);
    forall i | 0 <= i < |at| - 1
      ensures CrashBetween(ticks, at[i], at[i + 1])
    {
      assert CrashBetween(ticks[..k], at[i], at[i + 1]);
      var j :| at[i] < j < at[i + 1] && j < k && ticks[..k][j].event.Crash?;
      assert ticks[j].event.Crash?;
    }
  }

  /** What this process opened comes last. */
  lemma OneMore(ticks: seq<Tick>, fans: seq<seq<Module>>, at: seq<nat>, sent: seq<Module>) returns (at': seq<nat>)
    requires |fans| == |ticks| && OnePerLife(ticks, at) && |at| <= Crashes(ticks)
    requires Life(ticks) > 0 ==> ticks[Life(ticks) - 1].event.Crash? && forall k :: 0 <= k < |at| ==> at[k] < Life(ticks) - 1
    requires Life(ticks) == 0 ==> at == []
    requires OneOf(fans, Life(ticks), Picked(fans, at), sent)
    ensures OnePerLife(ticks, at') && sent == Picked(fans, at')
  {
    at' := at;
    if sent != Picked(fans, at) {
      var i :| Life(ticks) <= i < |fans| && sent == Picked(fans, at) + fans[i];
      at' := at + [i];
      assert at'[..|at|] == at;
      if at != [] {
        assert CrashBetween(ticks, at[|at| - 1], i);
      }
    }
  }

  /** Without a crash it is one fan-out, or none. */
  lemma DispatchedOnce(u: Uuid, ticks: seq<Tick>, stage: Stage)
    requires Unmixed(u, ticks, UNKNOWN) && !stage.InProcess?
    requires forall i :: 0 <= i < |ticks| ==> !ticks[i].event.Crash?
    ensures var sent := Opening(Run(u, ticks, UNKNOWN).log, stage);
      sent == [] || exists i :: 0 <= i < |ticks| && sent == FansOf(u, ticks, stage)[i]
  {
    SinceCrash(u, ticks, stage);
    NoCrashNoLife(ticks);
    assert ticks[..0] == [];
  }

  lemma {:induction false} NoCrashNoLife(ticks: seq<Tick>)
    requires forall i :: 0 <= i < |ticks| ==> !ticks[i].event.Crash?
    ensures Life(ticks) == 0 && Crashes(ticks) == 0
  {
    if ticks != [] {
      NoCrashNoLife(ticks[..|ticks| - 1]);
    }
  }

  // ── A crash does repeat a dispatch ─────────────────────────────────────

  /** One display, no other module. */
  function Booth(): World {
    World(Config([], [], ["d"], 3000, []), Registry.EMPTY, [],
          (u, s, m) => true, (u, s, m) => SendOutcome.Sent)
  }

  lemma BoothRecipients()
    ensures Recipients(Booth(), None, []) == [] && PostRecipients(Booth(), None, ["d"]) == ["d"]
  {
    assert ["d"][1..] == [];
    assert PostRecipients(Booth(), None, []) == [];
  }

  lemma BoothFanOut(u: Uuid, now: int, c: Cell)
    ensures FanOut(Booth(), u, PostProcess, now, ["d"], c) == Track(Booth(), u, PostProcess, now, "d", c)
    ensures AnyReached(Booth(), u, PostProcess, ["d"])
  {
    assert ["d"][..0] == [];
    assert FanOut(Booth(), u, PostProcess, now, [], c) == c;
    assert "d" in ["d"] && Booth().Reaches(u, PostProcess, "d");
  }

  lemma BoothShows(u: Uuid, now: int, c: Cell)
    requires c.mem.Some? && c.mem.value.parsed.None? && !c.Audited()
    ensures BroadcastPre(Booth(), u, now, false, c)
         == Track(Booth(), u, PostProcess, now, "d", c.(mem := Some(c.mem.value.(stage := PostProcess))))
  {
    BoothRecipients();
    assert !AnyReached(Booth(), u, PreProcess, []) && FanOut(Booth(), u, PreProcess, now, [], c) == c;
    var c1 := c.(mem := Some(c.mem.value.(stage := InProcess)));
    var c2 := c.(mem := Some(c.mem.value.(stage := PostProcess)));
    BoothFanOut(u, now, c2);
    assert StartPost(Booth(), u, now, false, c1) == Track(Booth(), u, PostProcess, now, "d", c2);
  }

  /**
    The row stays 'queued' until the terminal write, so a message that a display has
    been sent but not answered is recovered after a crash, and the display is sent it
    again; no sweep is involved.
   */
  lemma ShownAgain(u: Uuid, ingest: Tick, crash: Tick, again: Tick)
    requires ingest == Tick(Booth(), 0, false, Ingest(Incoming(1, "twitch", "hi", "", None, None, None)))
    requires crash.event.Crash? && again == Tick(Booth(), 1, false, Recover)
    ensures Unmixed(u, [ingest, crash, again], UNKNOWN)
    ensures var shown := Dispatch(PostProcess, "d", 0);
      Run(u, [ingest], UNKNOWN).log == [shown] && Run(u, [ingest, crash, again], UNKNOWN).log == [shown] + [shown]
  {
    var up := Step(Booth(), u, 0, false, ingest.event, UNKNOWN);
    BoothIngest(u, ingest);
    BoothCrashes(u, crash, again, up);
    ThreeSteps(u, ingest, crash, again, UNKNOWN);
    NoSweepNoMix(u, [ingest, crash, again]);
  }

  lemma BoothCrashes(u: Uuid, crash: Tick, again: Tick, c: Cell)
    requires c.row.Some? && c.row.value.status.Queued? && crash.event.Crash? && again == Tick(Booth(), 1, false, Recover)
    ensures var down := Step(crash.world, u, crash.now, crash.gated, crash.event, c);
      Step(again.world, u, again.now, again.gated, again.event, down).log == c.log + [Dispatch(PostProcess, "d", 0)]
  {
    BoothRecovers(u, c.(mem := None, pending := [], held := None, backlog := multiset{}));
  }

  lemma BoothRecovers(u: Uuid, c: Cell)
    requires Stranded(c)
    ensures Step(Booth(), u, 1, false, Recover, c).log == c.log + [Dispatch(PostProcess, "d", 0)]
  {
    BoothShows(u, 1, Reclaimed(c));
  }

  lemma BoothIngest(u: Uuid, ingest: Tick)
    requires ingest == Tick(Booth(), 0, false, Ingest(Incoming(1, "twitch", "hi", "", None, None, None)))
    ensures var c := Step(Booth(), u, 0, false, ingest.event, UNKNOWN);
      && c.log == [Dispatch(PostProcess, "d", 0)] && c.row.Some? && c.row.value.status.Queued? && !c.everHeld
  {
    BoothShows(u, 0, Ingested(ingest.event.msg, UNKNOWN));
  }

  lemma {:induction false} NoSweepNoMix(u: Uuid, ticks: seq<Tick>)
    requires forall i :: 0 <= i < |ticks| ==> !ticks[i].event.Expire? && !ticks[i].event.Resume?
    ensures Unmixed(u, ticks, UNKNOWN)
  {
    if ticks != [] {
      NoSweepNoMix(u, ticks[..|ticks| - 1]);
    }
  }

  // ── Whose command it is ────────────────────────────────────────────────

  lemma NoRowStep(t: Tick, u: Uuid, c: Cell)
    requires c.row.None? && Delivery.Safe(c) && !t.event.Ingest?
    ensures Step(t.world, u, t.now, t.gated, t.event, c).row.None?
  {
    match t.event
    case Expire(which) => NothingToSweep(t.world, u, t.now, which, c);
    case Resume(restart, which) =>
      assert Unhold(restart, c).pending == [];
      NothingToSweep(t.world, u, t.now, which, Unhold(restart, c));
    case _ =>
  }

  lemma {:induction false} NoRowBefore(u: Uuid, ticks: seq<Tick>)
    requires forall i :: 0 <= i < |ticks| ==> !ticks[i].event.Ingest?
    ensures Run(u, ticks, UNKNOWN).row.None? && Command(u, ticks) == None
  {
    if ticks != [] {
      var n := |ticks| - 1;
      NoRowBefore(u, ticks[..n]);
      Delivery.NeverLost(u, ticks[..n]);
      NoRowStep(ticks[n], u, Run(u, ticks[..n], UNKNOWN));
    }
  }

  /** From its first ingest on and until a crash, a message goes by the command it came with. */
  lemma {:induction false} OwnCommand(u: Uuid, ticks: seq<Tick>, first: nat)
    requires Unmixed(u, ticks, UNKNOWN) && first < |ticks| && ticks[first].event.Ingest?
    requires forall i :: 0 <= i < first ==> !ticks[i].event.Ingest?
    requires forall i :: 0 <= i < |ticks| ==> !ticks[i].event.Crash?
    ensures Run(u, ticks, UNKNOWN).row.Some? && Command(u, ticks) == ticks[first].event.msg.parsed
  {
    var n := |ticks| - 1;
    var c := Run(u, ticks[..n], UNKNOWN);
    RunCoherent(u, ticks[..n], UNKNOWN);
    Delivery.NeverLost(u, ticks[..n]);
    if n == first {
      NoRowBefore(u, ticks[..n]);
      RowFromIngest(ticks[n], u, c);
    } else {
      OwnCommand(u, ticks[..n], first);
      NotStranded(u, ticks[..n]);
      RowFromIngest(ticks[n], u, c);
    }
  }

  lemma NotStranded(u: Uuid, ticks: seq<Tick>)
    requires forall i :: 0 <= i < |ticks| ==> !ticks[i].event.Crash?
    ensures !Stranded(Run(u, ticks, UNKNOWN))
  {
    Delivery.QueuedMeansClaimed(u, ticks);
  }

  /** An ingest leaves a row, and a row stays. */
  lemma RowFromIngest(t: Tick, u: Uuid, c: Cell)
    requires Coherent(c) && Delivery.Safe(c) && !t.event.Crash? && (c.row.Some? || t.event.Ingest?)
    ensures Step(t.world, u, t.now, t.gated, t.event, c).row.Some?
  {
    if c.row.None? {
      var msg := t.event.msg;
      BroadcastAdded(OpenedBy(c.log), t.world, u, t.now, t.gated, msg.parsed, Ingested(msg, c));
    } else {
      StepOnce(OpenedBy(c.log), t, u, if c.mem.Some? then c.mem.value.parsed else None, c);
    }
  }

  // ── Bounds on frames ───────────────────────────────────────────────────

  lemma {:induction false} ReachedShape(w: World, u: Uuid, stage: Stage, ms: seq<Module>)
    ensures forall m :: m in Reached(w, u, stage, ms) <==> m in ms && w.Reaches(u, stage, m)
    ensures Distinct(ms) ==> Distinct(Reached(w, u, stage, ms))
  {
    if ms != [] {
      var n := |ms| - 1;
      ReachedShape(w, u, stage, ms[..n]);
      assert ms == ms[..n] + [ms[n]];
      if Distinct(ms) {
        assert Distinct(ms[..n]) && ms[n] !in ms[..n];
      }
    }
  }

  lemma {:induction false} TimesOpened(log: seq<Dispatch>, stage: Stage, m: Module)
    ensures Resends.Times(log, Dispatch(stage, m, 0)) == multiset(Opening(log, stage))[m]
  {
    if log != [] {
      TimesOpened(log[..|log| - 1], stage, m);
    }
  }

  lemma DistinctCount(ms: seq<Module>, m: Module)
    requires Distinct(ms)
    ensures multiset(ms)[m] <= 1
  {
    if m in ms {
      var i :| 0 <= i < |ms| && ms[i] == m;
      assert ms == ms[..i] + [m] + ms[i + 1..];
      assert m !in ms[..i] && m !in ms[i + 1..];
    }
  }

  lemma FanDistinct(w: World, u: Uuid, stage: Stage, cmd: Option<Key>, m: Module)
    requires Proper(w) && !stage.InProcess?
    ensures multiset(FanOf(w, u, stage, cmd))[m] <= 1
  {
    RecipientsDistinct(w, cmd);
    ReachedShape(w, u, stage, RecipientsAt(w, stage, cmd));
    DistinctCount(FanOf(w, u, stage, cmd), m);
  }

  lemma FansDistinct(u: Uuid, ticks: seq<Tick>, stage: Stage, m: Module)
    requires !stage.InProcess? && forall i :: 0 <= i < |ticks| ==> Proper(ticks[i].world)
    ensures forall i :: 0 <= i < |ticks| ==> multiset(FansOf(u, ticks, stage)[i])[m] <= 1
  {
    forall i | 0 <= i < |ticks|
      ensures multiset(FansOf(u, ticks, stage)[i])[m] <= 1
    {
      FanDistinct(ticks[i].world, u, stage, Command(u, ticks[..i + 1]), m);
    }
  }

  lemma {:induction false} PickedCount(fans: seq<seq<Module>>, at: seq<nat>, m: Module)
    requires forall k :: 0 <= k < |at| ==> at[k] < |fans|
    requires forall i :: 0 <= i < |fans| ==> multiset(fans[i])[m] <= 1
    ensures multiset(Picked(fans, at))[m] <= |at|
  {
    if at != [] {
      PickedCount(fans, at[..|at| - 1], m);
    }
  }

  /**
    So, whatever modules answer, ignore or miss, no pre-process module and no
    display gets more than 1 + MAX_ACK_RESENDS frames of a message for each
    process that worked on it.
   */
  lemma FramesAreBounded(u: Uuid, ticks: seq<Tick>, stage: Stage, m: Module)
    requires Unmixed(u, ticks, UNKNOWN) && !stage.InProcess?
    requires forall i :: 0 <= i < |ticks| ==> Proper(ticks[i].world)
    ensures Resends.Frames(Run(u, ticks, UNKNOWN).log, stage, m) <= (1 + Crashes(ticks)) * (1 + MAX_ACK_RESENDS)
  {
    var log := Run(u, ticks, UNKNOWN).log;
    var at := DispatchedOncePerLife(u, ticks, stage);
    FansDistinct(u, ticks, stage, m);
    PickedCount(FansOf(u, ticks, stage), at, m);
    TimesOpened(log, stage, m);
    Resends.ResendsAreBounded(u, ticks, stage, m);
  }

  lemma {:induction false} FirstInOpens(log: seq<Dispatch>)
    ensures Opening(log, InProcess) == Chain.FirstIn(log)
  {
    if log != [] {
      FirstInOpens(log[..|log| - 1]);
    }
  }

  lemma {:induction false} TakersDistinct(w: World, u: Uuid, cmd: Option<Key>, ms: seq<Module>)
    ensures forall m :: m in Chain.Takers(w, u, cmd, ms) ==> m in ms
    ensures Distinct(ms) ==> Distinct(Chain.Takers(w, u, cmd, ms))
  {
    if ms != [] {
      var n := |ms| - 1;
      TakersDistinct(w, u, cmd, ms[..n]);
      assert ms == ms[..n] + [ms[n]];
      if Distinct(ms) {
        assert Distinct(ms[..n]) && ms[n] !in ms[..n];
      }
    }
  }

  /** With fixed surroundings and no crash no in-process module does either. */
  lemma ChainFramesAreBounded(w: World, u: Uuid, cmd: Option<Key>, ticks: seq<Tick>, m: Module)
    requires Chain.Fixed(w, cmd, ticks) && Unmixed(u, ticks, UNKNOWN) && Distinct(w.config.inProcess)
    ensures Resends.Frames(Run(u, ticks, UNKNOWN).log, InProcess, m) <= 1 + MAX_ACK_RESENDS
  {
    var log, all := Run(u, ticks, UNKNOWN).log, w.config.inProcess;
    Chain.ChainIsExact(w, u, cmd, ticks);
    var k :| 0 <= k <= |all| && Chain.FirstIn(log) == Chain.Takers(w, u, cmd, all[..k]);
    assert Distinct(all[..k]);
    TakersDistinct(w, u, cmd, all[..k]);
    FirstInOpens(log);
    TimesOpened(log, InProcess, m);
    DistinctCount(Opening(log, InProcess), m);
    Resends.ResendsAreBounded(u, ticks, InProcess, m);
  }
}
