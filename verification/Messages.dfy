/**
  One message, everywhere the engine keeps a piece of it (src/pipeline.rs): its
  timeline row, its in-memory state, its pending acks, the hold a pause put it
  in, and the dispatches a resume still owes it. Every handler touches one
  message at a time, so each is specified here as a function from the old cell
  to the new one; `Orchestrator` implements them over the engine's tables.

  What a handler learns from outside (configuration, command registry, gates,
  connectivity) is a `World`; clock readings are parameters.
 */
module Messages {
  import opened Basics
  import opened Rows
  import opened AudioFlags
  import Registry

  type Module = Registry.Module
  type Key = Registry.Key

  const MAX_ACK_RESENDS := 3

  datatype Stage = PreProcess | InProcess | PostProcess {
    function Name(): string {
      match this
      case PreProcess => "pre_process"
      case InProcess => "in_process"
      case PostProcess => "post_process"
    }
  }

  /** The dispatch a message was about to make when the gate closed. */
  datatype HoldPoint = Entry | AtInProcess | AtPostProcess

  datatype SendOutcome = Sent | NotConnected | Dropped

  datatype Config = Config(
    pre: seq<Module>, inProcess: seq<Module>, post: seq<Module>,
    ackTimeout: nat, critical: seq<Module>)

  /**
    `catchAlls` is the order in which the registry's hash map happens to list its
    catch-all modules; `permit` answers the cost gate; `send` is the outcome of a
    bounded send of this message at this stage.
   */
  datatype World = World(
    config: Config,
    registry: Registry.Registry,
    catchAlls: seq<Module>,
    permit: (Uuid, Stage, Module) -> bool,
    send: (Uuid, Stage, Module) -> SendOutcome)
  {
    predicate Reaches(u: Uuid, stage: Stage, m: Module) {
      permit(u, stage, m) && send(u, stage, m) == Sent
    }
  }

  datatype MsgState = MsgState(
    stage: Stage,
    index: nat,
    raw: string,
    processed: string,
    user: string,
    parsed: Option<Key>,
    audio: Carried,
    preAt: Option<int>,
    inAt: Option<int>)

  datatype Ack = Ack(
    uuid: Uuid, stage: Stage, moduleName: Module, sentAt: int, timeout: nat, receipt: bool, resends: nat)

  /** A frame put on a module's channel: attempt 0 is the dispatch, later ones are resends. */
  datatype Dispatch = Dispatch(stage: Stage, moduleName: Module, attempt: nat)

  datatype Cell = Cell(
    row: Option<Row>,
    mem: Option<MsgState>,
    pending: seq<Ack>,
    held: Option<HoldPoint>,
    backlog: multiset<HoldPoint>,
    log: seq<Dispatch>,
    everHeld: bool)
  {
    predicate Audited() { Rows.Audited(row) }

    predicate Parked() { held.Some? || backlog != multiset{} }
  }

  const UNKNOWN := Cell(None, None, [], None, multiset{}, [], false)

  datatype Incoming = Incoming(
    eventType: int, platform: string, raw: string, user: string, command: Option<string>, flags: Option<string>, parsed: Option<Key>)

  // ── Routing ────────────────────────────────────────────────────────────

  predicate TakesPlain(r: Registry.Registry, m: Module) {
    !r.IsCommandScoped(m) || r.WantsPlainMessages(m)
  }

  function PlainRecipients(r: Registry.Registry, ms: seq<Module>): seq<Module> {
    if ms == [] then []
    else if TakesPlain(r, ms[0]) then [ms[0]] + PlainRecipients(r, ms[1..])
    else PlainRecipients(r, ms[1..])
  }

  function Retain(targets: seq<Module>, ms: seq<Module>): seq<Module> {
    if targets == [] then []
    else if targets[0] in ms then [targets[0]] + Retain(targets[1..], ms)
    else Retain(targets[1..], ms)
  }

  /** `command_recipients`: owner plus catch-alls for a command, plain listeners otherwise. */
  function Recipients(w: World, parsed: Option<Key>, ms: seq<Module>): seq<Module> {
    match parsed
    case None => PlainRecipients(w.registry, ms)
    case Some(key) =>
      var owner := w.registry.Owner(key);
      Retain((if owner.Some? then [owner.value] else []) + w.catchAlls, ms)
  }

  /** Displays see every message; only a command-scoped module is narrowed to what it owns. */
  predicate PostRecipient(w: World, parsed: Option<Key>, m: Module) {
    TakesPlain(w.registry, m) || (parsed.Some? && w.registry.Owner(parsed.value) == Some(m))
  }

  function PostRecipients(w: World, parsed: Option<Key>, ms: seq<Module>): seq<Module> {
    if ms == [] then []
    else if PostRecipient(w, parsed, ms[0]) then [ms[0]] + PostRecipients(w, parsed, ms[1..])
    else PostRecipients(w, parsed, ms[1..])
  }

  // ── Fan-out ────────────────────────────────────────────────────────────

  function Track(w: World, u: Uuid, stage: Stage, now: int, m: Module, c: Cell): Cell {
    c.(pending := c.pending + [Ack(u, stage, m, now, w.config.ackTimeout, false, 0)],
       log := c.log + [Dispatch(stage, m, 0)])
  }

  function FanOut(w: World, u: Uuid, stage: Stage, now: int, ms: seq<Module>, c: Cell): Cell {
    if ms == [] then c
    else
      var m, before := ms[|ms| - 1], FanOut(w, u, stage, now, ms[..|ms| - 1], c);
      if w.Reaches(u, stage, m) then Track(w, u, stage, now, m, before) else before
  }

  predicate AnyReached(w: World, u: Uuid, stage: Stage, ms: seq<Module>) {
    exists m :: m in ms && w.Reaches(u, stage, m)
  }

  // ── Terminal paths ─────────────────────────────────────────────────────

  function ResultOf(mem: Option<MsgState>): RunResult {
    match mem
    case None => EMPTY_RESULT
    case Some(s) => CarriedResult(s.audio, RunResult(Some(s.processed), s.preAt, s.inAt, None, []))
  }

  function Write(c: Cell, outcome: Outcome, result: RunResult, now: int): Option<Row> {
    if c.row.None? then None else Some(TerminalRow(c.row.value, outcome, result, now))
  }

  /** A held message keeps its hold on every terminal path; only its data lands. */
  function PreserveHold(now: int, c: Cell): Cell {
    c.(row := Write(c, AuditHeld, ResultOf(c.mem), now))
  }

  function MarkEnded(outcome: Outcome, now: int, c: Cell): Cell {
    if c.Audited() then PreserveHold(now, c)
    else c.(row := Write(c, outcome, ResultOf(c.mem), now), mem := None, pending := [])
  }

  function MarkComplete(now: int, c: Cell): Cell {
    MarkEnded(EndComplete, now, c)
  }

  function MarkFailed(reason: string, now: int, c: Cell): Cell {
    MarkEnded(EndFailed(reason), now, c)
  }

  /** An abandon only ends a message that is still in flight. */
  function MarkDropped(reason: string, now: int, c: Cell): Cell {
    if !c.Audited() && c.mem.None? then c else MarkEnded(EndDropped(reason), now, c)
  }

  // ── Stage starts; each asks the gate first ─────────────────────────────

  function Hold(c: Cell, p: HoldPoint): Cell {
    c.(held := Some(p))
  }

  function StartPost(w: World, u: Uuid, now: int, gated: bool, c: Cell): Cell {
    if gated then Hold(c, AtPostProcess)
    else if c.Audited() || c.mem.None? then c
    else
      var c1 := c.(mem := Some(c.mem.value.(stage := PostProcess)));
      var ms := PostRecipients(w, c.mem.value.parsed, w.config.post);
      var c2 := FanOut(w, u, PostProcess, now, ms, c1);
      if AnyReached(w, u, PostProcess, ms) then c2 else MarkComplete(now, c2)
  }

  predicate InProcessTurn(w: World, u: Uuid, parsed: Option<Key>, m: Module) {
    m in Recipients(w, parsed, w.config.inProcess) && w.Reaches(u, InProcess, m)
  }

  /** Dispatch to the module at the message's index, skipping those that cannot take it. */
  function StartIn(w: World, u: Uuid, now: int, gated: bool, c: Cell): Cell
    decreases if c.mem.Some? then |w.config.inProcess| - c.mem.value.index else 0, 0
  {
    if gated then Hold(c, AtInProcess)
    else if c.Audited() || c.mem.None? then c
    else
      var c1 := c.(mem := Some(c.mem.value.(stage := InProcess)));
      var ms, i := w.config.inProcess, c.mem.value.index;
      if i >= |ms| then StartPost(w, u, now, gated, c1)
      else if InProcessTurn(w, u, c.mem.value.parsed, ms[i]) then Track(w, u, InProcess, now, ms[i], c1)
      else NextIn(w, u, now, gated, c1)
  }

  /** Move on to the next in-process module, or to post-process after the last. */
  function NextIn(w: World, u: Uuid, now: int, gated: bool, c: Cell): Cell
    decreases if c.mem.Some? && c.mem.value.index < |w.config.inProcess|
      then |w.config.inProcess| - c.mem.value.index - 1 else 0, 1
  {
    if c.mem.None? then c
    else
      var c1 := c.(mem := Some(c.mem.value.(index := c.mem.value.index + 1)));
      if c1.mem.value.index >= |w.config.inProcess| then StartPost(w, u, now, gated, c1)
      else StartIn(w, u, now, gated, c1)
  }

  function BroadcastPre(w: World, u: Uuid, now: int, gated: bool, c: Cell): Cell {
    if gated then Hold(c, Entry)
    else if c.mem.None? then c
    else
      var ms := Recipients(w, c.mem.value.parsed, w.config.pre);
      var c1 := FanOut(w, u, PreProcess, now, ms, c);
      if AnyReached(w, u, PreProcess, ms) then c1 else StartIn(w, u, now, gated, c1)
  }

  function DispatchFrom(p: HoldPoint, w: World, u: Uuid, now: int, gated: bool, c: Cell): Cell {
    match p
    case Entry => BroadcastPre(w, u, now, gated, c)
    case AtInProcess => StartIn(w, u, now, gated, c)
    case AtPostProcess => StartPost(w, u, now, gated, c)
  }

  // ── Replies ────────────────────────────────────────────────────────────

  function StampPre(now: int, c: Cell): Cell {
    if c.mem.None? then c else c.(mem := Some(c.mem.value.(preAt := Some(now))))
  }

  function StampIn(now: int, c: Cell): Cell {
    if c.mem.None? then c else c.(mem := Some(c.mem.value.(inAt := Some(now))))
  }

  /** What follows once a stage is finished. */
  function Advance(stage: Stage, w: World, u: Uuid, now: int, gated: bool, c: Cell): Cell {
    match stage
    case PreProcess => StartIn(w, u, now, gated, StampPre(now, c))
    case InProcess => NextIn(w, u, now, gated, StampIn(now, c))
    case PostProcess => MarkComplete(now, c)
  }

  function Without(es: seq<Ack>, m: Module): seq<Ack> {
    if es == [] then []
    else if es[0].moduleName == m then Without(es[1..], m)
    else [es[0]] + Without(es[1..], m)
  }

  /** The stage of the first entry of module `m`. */
  function AckedStage(es: seq<Ack>, m: Module): Option<Stage> {
    if es == [] then None
    else if es[0].moduleName == m then Some(es[0].stage)
    else AckedStage(es[1..], m)
  }

  /** An in-process ack always moves on; a fan-out waits for its last module. */
  function HandleAck(w: World, u: Uuid, now: int, gated: bool, m: Module, c: Cell): Cell {
    var stage := AckedStage(c.pending, m);
    if stage.None? then c
    else
      var c1 := c.(pending := Without(c.pending, m));
      if stage.value.InProcess? || c1.pending == [] then Advance(stage.value, w, u, now, gated, c1) else c1
  }

  predicate Owns(es: seq<Ack>, m: Module, stage: Stage) {
    exists i :: 0 <= i < |es| && es[i].moduleName == m && es[i].stage == stage
  }

  function AudioStageOf(stage: Stage): AudioStage {
    match stage
    case PreProcess => Pre
    case InProcess => In
    case PostProcess => Post
  }

  function RecordReply(stage: Stage, text: string, mime: string, bytes: Blob, c: Cell): Cell {
    if c.mem.None? then c
    else
      var s := c.mem.value;
      c.(mem := Some(s.(processed := text, audio := Store(s.audio, AudioCall(AudioStageOf(stage), mime, bytes)))))
  }

  function AbandonReason(m: Module): string {
    "abandoned by module '" + m + "'"
  }

  function MarkReceipt(es: seq<Ack>, m: Module): seq<Ack> {
    if es == [] then []
    else if es[0].moduleName == m then [es[0].(receipt := true)] + es[1..]
    else [es[0]] + MarkReceipt(es[1..], m)
  }

  // ── The timeout sweep ──────────────────────────────────────────────────

  /** The entries whose budget is spent at `now`, by position. */
  function Due(es: seq<Ack>, now: int): set<nat> {
    set i | 0 <= i < |es| && now - es[i].sentAt > es[i].timeout
  }

  function Kept(es: seq<Ack>, which: set<nat>): seq<Ack> {
    if es == [] then []
    else
      var n := |es| - 1;
      Kept(es[..n], which) + if n in which then [] else [es[n]]
  }

  function Expired(es: seq<Ack>, which: set<nat>): seq<Ack> {
    if es == [] then []
    else
      var n := |es| - 1;
      Expired(es[..n], which) + if n in which then [es[n]] else []
  }

  predicate HasCritical(w: World, es: seq<Ack>) {
    exists i :: 0 <= i < |es| && es[i].moduleName in w.config.critical
  }

  function TimeoutReason(e: Ack): string {
    "Critical module '" + e.moduleName + "' timed out at stage '" + e.stage.Name() + "'"
  }

  /** A resend is due: no receipt, budget of resends left, and the channel takes the frame. */
  predicate Resendable(w: World, u: Uuid, e: Ack) {
    !e.receipt && e.resends < MAX_ACK_RESENDS && w.send(u, e.stage, e.moduleName) == Sent
  }

  function Resend(now: int, e: Ack, c: Cell): Cell {
    c.(pending := c.pending + [e.(sentAt := now, receipt := false, resends := e.resends + 1)],
       log := c.log + [Dispatch(e.stage, e.moduleName, e.resends + 1)])
  }

  /** A message in the middle of a sweep, with the sweep's per-message marks. */
  datatype Sweeping = Sweeping(cell: Cell, advanced: bool, failed: bool, resent: bool)

  function SweepOne(w: World, u: Uuid, now: int, still: bool, critical: bool, e: Ack, s: Sweeping): Sweeping {
    if s.cell.mem.Some? && Resendable(w, u, e) then
      s.(cell := Resend(now, e, s.cell), resent := true)
    else if e.moduleName in w.config.critical then
      if s.failed then s else s.(cell := MarkFailed(TimeoutReason(e), now, s.cell), failed := true)
    else if !still && !s.resent && !critical && !s.advanced then
      s.(cell := Advance(e.stage, w, u, now, false, s.cell), advanced := true)
    else s
  }

  function SweepAll(w: World, u: Uuid, now: int, still: bool, critical: bool, es: seq<Ack>, s: Sweeping): Sweeping {
    if es == [] then s
    else
      SweepOne(w, u, now, still, critical, es[|es| - 1],
               SweepAll(w, u, now, still, critical, es[..|es| - 1], s))
  }

  function Sweep(w: World, u: Uuid, now: int, which: set<nat>, c: Cell): Cell {
    var kept, expired := Kept(c.pending, which), Expired(c.pending, which);
    SweepAll(w, u, now, kept != [], HasCritical(w, expired), expired,
             Sweeping(c.(pending := kept), false, false, false)).cell
  }

  function RestartClocks(es: seq<Ack>, now: int): seq<Ack> {
    seq(|es|, i requires 0 <= i < |es| => es[i].(sentAt := now))
  }

  /** `resume` takes the hold off and hands the message its full budgets back. */
  function Unhold(now: int, c: Cell): Cell {
    c.(held := None,
       backlog := c.backlog + if c.held.Some? then multiset{c.held.value} else multiset{},
       pending := RestartClocks(c.pending, now))
  }

  // ── Entry, audit, crash ────────────────────────────────────────────────

  function NewRow(msg: Incoming): Row {
    Row(Queued, SCHEMA_VERSION, msg.eventType, msg.platform, [], msg.raw, if msg.command.Some? then msg.command.value else "",
        if msg.user == "" then None else Some(msg.user),
        Some(if msg.flags.Some? then msg.flags.value else "{}"),
        None, None, None, None, None, None, None)
  }

  function NewState(raw: string, user: string, parsed: Option<Key>): MsgState {
    MsgState(PreProcess, 0, raw, raw, user, parsed, SILENT, None, None)
  }

  function Ingested(msg: Incoming, c: Cell): Cell {
    c.(row := Some(NewRow(msg)), mem := Some(NewState(msg.raw, msg.user, msg.parsed)))
  }

  predicate Stranded(c: Cell) {
    c.mem.None? && c.row.Some? && c.row.value.status.Queued?
  }

  /** The parsed command is not on the row, so a recovered message runs as plain chat. */
  function Reclaimed(c: Cell): Cell
    requires c.row.Some?
  {
    var row := c.row.value;
    c.(mem := Some(NewState(row.rawMessage, if row.user.Some? then row.user.value else "", None)))
  }

  /** A second row for one uuid7 is refused. */
  function Entered(w: World, u: Uuid, now: int, gated: bool, msg: Incoming, c: Cell): Cell {
    if c.row.Some? then c else BroadcastPre(w, u, now, gated, Ingested(msg, c))
  }

  /** The ack-timeout sweep waits for the gate. */
  function Lapsed(w: World, u: Uuid, now: int, gated: bool, which: set<nat>, c: Cell): Cell {
    if gated then c else Sweep(w, u, now, which, c)
  }

  /** Crash recovery re-drives a stranded message and leaves a live one alone. */
  function Recovered(w: World, u: Uuid, now: int, gated: bool, c: Cell): Cell {
    if Stranded(c) then BroadcastPre(w, u, now, gated, Reclaimed(c)) else c
  }

  function TakenHold(reason: string, now: int, c: Cell): Cell {
    if c.Audited() || c.row.None? then c
    else c.(row := Write(c, TakeHold(reason), EMPTY_RESULT, now), everHeld := true)
  }

  function Released(approve: bool, now: int, c: Cell): Cell {
    if !c.Audited() then c
    else if approve then c.(row := Some(c.row.value.(status := Complete, persistedAt := Some(now))))
    else c.(row := Some(c.row.value.(status := Failed)))
  }

  // ── Steps ──────────────────────────────────────────────────────────────

  /** Everything that can happen to a message. */
  datatype Event =
    | Ingest(msg: Incoming)
    | Recover
    | Reply(stage: Stage, sender: Module, text: string, mime: string, bytes: Blob, abandon: bool)
    | Receipt(sender: Module)
    | Expire(which: set<nat>)
    | Resume(restart: int, which: set<nat>)
    | Replay(point: HoldPoint)
    | TakeAudit(reason: string)
    | ReleaseAudit(approve: bool)
    | Crash

  /** A stage reply counts only from a module that owes one for that stage. */
  function Replied(w: World, u: Uuid, now: int, gated: bool, e: Event, c: Cell): Cell
    requires e.Reply?
  {
    if !Owns(c.pending, e.sender, e.stage) then c
    else
      var c1 := RecordReply(e.stage, e.text, e.mime, e.bytes, c);
      if e.stage.InProcess? && e.abandon then MarkDropped(AbandonReason(e.sender), now, c1)
      else HandleAck(w, u, now, gated, e.sender, c1)
  }

  /** The sweep a resume runs is skipped while a dependency block keeps the gate closed. */
  function Resumed(w: World, u: Uuid, now: int, gated: bool, restart: int, which: set<nat>, c: Cell): Cell {
    if gated then Unhold(restart, c) else Sweep(w, u, now, which, Unhold(restart, c))
  }

  function Replayed(w: World, u: Uuid, now: int, gated: bool, p: HoldPoint, c: Cell): Cell {
    if p in c.backlog then DispatchFrom(p, w, u, now, gated, c.(backlog := c.backlog - multiset{p})) else c
  }

  function Step(w: World, u: Uuid, now: int, gated: bool, e: Event, c: Cell): Cell {
    match e
    case Ingest(msg) => Entered(w, u, now, gated, msg, c)
    case Recover => Recovered(w, u, now, gated, c)
    case Reply(_, _, _, _, _, _) => Replied(w, u, now, gated, e, c)
    case Receipt(m) => c.(pending := MarkReceipt(c.pending, m))
    case Expire(which) => Lapsed(w, u, now, gated, which, c)
    case Resume(restart, which) => Resumed(w, u, now, gated, restart, which, c)
    case Replay(p) => Replayed(w, u, now, gated, p, c)
    case TakeAudit(reason) => TakenHold(reason, now, c)
    case ReleaseAudit(approve) => Released(approve, now, c)
    case Crash => c.(mem := None, pending := [], held := None, backlog := multiset{})
  }

  /** One step as the message sees it: the outside world, a clock, the gate, and what happened. */
  datatype Tick = Tick(world: World, now: int, gated: bool, event: Event)

  /** A whole run of one message. The gate may open and close anywhere in it. */
  function Run(u: Uuid, ticks: seq<Tick>, c: Cell): Cell {
    if ticks == [] then c
    else
      var t := ticks[|ticks| - 1];
      Step(t.world, u, t.now, t.gated, t.event, Run(u, ticks[..|ticks| - 1], c))
  }

  lemma RunNext(u: Uuid, ticks: seq<Tick>, k: nat, c: Cell)
    requires k < |ticks|
    ensures var t := ticks[k];
      Run(u, ticks[..k + 1], c) == Step(t.world, u, t.now, t.gated, t.event, Run(u, ticks[..k], c))
  {
    assert ticks[..k + 1][..k] == ticks[..k];
  }

  lemma RunAppend(u: Uuid, ticks: seq<Tick>, t: Tick, c: Cell)
    ensures Run(u, ticks + [t], c) == Step(t.world, u, t.now, t.gated, t.event, Run(u, ticks, c))
  {
    assert (ticks + [t])[..|ticks|] == ticks;
  }

  lemma ThreeSteps(u: Uuid, t1: Tick, t2: Tick, t3: Tick, c: Cell)
    ensures var one := Step(t1.world, u, t1.now, t1.gated, t1.event, c);
      var two := Step(t2.world, u, t2.now, t2.gated, t2.event, one);
      && Run(u, [t1], c) == one && Run(u, [t1, t2], c) == two
      && Run(u, [t1, t2, t3], c) == Step(t3.world, u, t3.now, t3.gated, t3.event, two)
  {
    assert [] + [t1] == [t1] && [t1] + [t2] == [t1, t2] && [t1, t2] + [t3] == [t1, t2, t3];
    RunAppend(u, [], t1, c);
    RunAppend(u, [t1], t2, c);
    RunAppend(u, [t1, t2], t3, c);
  }
}
