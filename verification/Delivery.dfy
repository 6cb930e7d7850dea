/**
  Safety of a message over every run: it is never stranded, memory and timeline
  agree about it, and resends are bounded. Nothing here assumes anything about
  schedules, sweeps, modules or the gate.
 */
module Delivery {
  import opened Basics
  import opened Rows
  import opened Messages

  // ── What holds even in the middle of a handler ─────────────────────────

  /**
    A pending ack has a live state behind it, a live state has a row, and a row
    that was never held and has a live state is 'queued'.
   */
  ghost predicate Grounded(c: Cell) {
    && (c.pending != [] ==> c.mem.Some?)
    && (c.mem.Some? ==> c.row.Some?)
    && (c.Audited() ==> c.everHeld)
    && (c.mem.Some? && !c.everHeld ==> c.row.value.status.Queued?)
  }

  /** Something will still happen to the message: an ack, a release, a replay, or an operator. */
  ghost predicate InGoodHands(c: Cell) {
    c.mem.Some? ==> c.pending != [] || c.Parked() || c.everHeld
  }

  /** Every 'queued' row has an in-memory state. */
  ghost predicate Claimed(c: Cell) {
    !Stranded(c)
  }

  ghost predicate Safe(c: Cell) {
    Grounded(c) && InGoodHands(c)
  }

  lemma {:induction false} FanOutShape(w: World, u: Uuid, stage: Stage, now: int, ms: seq<Module>, c: Cell)
    ensures var c' := FanOut(w, u, stage, now, ms, c);
      && c' == c.(pending := c'.pending, log := c'.log)
      && c.pending <= c'.pending && c.log <= c'.log
      && (AnyReached(w, u, stage, ms) <==> c'.pending != c.pending)
      && (!AnyReached(w, u, stage, ms) ==> c' == c)
  {
    if ms != [] {
      var n := |ms| - 1;
      FanOutShape(w, u, stage, now, ms[..n], c);
      assert ms == ms[..n] + [ms[n]];
      assert ms[n] in ms;
    }
  }

  /** A terminal write either keeps the hold or takes the message out of memory. */
  lemma EndedSafe(outcome: Outcome, now: int, c: Cell)
    requires Grounded(c)
    requires outcome.EndComplete? || outcome.EndFailed? || outcome.EndDropped?
    ensures var c' := MarkEnded(outcome, now, c);
      && Safe(c') && c'.everHeld == c.everHeld
      && (c.Audited() || c'.mem.None?)
      && !Stranded(c')
  {
  }

  lemma StartPostSafe(w: World, u: Uuid, now: int, gated: bool, c: Cell)
    requires Grounded(c)
    ensures Safe(StartPost(w, u, now, gated, c))
    ensures !Stranded(c) ==> !Stranded(StartPost(w, u, now, gated, c))
  {
    if !gated && !c.Audited() && c.mem.Some? {
      var c1 := c.(mem := Some(c.mem.value.(stage := PostProcess)));
      var ms := PostRecipients(w, c.mem.value.parsed, w.config.post);
      FanOutShape(w, u, PostProcess, now, ms, c1);
      var c2 := FanOut(w, u, PostProcess, now, ms, c1);
      EndedSafe(EndComplete, now, c2);
    }
  }

  lemma {:induction false} StartInSafe(w: World, u: Uuid, now: int, gated: bool, c: Cell)
    requires Grounded(c)
    ensures Safe(StartIn(w, u, now, gated, c))
    ensures !Stranded(c) ==> !Stranded(StartIn(w, u, now, gated, c))
    decreases if c.mem.Some? then |w.config.inProcess| - c.mem.value.index else 0, 0
  {
    if !gated && !c.Audited() && c.mem.Some? {
      var c1 := c.(mem := Some(c.mem.value.(stage := InProcess)));
      var ms, i := w.config.inProcess, c.mem.value.index;
      if i >= |ms| {
        StartPostSafe(w, u, now, gated, c1);
      } else if !InProcessTurn(w, u, c.mem.value.parsed, ms[i]) {
        NextInSafe(w, u, now, gated, c1);
      }
    }
  }

  lemma {:induction false} NextInSafe(w: World, u: Uuid, now: int, gated: bool, c: Cell)
    requires Grounded(c)
    ensures Safe(NextIn(w, u, now, gated, c))
    ensures !Stranded(c) ==> !Stranded(NextIn(w, u, now, gated, c))
    decreases if c.mem.Some? && c.mem.value.index < |w.config.inProcess|
      then |w.config.inProcess| - c.mem.value.index - 1 else 0, 1
  {
    if c.mem.Some? {
      var c1 := c.(mem := Some(c.mem.value.(index := c.mem.value.index + 1)));
      if c1.mem.value.index >= |w.config.inProcess| {
        StartPostSafe(w, u, now, gated, c1);
      } else {
        StartInSafe(w, u, now, gated, c1);
      }
    }
  }

  lemma BroadcastPreSafe(w: World, u: Uuid, now: int, gated: bool, c: Cell)
    requires Grounded(c)
    ensures Safe(BroadcastPre(w, u, now, gated, c))
    ensures !Stranded(c) ==> !Stranded(BroadcastPre(w, u, now, gated, c))
  {
    if !gated && c.mem.Some? {
      var ms := Recipients(w, c.mem.value.parsed, w.config.pre);
      FanOutShape(w, u, PreProcess, now, ms, c);
      StartInSafe(w, u, now, gated, FanOut(w, u, PreProcess, now, ms, c));
    }
  }

  lemma AdvanceSafe(stage: Stage, w: World, u: Uuid, now: int, gated: bool, c: Cell)
    requires Grounded(c)
    ensures Safe(Advance(stage, w, u, now, gated, c))
    ensures !Stranded(c) ==> !Stranded(Advance(stage, w, u, now, gated, c))
  {
    match stage
    case PreProcess => StartInSafe(w, u, now, gated, StampPre(now, c));
    case InProcess => NextInSafe(w, u, now, gated, StampIn(now, c));
    case PostProcess => EndedSafe(EndComplete, now, c);
  }

  // ── The sweep ──────────────────────────────────────────────────────────

  lemma {:induction false} SplitShape(es: seq<Ack>, which: set<nat>)
    ensures multiset(Kept(es, which)) + multiset(Expired(es, which)) == multiset(es)
    ensures Kept(es, which) == [] && Expired(es, which) == [] <==> es == []
  {
    if es != [] {
      var n := |es| - 1;
      SplitShape(es[..n], which);
      assert es == es[..n] + [es[n]];
    }
  }

  /** Once an expired entry has been looked at, the message has been dealt with. */
  ghost predicate DealtWith(w: World, still: bool, critical: bool, seen: seq<Ack>, s: Sweeping) {
    && Grounded(s.cell)
    && (still || s.resent || s.failed || s.advanced ==> InGoodHands(s.cell))
    && (HasCritical(w, seen) ==> s.resent || s.failed)
    && (seen != [] && !critical ==> still || s.resent || s.advanced)
  }

  lemma CriticalSnoc(w: World, es: seq<Ack>, e: Ack)
    ensures HasCritical(w, es + [e]) <==> HasCritical(w, es) || e.moduleName in w.config.critical
  {
    var all := es + [e];
    if i :| 0 <= i < |es| && es[i].moduleName in w.config.critical {
      assert all[i] == es[i];
    }
    if e.moduleName in w.config.critical {
      assert all[|es|] == e;
    }
  }

  lemma SweepOneSafe(w: World, u: Uuid, now: int, still: bool, critical: bool, seen: seq<Ack>, e: Ack, s: Sweeping)
    requires DealtWith(w, still, critical, seen, s)
    requires e.moduleName in w.config.critical ==> critical
    ensures DealtWith(w, still, critical, seen + [e], SweepOne(w, u, now, still, critical, e, s))
    ensures !Stranded(s.cell) ==> !Stranded(SweepOne(w, u, now, still, critical, e, s).cell)
  {
    CriticalSnoc(w, seen, e);
    if s.cell.mem.Some? && Resendable(w, u, e) {
    } else if e.moduleName in w.config.critical {
      EndedSafe(EndFailed(TimeoutReason(e)), now, s.cell);
    } else if !still && !s.resent && !critical && !s.advanced {
      AdvanceSafe(e.stage, w, u, now, false, s.cell);
    }
  }

  lemma {:induction false} SweepAllSafe(w: World, u: Uuid, now: int, still: bool, critical: bool, es: seq<Ack>, s: Sweeping)
    requires DealtWith(w, still, critical, [], s)
    requires HasCritical(w, es) ==> critical
    ensures DealtWith(w, still, critical, es, SweepAll(w, u, now, still, critical, es, s))
    ensures !Stranded(s.cell) ==> !Stranded(SweepAll(w, u, now, still, critical, es, s).cell)
  {
    if es != [] {
      var n := |es| - 1;
      assert es == es[..n] + [es[n]];
      CriticalSnoc(w, es[..n], es[n]);
      SweepAllSafe(w, u, now, still, critical, es[..n], s);
      SweepOneSafe(w, u, now, still, critical, es[..n], es[n], SweepAll(w, u, now, still, critical, es[..n], s));
    }
  }

  lemma SweepSafe(w: World, u: Uuid, now: int, which: set<nat>, c: Cell)
    requires Safe(c)
    ensures Safe(Sweep(w, u, now, which, c))
    ensures !Stranded(c) ==> !Stranded(Sweep(w, u, now, which, c))
  {
    var kept, expired := Kept(c.pending, which), Expired(c.pending, which);
    SplitShape(c.pending, which);
    if expired == [] {
      KeptAll(c.pending, which);
    } else {
      BatchSafe(w, u, now, kept, expired, c);
    }
  }

  lemma BatchSafe(w: World, u: Uuid, now: int, kept: seq<Ack>, expired: seq<Ack>, c: Cell)
    requires Grounded(c) && c.mem.Some? && expired != []
    ensures var start := Sweeping(c.(pending := kept), false, false, false);
      var c' := SweepAll(w, u, now, kept != [], HasCritical(w, expired), expired, start).cell;
      Safe(c') && (!Stranded(c) ==> !Stranded(c'))
  {
    SweepAllSafe(w, u, now, kept != [], HasCritical(w, expired), expired, Sweeping(c.(pending := kept), false, false, false));
  }

  lemma {:induction false} KeptAll(es: seq<Ack>, which: set<nat>)
    requires Expired(es, which) == []
    ensures Kept(es, which) == es
  {
    if es != [] {
      var n := |es| - 1;
      KeptAll(es[..n], which);
      assert es == es[..n] + [es[n]];
    }
  }

  // ── Steps and runs ─────────────────────────────────────────────────────

  lemma AckSafe(w: World, u: Uuid, now: int, gated: bool, m: Module, c: Cell)
    requires Safe(c)
    ensures Safe(HandleAck(w, u, now, gated, m, c))
    ensures !Stranded(c) ==> !Stranded(HandleAck(w, u, now, gated, m, c))
  {
    var acked := AckedStage(c.pending, m);
    if acked.Some? {
      AdvanceSafe(acked.value, w, u, now, gated, c.(pending := Without(c.pending, m)));
    }
  }

  lemma ReplySafe(w: World, u: Uuid, now: int, gated: bool, e: Event, c: Cell)
    requires Safe(c) && e.Reply?
    ensures Safe(Replied(w, u, now, gated, e, c))
    ensures !Stranded(c) ==> !Stranded(Replied(w, u, now, gated, e, c))
  {
    var c1 := RecordReply(e.stage, e.text, e.mime, e.bytes, c);
    EndedSafe(EndDropped(AbandonReason(e.sender)), now, c1);
    AckSafe(w, u, now, gated, e.sender, c1);
  }

  lemma ReplaySafe(w: World, u: Uuid, now: int, gated: bool, p: HoldPoint, c: Cell)
    requires Safe(c)
    ensures Safe(Replayed(w, u, now, gated, p, c))
    ensures !Stranded(c) ==> !Stranded(Replayed(w, u, now, gated, p, c))
  {
    if p in c.backlog {
      var c1 := c.(backlog := c.backlog - multiset{p});
      match p
      case Entry => BroadcastPreSafe(w, u, now, gated, c1);
      case AtInProcess => StartInSafe(w, u, now, gated, c1);
      case AtPostProcess => StartPostSafe(w, u, now, gated, c1);
    }
  }

  /**
    Every step keeps the message safe. Only a crash can leave a 'queued' row
    without a state, and recovering the message repairs that.
   */
  lemma StepSafe(t: Tick, u: Uuid, c: Cell)
    requires Safe(c)
    ensures var c' := Step(t.world, u, t.now, t.gated, t.event, c);
      && Safe(c')
      && (!Stranded(c) && !t.event.Crash? ==> !Stranded(c'))
      && (t.event.Recover? ==> !Stranded(c'))
  {
    var w, now, gated := t.world, t.now, t.gated;
    match t.event
    case Ingest(msg) =>
      if c.row.None? { BroadcastPreSafe(w, u, now, gated, Ingested(msg, c)); }
    case Recover =>
      if Stranded(c) { BroadcastPreSafe(w, u, now, gated, Reclaimed(c)); }
    case Reply(_, _, _, _, _, _) => ReplySafe(w, u, now, gated, t.event, c);
    case Receipt(m) =>
    case Expire(which) => SweepSafe(w, u, now, which, c);
    case Resume(restart, which) =>
      SweepSafe(w, u, now, which, Unhold(restart, c));
    case Replay(p) => ReplaySafe(w, u, now, gated, p, c);
    case TakeAudit(reason) =>
    case ReleaseAudit(approve) =>
    case Crash =>
  }

  /**
    No in-flight message is ever stranded, over any run at all: whenever a
    message has a state it has a pending ack, or is held, or is owed a replay,
    or its row has been held for audit. And a state whose row was never held has
    a 'queued' row.
   */
  lemma {:induction false} NeverLost(u: Uuid, ticks: seq<Tick>)
    ensures var c := Run(u, ticks, UNKNOWN);
      && (c.mem.Some? ==> c.pending != [] || c.held.Some? || c.backlog != multiset{} || c.everHeld)
      && (c.mem.Some? && !c.everHeld ==> c.row.Some? && c.row.value.status.Queued?)
      && (c.pending != [] ==> c.mem.Some?)
      && Safe(c)
  {
    if ticks != [] {
      NeverLost(u, ticks[..|ticks| - 1]);
      StepSafe(ticks[|ticks| - 1], u, Run(u, ticks[..|ticks| - 1], UNKNOWN));
    }
  }

  /** A crash that no recovery pass has followed. */
  ghost predicate Unrecovered(ticks: seq<Tick>) {
    exists i :: 0 <= i < |ticks| && ticks[i].event.Crash?
                && forall j :: i < j < |ticks| ==> !ticks[j].event.Recover?
  }

  lemma UnrecoveredNext(ticks: seq<Tick>, t: Tick)
    requires t.event.Crash? || (Unrecovered(ticks) && !t.event.Recover?)
    ensures Unrecovered(ticks + [t])
  {
    var all := ticks + [t];
    if t.event.Crash? {
      assert all[|ticks|].event.Crash?;
    } else {
      var i :| 0 <= i < |ticks| && ticks[i].event.Crash? && forall j :: i < j < |ticks| ==> !ticks[j].event.Recover?;
      assert all[i] == ticks[i] && forall j :: i < j < |all| ==> all[j] == if j < |ticks| then ticks[j] else t;
    }
  }

  lemma StrandedComes(t: Tick, u: Uuid, c: Cell)
    requires Safe(c)
    ensures Stranded(Step(t.world, u, t.now, t.gated, t.event, c)) ==> t.event.Crash? || (Stranded(c) && !t.event.Recover?)
  {
    StepSafe(t, u, c);
  }

  /**
    Every 'queued' row has a live state, unless the engine crashed and the row
    has not been through a recovery since.
   */
  lemma {:induction false} QueuedMeansClaimed(u: Uuid, ticks: seq<Tick>)
    ensures Stranded(Run(u, ticks, UNKNOWN)) ==> Unrecovered(ticks)
  {
    if ticks != [] {
      var n := |ticks| - 1;
      QueuedMeansClaimed(u, ticks[..n]);
      NeverLost(u, ticks[..n]);
      StrandedComes(ticks[n], u, Run(u, ticks[..n], UNKNOWN));
      assert ticks == ticks[..n] + [ticks[n]];
      if Stranded(Run(u, ticks, UNKNOWN)) {
        UnrecoveredNext(ticks[..n], ticks[n]);
      }
    }
  }

  /** Recovery claims exactly the stranded rows and never re-drives a live message. */
  lemma RecoverClaimsTheStranded(w: World, u: Uuid, now: int, gated: bool, c: Cell)
    requires Safe(c)
    ensures !Stranded(c) ==> Step(w, u, now, gated, Recover, c) == c
    ensures Stranded(c) ==>
      var c' := Step(w, u, now, gated, Recover, c);
      && !Stranded(c') && Safe(c')
      && Step(w, u, now, gated, Recover, c') == c'
  {
    StepSafe(Tick(w, now, gated, Recover), u, c);
    if Stranded(c) {
      BroadcastPreSafe(w, u, now, gated, Reclaimed(c));
      StepSafe(Tick(w, now, gated, Recover), u, Step(w, u, now, gated, Recover, c));
    }
  }
}
