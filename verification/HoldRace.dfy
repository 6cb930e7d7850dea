/**
  What a hold check that came too early can do. Five paths ask whether the row is
  held and only then act (src/pipeline.rs): the terminal paths `mark_complete`,
  `mark_failed` and `mark_dropped` take the state and write, and the stage starts
  `start_in_process` and `start_post_process` move the stage and send. The flag may
  land in between. Here a run may contain the second half of any of the five on its
  own, anywhere, and the hold theorems are stated for such runs.
 */
module HoldRace {
  import opened Basics
  import opened Rows
  import opened Messages
  import opened AuditHold
  import Delivery

  /** A whole handler, or the second half of a path whose check found no hold. */
  datatype Moment =
    | Whole(tick: Tick)
    | Late(outcome: Outcome, now: int)
    | LateIn(world: World, now: int, gated: bool)
    | LatePost(world: World, now: int)

  predicate Ends(outcome: Outcome) {
    outcome.EndComplete? || outcome.EndFailed? || outcome.EndDropped?
  }

  /** Take the state, write, clear the acks. An abandon that finds no state stops. */
  function LateEnding(outcome: Outcome, now: int, c: Cell): Cell {
    if outcome.EndDropped? && c.mem.None? then c
    else c.(row := Write(c, outcome, ResultOf(c.mem), now), mem := None, pending := [])
  }

  /** Set the stage, then send, or move on to the next start, which asks again. */
  function InAfterCheck(w: World, u: Uuid, now: int, gated: bool, c: Cell): Cell {
    if c.mem.None? then c
    else
      var c1 := c.(mem := Some(c.mem.value.(stage := InProcess)));
      var ms, i := w.config.inProcess, c.mem.value.index;
      if i >= |ms| then StartPost(w, u, now, gated, c1)
      else if InProcessTurn(w, u, c.mem.value.parsed, ms[i]) then Track(w, u, InProcess, now, ms[i], c1)
      else NextIn(w, u, now, gated, c1)
  }

  /** Set the stage and fan out; with nobody reached, complete, which asks again. */
  function PostAfterCheck(w: World, u: Uuid, now: int, c: Cell): Cell {
    if c.mem.None? then c
    else
      var c1 := c.(mem := Some(c.mem.value.(stage := PostProcess)));
      var ms := PostRecipients(w, c.mem.value.parsed, w.config.post);
      var c2 := FanOut(w, u, PostProcess, now, ms, c1);
      if AnyReached(w, u, PostProcess, ms) then c2 else MarkComplete(now, c2)
  }

  function Happens(u: Uuid, m: Moment, c: Cell): Cell {
    match m
    case Whole(t) => Step(t.world, u, t.now, t.gated, t.event, c)
    case Late(outcome, now) => LateEnding(outcome, now, c)
    case LateIn(w, now, gated) => InAfterCheck(w, u, now, gated, c)
    case LatePost(w, now) => PostAfterCheck(w, u, now, c)
  }

  function Racing(u: Uuid, ms: seq<Moment>, c: Cell): Cell {
    if ms == [] then c else Happens(u, ms[|ms| - 1], Racing(u, ms[..|ms| - 1], c))
  }

  /** Every terminal path is its hold check followed by this second half. */
  lemma CheckThenLate(reason: string, now: int, c: Cell)
    ensures MarkComplete(now, c) == if c.Audited() then PreserveHold(now, c) else LateEnding(EndComplete, now, c)
    ensures MarkFailed(reason, now, c) == if c.Audited() then PreserveHold(now, c) else LateEnding(EndFailed(reason), now, c)
    ensures MarkDropped(reason, now, c) == if c.Audited() then PreserveHold(now, c) else LateEnding(EndDropped(reason), now, c)
  {
  }

  /** Every stage start is its gate, its hold check, and this second half. */
  lemma CheckThenStart(w: World, u: Uuid, now: int, gated: bool, c: Cell)
    ensures StartIn(w, u, now, gated, c)
         == if gated then Hold(c, AtInProcess) else if c.Audited() then c else InAfterCheck(w, u, now, gated, c)
    ensures StartPost(w, u, now, gated, c)
         == if gated then Hold(c, AtPostProcess) else if c.Audited() then c else PostAfterCheck(w, u, now, c)
  {
  }

  /** A run of whole handlers is a racing run. */
  lemma {:induction false} RunIsRacing(u: Uuid, ticks: seq<Tick>, c: Cell)
    ensures Racing(u, seq(|ticks|, i requires 0 <= i < |ticks| => Whole(ticks[i])), c) == Run(u, ticks, c)
  {
    var ms := seq(|ticks|, i requires 0 <= i < |ticks| => Whole(ticks[i]));
    if ticks != [] {
      var n := |ticks| - 1;
      RunIsRacing(u, ticks[..n], c);
      assert ms[..n] == seq(n, i requires 0 <= i < n => Whole(ticks[..n][i]));
    }
  }

  // ── When the hold survives ─────────────────────────────────────────────

  /** A late failure, or a late drop of a message still in flight. */
  predicate Clobbers(m: Moment, c: Cell) {
    m.Late? && (m.outcome.EndFailed? || (m.outcome.EndDropped? && c.mem.Some?))
  }

  /** No operator releases, and only terminal paths end late. */
  ghost predicate Unreleased(ms: seq<Moment>) {
    forall i :: 0 <= i < |ms| ==> Permitted(ms[i])
  }

  predicate Permitted(m: Moment) {
    match m
    case Whole(t) => !t.event.ReleaseAudit?
    case Late(outcome, _) => Ends(outcome)
    case _ => true
  }

  /** The row is held after every moment of the run. */
  predicate HeldThroughout(u: Uuid, ms: seq<Moment>, c: Cell) {
    Racing(u, ms, c).Audited() && (ms != [] ==> HeldThroughout(u, ms[..|ms| - 1], c))
  }

  /** No moment of the run clobbers the hold it finds. */
  predicate NeverClobbered(u: Uuid, ms: seq<Moment>, c: Cell) {
    ms == [] ||
    (!Clobbers(ms[|ms| - 1], Racing(u, ms[..|ms| - 1], c)) && NeverClobbered(u, ms[..|ms| - 1], c))
  }

  /**
    Under a hold, with acks, receipts, timeouts, failures, abandons, pauses,
    replays, crashes, recoveries, late ends and late stage starts in any order, the
    row stays held throughout if and only if no late failure, and no late drop of a
    message in flight, lands on it. Then the reason stays at the head of the flags.
   */
  lemma {:induction false} HoldSurvivesIff(u: Uuid, ms: seq<Moment>, c: Cell)
    requires c.Audited() && Unreleased(ms)
    ensures HeldThroughout(u, ms, c) <==> NeverClobbered(u, ms, c)
    ensures NeverClobbered(u, ms, c) ==> RowKept(c, Racing(u, ms, c))
  {
    if ms != [] {
      var n := |ms| - 1;
      HoldSurvivesIff(u, ms[..n], c);
      if NeverClobbered(u, ms[..n], c) {
        MomentKeepsIff(u, ms[n], Racing(u, ms[..n], c));
      }
    }
  }

  lemma MomentKeepsIff(u: Uuid, m: Moment, c: Cell)
    requires c.Audited() && Permitted(m)
    ensures Happens(u, m, c).Audited() <==> !Clobbers(m, c)
    ensures !Clobbers(m, c) ==> RowKept(c, Happens(u, m, c))
  {
    match m
    case Whole(t) => StepKeeps(t, u, c);
    case Late(outcome, now) => LateWriteKeepsHold(c.row.value, outcome, ResultOf(c.mem), now);
    case LateIn(w, now, gated) => InKeepsRow(w, u, now, gated, c);
    case LatePost(w, now) => PostKeepsRow(w, u, now, c);
  }

  lemma InKeepsRow(w: World, u: Uuid, now: int, gated: bool, c: Cell)
    requires c.Audited()
    ensures RowKept(c, InAfterCheck(w, u, now, gated, c))
  {
    if c.mem.Some? {
      var c1 := c.(mem := Some(c.mem.value.(stage := InProcess)));
      StartPostKeeps(w, u, now, gated, c1);
      NextInKeeps(w, u, now, gated, c1);
    }
  }

  lemma PostKeepsRow(w: World, u: Uuid, now: int, c: Cell)
    requires c.Audited()
    ensures RowKept(c, PostAfterCheck(w, u, now, c))
  {
    if c.mem.Some? {
      var c1 := c.(mem := Some(c.mem.value.(stage := PostProcess)));
      var ms := PostRecipients(w, c.mem.value.parsed, w.config.post);
      Delivery.FanOutShape(w, u, PostProcess, now, ms, c1);
      EndedKeeps(EndComplete, now, FanOut(w, u, PostProcess, now, ms, c1));
    }
  }

  // ── When the message stays where it is ─────────────────────────────────

  /** A late stage start that finds the message in flight, and moves its stage or reaches a module. */
  predicate Moves(u: Uuid, m: Moment, c: Cell) {
    match m
    case LateIn(w, _, _) =>
      c.mem.Some? && (var s := c.mem.value;
        !s.stage.InProcess? ||
        (s.index < |w.config.inProcess| && InProcessTurn(w, u, s.parsed, w.config.inProcess[s.index])))
    case LatePost(w, _) =>
      c.mem.Some? && (var s := c.mem.value;
        !s.stage.PostProcess? || AnyReached(w, u, PostProcess, PostRecipients(w, s.parsed, w.config.post)))
    case _ => false
  }

  predicate NeverMoved(u: Uuid, ms: seq<Moment>, c: Cell) {
    ms == [] ||
    (!Moves(u, ms[|ms| - 1], Racing(u, ms[..|ms| - 1], c)) && NeverMoved(u, ms[..|ms| - 1], c))
  }

  ghost predicate PlaceKeptThroughout(u: Uuid, ms: seq<Moment>, c: Cell) {
    PlaceKept(c, Racing(u, ms, c)) && (ms != [] ==> PlaceKeptThroughout(u, ms[..|ms| - 1], c))
  }

  /**
    While the hold survives, a message stays at its stage and is sent to no module
    of a further one, throughout, if and only if no late stage start moves it.
   */
  lemma {:induction false} PlaceStaysIff(u: Uuid, ms: seq<Moment>, c: Cell)
    requires c.Audited() && Unreleased(ms) && NeverClobbered(u, ms, c)
    ensures PlaceKeptThroughout(u, ms, c) <==> NeverMoved(u, ms, c)
  {
    if ms != [] {
      var n := |ms| - 1;
      var before := Racing(u, ms[..n], c);
      PlaceStaysIff(u, ms[..n], c);
      HoldSurvivesIff(u, ms[..n], c);
      MomentStaysIff(u, ms[n], before);
    }
  }

  lemma MomentStaysIff(u: Uuid, m: Moment, c: Cell)
    requires c.Audited() && Permitted(m)
    ensures PlaceKept(c, Happens(u, m, c)) <==> !Moves(u, m, c)
    ensures Moves(u, m, c) ==> c.mem.Some?
  {
    match m
    case Whole(t) => StepKeeps(t, u, c);
    case Late(outcome, now) =>
    case LateIn(w, now, gated) => InStaysIff(w, u, now, gated, c);
    case LatePost(w, now) => PostStaysIff(w, u, now, c);
  }

  lemma InStaysIff(w: World, u: Uuid, now: int, gated: bool, c: Cell)
    requires c.Audited()
    ensures PlaceKept(c, InAfterCheck(w, u, now, gated, c)) <==> !Moves(u, LateIn(w, now, gated), c)
  {
    if c.mem.Some? {
      var c1 := c.(mem := Some(c.mem.value.(stage := InProcess)));
      var ms, i := w.config.inProcess, c.mem.value.index;
      HeldGoesNowhere(w, u, now, gated, c1);
      if i < |ms| && InProcessTurn(w, u, c.mem.value.parsed, ms[i]) {
        StageEntriesSnoc(c.log, Dispatch(InProcess, ms[i], 0));
      }
    }
  }

  /** The starts that follow ask for themselves, and find the hold. */
  lemma HeldGoesNowhere(w: World, u: Uuid, now: int, gated: bool, c: Cell)
    requires c.Audited() && c.mem.Some?
    ensures var c' := StartPost(w, u, now, gated, c); c'.log == c.log && c'.mem == c.mem
    ensures var c' := NextIn(w, u, now, gated, c);
      c'.log == c.log && c'.mem.Some? && c'.mem.value.stage == c.mem.value.stage
  {
  }

  lemma PostStaysIff(w: World, u: Uuid, now: int, c: Cell)
    requires c.Audited()
    ensures PlaceKept(c, PostAfterCheck(w, u, now, c)) <==> !Moves(u, LatePost(w, now), c)
  {
    if c.mem.Some? {
      var c1 := c.(mem := Some(c.mem.value.(stage := PostProcess)));
      var ms := PostRecipients(w, c.mem.value.parsed, w.config.post);
      Delivery.FanOutShape(w, u, PostProcess, now, ms, c1);
      FanOutEntries(w, u, now, ms, c1);
    }
  }

  /** Every ack a display fan-out tracks is one more entry into the stage. */
  lemma {:induction false} FanOutEntries(w: World, u: Uuid, now: int, ms: seq<Module>, c: Cell)
    ensures var c' := FanOut(w, u, PostProcess, now, ms, c);
      |StageEntries(c'.log)| - |StageEntries(c.log)| == |c'.pending| - |c.pending|
  {
    if ms != [] {
      var n := |ms| - 1;
      FanOutEntries(w, u, now, ms[..n], c);
      StageEntriesSnoc(FanOut(w, u, PostProcess, now, ms[..n], c).log, Dispatch(PostProcess, ms[n], 0));
    }
  }

  lemma {:induction false} FanOutSends(w: World, u: Uuid, stage: Stage, now: int, ms: seq<Module>, m: Module, c: Cell)
    requires m in ms && w.Reaches(u, stage, m)
    ensures Dispatch(stage, m, 0) in FanOut(w, u, stage, now, ms, c).log
  {
    var n := |ms| - 1;
    assert ms == ms[..n] + [ms[n]];
    if m in ms[..n] {
      FanOutSends(w, u, stage, now, ms[..n], m, c);
    }
  }

  /** A message that is flagged and shown all the same: its display start had passed the check. */
  lemma FlaggedButShown(u: Uuid, flag: Tick, reason: string, w: World, now: int, d: Module, c: Cell)
    requires c.mem.Some? && c.mem.value.stage.InProcess? && c.row.Some? && !c.Audited()
    requires flag.event == TakeAudit(reason)
    requires d in PostRecipients(w, c.mem.value.parsed, w.config.post) && w.Reaches(u, PostProcess, d)
    ensures var c' := Racing(u, [Whole(flag)] + [LatePost(w, now)], c);
      && c'.Audited() && reason <= FlagText(c'.row.value)
      && c'.mem.Some? && c'.mem.value.stage.PostProcess? && Dispatch(PostProcess, d, 0) in c'.log
  {
    var one, ms := [Whole(flag)], [Whole(flag)] + [LatePost(w, now)];
    var flagged := TakenHold(reason, flag.now, c);
    assert one[..0] == [] && ms[..1] == one;
    assert Racing(u, one, c) == flagged;
    var to := PostRecipients(w, c.mem.value.parsed, w.config.post);
    var moved := flagged.(mem := Some(c.mem.value.(stage := PostProcess)));
    FanOutSends(w, u, PostProcess, now, to, d, moved);
    Delivery.FanOutShape(w, u, PostProcess, now, to, moved);
  }

  /** A losing run: any message in flight is flagged, and a failure that had passed its check lands. */
  lemma LateFailureLosesHold(u: Uuid, flag: Tick, reason: string, error: string, now: int, c: Cell)
    requires c.mem.Some? && c.row.Some? && !c.Audited() && flag.event == TakeAudit(reason)
    ensures var ms := [Whole(flag), Late(EndFailed(error), now)];
      && Racing(u, ms[..1], c).Audited()
      && !Racing(u, ms, c).Audited() && Racing(u, ms, c).row.value.status.Failed?
  {
    var ms := [Whole(flag), Late(EndFailed(error), now)];
    assert ms[..1] == [Whole(flag)] && [Whole(flag)][..0] == [];
    assert Racing(u, ms[..1], c) == TakenHold(reason, flag.now, c);
  }

  // ── What a late completion costs ───────────────────────────────────────

  /** The message has no state, its row is past the queue, and this is the data on it. */
  ghost predicate Forgotten(c: Cell, processed: Option<string>, blob: Option<Blob>) {
    && c.mem.None? && c.pending == [] && c.row.Some? && !c.row.value.status.Queued?
    && c.row.value.processed == processed && c.row.value.blob == blob
  }

  lemma ForgottenStays(u: Uuid, m: Moment, c: Cell, processed: Option<string>, blob: Option<Blob>)
    requires Forgotten(c, processed, blob) && (m.Late? ==> Ends(m.outcome))
    ensures Forgotten(Happens(u, m, c), processed, blob)
  {
    match m
    case Late(_, _) =>
    case LateIn(_, _, _) =>
    case LatePost(_, _) =>
    case Whole(t) =>
      match t.event
      case Expire(which) =>
        assert Kept([], which) == [] && Expired([], which) == [];
      case Resume(restart, which) =>
        assert Unhold(restart, c).pending == [];
        assert Kept([], which) == [] && Expired([], which) == [];
      case _ =>
  }

  lemma {:induction false} ForgottenForGood(u: Uuid, ms: seq<Moment>, c: Cell, processed: Option<string>, blob: Option<Blob>)
    requires Forgotten(c, processed, blob)
    requires forall i :: 0 <= i < |ms| ==> ms[i].Late? ==> Ends(ms[i].outcome)
    ensures Forgotten(Racing(u, ms, c), processed, blob)
  {
    if ms != [] {
      ForgottenForGood(u, ms[..|ms| - 1], c, processed, blob);
      ForgottenStays(u, ms[|ms| - 1], Racing(u, ms[..|ms| - 1], c), processed, blob);
    }
  }

  /**
    A completion that lands under a hold keeps the hold but loses the run: the row
    is unchanged, the state is gone, and whatever happens afterwards, releases and
    recoveries included, the text and audio the run produced never reach the row.
   */
  lemma LateCompletionLosesTheRun(u: Uuid, now: int, c: Cell, ms: seq<Moment>)
    requires c.Audited()
    requires forall i :: 0 <= i < |ms| ==> ms[i].Late? ==> Ends(ms[i].outcome)
    ensures var late := LateEnding(EndComplete, now, c);
      && late.row == c.row && late.mem.None? && late.pending == []
      && Forgotten(Racing(u, ms, late), c.row.value.processed, c.row.value.blob)
  {
    ForgottenForGood(u, ms, LateEnding(EndComplete, now, c), c.row.value.processed, c.row.value.blob);
  }

  // ── Nothing is stranded by the race ────────────────────────────────────

  /** Delivery safety holds of racing runs as well. */
  lemma {:induction false} NeverLostRacing(u: Uuid, ms: seq<Moment>)
    requires forall i :: 0 <= i < |ms| ==> ms[i].Late? ==> Ends(ms[i].outcome)
    ensures Delivery.Safe(Racing(u, ms, UNKNOWN))
  {
    if ms != [] {
      var n := |ms| - 1;
      NeverLostRacing(u, ms[..n]);
      var c := Racing(u, ms[..n], UNKNOWN);
      match ms[n]
      case Whole(t) => Delivery.StepSafe(t, u, c);
      case Late(_, _) =>
      case LateIn(w, now, gated) => InSafe(w, u, now, gated, c);
      case LatePost(w, now) => PostSafe(w, u, now, c);
    }
  }

  lemma InSafe(w: World, u: Uuid, now: int, gated: bool, c: Cell)
    requires Delivery.Safe(c)
    ensures Delivery.Safe(InAfterCheck(w, u, now, gated, c))
  {
    if c.mem.Some? {
      var c1 := c.(mem := Some(c.mem.value.(stage := InProcess)));
      Delivery.StartPostSafe(w, u, now, gated, c1);
      Delivery.NextInSafe(w, u, now, gated, c1);
    }
  }

  lemma PostSafe(w: World, u: Uuid, now: int, c: Cell)
    requires Delivery.Safe(c)
    ensures Delivery.Safe(PostAfterCheck(w, u, now, c))
  {
    if c.mem.Some? {
      var c1 := c.(mem := Some(c.mem.value.(stage := PostProcess)));
      var ms := PostRecipients(w, c.mem.value.parsed, w.config.post);
      Delivery.FanOutShape(w, u, PostProcess, now, ms, c1);
      Delivery.EndedSafe(EndComplete, now, FanOut(w, u, PostProcess, now, ms, c1));
    }
  }
}
