/**
  When a terminal status is final. A message that was never held leaves the
  engine's memory with its terminal write, and its row is settled; a released one
  may still be in flight, and end again.
 */
module Finality {
  import opened Basics
  import opened Rows
  import opened Messages
  import opened Sweeps
  import Delivery

  /** The row has ended and nothing of the message is left in memory. */
  ghost predicate Settled(c: Cell) {
    && c.mem.None? && c.pending == []
    && c.row.Some? && !c.row.value.status.Queued? && !c.Audited()
  }

  lemma SettledStays(t: Tick, u: Uuid, c: Cell)
    requires Settled(c) && !t.event.TakeAudit?
    ensures var c' := Step(t.world, u, t.now, t.gated, t.event, c); Settled(c') && c'.row == c.row
  {
    match t.event
    case Expire(which) => NothingToSweep(t.world, u, t.now, which, c);
    case Resume(restart, which) =>
      assert Unhold(restart, c).pending == [];
      NothingToSweep(t.world, u, t.now, which, Unhold(restart, c));
    case _ =>
  }

  lemma {:induction false} SettledForGood(u: Uuid, ticks: seq<Tick>, c: Cell)
    requires Settled(c) && forall i :: 0 <= i < |ticks| ==> !ticks[i].event.TakeAudit?
    ensures Settled(Run(u, ticks, c)) && Run(u, ticks, c).row == c.row
  {
    if ticks != [] {
      var n := |ticks| - 1;
      SettledForGood(u, ticks[..n], c);
      SettledStays(ticks[n], u, Run(u, ticks[..n], c));
    }
  }

  /**
    The terminal row of a message that was never held is final: acks, timeouts,
    replays, recoveries and crashes that come later do not touch it, until a flag.
   */
  lemma EndedOnce(u: Uuid, before: seq<Tick>, after: seq<Tick>)
    requires var c := Run(u, before, UNKNOWN);
      !c.everHeld && c.row.Some? && !c.row.value.status.Queued?
    requires forall i :: 0 <= i < |after| ==> !after[i].event.TakeAudit?
    ensures var c := Run(u, before, UNKNOWN); Run(u, after, c).row == c.row && Run(u, after, c).mem.None?
  {
    Delivery.NeverLost(u, before);
    SettledForGood(u, after, Run(u, before, UNKNOWN));
  }

  /** A message that was held may end twice: approved with an ack outstanding, then failed by its timeout. */
  lemma ApprovedThenFails(u: Uuid, flag: Tick, approve: Tick, sweep: Tick, reason: string, c: Cell)
    requires c.mem.Some? && c.row.Some? && !c.Audited() && |c.pending| == 1
    requires flag.event == TakeAudit(reason) && approve.event == ReleaseAudit(true)
    requires sweep.event == Expire({0}) && !sweep.gated
    requires var e := c.pending[0]; e.moduleName in sweep.world.config.critical && !Resendable(sweep.world, u, e)
    ensures Reads(Run(u, [flag, approve], c), Complete)
    ensures Reads(Run(u, [flag, approve, sweep], c), Failed)
  {
    ThreeSteps(u, flag, approve, sweep, c);
    FlaggedApproved(reason, flag.now, approve.now, c);
    OneExpires(sweep.world, u, sweep.now, Released(true, approve.now, TakenHold(reason, flag.now, c)));
  }

  lemma FlaggedApproved(reason: string, now: int, later: int, c: Cell)
    requires c.row.Some? && !c.Audited()
    ensures var c' := Released(true, later, TakenHold(reason, now, c));
      Reads(c', Complete) && !c'.Audited() && c'.mem == c.mem && c'.pending == c.pending
  {
  }

  predicate Reads(c: Cell, status: Status) {
    c.row.Some? && c.row.value.status == status
  }

  lemma OneExpires(w: World, u: Uuid, now: int, c: Cell)
    requires c.mem.Some? && c.row.Some? && !c.Audited() && |c.pending| == 1
    requires c.pending[0].moduleName in w.config.critical && !Resendable(w, u, c.pending[0])
    ensures Reads(Sweep(w, u, now, {0}, c), Failed)
  {
    var e, s := c.pending[0], Sweeping(c.(pending := []), false, false, false);
    assert c.pending == [e];
    OneTaken(e);
    OneSwept(w, u, now, HasCritical(w, [e]), e, s);
  }

  lemma OneTaken(e: Ack)
    ensures Kept([e], {0}) == [] && Expired([e], {0}) == [e]
  {
    assert [e][..0] == [];
    assert Kept([], {0}) == [] && Expired([], {0}) == [];
    assert Expired([e], {0}) == [] + [e];
  }

  lemma OneSwept(w: World, u: Uuid, now: int, critical: bool, e: Ack, s: Sweeping)
    requires s.cell.mem.Some? && s.cell.row.Some? && !s.cell.Audited() && !s.failed
    requires e.moduleName in w.config.critical && !Resendable(w, u, e)
    ensures Reads(SweepAll(w, u, now, false, critical, [e], s).cell, Failed)
  {
    assert [e][..0] == [];
    assert SweepAll(w, u, now, false, critical, [], s) == s;
    assert SweepOne(w, u, now, false, critical, e, s).cell == MarkFailed(TimeoutReason(e), now, s.cell);
  }
}
