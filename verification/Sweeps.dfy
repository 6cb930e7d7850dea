/**
  What one timeout sweep does to a message, in closed form: it either only
  resends, or fails the message once, or advances it once. The sweep loop with
  its three sets of marks refines this.
 */
module Sweeps {
  import opened Basics
  import opened Rows
  import opened Messages

  /** Resend every entry of the batch that can be resent. */
  function ResendAll(w: World, u: Uuid, now: int, es: seq<Ack>, c: Cell): Cell {
    if es == [] then c
    else
      var e, before := es[|es| - 1], ResendAll(w, u, now, es[..|es| - 1], c);
      if Resendable(w, u, e) then Resend(now, e, before) else before
  }

  predicate Fatal(w: World, u: Uuid, e: Ack) {
    e.moduleName in w.config.critical && !Resendable(w, u, e)
  }

  /** Position of the first entry that fails the message, or the length. */
  function FirstFatal(w: World, u: Uuid, es: seq<Ack>): (k: nat)
    ensures k <= |es|
    ensures k < |es| ==> Fatal(w, u, es[k])
    ensures forall i :: 0 <= i < k ==> !Fatal(w, u, es[i])
  {
    if es == [] then 0
    else
      var n := |es| - 1;
      var k := FirstFatal(w, u, es[..n]);
      if k < n || Fatal(w, u, es[n]) then k else |es|
  }

  /** The batch moves the message on: nothing kept, nothing critical, and its head cannot be resent. */
  predicate Advancing(w: World, u: Uuid, kept: seq<Ack>, expired: seq<Ack>) {
    kept == [] && expired != [] && !HasCritical(w, expired) && !Resendable(w, u, expired[0])
  }

  /** The message fails at `fatal`; a held one also gets the resends after it. */
  function Failing(w: World, u: Uuid, now: int, resent: seq<Ack>, fatal: Ack, c: Cell): Cell {
    MarkFailed(TimeoutReason(fatal), now, ResendAll(w, u, now, resent, c))
  }

  /** The message moves on at the head of the batch, and the rest is resent. */
  function Moving(w: World, u: Uuid, now: int, expired: seq<Ack>, c: Cell): Cell
    requires expired != []
  {
    var moved := Advance(expired[0].stage, w, u, now, false, c);
    if moved.mem.None? then moved else ResendAll(w, u, now, expired[1..], moved)
  }

  function SweepResult(w: World, u: Uuid, now: int, kept: seq<Ack>, expired: seq<Ack>, c: Cell): Cell {
    var c0 := c.(pending := kept);
    var k := FirstFatal(w, u, expired);
    if k < |expired| then Failing(w, u, now, if c.Audited() then expired else expired[..k], expired[k], c0)
    else if Advancing(w, u, kept, expired) then Moving(w, u, now, expired, c0)
    else ResendAll(w, u, now, expired, c0)
  }

  lemma {:induction false} ResendAllShape(w: World, u: Uuid, now: int, es: seq<Ack>, c: Cell)
    ensures var c' := ResendAll(w, u, now, es, c);
      && c' == c.(pending := c'.pending, log := c'.log)
      && c.pending <= c'.pending && c.log <= c'.log
      && (c'.pending == c.pending <==> forall i :: 0 <= i < |es| ==> !Resendable(w, u, es[i]))
      && (c'.pending == c.pending ==> c' == c)
      && (forall i :: |c.pending| <= i < |c'.pending| ==>
            exists j :: 0 <= j < |es| && c'.pending[i].stage == es[j].stage)
  {
    if es != [] {
      var n := |es| - 1;
      ResendAllShape(w, u, now, es[..n], c);
      var before, c' := ResendAll(w, u, now, es[..n], c), ResendAll(w, u, now, es, c);
      forall i | |c.pending| <= i < |c'.pending|
        ensures exists j :: 0 <= j < |es| && c'.pending[i].stage == es[j].stage
      {
        if i < |before.pending| {
          assert c'.pending[i] == before.pending[i];
          var j :| 0 <= j < n && before.pending[i].stage == es[..n][j].stage;
          assert c'.pending[i].stage == es[j].stage;
        } else {
          assert c'.pending[i].stage == es[n].stage;
        }
      }
    }
  }

  /** Until something fails or advances, the loop has only resent. */
  lemma {:induction false} OnlyResends(w: World, u: Uuid, now: int, still: bool, critical: bool, es: seq<Ack>, c: Cell)
    requires c.mem.Some?
    requires forall i :: 0 <= i < |es| ==> !Fatal(w, u, es[i])
    requires still || critical || es == [] || Resendable(w, u, es[0])
    ensures SweepAll(w, u, now, still, critical, es, Sweeping(c, false, false, false))
         == Sweeping(ResendAll(w, u, now, es, c), false, false, exists i :: 0 <= i < |es| && Resendable(w, u, es[i]))
  {
    if es != [] {
      var n := |es| - 1;
      OnlyResends(w, u, now, still, critical, es[..n], c);
      ResendAllShape(w, u, now, es[..n], c);
      assert forall i :: 0 <= i < n ==> es[..n][i] == es[i];
      assert Resendable(w, u, es[0]) && n > 0 ==> Resendable(w, u, es[..n][0]);
    }
  }

  /** A failed message that is not held is gone, so the rest of the batch does nothing. */
  lemma {:induction false} AfterFailure(w: World, u: Uuid, now: int, still: bool, critical: bool, es: seq<Ack>, s: Sweeping)
    requires s.failed && critical && s.cell.mem.None?
    ensures SweepAll(w, u, now, still, critical, es, s) == s
  {
    if es != [] {
      AfterFailure(w, u, now, still, critical, es[..|es| - 1], s);
    }
  }

  /** A held message survives the failure, and the rest of the batch only resends. */
  lemma {:induction false} AfterHeldFailure(w: World, u: Uuid, now: int, still: bool, critical: bool, es: seq<Ack>, reason: string, c: Cell, resent: bool)
    requires c.mem.Some? && c.Audited() && critical
    ensures SweepAll(w, u, now, still, critical, es, Sweeping(MarkFailed(reason, now, c), false, true, resent)).cell
         == MarkFailed(reason, now, ResendAll(w, u, now, es, c))
    ensures SweepAll(w, u, now, still, critical, es, Sweeping(MarkFailed(reason, now, c), false, true, resent)).failed
  {
    if es != [] {
      var n := |es| - 1;
      AfterHeldFailure(w, u, now, still, critical, es[..n], reason, c, resent);
      ResendAllShape(w, u, now, es[..n], c);
    }
  }

  /** After the one advance, the batch can only resend, and only while the message lives. */
  lemma {:induction false} AfterAdvance(w: World, u: Uuid, now: int, es: seq<Ack>, c: Cell)
    requires forall i :: 0 <= i < |es| ==> es[i].moduleName !in w.config.critical
    ensures SweepAll(w, u, now, false, false, es, Sweeping(c, true, false, false)).cell
         == if c.mem.None? then c else ResendAll(w, u, now, es, c)
    ensures SweepAll(w, u, now, false, false, es, Sweeping(c, true, false, false)).advanced
  {
    if es != [] {
      var n := |es| - 1;
      AfterAdvance(w, u, now, es[..n], c);
      ResendAllShape(w, u, now, es[..n], c);
    }
  }

  lemma {:induction false} SweepAllSplit(w: World, u: Uuid, now: int, still: bool, critical: bool, a: seq<Ack>, b: seq<Ack>, s: Sweeping)
    ensures SweepAll(w, u, now, still, critical, a + b, s)
         == SweepAll(w, u, now, still, critical, b, SweepAll(w, u, now, still, critical, a, s))
  {
    if b == [] {
      assert a + b == a;
    } else {
      var n := |b| - 1;
      SweepAllSplit(w, u, now, still, critical, a, b[..n], s);
      assert (a + b)[..|a + b| - 1] == a + b[..n];
    }
  }

  lemma {:induction false} ResendAllSplit(w: World, u: Uuid, now: int, a: seq<Ack>, b: seq<Ack>, c: Cell)
    ensures ResendAll(w, u, now, a + b, c) == ResendAll(w, u, now, b, ResendAll(w, u, now, a, c))
  {
    if b == [] {
      assert a + b == a;
    } else {
      var n := |b| - 1;
      ResendAllSplit(w, u, now, a, b[..n], c);
      assert (a + b)[..|a + b| - 1] == a + b[..n];
    }
  }

  lemma FatalCase(w: World, u: Uuid, now: int, still: bool, es: seq<Ack>, c: Cell)
    requires c.mem.Some? && FirstFatal(w, u, es) < |es|
    ensures var k := FirstFatal(w, u, es);
      SweepAll(w, u, now, still, true, es, Sweeping(c, false, false, false)).cell
      == MarkFailed(TimeoutReason(es[k]), now, ResendAll(w, u, now, if c.Audited() then es else es[..k], c))
  {
    var k, s := FirstFatal(w, u, es), Sweeping(c, false, false, false);
    var e, rest := es[k], es[k + 1..];
    assert es == es[..k] + ([e] + rest);
    SweepAllSplit(w, u, now, still, true, es[..k], [e] + rest, s);
    OnlyResends(w, u, now, still, true, es[..k], c);
    var before := SweepAll(w, u, now, still, true, es[..k], s);
    ResendAllShape(w, u, now, es[..k], c);
    SweepAllSplit(w, u, now, still, true, [e], rest, before);
    assert [e][..0] == [];
    var failed := SweepOne(w, u, now, still, true, e, before);
    assert SweepAll(w, u, now, still, true, [e], before) == failed;
    assert failed == Sweeping(MarkFailed(TimeoutReason(e), now, before.cell), false, true, before.resent);
    if c.Audited() {
      AfterHeldFailure(w, u, now, still, true, rest, TimeoutReason(e), before.cell, before.resent);
      ResendAllSplit(w, u, now, es[..k], [e] + rest, c);
      ResendAllSplit(w, u, now, [e], rest, before.cell);
      assert ResendAll(w, u, now, [e], before.cell) == before.cell;
    } else {
      AfterFailure(w, u, now, still, true, rest, failed);
    }
  }

  lemma AdvanceCase(w: World, u: Uuid, now: int, es: seq<Ack>, c: Cell)
    requires c.mem.Some? && Advancing(w, u, [], es)
    ensures var moved := Advance(es[0].stage, w, u, now, false, c);
      SweepAll(w, u, now, false, false, es, Sweeping(c, false, false, false)).cell
      == if moved.mem.None? then moved else ResendAll(w, u, now, es[1..], moved)
  {
    var s := Sweeping(c, false, false, false);
    assert es == [es[0]] + es[1..];
    SweepAllSplit(w, u, now, false, false, [es[0]], es[1..], s);
    assert [es[0]][..0] == [];
    assert SweepAll(w, u, now, false, false, [es[0]], s) == SweepOne(w, u, now, false, false, es[0], s);
    AfterAdvance(w, u, now, es[1..], Advance(es[0].stage, w, u, now, false, c));
  }

  /**
    The sweep in closed form. It advances a message at most once, fails it at
    most once with the first critical entry that could not be resent, and never
    advances a message that has a critical entry in the batch.
   */
  lemma SweepClosedForm(w: World, u: Uuid, now: int, which: set<nat>, c: Cell)
    requires c.mem.Some?
    ensures Sweep(w, u, now, which, c)
         == SweepResult(w, u, now, Kept(c.pending, which), Expired(c.pending, which), c)
  {
    var kept, expired := Kept(c.pending, which), Expired(c.pending, which);
    var c0 := c.(pending := kept);
    var k := FirstFatal(w, u, expired);
    if k < |expired| {
      assert HasCritical(w, expired);
      FatalCase(w, u, now, kept != [], expired, c0);
    } else if Advancing(w, u, kept, expired) {
      AdvanceCase(w, u, now, expired, c0);
    } else {
      OnlyResends(w, u, now, kept != [], HasCritical(w, expired), expired, c0);
    }
  }

  lemma NothingToSweep(w: World, u: Uuid, now: int, which: set<nat>, c: Cell)
    requires c.pending == []
    ensures Sweep(w, u, now, which, c) == c
  {
  }

  /** The sweep a resume runs expires nothing while the restarted budgets last. */
  lemma ResumeExpiresNothing(w: World, u: Uuid, restart: int, now: int, c: Cell)
    requires forall i :: 0 <= i < |c.pending| ==> now - restart <= c.pending[i].timeout
    ensures var c1 := Unhold(restart, c);
      Due(c1.pending, now) == {} && Sweep(w, u, now, Due(c1.pending, now), c1) == c1
  {
    var c1 := Unhold(restart, c);
    NothingDue(c1.pending);
    assert c1.(pending := c1.pending) == c1;
  }

  lemma {:induction false} NothingDue(es: seq<Ack>)
    ensures Kept(es, {}) == es && Expired(es, {}) == []
  {
    if es != [] {
      NothingDue(es[..|es| - 1]);
    }
  }
}
