/**
  A concrete run with the mixed sweep. The engine promises that a sweep which
  leaves a resend pending does not also advance the message; when the entry that
  cannot be resent comes first, it does both, and the display is handed the same
  message twice.
 */
module MixedSweep {
  import opened Basics
  import opened Rows
  import opened Messages
  import Registry
  import Coherence
  import Sweeps

  /** Two pre-process modules, one display, everybody connected and permitted. */
  function Studio(): World {
    World(Config(["a", "b"], [], ["d"], 3000, []), Registry.EMPTY, [],
          (u, s, m) => true, (u, s, m) => SendOutcome.Sent)
  }

  /** `a` confirms receipt, then both budgets expire; `d` and `b` answer what they were sent. */
  function Trace(): seq<Tick> {
    var w := Studio();
    [Tick(w, 0, false, Ingest(Incoming(1, "twitch", "hi", "", None, None, None))),
     Tick(w, 1, false, Receipt("a")),
     Tick(w, 9000, false, Expire({0, 1})),
     Tick(w, 9001, false, Reply(PostProcess, "d", "hi", "", [], false)),
     Tick(w, 9002, false, Reply(PreProcess, "b", "hi", "", [], false))]
  }

  lemma FanOutOne(u: Uuid, stage: Stage, now: int, m: Module, c: Cell)
    ensures FanOut(Studio(), u, stage, now, [m], c) == Track(Studio(), u, stage, now, m, c)
  {
    assert [m][..0] == [];
    assert FanOut(Studio(), u, stage, now, [], c) == c;
  }

  lemma Routing()
    ensures Recipients(Studio(), None, ["a", "b"]) == ["a", "b"]
    ensures PostRecipients(Studio(), None, ["d"]) == ["d"]
  {
    assert ["a", "b"][1..] == ["b"] && ["b"][1..] == [] && ["d"][1..] == [];
    assert PlainRecipients(Registry.EMPTY, ["b"]) == ["b"];
    assert PlainRecipients(Registry.EMPTY, ["a", "b"]) == ["a", "b"];
    assert PostRecipients(Studio(), None, []) == [];
  }

  /** Entering post-process shows the message to the display. */
  lemma ShowsDisplay(u: Uuid, now: int, c: Cell)
    requires c.mem.Some? && c.mem.value.parsed.None? && !c.Audited()
    ensures StartIn(Studio(), u, now, false, c)
         == Track(Studio(), u, PostProcess, now, "d", c.(mem := Some(c.mem.value.(stage := PostProcess))))
  {
    Routing();
    var c1 := c.(mem := Some(c.mem.value.(stage := InProcess)));
    var c2 := c.(mem := Some(c.mem.value.(stage := PostProcess)));
    FanOutOne(u, PostProcess, now, "d", c2);
    assert AnyReached(Studio(), u, PostProcess, ["d"]) by { assert "d" in ["d"]; }
    assert StartPost(Studio(), u, now, false, c1) == Track(Studio(), u, PostProcess, now, "d", c2);
  }

  function AckOf(u: Uuid, stage: Stage, m: Module, at: int, receipt: bool, resends: nat): Ack {
    Ack(u, stage, m, at, 3000, receipt, resends)
  }

  lemma AfterIngest(u: Uuid)
    ensures var c := Step(Studio(), u, 0, false, Trace()[0].event, UNKNOWN);
      && c.pending == [AckOf(u, PreProcess, "a", 0, false, 0), AckOf(u, PreProcess, "b", 0, false, 0)]
      && c.log == [Dispatch(PreProcess, "a", 0), Dispatch(PreProcess, "b", 0)]
      && c.mem == Some(NewState("hi", "", None)) && !c.Audited()
      && c.row.Some? && !c.Parked()
  {
    Routing();
    var c0 := Ingested(Incoming(1, "twitch", "hi", "", None, None, None), UNKNOWN);
    assert ["a", "b"][..1] == ["a"];
    FanOutOne(u, PreProcess, 0, "a", c0);
    var c1 := FanOut(Studio(), u, PreProcess, 0, ["a", "b"], c0);
    assert c1 == Track(Studio(), u, PreProcess, 0, "b", Track(Studio(), u, PreProcess, 0, "a", c0));
    assert AnyReached(Studio(), u, PreProcess, ["a", "b"]) by { assert "a" in ["a", "b"]; }
  }

  lemma BothExpire(a: Ack, b: Ack)
    ensures Kept([a, b], {0, 1}) == [] && Expired([a, b], {0, 1}) == [a, b]
  {
    assert [a, b][..1] == [a] && [a][..0] == [];
    assert Kept([], {0, 1}) == [] && Expired([], {0, 1}) == [];
    assert Kept([a], {0, 1}) == [] && Expired([a], {0, 1}) == [] + [a] == [a];
  }

  /** The sweep: `a` moves the message on, then `b` is resent at the stage it left. */
  lemma TheSweep(u: Uuid, c: Cell)
    requires c.pending == [AckOf(u, PreProcess, "a", 0, true, 0), AckOf(u, PreProcess, "b", 0, false, 0)]
    requires c.mem == Some(NewState("hi", "", None)) && !c.Audited()
    ensures var c' := Sweep(Studio(), u, 9000, {0, 1}, c);
      && c'.pending == [AckOf(u, PostProcess, "d", 9000, false, 0), AckOf(u, PreProcess, "b", 9000, false, 1)]
      && c'.log == c.log + [Dispatch(PostProcess, "d", 0), Dispatch(PreProcess, "b", 1)]
      && c'.mem.Some? && c'.mem.value.stage.PostProcess? && c'.mem.value.parsed.None?
      && c'.row == c.row
  {
    var w, a, b := Studio(), c.pending[0], c.pending[1];
    assert c.pending == [a, b];
    BothExpire(a, b);
    Coherence.NotFatal(w, u, [a, b]);
    Sweeps.SweepClosedForm(w, u, 9000, {0, 1}, c);
    MovesThenResends(u, a, b, c.(pending := []));
  }

  lemma MovesThenResends(u: Uuid, a: Ack, b: Ack, c: Cell)
    requires a.stage.PreProcess? && b == AckOf(u, PreProcess, "b", 0, false, 0)
    requires c.mem == Some(NewState("hi", "", None)) && !c.Audited() && c.pending == []
    ensures var c' := Sweeps.Moving(Studio(), u, 9000, [a, b], c);
      && c'.pending == [AckOf(u, PostProcess, "d", 9000, false, 0), AckOf(u, PreProcess, "b", 9000, false, 1)]
      && c'.log == c.log + [Dispatch(PostProcess, "d", 0), Dispatch(PreProcess, "b", 1)]
      && c'.mem.Some? && c'.mem.value.stage.PostProcess? && c'.mem.value.parsed.None?
      && c'.row == c.row
  {
    ShowsDisplay(u, 9000, StampPre(9000, c));
    var moved := Advance(PreProcess, Studio(), u, 9000, false, c);
    assert [a, b][1..] == [b] && [b][..0] == [];
    assert Sweeps.ResendAll(Studio(), u, 9000, [], moved) == moved;
    assert Sweeps.ResendAll(Studio(), u, 9000, [b], moved) == Resend(9000, b, moved);
  }

  lemma Replies(u: Uuid, c: Cell)
    requires c.pending == [AckOf(u, PostProcess, "d", 9000, false, 0), AckOf(u, PreProcess, "b", 9000, false, 1)]
    requires c.mem.Some? && c.mem.value.parsed.None? && !c.Audited()
    ensures var c' := Step(Studio(), u, 9001, false, Trace()[3].event, c);
      var c'' := Step(Studio(), u, 9002, false, Trace()[4].event, c');
      c''.log == c.log + [Dispatch(PostProcess, "d", 0)]
  {
    var w, d, b := Studio(), c.pending[0], c.pending[1];
    assert c.pending[1..] == [b] && [b][1..] == [];
    var c1 := RecordReply(PostProcess, "hi", "", [], c);
    assert Without([], "d") == [];
    assert Without([b], "d") == [b] + [] == [b];
    assert Without(c.pending, "d") == [b];
    assert Owns(c.pending, "d", PostProcess);
    var c' := Step(w, u, 9001, false, Trace()[3].event, c);
    assert c' == c1.(pending := [b]);
    var c2 := RecordReply(PreProcess, "hi", "", [], c');
    assert Without([b], "b") == [];
    assert Owns(c'.pending, "b", PreProcess) by { assert c'.pending[0] == b; }
    ShowsDisplay(u, 9002, StampPre(9002, c2.(pending := [])));
  }

  /**
    Every module answers each frame it was sent, and still the display is
    dispatched the message twice; and the swept message is incoherent.
   */
  lemma DisplayedTwice(u: Uuid)
    ensures Run(u, Trace(), UNKNOWN).log ==
      [Dispatch(PreProcess, "a", 0), Dispatch(PreProcess, "b", 0), Dispatch(PostProcess, "d", 0),
       Dispatch(PreProcess, "b", 1), Dispatch(PostProcess, "d", 0)]
    ensures !Coherence.Coherent(Run(u, Trace()[..3], UNKNOWN))
  {
    AfterReceipt(u);
    AfterSweep(u);
    Answered(u, Run(u, Trace()[..3], UNKNOWN));
    assert Run(u, Trace()[..3], UNKNOWN).pending[1].stage == PreProcess;
  }

  lemma AfterReceipt(u: Uuid)
    ensures var c := Run(u, Trace()[..2], UNKNOWN);
      && c.pending == [AckOf(u, PreProcess, "a", 0, true, 0), AckOf(u, PreProcess, "b", 0, false, 0)]
      && c.log == [Dispatch(PreProcess, "a", 0), Dispatch(PreProcess, "b", 0)]
      && c.mem == Some(NewState("hi", "", None)) && !c.Audited()
  {
    var t := Trace();
    AfterIngest(u);
    RunNext(u, t, 0, UNKNOWN);
    assert t[..0] == [] && Run(u, [], UNKNOWN) == UNKNOWN;
    RunNext(u, t, 1, UNKNOWN);
    var c1 := Run(u, t[..1], UNKNOWN);
    assert Run(u, t[..2], UNKNOWN) == c1.(pending := MarkReceipt(c1.pending, "a"));
  }

  lemma AfterSweep(u: Uuid)
    ensures var c := Run(u, Trace()[..3], UNKNOWN);
      && c.pending == [AckOf(u, PostProcess, "d", 9000, false, 0), AckOf(u, PreProcess, "b", 9000, false, 1)]
      && c.log == [Dispatch(PreProcess, "a", 0), Dispatch(PreProcess, "b", 0)]
                  + [Dispatch(PostProcess, "d", 0), Dispatch(PreProcess, "b", 1)]
      && c.mem.Some? && c.mem.value.stage.PostProcess? && c.mem.value.parsed.None? && !c.Audited()
  {
    AfterReceipt(u);
    var c := Run(u, Trace()[..2], UNKNOWN);
    RunNext(u, Trace(), 2, UNKNOWN);
    ThirdTick(u, c);
    TheSweep(u, c);
  }

  lemma ThirdTick(u: Uuid, c: Cell)
    ensures var t := Trace()[2];
      Step(t.world, u, t.now, t.gated, t.event, c) == Sweep(Studio(), u, 9000, {0, 1}, c)
  {
  }

  /** The last two ticks of the trace, from the swept message on. */
  lemma Answered(u: Uuid, c3: Cell)
    requires c3 == Run(u, Trace()[..3], UNKNOWN)
    requires c3.pending == [AckOf(u, PostProcess, "d", 9000, false, 0), AckOf(u, PreProcess, "b", 9000, false, 1)]
    requires c3.mem.Some? && c3.mem.value.parsed.None? && !c3.Audited()
    ensures Run(u, Trace(), UNKNOWN).log == c3.log + [Dispatch(PostProcess, "d", 0)]
  {
    var t := Trace();
    Replies(u, c3);
    RunNext(u, t, 3, UNKNOWN);
    RunNext(u, t, 4, UNKNOWN);
    assert t[..5] == t;
  }
}
