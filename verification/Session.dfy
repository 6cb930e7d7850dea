/**
  The engine over time. A `Session` is an orchestrator together with the run each
  message has made so far, over every process that worked on the timeline. Whatever
  handler is called, every message is where its `Run` puts it, so what is proved of
  every run holds of the engine's tables.
 */
module Session {
  import opened Basics
  import opened Messages
  import opened Engine
  import Database
  import Delivery
  import Replays
  import Tracker

  /** One run for every message. */
  type History = Uuid -> seq<Tick>

  ghost predicate At(u: Uuid, run: seq<Tick>, c: Cell) {
    c == Run(u, run, UNKNOWN)
  }

  ghost predicate Follows(ticks: History, cells: imap<Uuid, Cell>) {
    forall u: Uuid :: u in cells && At(u, ticks(u), cells[u])
  }

  /** Message `u` has made one more step. */
  ghost function Then(ticks: History, u: Uuid, t: Tick): History {
    (v: Uuid) => if v == u then ticks(v) + [t] else ticks(v)
  }

  /** Every message has made one more step. */
  ghost function ThenAll(ticks: History, last: Uuid -> Tick): History {
    (v: Uuid) => ticks(v) + [last(v)]
  }

  lemma OneStep(ticks: History, cells: imap<Uuid, Cell>, cells': imap<Uuid, Cell>, u: Uuid, t: Tick)
    requires Follows(ticks, cells)
    requires forall v: Uuid :: v in cells' && (v != u ==> cells'[v] == cells[v])
    requires cells'[u] == Step(t.world, u, t.now, t.gated, t.event, cells[u])
    ensures Follows(Then(ticks, u, t), cells')
  {
    RunAppend(u, ticks(u), t, UNKNOWN);
    forall v: Uuid
      ensures At(v, Then(ticks, u, t)(v), cells'[v])
    {
      assert At(v, ticks(v), cells[v]);
    }
  }

  lemma EveryStep(ticks: History, cells: imap<Uuid, Cell>, cells': imap<Uuid, Cell>, last: Uuid -> Tick)
    requires Follows(ticks, cells)
    requires forall v: Uuid :: v in cells' && v in cells
    requires forall v: Uuid :: cells'[v] == (var t := last(v); Step(t.world, v, t.now, t.gated, t.event, cells[v]))
    ensures Follows(ThenAll(ticks, last), cells')
  {
    forall v: Uuid
      ensures At(v, ThenAll(ticks, last)(v), cells'[v])
    {
      assert At(v, ticks(v), cells[v]);
      RunAppend(v, ticks(v), last(v), UNKNOWN);
    }
  }

  /** What a crash leaves of a message. */
  function Down(c: Cell): Cell {
    c.(mem := None, pending := [], held := None, backlog := multiset{})
  }

  lemma DownNext(u: Uuid, run: seq<Tick>, c: Cell, crash: Tick)
    requires At(u, run, c) && crash.event.Crash?
    ensures At(u, run + [crash], Down(c))
  {
    RunAppend(u, run, crash, UNKNOWN);
  }

  lemma EveryDown(was: History, cells: imap<Uuid, Cell>, cells': imap<Uuid, Cell>, w: World, now: int)
    requires Follows(was, cells)
    requires forall v: Uuid :: v in cells && v in cells'
    requires forall v: Uuid :: cells'[v] == Down(cells[v])
    ensures Follows(ThenAll(was, (v: Uuid) => Tick(w, now, false, Crash)), cells')
  {
    var last := (v: Uuid) => Tick(w, now, false, Crash);
    forall v: Uuid
      ensures At(v, ThenAll(was, last)(v), cells'[v])
    {
      assert At(v, was(v), cells[v]);
      DownNext(v, was(v), cells[v], Tick(w, now, false, Crash));
    }
  }

  class Session {
    const engine: Orchestrator
    ghost var ticks: History

    ghost predicate Valid()
      reads this, engine, engine.tracker, engine.db, engine.replays
    {
      engine.Sound() && forall u: Uuid :: At(u, ticks(u), engine.CellOf(u))
    }

    /** An engine over an empty timeline. */
    constructor ()
      ensures Valid() && fresh(engine) && forall u :: ticks(u) == []
    {
      var db := new Database.TimelineDb();
      engine := new Orchestrator.Boot(db, map[], {});
      ticks := (u: Uuid) => [];
    }

    /** A new process over the timeline another one left behind. */
    constructor Restart(before: Session, ghost w: World, ghost now: int)
      requires before.Valid()
      ensures Valid() && fresh(engine) && engine.db == before.engine.db && !engine.Gated()
      ensures ticks == ThenAll(before.ticks, (v: Uuid) => Tick(w, now, false, Crash))
    {
      var cells := before.Follow();
      before.HeldIsFlagged();
      engine := new Orchestrator.Boot(before.engine.db, before.engine.logs, before.engine.flagged);
      ticks := ThenAll(before.ticks, (v: Uuid) => Tick(w, now, false, Crash));
      new;
      Restarted(before.ticks, cells, w, now);
    }

    lemma Restarted(was: History, cells: imap<Uuid, Cell>, w: World, now: int)
      requires engine.Sound() && Follows(was, cells)
      requires ticks == ThenAll(was, (v: Uuid) => Tick(w, now, false, Crash))
      requires forall v: Uuid :: engine.CellOf(v) == Down(cells[v])
      ensures Valid()
    {
      var after := engine.Snapshot();
      EveryDown(was, cells, after, w, now);
    }

    lemma HeldIsFlagged()
      requires Valid()
      ensures forall u :: u in engine.db.rows && engine.db.rows[u].status.Audit? ==> u in engine.flagged
    {
      forall u | u in engine.db.rows && engine.db.rows[u].status.Audit?
        ensures u in engine.flagged
      {
        assert Delivery.Safe(engine.CellOf(u));
      }
    }

    lemma Follow() returns (cells: imap<Uuid, Cell>)
      requires Valid()
      ensures Follows(ticks, cells)
      ensures forall u: Uuid :: cells[u] == engine.CellOf(u)
    {
      cells := engine.Snapshot();
    }

    ghost method Record(before: imap<Uuid, Cell>, u: Uuid, t: Tick)
      requires engine.Sound() && Follows(ticks, before)
      requires forall v: Uuid :: v != u ==> engine.CellOf(v) == before[v]
      requires engine.CellOf(u) == Step(t.world, u, t.now, t.gated, t.event, before[u])
      modifies this`ticks
      ensures Valid() && ticks == Then(old(ticks), u, t)
    {
      var after := engine.Snapshot();
      OneStep(ticks, before, after, u, t);
      ticks := Then(ticks, u, t);
    }

    ghost method RecordAll(before: imap<Uuid, Cell>, last: Uuid -> Tick)
      requires engine.Sound() && Follows(ticks, before)
      requires forall v: Uuid :: engine.CellOf(v) == (var t := last(v); Step(t.world, v, t.now, t.gated, t.event, before[v]))
      modifies this`ticks
      ensures Valid() && ticks == ThenAll(old(ticks), last)
    {
      var after := engine.Snapshot();
      EveryStep(ticks, before, after, last);
      ticks := ThenAll(ticks, last);
    }

    method Ingest(w: World, u: Uuid, now: int, msg: Incoming) returns (ok: bool)
      requires Valid()
      modifies this`ticks, engine`states, engine`held, engine`logs, engine.tracker, engine.db
      ensures Valid() && ticks == Then(old(ticks), u, Tick(w, now, engine.Gated(), Event.Ingest(msg)))
    {
      var before := Follow();
      ok := engine.InsertAndStart(w, u, now, msg);
      Record(before, u, Tick(w, now, engine.Gated(), Event.Ingest(msg)));
    }

    method Reply(w: World, u: Uuid, now: int, stage: Stage, sender: Module, text: string, mime: string, bytes: Blob, abandon: bool)
      requires Valid()
      modifies this`ticks, engine`states, engine`held, engine`logs, engine.tracker, engine.db
      ensures Valid()
      ensures ticks == Then(old(ticks), u, Tick(w, now, engine.Gated(), Event.Reply(stage, sender, text, mime, bytes, abandon)))
    {
      var before := Follow();
      engine.HandleReply(w, u, now, stage, sender, text, mime, bytes, abandon);
      Record(before, u, Tick(w, now, engine.Gated(), Event.Reply(stage, sender, text, mime, bytes, abandon)));
    }

    method Receipt(ghost w: World, u: Uuid, ghost now: int, sender: Module)
      requires Valid()
      modifies this`ticks, engine.tracker
      ensures Valid() && ticks == Then(old(ticks), u, Tick(w, now, engine.Gated(), Event.Receipt(sender)))
    {
      var before := Follow();
      engine.HandleReceipt(w, u, now, sender);
      Record(before, u, Tick(w, now, engine.Gated(), Event.Receipt(sender)));
    }

    method Flag(ghost w: World, u: Uuid, reason: string, now: int) returns (newlyHeld: bool)
      requires Valid()
      modifies this`ticks, engine`flagged, engine.db
      ensures Valid() && ticks == Then(old(ticks), u, Tick(w, now, engine.Gated(), TakeAudit(reason)))
    {
      var before := Follow();
      newlyHeld := engine.FlagForAudit(w, u, reason, now);
      Record(before, u, Tick(w, now, engine.Gated(), TakeAudit(reason)));
    }

    method Release(ghost w: World, u: Uuid, approve: bool, now: int)
      requires Valid()
      modifies this`ticks, engine.db
      ensures Valid() && ticks == Then(old(ticks), u, Tick(w, now, engine.Gated(), ReleaseAudit(approve)))
    {
      var before := Follow();
      engine.ReleaseFromAudit(w, u, approve, now);
      Record(before, u, Tick(w, now, engine.Gated(), ReleaseAudit(approve)));
    }

    method Drain(w: World, now: int) returns (considered: nat, claimed: nat)
      requires Valid()
      modifies this`ticks, engine`states, engine`held, engine`logs, engine.tracker, engine.db
      ensures Valid() && (forall u :: !Stranded(engine.CellOf(u)))
      ensures forall v :: ticks(v) == old(ticks)(v) + [Tick(w, now, engine.Gated(), Recover)]
    {
      var before := Follow();
      considered, claimed := engine.DrainQueuedOnce(w, now);
      ghost var gated := engine.Gated();
      RecordAll(before, (v: Uuid) => Tick(w, now, gated, Recover));
    }

    method Sweep(w: World, now: int, order: seq<Uuid>)
      requires Valid() && Tracker.Enumerates(order, engine.tracker.pending.Keys)
      modifies this`ticks, engine`states, engine`held, engine`logs, engine.tracker, engine.db
      ensures Valid()
      ensures forall v :: ticks(v) == old(ticks)(v) + [Tick(w, now, engine.Gated(), Expire(Due(old(engine.CellOf(v)).pending, now)))]
    {
      var before := Follow();
      engine.HandleTimeout(w, now, order);
      ghost var gated := engine.Gated();
      RecordAll(before, (v: Uuid) => Tick(w, now, gated, Expire(Due((if v in before then before[v] else UNKNOWN).pending, now))));
    }

    method Resume(w: World, restart: int, now: int, order: seq<Uuid>) returns (wasPaused: bool, released: nat)
      requires Valid() && Tracker.Enumerates(order, engine.tracker.pending.Keys)
      modifies this`ticks, engine`paused, engine`states, engine`held, engine`logs, engine.tracker, engine.db, engine.replays
      ensures Valid()
      ensures forall v :: ticks(v) == old(ticks)(v) + [Tick(w, now, engine.Gated(),
        Event.Resume(restart, Due(RestartClocks(old(engine.CellOf(v)).pending, restart), now)))]
    {
      var before := Follow();
      wasPaused, released := engine.Resume(w, restart, now, order);
      ghost var gated := engine.Gated();
      RecordAll(before, (v: Uuid) => Tick(w, now, gated, Event.Resume(restart,
        Due(RestartClocks((if v in before then before[v] else UNKNOWN).pending, restart), now))));
    }

    method ReplayNext(w: World, now: int, i: nat)
      requires Valid() && i < |engine.replays.tasks| && engine.replays.tasks[i] != []
      modifies this`ticks, engine`states, engine`held, engine`logs, engine.tracker, engine.db, engine.replays
      ensures Valid()
      ensures var (u, p) := old(engine.replays.tasks)[i][0];
        ticks == Then(old(ticks), u, Tick(w, now, engine.Gated(), Replay(p)))
    {
      var before := Follow();
      ghost var (u, p) := engine.replays.tasks[i][0];
      engine.ReplayNext(w, now, i);
      Record(before, u, Tick(w, now, engine.Gated(), Replay(p)));
    }

    method Pause() returns (changed: bool)
      requires Valid()
      modifies engine`paused
      ensures Valid()
    {
      changed := engine.Pause();
    }

    method DeferPause()
      requires Valid()
      modifies engine`paused, engine`resumeWhenUnblocked
      ensures Valid()
    {
      engine.DeferPause();
    }

    method DeferResume()
      requires Valid()
      modifies engine`resumeWhenUnblocked
      ensures Valid()
    {
      engine.DeferResume();
    }

    method SetBlock(reason: BlockedReason)
      requires Valid()
      modifies engine`blocked
      ensures Valid()
    {
      engine.SetBlock(reason);
    }

    method ClearBlock(reason: BlockedReason) returns (resume: bool)
      requires Valid()
      modifies engine`blocked, engine`resumeWhenUnblocked
      ensures Valid()
    {
      resume := engine.ClearBlock(reason);
    }

    /** In the engine's tables, at any time of its life, no message is lost. */
    lemma NothingIsLost(u: Uuid)
      requires Valid()
      ensures u in engine.states ==>
        engine.tracker.Of(u) != [] || u in engine.held || engine.replays.Of(u) != multiset{} || u in engine.flagged
      ensures Stranded(engine.CellOf(u)) ==> Delivery.Unrecovered(ticks(u))
    {
      assert At(u, ticks(u), engine.CellOf(u));
      Delivery.NeverLost(u, ticks(u));
      Delivery.QueuedMeansClaimed(u, ticks(u));
    }
  }
}
