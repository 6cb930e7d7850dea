/**
  The ack tracker (src/pipeline.rs, `AckTracker`): which modules still owe an
  answer for which message. Every removal answers "is anything still pending?"
  in the same call, which is why exactly one call finishes a stage.
 */
module Tracker {
  import opened Basics
  import opened Messages
  import Delivery

  // ── One finisher per stage ─────────────────────────────────────────────

  /** The two calls that take entries out: an answer, and a sweep expiring some positions. */
  datatype Removal = Answer(m: Module) | Timeout(which: set<nat>)

  function Remove(es: seq<Ack>, r: Removal): seq<Ack> {
    match r
    case Answer(m) => Without(es, m)
    case Timeout(which) => Kept(es, which)
  }

  /** The call took something out and reports that nothing is pending any more. */
  predicate Finishes(es: seq<Ack>, r: Removal) {
    && Remove(es, r) == []
    && match r
       case Answer(m) => AckedStage(es, m).Some?
       case Timeout(which) => Expired(es, which) != []
  }

  function RemoveAll(es: seq<Ack>, rs: seq<Removal>): seq<Ack>
    decreases |rs|
  {
    if rs == [] then es else RemoveAll(Remove(es, rs[0]), rs[1..])
  }

  function Finishers(es: seq<Ack>, rs: seq<Removal>): nat
    decreases |rs|
  {
    if rs == [] then 0
    else (if Finishes(es, rs[0]) then 1 else 0) + Finishers(Remove(es, rs[0]), rs[1..])
  }

  lemma {:induction false} WithoutNone(es: seq<Ack>, m: Module)
    ensures AckedStage(es, m).None? ==> Without(es, m) == es
    ensures es == [] ==> AckedStage(es, m).None?
  {
    if es != [] {
      WithoutNone(es[1..], m);
      assert es == [es[0]] + es[1..];
    }
  }

  /** The first entry of module `m`. */
  function AckedEntry(es: seq<Ack>, m: Module): Option<Ack> {
    if es == [] then None
    else if es[0].moduleName == m then Some(es[0])
    else AckedEntry(es[1..], m)
  }

  lemma {:induction false} AckedEntryStage(es: seq<Ack>, m: Module)
    ensures AckedStage(es, m) == if AckedEntry(es, m).Some? then Some(AckedEntry(es, m).value.stage) else None
  {
    if es != [] {
      AckedEntryStage(es[1..], m);
    }
  }

  /** What an answer tells its caller: the stage, how long the module took, and whether others still owe an ack. */
  datatype Acked = Acked(stage: Stage, elapsed: int, stillPending: bool)

  /**
    Over any sequence of answers and sweeps, with nothing re-tracked, exactly one
    call reports the stage finished if the entries run out, and none otherwise.
   */
  lemma {:induction false} ExactlyOneFinisher(es: seq<Ack>, rs: seq<Removal>)
    ensures Finishers(es, rs) == if es != [] && RemoveAll(es, rs) == [] then 1 else 0
    ensures es == [] ==> RemoveAll(es, rs) == []
    decreases |rs|
  {
    if rs != [] {
      ExactlyOneFinisher(Remove(es, rs[0]), rs[1..]);
      match rs[0]
      case Answer(m) => WithoutNone(es, m);
      case Timeout(which) => Delivery.SplitShape(es, which);
    }
  }

  lemma UpdateHead<T>(s: seq<T>, x: T)
    requires s != []
    ensures s[0 := x] == [x] + s[1..]
  {
  }

  lemma UpdateTail<T>(s: seq<T>, i: nat, x: T)
    requires 0 < i < |s|
    ensures s[i := x] == [s[0]] + s[1..][i - 1 := x]
  {
  }

  /** A receipt marks the module's first entry only. */
  lemma {:induction false} MarkReceiptAt(es: seq<Ack>, m: Module, i: nat)
    requires i <= |es| && (i < |es| ==> es[i].moduleName == m)
    requires forall j :: 0 <= j < i ==> es[j].moduleName != m
    ensures MarkReceipt(es, m) == if i < |es| then es[i := es[i].(receipt := true)] else es
  {
    if es != [] {
      var e := es[0];
      if i > 0 {
        MarkReceiptAt(es[1..], m, i - 1);
        assert es == [e] + es[1..];
        if i < |es| {
          UpdateTail(es, i, es[i].(receipt := true));
        }
      } else {
        UpdateHead(es, e.(receipt := true));
      }
    }
  }

  // ── The tracker object ─────────────────────────────────────────────────

  /** The entries of one message in a batch of expired entries, in order. */
  ghost function EntriesOf(batch: seq<(Ack, bool)>, u: Uuid): seq<Ack> {
    if batch == [] then []
    else
      var n := |batch| - 1;
      EntriesOf(batch[..n], u) + if batch[n].0.uuid == u then [batch[n].0] else []
  }

  lemma EntriesSnoc(batch: seq<(Ack, bool)>, x: (Ack, bool), u: Uuid)
    ensures EntriesOf(batch + [x], u) == EntriesOf(batch, u) + if x.0.uuid == u then [x.0] else []
  {
    assert (batch + [x])[..|batch|] == batch;
  }

  function Pairs(es: seq<Ack>, pending: bool): seq<(Ack, bool)> {
    if es == [] then [] else Pairs(es[..|es| - 1], pending) + [(es[|es| - 1], pending)]
  }

  lemma {:induction false} PairsOf(es: seq<Ack>, pending: bool, u: Uuid)
    requires AllOf(es, u)
    ensures |Pairs(es, pending)| == |es|
    ensures forall i :: 0 <= i < |Pairs(es, pending)| ==>
      Pairs(es, pending)[i].0.uuid == u && Pairs(es, pending)[i].1 == pending
  {
    if es != [] {
      PairsOf(es[..|es| - 1], pending, u);
    }
  }

  lemma {:induction false} PairsListed(batch: seq<(Ack, bool)>, es: seq<Ack>, pending: bool, u: Uuid, v: Uuid)
    requires AllOf(es, u)
    ensures EntriesOf(batch + Pairs(es, pending), v) == EntriesOf(batch, v) + if v == u then es else []
  {
    if es == [] {
      assert batch + Pairs(es, pending) == batch;
    } else {
      var n := |es| - 1;
      PairsListed(batch, es[..n], pending, u, v);
      assert batch + Pairs(es, pending) == (batch + Pairs(es[..n], pending)) + [(es[n], pending)];
      EntriesSnoc(batch + Pairs(es[..n], pending), (es[n], pending), v);
    }
  }

  lemma PairsShape(batch: seq<(Ack, bool)>, es: seq<Ack>, pending: bool, u: Uuid, v: Uuid)
    requires AllOf(es, u)
    ensures EntriesOf(batch + Pairs(es, pending), v) == EntriesOf(batch, v) + if v == u then es else []
    ensures forall i :: 0 <= i < |Pairs(es, pending)| ==>
      Pairs(es, pending)[i].0.uuid == u && Pairs(es, pending)[i].1 == pending
  {
    PairsOf(es, pending, u);
    PairsListed(batch, es, pending, u, v);
  }

  /** `order` lists the keys of a hash map once each, in its own iteration order. */
  ghost predicate Enumerates(order: seq<Uuid>, keys: set<Uuid>) {
    (forall u :: u in order <==> u in keys) && Distinct(order)
  }

  ghost predicate Distinct(order: seq<Uuid>) {
    forall i, j :: 0 <= i < j < |order| ==> order[i] != order[j]
  }

  /** `seen` are the first `k` messages of the order. */
  ghost predicate Visited(order: seq<Uuid>, k: nat, seen: set<Uuid>) {
    forall j :: 0 <= j < |order| ==> (order[j] in seen <==> j < k)
  }

  lemma VisitNext(order: seq<Uuid>, k: nat, seen: set<Uuid>)
    requires Distinct(order) && Visited(order, k, seen) && k < |order|
    ensures Visited(order, k + 1, seen + {order[k]})
  {
  }

  lemma VisitedAll(order: seq<Uuid>, keys: set<Uuid>, seen: set<Uuid>)
    requires Enumerates(order, keys) && Visited(order, |order|, seen) && seen <= keys
    ensures seen == keys
  {
    forall u | u in keys
      ensures u in seen
    {
      assert u in order;
    }
  }

  ghost predicate AllOf(es: seq<Ack>, u: Uuid) {
    forall i :: 0 <= i < |es| ==> es[i].uuid == u
  }

  lemma {:induction false} SplitOf(es: seq<Ack>, which: set<nat>, u: Uuid)
    requires AllOf(es, u)
    ensures AllOf(Kept(es, which), u) && AllOf(Expired(es, which), u)
  {
    if es != [] {
      SplitOf(es[..|es| - 1], which, u);
    }
  }

  lemma {:induction false} WithoutOf(es: seq<Ack>, m: Module, u: Uuid)
    requires AllOf(es, u)
    ensures AllOf(Without(es, m), u)
  {
    if es != [] {
      WithoutOf(es[1..], m, u);
    }
  }

  function StillOf(es: seq<Ack>, now: int): seq<Ack> { Kept(es, Due(es, now)) }

  function SpentOf(es: seq<Ack>, now: int): seq<Ack> { Expired(es, Due(es, now)) }

  /** What a sweep that has been through some messages leaves in the tracker. */
  ghost predicate Remaining(p: map<Uuid, seq<Ack>>, now: int, left: map<Uuid, seq<Ack>>) {
    forall u :: u in left ==> u in p && left[u] == StillOf(p[u], now)
  }

  /** What it has put in its batch. */
  ghost predicate Batched(p: map<Uuid, seq<Ack>>, now: int, seen: set<Uuid>, batch: seq<(Ack, bool)>) {
    forall u :: EntriesOf(batch, u) == if u in seen && u in p then SpentOf(p[u], now) else []
  }

  /** Every flag of the batch says whether the message still has a pending ack. */
  ghost predicate Flagged(left: map<Uuid, seq<Ack>>, batch: seq<(Ack, bool)>) {
    forall i :: 0 <= i < |batch| ==> batch[i].0.uuid in left && batch[i].1 == (left[batch[i].0.uuid] != [])
  }

  lemma BatchedNext(p: map<Uuid, seq<Ack>>, now: int, seen: set<Uuid>, u: Uuid, batch: seq<(Ack, bool)>, expired: seq<Ack>, pending: bool)
    requires Batched(p, now, seen, batch) && u in p && u !in seen
    requires expired == SpentOf(p[u], now) && AllOf(expired, u)
    ensures Batched(p, now, seen + {u}, batch + Pairs(expired, pending))
  {
    var batch' := batch + Pairs(expired, pending);
    forall v
      ensures EntriesOf(batch', v) == if v in seen + {u} && v in p then SpentOf(p[v], now) else []
    {
      PairsShape(batch, expired, pending, u, v);
      assert EntriesOf(batch, v) == if v in seen && v in p then SpentOf(p[v], now) else [];
      if v == u {
        assert [] + expired == expired;
      } else {
        assert v in seen + {u} <==> v in seen;
      }
    }
  }

  lemma FlaggedNext(left: map<Uuid, seq<Ack>>, batch: seq<(Ack, bool)>, u: Uuid, still: seq<Ack>, expired: seq<Ack>)
    requires Flagged(left, batch) && u !in left && AllOf(expired, u)
    ensures Flagged(left[u := still], batch + Pairs(expired, still != []))
  {
    PairsShape(batch, expired, still != [], u, u);
    var pairs := Pairs(expired, still != []);
    var batch', left' := batch + pairs, left[u := still];
    forall i | 0 <= i < |batch'|
      ensures batch'[i].0.uuid in left' && batch'[i].1 == (left'[batch'[i].0.uuid] != [])
    {
      if i < |batch| {
        assert batch'[i] == batch[i];
      } else {
        assert batch'[i] == pairs[i - |batch|];
      }
    }
  }

  /** A sweep that has been through the first `k` messages. */
  ghost predicate Progress(p: map<Uuid, seq<Ack>>, now: int, order: seq<Uuid>, k: nat,
                           left: map<Uuid, seq<Ack>>, batch: seq<(Ack, bool)>) {
    Visited(order, k, left.Keys) && Remaining(p, now, left) && Batched(p, now, left.Keys, batch) && Flagged(left, batch)
  }

  lemma ProgressNext(p: map<Uuid, seq<Ack>>, now: int, order: seq<Uuid>, k: nat,
                     left: map<Uuid, seq<Ack>>, batch: seq<(Ack, bool)>)
    requires Distinct(order) && k < |order| && order[k] in p && AllOf(p[order[k]], order[k])
    requires Progress(p, now, order, k, left, batch)
    ensures var still, expired := StillOf(p[order[k]], now), SpentOf(p[order[k]], now);
      Progress(p, now, order, k + 1, left[order[k] := still], batch + Pairs(expired, still != []))
  {
    var u := order[k];
    var still, expired := StillOf(p[u], now), SpentOf(p[u], now);
    SpentIsOf(p[u], now, u);
    RemainingNext(p, now, left, u);
    VisitNext(order, k, left.Keys);
    BatchedNext(p, now, left.Keys, u, batch, expired, still != []);
    FlaggedNext(left, batch, u, still, expired);
  }

  lemma SpentIsOf(es: seq<Ack>, now: int, u: Uuid)
    requires AllOf(es, u)
    ensures AllOf(SpentOf(es, now), u) && AllOf(StillOf(es, now), u)
  {
    SplitOf(es, Due(es, now), u);
  }

  lemma RemainingNext(p: map<Uuid, seq<Ack>>, now: int, left: map<Uuid, seq<Ack>>, u: Uuid)
    requires Remaining(p, now, left) && u in p
    ensures Remaining(p, now, left[u := StillOf(p[u], now)])
    ensures left[u := StillOf(p[u], now)].Keys == left.Keys + {u}
  {
  }

  /** The messages that still have entries. */
  function Trimmed(left: map<Uuid, seq<Ack>>): map<Uuid, seq<Ack>> {
    map u | u in left && left[u] != [] :: left[u]
  }

  function Entries(p: map<Uuid, seq<Ack>>, u: Uuid): seq<Ack> {
    if u in p then p[u] else []
  }

  ghost predicate Filed(p: map<Uuid, seq<Ack>>) {
    forall u :: u in p ==> p[u] != [] && AllOf(p[u], u)
  }

  lemma NothingLeft(now: int)
    ensures StillOf([], now) == [] && SpentOf([], now) == []
  {
  }

  lemma TrimmedFiled(p: map<Uuid, seq<Ack>>, now: int, left: map<Uuid, seq<Ack>>)
    requires Filed(p) && Remaining(p, now, left)
    ensures Filed(Trimmed(left))
  {
    forall u | u in Trimmed(left)
      ensures AllOf(left[u], u)
    {
      SpentIsOf(p[u], now, u);
    }
  }

  lemma TrimmedEntries(p: map<Uuid, seq<Ack>>, now: int, left: map<Uuid, seq<Ack>>, batch: seq<(Ack, bool)>, v: Uuid)
    requires left.Keys == p.Keys && Remaining(p, now, left) && Batched(p, now, p.Keys, batch)
    ensures Entries(Trimmed(left), v) == StillOf(Entries(p, v), now)
    ensures EntriesOf(batch, v) == SpentOf(Entries(p, v), now)
  {
    NothingLeft(now);
    assert v in p <==> v in left;
  }

  lemma TrimmedFlags(left: map<Uuid, seq<Ack>>, batch: seq<(Ack, bool)>)
    requires Flagged(left, batch)
    ensures forall i :: 0 <= i < |batch| ==> batch[i].1 == (Entries(Trimmed(left), batch[i].0.uuid) != [])
  {
  }

  class AckTracker {
    var pending: map<Uuid, seq<Ack>>

    ghost function Of(u: Uuid): seq<Ack>
      reads this
    {
      Entries(pending, u)
    }

    /** No empty lists are kept, and every entry is filed under its own message. */
    ghost predicate Valid()
      reads this
    {
      Filed(pending)
    }

    constructor ()
      ensures Valid() && forall u :: Of(u) == []
    {
      pending := map[];
    }

    method Track(u: Uuid, stage: Stage, m: Module, timeout: nat, now: int)
      requires Valid()
      modifies this
      ensures Valid()
      ensures forall v :: Of(v) == if v == u then old(Of(u)) + [Ack(u, stage, m, now, timeout, false, 0)] else old(Of(v))
    {
      var entries := if u in pending then pending[u] else [];
      pending := pending[u := entries + [Ack(u, stage, m, now, timeout, false, 0)]];
    }

    /** A receipt confirms delivery only: it marks the module's first entry. */
    method Receive(u: Uuid, m: Module)
      requires Valid()
      modifies this
      ensures Valid()
      ensures forall v :: Of(v) == if v == u then MarkReceipt(old(Of(u)), m) else old(Of(v))
    {
      if u in pending {
        var entries := pending[u];
        var i := FirstOf(entries, m);
        MarkReceiptAt(entries, m, i);
        if i < |entries| {
          pending := pending[u := entries[i := entries[i].(receipt := true)]];
        }
      }
    }

    static method FirstOf(entries: seq<Ack>, m: Module) returns (i: nat)
      ensures i <= |entries| && (i < |entries| ==> entries[i].moduleName == m)
      ensures forall j :: 0 <= j < i ==> entries[j].moduleName != m
    {
      i := 0;
      while i < |entries| && entries[i].moduleName != m
        invariant i <= |entries| && forall j :: 0 <= j < i ==> entries[j].moduleName != m
      {
        i := i + 1;
      }
    }

    /** A resend keeps the message in flight with a full budget and one attempt more. */
    method ReTrack(e: Ack, now: int)
      requires Valid()
      modifies this
      ensures Valid()
      ensures forall v :: Of(v) == (if v == e.uuid
        then old(Of(v)) + [e.(sentAt := now, receipt := false, resends := e.resends + 1)] else old(Of(v)))
    {
      var entries := if e.uuid in pending then pending[e.uuid] else [];
      pending := pending[e.uuid := entries + [e.(sentAt := now, receipt := false, resends := e.resends + 1)]];
    }

    method Clear(u: Uuid)
      requires Valid()
      modifies this
      ensures Valid()
      ensures forall v :: Of(v) == if v == u then [] else old(Of(v))
    {
      pending := pending - {u};
    }

    /**
      Takes out the module's entries and answers, in the same call, which stage
      was acked, after how long, and whether anything is still pending.
     */
    method AckModule(u: Uuid, m: Module, now: int) returns (acked: Option<Acked>)
      requires Valid()
      modifies this
      ensures Valid()
      ensures acked == match AckedEntry(old(Of(u)), m)
        case None => None
        case Some(e) => Some(Acked(e.stage, now - e.sentAt, Of(u) != []))
      ensures forall v :: Of(v) == if v == u then Without(old(Of(u)), m) else old(Of(v))
    {
      if u !in pending {
        return None;
      }
      var entry, kept := TakeOut(pending[u], m);
      WithoutOf(pending[u], m, u);
      if entry.None? {
        AckedEntryStage(pending[u], m);
        WithoutNone(pending[u], m);
        return None;
      }
      if kept == [] {
        pending := pending - {u};
      } else {
        pending := pending[u := kept];
      }
      acked := Some(Acked(entry.value.stage, now - entry.value.sentAt, kept != []));
    }

    static method TakeOut(entries: seq<Ack>, m: Module) returns (entry: Option<Ack>, kept: seq<Ack>)
      ensures entry == AckedEntry(entries, m) && kept == Without(entries, m)
    {
      entry, kept := None, [];
      for i := 0 to |entries|
        invariant kept + Without(entries[i..], m) == Without(entries, m)
        invariant AckedEntry(entries, m) == if entry.Some? then entry else AckedEntry(entries[i..], m)
      {
        var e, rest := entries[i], entries[i + 1..];
        assert entries[i..][0] == e && entries[i..][1..] == rest;
        assert (kept + [e]) + Without(rest, m) == kept + ([e] + Without(rest, m));
        if e.moduleName == m {
          entry := if entry.Some? then entry else Some(e);
        } else {
          kept := kept + [e];
        }
      }
      assert entries[|entries|..] == [] && kept + [] == kept;
    }

    /**
      Takes out every expired entry, reporting with each one whether its message
      still has a pending ack after the drain. `order` is the iteration order of
      the hash map; nothing but the order of the batch depends on it.
     */
    method CheckTimeouts(now: int, order: seq<Uuid>) returns (timedOut: seq<(Ack, bool)>)
      requires Valid() && Enumerates(order, pending.Keys)
      modifies this
      ensures Valid()
      ensures forall v :: Of(v) == StillOf(old(Of(v)), now)
      ensures forall v :: EntriesOf(timedOut, v) == SpentOf(old(Of(v)), now)
      ensures forall i :: 0 <= i < |timedOut| ==> timedOut[i].1 == (Of(timedOut[i].0.uuid) != [])
    {
      ghost var before := pending;
      var left;
      left, timedOut := DrainAll(pending, now, order);
      pending := Trimmed(left);
      VisitedAll(order, before.Keys, left.Keys);
      TrimmedFiled(before, now, left);
      TrimmedFlags(left, timedOut);
      forall v { TrimmedEntries(before, now, left, timedOut, v); }
    }

    static method DrainAll(p: map<Uuid, seq<Ack>>, now: int, order: seq<Uuid>)
      returns (left: map<Uuid, seq<Ack>>, batch: seq<(Ack, bool)>)
      requires Enumerates(order, p.Keys) && forall u :: u in p ==> AllOf(p[u], u)
      ensures Progress(p, now, order, |order|, left, batch)
    {
      left, batch := map[], [];
      for k := 0 to |order|
        invariant Progress(p, now, order, k, left, batch)
      {
        assert order[k] in p;
        var still, expired := Drain(p[order[k]], now);
        ProgressNext(p, now, order, k, left, batch);
        left := left[order[k] := still];
        batch := Report(batch, expired, still != []);
      }
    }

    static method Report(batch: seq<(Ack, bool)>, expired: seq<Ack>, pending: bool) returns (r: seq<(Ack, bool)>)
      ensures r == batch + Pairs(expired, pending)
    {
      r := batch;
      for j := 0 to |expired|
        invariant r == batch + Pairs(expired[..j], pending)
      {
        assert expired[..j + 1][..j] == expired[..j];
        r := r + [(expired[j], pending)];
      }
      assert expired[..|expired|] == expired;
    }

    /** One message's entries, split by whether their budget is spent. */
    static method Drain(entries: seq<Ack>, now: int) returns (still: seq<Ack>, expired: seq<Ack>)
      ensures still == Kept(entries, Due(entries, now))
      ensures expired == Expired(entries, Due(entries, now))
    {
      still, expired := [], [];
      ghost var which := Due(entries, now);
      for i := 0 to |entries|
        invariant still == Kept(entries[..i], which)
        invariant expired == Expired(entries[..i], which)
      {
        assert entries[..i + 1][..i] == entries[..i];
        if now - entries[i].sentAt > entries[i].timeout {
          expired := expired + [entries[i]];
        } else {
          still := still + [entries[i]];
        }
      }
      assert entries[..|entries|] == entries;
    }

    /** The ownership check a stage reply must pass. */
    method IsPendingFor(u: Uuid, m: Module, stage: Stage) returns (owns: bool)
      ensures owns == Owns(Of(u), m, stage)
    {
      owns := u in pending && exists i :: 0 <= i < |pending[u]| && pending[u][i].moduleName == m && pending[u][i].stage == stage;
    }

    /** Hands every pending ack its full budget back. */
    method Rebase(now: int)
      requires Valid()
      modifies this
      ensures Valid()
      ensures pending.Keys == old(pending.Keys)
      ensures forall v :: Of(v) == RestartClocks(old(Of(v)), now)
    {
      pending := map u | u in pending :: RestartClocks(pending[u], now);
    }
  }
}
