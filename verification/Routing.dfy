/**
  Who a message is sent to (src/pipeline.rs, `command_recipients`): in an engine
  whose registry was built by registrations and whose configured lists name each
  module once, a fan-out reaches each module at most once.
 */
module Routing {
  import opened Basics
  import opened Messages
  import Registry

  ghost predicate Distinct(ms: seq<Module>) {
    forall i, j :: 0 <= i < j < |ms| ==> ms[i] != ms[j]
  }

  /** The world of an engine that came about by registrations and lists each module once. */
  ghost predicate Proper(w: World) {
    && Distinct(w.config.pre) && Distinct(w.config.inProcess) && Distinct(w.config.post)
    && Distinct(w.catchAlls) && (forall m :: m in w.catchAlls <==> m in w.registry.CatchAlls())
    && exists history :: w.registry == Registry.Replay(history)
  }

  /** The catch-alls are exactly the modules that registered no command. */
  ghost predicate CatchAllsOwnNothing(r: Registry.Registry) {
    forall m :: m in r.modules ==> (r.modules[m].catchAll <==> r.modules[m].commands == [])
  }

  lemma AfterOwnsNothing(r: Registry.Registry, claim: Registry.Claim)
    requires CatchAllsOwnNothing(r)
    ensures CatchAllsOwnNothing(r.After(claim))
  {
  }

  lemma {:induction false} ReplayOwnsNothing(history: seq<Registry.Claim>)
    ensures CatchAllsOwnNothing(Registry.Replay(history))
  {
    if history != [] {
      var n := |history| - 1;
      ReplayOwnsNothing(history[..n]);
      AfterOwnsNothing(Registry.Replay(history[..n]), history[n]);
    }
  }

  lemma OwnerIsNoCatchAll(w: World, key: Key)
    requires Proper(w) && w.registry.Owner(key).Some?
    ensures w.registry.Owner(key).value !in w.registry.CatchAlls()
  {
    var history :| w.registry == Registry.Replay(history);
    ReplayOwnsNothing(history);
    Registry.OwnerIsLastClaim(history, key);
    assert w.registry.Backed() && key in w.registry.index;
    assert key in Registry.Keys(w.registry.modules[w.registry.index[key]].commands);
    assert w.registry.modules[w.registry.index[key]].commands != [];
  }

  // ── Order-keeping selections ───────────────────────────────────────────

  lemma {:induction false} RetainShape(targets: seq<Module>, ms: seq<Module>)
    ensures forall m :: m in Retain(targets, ms) <==> m in targets && m in ms
    ensures Distinct(targets) ==> Distinct(Retain(targets, ms))
  {
    if targets != [] {
      RetainShape(targets[1..], ms);
      assert targets == [targets[0]] + targets[1..];
      if Distinct(targets) {
        TailDistinct(targets);
        HeadDistinct(targets[0], Retain(targets[1..], ms));
      }
    }
  }

  lemma TailDistinct(ms: seq<Module>)
    requires ms != []
    ensures Distinct(ms) ==> Distinct(ms[1..]) && ms[0] !in ms[1..]
  {
  }

  lemma HeadDistinct(m: Module, ms: seq<Module>)
    requires Distinct(ms) && m !in ms
    ensures Distinct([m] + ms)
  {
  }

  lemma {:induction false} PlainShape(r: Registry.Registry, ms: seq<Module>)
    ensures forall m :: m in PlainRecipients(r, ms) <==> m in ms && TakesPlain(r, m)
    ensures Distinct(ms) ==> Distinct(PlainRecipients(r, ms))
  {
    if ms != [] {
      PlainShape(r, ms[1..]);
      assert ms == [ms[0]] + ms[1..];
      if Distinct(ms) {
        TailDistinct(ms);
        HeadDistinct(ms[0], PlainRecipients(r, ms[1..]));
      }
    }
  }

  lemma {:induction false} PostShape(w: World, parsed: Option<Key>, ms: seq<Module>)
    ensures forall m :: m in PostRecipients(w, parsed, ms) <==> m in ms && PostRecipient(w, parsed, m)
    ensures Distinct(ms) ==> Distinct(PostRecipients(w, parsed, ms))
  {
    if ms != [] {
      PostShape(w, parsed, ms[1..]);
      assert ms == [ms[0]] + ms[1..];
      if Distinct(ms) {
        TailDistinct(ms);
        HeadDistinct(ms[0], PostRecipients(w, parsed, ms[1..]));
      }
    }
  }

  /** A command goes to its owner and to every catch-all of the list, and to each of them once. */
  lemma CommandRecipients(w: World, key: Key, ms: seq<Module>)
    requires Proper(w)
    ensures var to := Recipients(w, Some(key), ms);
      && Distinct(to)
      && forall m :: m in to <==> m in ms && (w.registry.Owner(key) == Some(m) || m in w.registry.CatchAlls())
  {
    var owner := w.registry.Owner(key);
    var targets := (if owner.Some? then [owner.value] else []) + w.catchAlls;
    if owner.Some? {
      OwnerIsNoCatchAll(w, key);
      HeadDistinct(owner.value, w.catchAlls);
    } else {
      assert targets == w.catchAlls;
    }
    RetainShape(targets, ms);
  }

  /** No list of recipients of a stage names a module twice. */
  lemma RecipientsDistinct(w: World, parsed: Option<Key>)
    requires Proper(w)
    ensures Distinct(Recipients(w, parsed, w.config.pre)) && Distinct(PostRecipients(w, parsed, w.config.post))
  {
    PostShape(w, parsed, w.config.post);
    if parsed.Some? {
      CommandRecipients(w, parsed.value, w.config.pre);
    } else {
      PlainShape(w.registry, w.config.pre);
    }
  }
}
