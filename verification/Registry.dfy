/**
  Which module subscribed to which chat command (src/command_registry.rs).
  `Registry` is the value the lookups read; `CommandRegistry` is the object
  `register` updates in place.
 */
module Registry {
  import opened Basics

  type Module = string

  /** A command as it is looked up: its flag prefix (such as `!`) and its name. */
  type Key = (string, string)

  datatype Flag = Flag(
    name: string, description: string, limitingType: int,
    minVal: real, maxVal: real, options: seq<string>, value: string)

  datatype Command = Command(name: string, flag: string, description: string, flags: seq<Flag>) {
    function Key(): Key { (flag, name) }
  }

  datatype ModuleReg = ModuleReg(commands: seq<Command>, catchAll: bool, alertOnUnknown: bool)

  datatype Collision = Collision(key: Key, existingOwner: Module, newOwner: Module)

  /** One `register` call. */
  datatype Claim = Claim(moduleName: Module, commands: seq<Command>, alertOnUnknown: bool)

  function Keys(commands: seq<Command>): set<Key> {
    set c | c in commands :: c.Key()
  }

  datatype Registry = Registry(index: map<Key, Module>, modules: map<Module, ModuleReg>) {
    function Owner(key: Key): Option<Module> {
      if key in index then Some(index[key]) else None
    }

    function CatchAlls(): set<Module> {
      set m | m in modules && modules[m].catchAll
    }

    predicate IsCommandScoped(m: Module) {
      m in modules && modules[m].commands != []
    }

    predicate WantsPlainMessages(m: Module) {
      m in modules && modules[m].alertOnUnknown
    }

    /** The owner's stored definition of a command. */
    function Definition(key: Key): Option<Command> {
      if key in index && index[key] in modules then FindCommand(modules[index[key]].commands, key) else None
    }

    function CommandFlags(key: Key): seq<Flag> {
      if Definition(key).Some? then Definition(key).value.flags else []
    }

    function Description(key: Key): string {
      if Definition(key).Some? then Definition(key).value.description else ""
    }

    function Names(flag: string): set<string> {
      set k | k in index && k.0 == flag :: k.1
    }

    /** The flag prefixes some registered command uses. */
    function Flags(): set<string> {
      set k | k in index :: k.0
    }

    /** The registry after one more `register` call. */
    function After(claim: Claim): Registry {
      Registry(
        Claimed(index, claim.moduleName, Keys(claim.commands)),
        modules[claim.moduleName := ModuleReg(claim.commands, claim.commands == [], claim.alertOnUnknown)])
    }

    /** Every index entry is one of the commands its owner has stored. */
    ghost predicate Backed() {
      forall k :: k in index ==> index[k] in modules && k in Keys(modules[index[k]].commands)
    }
  }

  /** `m` gives up what it held and takes `keys`, whoever held them. */
  function Claimed(index: map<Key, Module>, m: Module, keys: set<Key>): map<Key, Module> {
    map k | k in index.Keys + keys && (k in keys || index[k] != m) :: if k in keys then m else index[k]
  }

  lemma ClaimOneMore(index: map<Key, Module>, m: Module, commands: seq<Command>, n: nat)
    requires n < |commands|
    ensures Keys(commands[..n + 1]) == Keys(commands[..n]) + {commands[n].Key()}
    ensures Claimed(index, m, Keys(commands[..n + 1]))
         == Claimed(index, m, Keys(commands[..n]))[commands[n].Key() := m]
  {
    assert commands[..n + 1] == commands[..n] + [commands[n]];
  }

  /** Half-way through a call another module's claim is still in the index, unless already taken. */
  lemma ClaimSees(index: map<Key, Module>, m: Module, keys: set<Key>, key: Key)
    ensures var now := Claimed(index, m, keys);
      && (key in now && now[key] != m <==> key in index && index[key] != m && key !in keys)
      && (key in now && now[key] != m ==> now[key] == index[key])
  {
  }

  const EMPTY := Registry(map[], map[])

  function FindCommand(commands: seq<Command>, key: Key): Option<Command> {
    if commands == [] then None
    else if commands[0].Key() == key then Some(commands[0])
    else FindCommand(commands[1..], key)
  }

  lemma {:induction false} FindCommandFinds(commands: seq<Command>, key: Key)
    ensures FindCommand(commands, key).Some? <==> key in Keys(commands)
    ensures FindCommand(commands, key).Some? ==>
      FindCommand(commands, key).value in commands && FindCommand(commands, key).value.Key() == key
  {
    if commands != [] {
      FindCommandFinds(commands[1..], key);
      assert commands == [commands[0]] + commands[1..];
    }
  }

  /** The registry after a whole history of `register` calls, from an empty one. */
  function Replay(history: seq<Claim>): Registry {
    if history == [] then EMPTY
    else Replay(history[..|history| - 1]).After(history[|history| - 1])
  }

  /** Call `i` is the last to claim `key`, and its module has not registered since. */
  ghost predicate LastClaim(history: seq<Claim>, key: Key, i: int) {
    && 0 <= i < |history|
    && key in Keys(history[i].commands)
    && forall j :: i < j < |history| ==>
         key !in Keys(history[j].commands) && history[j].moduleName != history[i].moduleName
  }

  lemma LastClaimNext(before: seq<Claim>, claim: Claim, key: Key, i: int)
    ensures LastClaim(before + [claim], key, i) <==>
      if key in Keys(claim.commands) then i == |before|
      else LastClaim(before, key, i) && before[i].moduleName != claim.moduleName
  {
    var all := before + [claim];
    assert all[|before|] == claim;
    assert forall j :: 0 <= j < |before| ==> all[j] == before[j];
  }

  /** The owner of a pair by its last claim. */
  ghost predicate OwnedBy(history: seq<Claim>, key: Key, m: Module) {
    exists i :: LastClaim(history, key, i) && history[i].moduleName == m
  }

  lemma OwnedByNext(before: seq<Claim>, claim: Claim, key: Key, m: Module)
    ensures OwnedBy(before + [claim], key, m) <==>
      if key in Keys(claim.commands) then m == claim.moduleName
      else OwnedBy(before, key, m) && m != claim.moduleName
  {
    var all := before + [claim];
    forall i { LastClaimNext(before, claim, key, i); }
    if key in Keys(claim.commands) {
      assert LastClaim(all, key, |before|);
    } else if OwnedBy(before, key, m) && m != claim.moduleName {
      var i :| LastClaim(before, key, i) && before[i].moduleName == m;
      assert LastClaim(all, key, i) && all[i].moduleName == m;
    }
  }

  /** The index replays its history: ownership is decided by the last claim alone. */
  lemma {:induction false} OwnerIsLastClaim(history: seq<Claim>, key: Key)
    ensures forall m :: Replay(history).Owner(key) == Some(m) <==> OwnedBy(history, key, m)
    ensures Replay(history).Backed()
  {
    if history != [] {
      var n := |history| - 1;
      var before, claim := history[..n], history[n];
      OwnerIsLastClaim(before, key);
      BackedAfter(Replay(before), claim);
      assert history == before + [claim];
      forall m
        ensures Replay(history).Owner(key) == Some(m) <==> OwnedBy(history, key, m)
      {
        OwnedByNext(before, claim, key, m);
      }
    }
  }

  lemma BackedAfter(r: Registry, claim: Claim)
    requires r.Backed()
    ensures r.After(claim).Backed()
  {
  }

  /** The collisions of one call: the pairs it takes from another module, in order. */
  function Collisions(r: Registry, claim: Claim, upTo: nat): seq<Collision>
    requires upTo <= |claim.commands|
  {
    if upTo == 0 then []
    else
      var before, key := Collisions(r, claim, upTo - 1), claim.commands[upTo - 1].Key();
      if key in r.index && r.index[key] != claim.moduleName && key !in Keys(claim.commands[..upTo - 1])
      then before + [Collision(key, r.index[key], claim.moduleName)]
      else before
  }

  /** Each pair taken from another module is reported, with that module, exactly once. */
  lemma {:induction false} CollisionsExact(r: Registry, claim: Claim, n: nat)
    requires n <= |claim.commands|
    ensures forall c :: c in Collisions(r, claim, n) <==>
      && c.key in Keys(claim.commands[..n]) && c.key in r.index
      && c.existingOwner == r.index[c.key] != claim.moduleName == c.newOwner
    ensures DistinctKeys(Collisions(r, claim, n))
  {
    if n > 0 {
      CollisionsExact(r, claim, n - 1);
      assert claim.commands[..n] == claim.commands[..n - 1] + [claim.commands[n - 1]];
      var before, cs := Collisions(r, claim, n - 1), Collisions(r, claim, n);
      if cs != before {
        var c := cs[|cs| - 1];
        assert cs == before + [c] && c.key !in Keys(claim.commands[..n - 1]);
        forall i | 0 <= i < |before|
          ensures before[i].key != c.key
        {
          assert before[i] in before;
        }
      }
    }
  }

  ghost predicate DistinctKeys(cs: seq<Collision>) {
    forall i, j :: 0 <= i < j < |cs| ==> cs[i].key != cs[j].key
  }

  class CommandRegistry {
    var index: map<Key, Module>
    var modules: map<Module, ModuleReg>

    ghost function View(): Registry
      reads this
    {
      Registry(index, modules)
    }

    constructor ()
      ensures View() == EMPTY
    {
      index, modules := map[], map[];
    }

    /** Replaces any prior registration of the module; last writer wins. */
    method Register(moduleName: Module, commands: seq<Command>, alertOnUnknown: bool)
      returns (collisions: seq<Collision>)
      modifies this
      ensures View() == old(View()).After(Claim(moduleName, commands, alertOnUnknown))
      ensures collisions == Collisions(old(View()), Claim(moduleName, commands, alertOnUnknown), |commands|)
    {
      index := map k | k in index && index[k] != moduleName :: index[k];
      collisions := Subscribe(moduleName, commands, Claim(moduleName, commands, alertOnUnknown), View().(index := old(index)));
      assert commands[..|commands|] == commands;
      modules := modules[moduleName := ModuleReg(commands, commands == [], alertOnUnknown)];
    }

    method Subscribe(moduleName: Module, commands: seq<Command>, ghost claim: Claim, ghost r: Registry) returns (collisions: seq<Collision>)
      requires claim.moduleName == moduleName && claim.commands == commands
      requires index == Claimed(r.index, moduleName, {})
      modifies this`index
      ensures index == Claimed(r.index, moduleName, Keys(commands))
      ensures collisions == Collisions(r, claim, |commands|)
    {
      collisions := [];
      for n := 0 to |commands|
        invariant index == Claimed(r.index, moduleName, Keys(commands[..n]))
        invariant collisions == Collisions(r, claim, n)
      {
        ClaimOneMore(r.index, moduleName, commands, n);
        var key := commands[n].Key();
        ClaimSees(r.index, moduleName, Keys(commands[..n]), key);
        if key in index && index[key] != moduleName {
          collisions := collisions + [Collision(key, index[key], moduleName)];
        }
        index := index[key := moduleName];
      }
      assert commands[..|commands|] == commands;
    }
  }
}
