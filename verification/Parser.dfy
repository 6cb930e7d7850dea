/**
  Parsing a chat command (src/command_registry.rs, `parse_command`): the longest
  registered flag prefix, a name, then a walk over the words that pairs flags
  with values. The walk is described by what each stretch of words is read as.
 */
module Parser {
  import opened Basics
  import opened Whitespace
  import Text
  import R = Registry

  // ── What the words after the name are read as ──────────────────────────

  /** `-n:v`, `-n v`, `-n`, or a plain argument. */
  datatype Item = Inline(name: string, value: string) | Pair(name: string, value: string) | Bare(name: string) | Arg(text: string) {
    function Tokens(): seq<string> {
      match this
      case Inline(n, v) => ["-" + n + ":" + v]
      case Pair(n, v) => ["-" + n, v]
      case Bare(n) => ["-" + n]
      case Arg(t) => [t]
    }

    function Given(): string
      requires !Arg?
    {
      if Bare? then "true" else value
    }
  }

  predicate Dashed(s: string) { s != "" && s[0] == '-' }

  /** The first item of a non-empty list of words. */
  function FirstItem(ts: seq<string>): Item
    requires ts != []
  {
    if Dashed(ts[0]) && |ts[0]| > 1 then
      var body := ts[0][1..];
      var n := Text.IndexOf(body, ':');
      if n < |body| then Inline(body[..n], body[n + 1..])
      else if |ts| > 1 && !Dashed(ts[1]) then Pair(body, ts[1])
      else Bare(body)
    else Arg(ts[0])
  }

  function Items(ts: seq<string>): seq<Item> {
    if ts == [] then []
    else
      var item := FirstItem(ts);
      [item] + Items(ts[|item.Tokens()|..])
  }

  function Flatten(items: seq<Item>): seq<string> {
    if items == [] then [] else items[0].Tokens() + Flatten(items[1..])
  }

  /** An item that can be read back from its own words. */
  predicate Readable(item: Item) {
    match item
    case Inline(n, v) => ':' !in n
    case Pair(n, v) => n != "" && ':' !in n && !Dashed(v)
    case Bare(n) => n != "" && ':' !in n
    case Arg(t) => !Dashed(t) || |t| == 1
  }

  /** Readable items, with no bare flag followed by an argument it would swallow. */
  predicate WellFormed(items: seq<Item>) {
    items == [] ||
    (&& Readable(items[0])
     && (items[0].Bare? && |items| > 1 && items[1].Arg? ==> Dashed(items[1].text))
     && WellFormed(items[1..]))
  }

  lemma FirstItemTokens(ts: seq<string>)
    requires ts != []
    ensures var item := FirstItem(ts);
      && Readable(item) && |item.Tokens()| <= |ts| && ts[..|item.Tokens()|] == item.Tokens()
      && (item.Bare? && |ts| > 1 ==> Dashed(ts[1]))
  {
    var item := FirstItem(ts);
    assert ts[..1] == [ts[0]];
    if !item.Arg? {
      var body := ts[0][1..];
      assert ts[0] == "-" + body;
      if item.Inline? {
        InlineToken(body, Text.IndexOf(body, ':'));
      } else {
        assert body[..|body|] == body;
        assert item.Pair? ==> ts[..2] == [ts[0], ts[1]];
      }
    }
  }

  lemma InlineToken(body: string, n: nat)
    requires n < |body| && body[n] == ':'
    ensures "-" + body == Inline(body[..n], body[n + 1..]).Tokens()[0]
  {
    assert body == body[..n] + ":" + body[n + 1..];
    assert "-" + (body[..n] + ":" + body[n + 1..]) == "-" + body[..n] + ":" + body[n + 1..];
  }

  lemma WellFormedCons(item: Item, items: seq<Item>)
    requires Readable(item) && WellFormed(items)
    requires item.Bare? && items != [] && items[0].Arg? ==> Dashed(items[0].text)
    ensures WellFormed([item] + items) && Flatten([item] + items) == item.Tokens() + Flatten(items)
  {
    assert ([item] + items)[1..] == items;
  }

  lemma FirstOfItems(ts: seq<string>)
    requires ts != []
    ensures Items(ts) != [] && Items(ts)[0] == FirstItem(ts)
    ensures Items(ts)[0].Arg? ==> Items(ts)[0].text == ts[0]
  {
  }

  lemma WordsOfFirst(ts: seq<string>)
    requires ts != []
    ensures var item := FirstItem(ts); var k := |item.Tokens()|;
      Readable(item) && 0 < k <= |ts| && ts == item.Tokens() + ts[k..] && Items(ts) == [item] + Items(ts[k..])
  {
    FirstItemTokens(ts);
  }

  /** A bare flag is not followed by an argument it would have swallowed. */
  lemma NextItemFits(ts: seq<string>)
    requires ts != []
    ensures var item := FirstItem(ts); var rest := ts[|item.Tokens()|..];
      item.Bare? && rest != [] && Items(rest)[0].Arg? ==> Dashed(Items(rest)[0].text)
  {
    FirstItemTokens(ts);
    var item := FirstItem(ts);
    var rest := ts[|item.Tokens()|..];
    if item.Bare? && rest != [] {
      FirstOfItems(rest);
      assert rest[0] == ts[1];
    }
  }

  /** Every word after the name is used exactly once and in order. */
  lemma {:induction false} EveryWordOnce(ts: seq<string>)
    ensures Flatten(Items(ts)) == ts
    ensures WellFormed(Items(ts))
    decreases |ts|
  {
    if ts != [] {
      var item := FirstItem(ts);
      var rest := ts[|item.Tokens()|..];
      WordsOfFirst(ts);
      EveryWordOnce(rest);
      NextItemFits(ts);
      WellFormedCons(item, Items(rest));
    }
  }

  lemma FirstItemReads(item: Item, rest: seq<string>)
    requires Readable(item)
    requires item.Bare? && rest != [] ==> Dashed(rest[0])
    ensures FirstItem(item.Tokens() + rest) == item
  {
    var ts := item.Tokens() + rest;
    match item {
      case Inline(n, v) =>
        Text.IndexOfFirst(n, ':', v);
        assert ts[0][1..] == n + ":" + v;
        assert (n + ":" + v)[..|n|] == n && (n + ":" + v)[|n| + 1..] == v;
      case Pair(n, v) =>
        Text.IndexOfNone(n, ':');
        assert ts[0][1..] == n && ts[1] == v;
      case Bare(n) =>
        Text.IndexOfNone(n, ':');
        assert ts[0][1..] == n;
      case Arg(t) =>
    }
  }

  /** The walk reads well-formed items back from their words. */
  lemma {:induction false} ItemsReadBack(items: seq<Item>)
    requires WellFormed(items)
    ensures Items(Flatten(items)) == items
  {
    if items != [] {
      var rest := Flatten(items[1..]);
      ItemsReadBack(items[1..]);
      if |items| > 1 {
        assert rest[0] == items[1].Tokens()[0];
      }
      FirstItemReads(items[0], rest);
      assert (items[0].Tokens() + rest)[|items[0].Tokens()|..] == rest;
      assert items == [items[0]] + items[1..];
    }
  }

  // ── What the items amount to ───────────────────────────────────────────

  function FindFlag(defs: seq<R.Flag>, name: string): Option<R.Flag> {
    if defs == [] then None
    else if defs[0].name == name then Some(defs[0])
    else FindFlag(defs[1..], name)
  }

  /** The parsed flag, with the registered description and limits if there are any. */
  function Attach(defs: seq<R.Flag>, name: string, value: string): R.Flag {
    var def := FindFlag(defs, name);
    if def.Some? then def.value.(name := name, value := value) else R.Flag(name, "", 0, 0.0, 0.0, [], value)
  }

  function FlagOf(defs: seq<R.Flag>, item: Item): seq<R.Flag> {
    if item.Arg? then [] else [Attach(defs, item.name, item.Given())]
  }

  function FlagsOf(defs: seq<R.Flag>, items: seq<Item>): seq<R.Flag> {
    if items == [] then [] else FlagOf(defs, items[0]) + FlagsOf(defs, items[1..])
  }

  function ArgOf(item: Item): seq<string> {
    if item.Arg? then [item.text] else []
  }

  function ArgsOf(items: seq<Item>): seq<string> {
    if items == [] then [] else ArgOf(items[0]) + ArgsOf(items[1..])
  }

  /** Some of the `-n v` pairs written as `-n:v`. */
  function Inlined(items: seq<Item>, which: set<nat>): seq<Item> {
    seq(|items|, i requires 0 <= i < |items| =>
      if i in which && items[i].Pair? then Inline(items[i].name, items[i].value) else items[i])
  }

  lemma {:induction false} InlinedSame(defs: seq<R.Flag>, items: seq<Item>, items': seq<Item>)
    requires |items| == |items'| && WellFormed(items)
    requires forall i :: (0 <= i < |items| ==>
      items'[i] == items[i] || (items[i].Pair? && items'[i] == Inline(items[i].name, items[i].value)))
    ensures WellFormed(items')
    ensures FlagsOf(defs, items') == FlagsOf(defs, items) && ArgsOf(items') == ArgsOf(items)
    decreases |items|
  {
    if items != [] {
      InlinedSame(defs, items[1..], items'[1..]);
    }
  }

  /**
    Rewriting any of the `-n v` pairs of any list of words as `-n:v` changes neither
    the flags nor the arguments.
   */
  lemma PairOrInline(defs: seq<R.Flag>, ts: seq<string>, which: set<nat>)
    ensures var items, rewritten := Items(ts), Items(Flatten(Inlined(Items(ts), which)));
      && rewritten == Inlined(items, which)
      && FlagsOf(defs, rewritten) == FlagsOf(defs, items)
      && ArgsOf(rewritten) == ArgsOf(items)
  {
    EveryWordOnce(ts);
    InlinedSame(defs, Items(ts), Inlined(Items(ts), which));
    ItemsReadBack(Inlined(Items(ts), which));
  }

  // ── The longest registered flag ────────────────────────────────────────

  /** `best` is the longest of the flags that `text` starts with. */
  ghost predicate LongestOf(text: string, flags: set<string>, best: Option<string>) {
    match best
    case None => forall f :: f in flags ==> !(f <= text)
    case Some(b) => b in flags && b <= text && forall f :: f in flags && f <= text ==> |f| <= |b|
  }

  /** There is only one such flag, so the order of the hash map cannot matter. */
  lemma OneLongest(text: string, flags: set<string>, a: Option<string>, b: Option<string>)
    requires LongestOf(text, flags, a) && LongestOf(text, flags, b)
    ensures a == b
  {
    if a.Some? && b.Some? {
      assert a.value == text[..|a.value|] && b.value == text[..|b.value|];
    }
  }

  function LongestFrom(text: string, n: nat, flags: set<string>): (best: Option<string>)
    requires n <= |text|
    ensures best.Some? ==> best.value <= text
  {
    if text[..n] in flags then Some(text[..n])
    else if n == 0 then None
    else LongestFrom(text, n - 1, flags)
  }

  lemma {:induction false} LongestFromIs(text: string, n: nat, flags: set<string>)
    requires n <= |text|
    requires forall f :: f in flags && f <= text ==> |f| <= n
    ensures LongestOf(text, flags, LongestFrom(text, n, flags))
  {
    if text[..n] in flags {
    } else {
      forall f | f in flags && f <= text
        ensures |f| < n
      {
        assert f == text[..|f|];
      }
      if n > 0 {
        LongestFromIs(text, n - 1, flags);
      }
    }
  }

  method LongestFlag(text: string, keys: seq<R.Key>) returns (best: Option<string>)
    ensures LongestOf(text, set k | k in keys :: k.0, best)
  {
    best := None;
    ghost var seen: set<string> := {};
    for i := 0 to |keys|
      invariant seen == set k | k in keys[..i] :: k.0
      invariant LongestOf(text, seen, best)
    {
      var f := keys[i].0;
      assert keys[..i + 1] == keys[..i] + [keys[i]];
      seen := seen + {f};
      if f <= text && (best.None? || |f| > |best.value|) {
        best := Some(f);
      }
    }
    assert keys[..|keys|] == keys;
  }

  // ── The whole parser ───────────────────────────────────────────────────

  datatype Parsed = Parsed(command: R.Command, args: string)

  function Understood(reg: R.Registry, flag: string, name: string, ts: seq<string>): Parsed {
    var key := (flag, name);
    Parsed(R.Command(name, flag, reg.Description(key), FlagsOf(reg.CommandFlags(key), Items(ts))),
           Text.Join(ArgsOf(Items(ts)), " "))
  }

  function Parse(raw: string, reg: R.Registry): Option<Parsed> {
    var text := Trim(raw);
    if text == "" then None
    else
      var flag := LongestFrom(text, |text|, reg.Flags());
      if flag.None? then None
      else
        var after := TrimStart(text[|flag.value|..]);
        if after == "" then None
        else
          var n := WordEnd(after);
          Some(Understood(reg, flag.value, after[..n], Words(Trim(after[n..]))))
  }

  /** One step of the walk: the token at `i`, and the next word when that is its value. */
  method ReadOne(ts: seq<string>, i: nat, defs: seq<R.Flag>, flags: seq<R.Flag>, args: seq<string>)
    returns (next: nat, flags': seq<R.Flag>, args': seq<string>)
    requires i < |ts|
    ensures var item := FirstItem(ts[i..]);
      next == i + |item.Tokens()| && flags' == flags + FlagOf(defs, item) && args' == args + ArgOf(item)
  {
    var tok := ts[i];
    next, flags', args' := i + 1, flags, args;
    if Dashed(tok) && |tok| > 1 {
      var body := tok[1..];
      var n := Text.IndexOf(body, ':');
      assert body[..|body|] == body;
      var name, value := body[..n], "true";
      if n < |body| {
        value := body[n + 1..];
      } else if i + 1 < |ts| && !Dashed(ts[i + 1]) {
        value := ts[i + 1];
        next := i + 2;
      }
      flags' := flags + [Attach(defs, name, value)];
    } else {
      args' := args + [tok];
    }
  }

  /** The walk has read `done` from the words before `i`. */
  ghost predicate ReadSoFar(ts: seq<string>, i: nat, defs: seq<R.Flag>, done: seq<Item>, flags: seq<R.Flag>, args: seq<string>) {
    i <= |ts| && Items(ts) == done + Items(ts[i..]) && flags == FlagsOf(defs, done) && args == ArgsOf(done)
  }

  lemma ReadStep(ts: seq<string>, i: nat, defs: seq<R.Flag>, done: seq<Item>, flags: seq<R.Flag>, args: seq<string>)
    requires i < |ts| && ReadSoFar(ts, i, defs, done, flags, args)
    ensures var item := FirstItem(ts[i..]);
      ReadSoFar(ts, i + |item.Tokens()|, defs, done + [item], flags + FlagOf(defs, item), args + ArgOf(item))
  {
    var item := FirstItem(ts[i..]);
    ItemsAt(ts, i);
    Regroup(Items(ts), done, item, Items(ts[i + |item.Tokens()|..]));
    FlagsSnoc(defs, done, item);
    ArgsSnoc(done, item);
  }

  lemma Regroup(all: seq<Item>, done: seq<Item>, item: Item, rest: seq<Item>)
    requires all == done + ([item] + rest)
    ensures all == (done + [item]) + rest
  {
  }

  lemma ReadAll(ts: seq<string>, defs: seq<R.Flag>, done: seq<Item>, flags: seq<R.Flag>, args: seq<string>)
    requires ReadSoFar(ts, |ts|, defs, done, flags, args)
    ensures flags == FlagsOf(defs, Items(ts)) && args == ArgsOf(Items(ts))
  {
    assert ts[|ts|..] == [] && done + [] == done;
  }

  lemma ReadNone(ts: seq<string>, defs: seq<R.Flag>)
    ensures ReadSoFar(ts, 0, defs, [], [], [])
  {
    assert ts[0..] == ts && [] + Items(ts) == Items(ts);
  }

  method ReadWords(ts: seq<string>, defs: seq<R.Flag>) returns (flags: seq<R.Flag>, args: seq<string>)
    ensures flags == FlagsOf(defs, Items(ts)) && args == ArgsOf(Items(ts))
  {
    flags, args := [], [];
    var i := 0;
    ghost var done: seq<Item> := [];
    ReadNone(ts, defs);
    while i < |ts|
      invariant ReadSoFar(ts, i, defs, done, flags, args)
      decreases |ts| - i
    {
      ReadStep(ts, i, defs, done, flags, args);
      done := done + [FirstItem(ts[i..])];
      i, flags, args := ReadOne(ts, i, defs, flags, args);
    }
    ReadAll(ts, defs, done, flags, args);
  }

  lemma ItemsAt(ts: seq<string>, i: nat)
    requires i < |ts|
    ensures var item := FirstItem(ts[i..]);
      i + |item.Tokens()| <= |ts| && Items(ts[i..]) == [item] + Items(ts[i + |item.Tokens()|..])
  {
    var item := FirstItem(ts[i..]);
    FirstItemTokens(ts[i..]);
    assert ts[i..][|item.Tokens()|..] == ts[i + |item.Tokens()|..];
  }

  lemma {:induction false} FlagsSnoc(defs: seq<R.Flag>, items: seq<Item>, item: Item)
    ensures FlagsOf(defs, items + [item]) == FlagsOf(defs, items) + FlagOf(defs, item)
  {
    var all := items + [item];
    if items == [] {
      assert all[0] == item && all[1..] == [];
    } else {
      FlagsSnoc(defs, items[1..], item);
      assert all[0] == items[0] && all[1..] == items[1..] + [item];
    }
  }

  lemma {:induction false} ArgsSnoc(items: seq<Item>, item: Item)
    ensures ArgsOf(items + [item]) == ArgsOf(items) + ArgOf(item)
  {
    var all := items + [item];
    if items == [] {
      assert all[0] == item && all[1..] == [];
    } else {
      ArgsSnoc(items[1..], item);
      assert all[0] == items[0] && all[1..] == items[1..] + [item];
    }
  }

  /** `keys` are the registry's index keys in the order the hash map lists them. */
  method ParseCommand(raw: string, reg: R.Registry, keys: seq<R.Key>) returns (parsed: Option<Parsed>)
    requires forall k :: k in keys <==> k in reg.index
    ensures parsed == Parse(raw, reg)
  {
    var text := Trim(raw);
    if text == "" {
      return None;
    }
    var flag := LongestFlag(text, keys);
    assert (set k | k in keys :: k.0) == reg.Flags();
    LongestFromIs(text, |text|, reg.Flags());
    OneLongest(text, reg.Flags(), flag, LongestFrom(text, |text|, reg.Flags()));
    if flag.None? {
      return None;
    }
    var after := TrimStart(text[|flag.value|..]);
    if after == "" {
      return None;
    }
    var n := WordEnd(after);
    var key := (flag.value, after[..n]);
    var flags, args := ReadWords(Words(Trim(after[n..])), reg.CommandFlags(key));
    parsed := Some(Parsed(R.Command(after[..n], flag.value, reg.Description(key), flags), Text.Join(args, " ")));
  }

  /**
    Nothing of the message is lost or reordered: the words after the flag are the
    name followed by the words of the items, one after the other.
   */
  lemma ParseIsLossless(raw: string, reg: R.Registry)
    requires Parse(raw, reg).Some?
    ensures var c := Parse(raw, reg).value.command;
      && LongestOf(Trim(raw), reg.Flags(), Some(c.flag))
      && exists items ::
           && WellFormed(items)
           && Words(Trim(raw)[|c.flag|..]) == [c.name] + Flatten(items)
           && Clean(c.name) && AllClean(Flatten(items))
           && c.flags == FlagsOf(reg.CommandFlags((c.flag, c.name)), items)
           && Parse(raw, reg).value.args == Text.Join(ArgsOf(items), " ")
  {
    var text := Trim(raw);
    LongestFromIs(text, |text|, reg.Flags());
    var rest := text[|LongestFrom(text, |text|, reg.Flags()).value|..];
    NameThenWords(rest);
    var ts := Words(Trim(TrimStart(rest)[WordEnd(TrimStart(rest))..]));
    EveryWordOnce(ts);
    WordsClean(rest);
    WordsClean(Trim(TrimStart(rest)[WordEnd(TrimStart(rest))..]));
    assert Clean(Words(rest)[0]);
    assert WellFormed(Items(ts));
  }

  lemma NameThenWords(rest: string)
    requires TrimStart(rest) != ""
    ensures var after := TrimStart(rest); var n := WordEnd(after);
      Words(rest) == [after[..n]] + Words(Trim(after[n..]))
  {
    var after := TrimStart(rest);
    var n := WordEnd(after);
    WordsTrimStart(rest);
    WordsTrim(after[n..]);
  }

  // ── Printing and parsing ───────────────────────────────────────────────

  function Tail(items: seq<Item>): string {
    if items == [] then "" else " " + Text.Join(Flatten(items), " ")
  }

  function Print(flag: string, name: string, items: seq<Item>): string {
    flag + (name + Tail(items))
  }

  lemma {:induction false} JoinEnds(words: seq<string>)
    requires AllClean(words) && words != []
    ensures var s := Text.Join(words, " "); s != "" && !IsSpace(s[0]) && !IsSpace(s[|s| - 1])
  {
    if |words| > 1 {
      JoinEnds(words[1..]);
    }
  }

  lemma FlattenSome(items: seq<Item>)
    requires items != []
    ensures Flatten(items) != []
  {
  }

  /**
    Parsing what was printed gives back the flag, the name, the flags in order
    with their values, and the arguments, however flags and arguments interleave.
   */
  lemma ParseOfPrint(reg: R.Registry, flag: string, name: string, items: seq<Item>)
    requires Clean(name) && WellFormed(items) && AllClean(Flatten(items))
    requires flag == "" || !IsSpace(flag[0])
    requires LongestOf(Print(flag, name, items), reg.Flags(), Some(flag))
    ensures Parse(Print(flag, name, items), reg)
         == Some(Parsed(R.Command(name, flag, reg.Description((flag, name)), FlagsOf(reg.CommandFlags((flag, name)), items)),
                        Text.Join(ArgsOf(items), " ")))
  {
    var tail := Tail(items);
    var after := name + tail;
    TailWords(items);
    PrintTrimmed(flag, after);
    assert Print(flag, name, items) == flag + after;
    NameAlone(name, tail);
    ParseSteps(flag + after, reg, flag, after);
    ItemsReadBack(items);
  }

  lemma PrintTrimmed(flag: string, after: string)
    requires after != "" && !IsSpace(after[0]) && !IsSpace(after[|after| - 1])
    requires flag == "" || !IsSpace(flag[0])
    ensures Trim(flag + after) == flag + after && (flag + after)[|flag|..] == after && TrimStart(after) == after
  {
    var text := flag + after;
    assert text[0] == if flag == "" then after[0] else flag[0];
    assert text[|text| - 1] == after[|after| - 1];
    TrimKeeps(text);
  }

  lemma NameAlone(name: string, tail: string)
    requires Clean(name) && (tail == "" || IsSpace(tail[0]))
    ensures var after := name + tail;
      WordEnd(after) == |name| && after[..|name|] == name && after[|name|..] == tail
  {
    WordEndAt(name, tail);
  }

  lemma ParseSteps(raw: string, reg: R.Registry, flag: string, after: string)
    requires Trim(raw) != "" && LongestOf(Trim(raw), reg.Flags(), Some(flag))
    requires TrimStart(Trim(raw)[|flag|..]) == after != ""
    ensures Parse(raw, reg) == Some(Understood(reg, flag, after[..WordEnd(after)], Words(Trim(after[WordEnd(after)..]))))
  {
    var text := Trim(raw);
    LongestFromIs(text, |text|, reg.Flags());
    OneLongest(text, reg.Flags(), Some(flag), LongestFrom(text, |text|, reg.Flags()));
  }

  lemma TailWords(items: seq<Item>)
    requires AllClean(Flatten(items))
    ensures var tail := Tail(items);
      && (tail == "" || (IsSpace(tail[0]) && !IsSpace(tail[|tail| - 1])))
      && Words(Trim(tail)) == Flatten(items)
  {
    var tail, ts := Tail(items), Flatten(items);
    WordsTrim(tail);
    WordsOfJoin(ts);
    if items != [] {
      FlattenSome(items);
      JoinEnds(ts);
      assert tail[1..] == Text.Join(ts, " ");
    }
  }
}
