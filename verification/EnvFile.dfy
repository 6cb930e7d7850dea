/**
  A module's `.env` file (src/credentials.rs, `write_env_map` and `read_env_map`)
  as its text. Writing merges entries into the lines in place; reading lets the
  last line of a key win. What a merge reads back as is stated exactly, for any
  file, any keys and any values.
 */
module EnvFile {
  import opened Basics
  import opened Whitespace
  import Text

  type Env = map<string, string>

  // ── Lines ──────────────────────────────────────────────────────────────

  function StripCr(line: string): string {
    if line != "" && line[|line| - 1] == '\r' then line[..|line| - 1] else line
  }

  function StripAll(lines: seq<string>): seq<string> {
    seq(|lines|, i requires 0 <= i < |lines| => StripCr(lines[i]))
  }

  /** Rust's `str::lines`: a line ends in `\n` or `\r\n`, the last one perhaps in neither. */
  function Lines(text: string): seq<string> {
    var pieces := Text.Split(text, '\n');
    var last := pieces[|pieces| - 1];
    StripAll(pieces[..|pieces| - 1]) + if last == "" then [] else [last]
  }

  /** The lines joined, and a newline unless there already is one at the end. */
  function FileText(lines: seq<string>): string {
    var content := Text.Join(lines, "\n");
    if content != "" && content[|content| - 1] == '\n' then content else content + "\n"
  }

  predicate OneLine(s: string) {
    '\n' !in s
  }

  predicate AllOneLine(lines: seq<string>) {
    forall i :: 0 <= i < |lines| ==> OneLine(lines[i])
  }

  lemma LinesAreLines(text: string)
    ensures AllOneLine(Lines(text))
  {
    Text.PiecesHaveNoSep(text, '\n');
  }

  // ── Reading ────────────────────────────────────────────────────────────

  function TrimQuotesStart(s: string): string {
    if s != "" && s[0] == '"' then TrimQuotesStart(s[1..]) else s
  }

  function TrimQuotesEnd(s: string): string {
    if s != "" && s[|s| - 1] == '"' then TrimQuotesEnd(s[..|s| - 1]) else s
  }

  function TrimQuotes(s: string): string {
    TrimQuotesEnd(TrimQuotesStart(s))
  }

  /** What one line sets, if anything. */
  function Setting(line: string): Option<(string, string)> {
    var s := Trim(line);
    if s == "" || s[0] == '#' then None
    else
      var n := Text.IndexOf(s, '=');
      if n == |s| || Trim(s[..n]) == "" then None
      else Some((Trim(s[..n]), TrimQuotes(Trim(s[n + 1..]))))
  }

  predicate Sets(line: string, key: string) {
    SetsKey(Setting(line), key)
  }

  predicate SetsKey(s: Option<(string, string)>, key: string) {
    s.Some? && s.value.0 == key
  }

  function Settings(lines: seq<string>): seq<Option<(string, string)>> {
    seq(|lines|, i requires 0 <= i < |lines| => Setting(lines[i]))
  }

  /** Settings take effect in order: the last one of a key wins. */
  function Fold(ss: seq<Option<(string, string)>>): Env {
    if ss == [] then map[] else Apply(Fold(ss[..|ss| - 1]), ss[|ss| - 1])
  }

  function Apply(env: Env, s: Option<(string, string)>): Env {
    if s.None? then env else env[s.value.0 := s.value.1]
  }

  function Read(lines: seq<string>): Env {
    Fold(Settings(lines))
  }

  lemma FoldSnoc(ss: seq<Option<(string, string)>>, s: Option<(string, string)>)
    ensures Fold(ss + [s]) == Apply(Fold(ss), s)
  {
    assert (ss + [s])[..|ss|] == ss;
  }

  lemma ReadNext(lines: seq<string>, line: string)
    ensures Read(lines + [line]) == Apply(Read(lines), Setting(line))
  {
    FoldSnoc(Settings(lines), Setting(line));
    assert Settings(lines + [line]) == Settings(lines) + [Setting(line)];
  }

  function ReadText(text: string): Env {
    Read(Lines(text))
  }

  /** `read_env_map`; a missing file reads as the empty text. */
  method ReadEnvMap(text: string) returns (env: Env)
    ensures env == ReadText(text)
  {
    env := map[];
    var lines := Lines(text);
    for i := 0 to |lines|
      invariant env == Read(lines[..i])
    {
      assert lines[..i + 1] == lines[..i] + [lines[i]];
      ReadNext(lines[..i], lines[i]);
      var s := ReadLine(lines[i]);
      if s.Some? {
        env := env[s.value.0 := s.value.1];
      }
    }
    assert lines[..|lines|] == lines;
  }

  method ReadLine(line: string) returns (setting: Option<(string, string)>)
    ensures setting == Setting(line)
  {
    var s := Trim(line);
    if s == "" || s[0] == '#' {
      return None;
    }
    var n := Text.IndexOf(s, '=');
    if n == |s| {
      return None;
    }
    var key := Trim(s[..n]);
    setting := if key == "" then None else Some((key, TrimQuotes(Trim(s[n + 1..]))));
  }

  // ── Writing ────────────────────────────────────────────────────────────

  /** The line the writer takes to be the key's: its trimmed text starts with `key=`. */
  predicate Holds(line: string, key: string) {
    key + "=" <= Trim(line)
  }

  /** The first such line, or the length. */
  function Place(lines: seq<string>, key: string): (k: nat)
    ensures k <= |lines| && (k < |lines| ==> Holds(lines[k], key))
    ensures forall i :: 0 <= i < k ==> !Holds(lines[i], key)
  {
    if lines == [] || Holds(lines[0], key) then 0 else 1 + Place(lines[1..], key)
  }

  function WriteOne(lines: seq<string>, key: string, value: string): seq<string> {
    var entry, k := key + "=" + value, Place(lines, key);
    if k < |lines| then lines[k := entry] else lines + [entry]
  }

  function WriteAll(lines: seq<string>, entries: seq<(string, string)>): seq<string> {
    if entries == [] then lines
    else
      var (key, value) := entries[|entries| - 1];
      WriteOne(WriteAll(lines, entries[..|entries| - 1]), key, value)
  }

  function WriteText(text: string, entries: seq<(string, string)>): string {
    FileText(WriteAll(Lines(text), entries))
  }

  /** `write_env_map`, up to the atomic file write. */
  method WriteEnvMap(text: string, entries: seq<(string, string)>) returns (content: string)
    ensures content == WriteText(text, entries)
  {
    var lines := Lines(text);
    for i := 0 to |entries|
      invariant lines == WriteAll(Lines(text), entries[..i])
    {
      assert entries[..i + 1][..i] == entries[..i];
      var (key, value) := entries[i];
      var k := Position(lines, key);
      if k < |lines| {
        lines := lines[k := key + "=" + value];
      } else {
        lines := lines + [key + "=" + value];
      }
    }
    assert entries[..|entries|] == entries;
    content := Text.Join(lines, "\n");
    if content == "" || content[|content| - 1] != '\n' {
      content := content + "\n";
    }
  }

  method Position(lines: seq<string>, key: string) returns (k: nat)
    ensures k == Place(lines, key)
  {
    k := 0;
    while k < |lines| && !Holds(lines[k], key)
      invariant k <= |lines| && Place(lines, key) == k + Place(lines[k..], key)
    {
      assert lines[k..][1..] == lines[k + 1..];
      k := k + 1;
    }
  }

  // ── The text reads as its lines ────────────────────────────────────────

  lemma StripTrims(line: string)
    ensures Trim(StripCr(line)) == Trim(line)
  {
    if StripCr(line) != line {
      TrimSpaceAfter(StripCr(line), '\r');
      assert line == StripCr(line) + ['\r'];
    }
  }

  lemma StripAllReads(lines: seq<string>)
    ensures Read(StripAll(lines)) == Read(lines)
  {
    forall i | 0 <= i < |lines|
      ensures Setting(StripAll(lines)[i]) == Setting(lines[i])
    {
      StripTrims(lines[i]);
    }
    assert Settings(StripAll(lines)) == Settings(lines);
  }

  lemma LinesOfTerminated(content: string, lines: seq<string>)
    requires Text.Split(content, '\n') == lines + [""]
    ensures Read(Lines(content)) == Read(lines)
  {
    assert (lines + [""])[..|lines|] == lines;
    assert StripAll(lines) + [] == StripAll(lines);
    StripAllReads(lines);
  }

  /** Joining lines into a file loses carriage returns and blank ends, but no setting. */
  lemma FileReadsAsLines(lines: seq<string>)
    requires AllOneLine(lines)
    ensures ReadText(FileText(lines)) == Read(lines)
  {
    var content := Text.Join(lines, "\n");
    if lines == [] {
      assert content == "" && FileText(lines) == "" + "\n" == "\n";
      assert Text.Split("\n", '\n') == [""] + Text.Split("", '\n') == [""] + [""];
      LinesOfTerminated("\n", [""]);
      ReadNext([], "");
      assert [] + [""] == [""];
    } else {
      Text.SplitJoin(lines, '\n');
      if content != "" && content[|content| - 1] == '\n' {
        var before, n := content[..|content| - 1], |lines| - 1;
        Text.SplitAppend(before, '\n', "");
        assert before + ['\n'] + "" == content;
        assert lines == lines[..n] + [""] by { assert lines[n] == ""; }
        LinesOfTerminated(content, lines[..n]);
        ReadNext(lines[..n], "");
      } else {
        Text.SplitAppend(content, '\n', "");
        assert content + ['\n'] + "" == content + "\n";
        LinesOfTerminated(content + "\n", lines);
      }
    }
  }

  // ── What the reader can return ─────────────────────────────────────────

  predicate GoodKey(key: string) {
    key != "" && Trim(key) == key && '=' !in key && key[0] != '#' && OneLine(key)
  }

  predicate Quoted(value: string) {
    value != "" && (value[0] == '"' || value[|value| - 1] == '"')
  }

  /** The value a line `key=value` is read as. */
  function Plain(value: string): string {
    TrimQuotes(Trim(value))
  }

  lemma {:induction false} TrimQuotesShape(s: string)
    ensures var r := TrimQuotesStart(s); (r == "" || r[0] != '"') && forall c :: c in r ==> c in s
  {
    if s != "" && s[0] == '"' {
      TrimQuotesShape(s[1..]);
    }
  }

  lemma {:induction false} TrimQuotesEndShape(s: string)
    ensures var r := TrimQuotesEnd(s); r <= s && (r == "" || r[|r| - 1] != '"')
  {
    if s != "" && s[|s| - 1] == '"' {
      TrimQuotesEndShape(s[..|s| - 1]);
    }
  }

  lemma PlainShape(s: string)
    ensures !Quoted(Plain(s)) && forall c :: c in Plain(s) ==> c in s
  {
    var x := Trim(s);
    TrimShape(s);
    TrimQuotesShape(x);
    TrimQuotesEndShape(TrimQuotesStart(x));
  }

  lemma NameShape(s: string, n: nat)
    requires s != "" && s[0] != '#' && !IsSpace(s[0]) && n <= |s| && '=' !in s[..n] && OneLine(s)
    requires Trim(s[..n]) != ""
    ensures GoodKey(Trim(s[..n]))
  {
    TrimShape(s[..n]);
    assert s[..n][0] == s[0] && TrimStart(s[..n]) == s[..n];
  }

  /** A setting has a key and a value of one line, and no quote at an end of the value. */
  lemma SettingShape(line: string)
    requires OneLine(line) && Setting(line).Some?
    ensures var (key, value) := Setting(line).value; GoodKey(key) && OneLine(value) && !Quoted(value)
  {
    var s := Trim(line);
    var n := Text.IndexOf(s, '=');
    TrimShape(line);
    assert OneLine(s);
    NameShape(s, n);
    PlainShape(s[n + 1..]);
    assert forall c :: c in s[n + 1..] ==> c in s;
  }

  // ── Writing one entry ──────────────────────────────────────────────────

  lemma EntrySets(key: string, value: string)
    requires GoodKey(key)
    ensures Setting(key + "=" + value) == Some((key, Plain(value)))
    ensures Holds(key + "=" + value, key)
  {
    var head, entry := key + "=", key + "=" + value;
    TrimShape(key);
    assert entry[0] == key[0] && TrimStart(entry) == entry;
    TrimEndAfter(head, value);
    TrimOfTrimEnd(value);
    var s := Trim(entry);
    assert s == key + ['='] + TrimEnd(value);
    Text.IndexOfFirst(key, '=', TrimEnd(value));
    assert s[..|key|] == key && s[|key| + 1..] == TrimEnd(value);
  }

  /** A line the writer takes for a key is one the reader reads as that key. */
  lemma HeldIsSet(line: string, key: string)
    requires GoodKey(key) && Holds(line, key)
    ensures Sets(line, key)
  {
    var s := Trim(line);
    var rest := s[|key| + 1..];
    assert s == key + "=" + rest;
    Text.IndexOfFirst(key, '=', rest);
    assert s[0] == key[0] && s[..|key|] == key;
  }

  lemma SetsOne(line: string, key: string, other: string)
    requires Sets(line, key) && other != key && GoodKey(other)
    ensures !Sets(line, other) && !Holds(line, other)
  {
    if Holds(line, other) {
      HeldIsSet(line, other);
    }
  }

  /** The position of the last setting of the key, if any. */
  function LastSet(ss: seq<Option<(string, string)>>, key: string): (k: Option<nat>)
    ensures k.Some? ==> k.value < |ss| && SetsKey(ss[k.value], key)
    ensures forall i :: (if k.Some? then k.value else -1) < i < |ss| ==> !SetsKey(ss[i], key)
  {
    if ss == [] then None
    else if SetsKey(ss[|ss| - 1], key) then Some(|ss| - 1)
    else LastSet(ss[..|ss| - 1], key)
  }

  /** A key has the value its last setting gave it. */
  lemma {:induction false} FoldIs(ss: seq<Option<(string, string)>>, key: string)
    ensures key in Fold(ss) <==> LastSet(ss, key).Some?
    ensures key in Fold(ss) ==> Fold(ss)[key] == ss[LastSet(ss, key).value].value.1
  {
    if ss != [] {
      FoldIs(ss[..|ss| - 1], key);
    }
  }

  /** Replacing one setting of a key by another leaves the last setting of every key where it was. */
  lemma SameLast(ss: seq<Option<(string, string)>>, k: nat, s: Option<(string, string)>, key: string, other: string)
    requires k < |ss| && SetsKey(ss[k], key) && SetsKey(s, key)
    ensures LastSet(ss[k := s], other) == LastSet(ss, other)
  {
    var a, b := LastSet(ss[k := s], other), LastSet(ss, other);
    if a.Some? {
      assert SetsKey(ss[a.value], other);
    }
    if b.Some? {
      assert SetsKey(ss[k := s][b.value], other);
    }
  }

  /** The value a later setting gives the key after position `k`, if one does. */
  function After(ss: seq<Option<(string, string)>>, k: nat, key: string): Option<string> {
    var last := LastSet(ss, key);
    if last.Some? && last.value > k then Some(ss[last.value].value.1) else None
  }

  /** The value of a line after the one the writer rewrites. */
  function Overrider(lines: seq<string>, key: string): Option<string> {
    After(Settings(lines), Place(lines, key), key)
  }

  /** What the key reads as once `value` is written. */
  function Landed(lines: seq<string>, key: string, value: string): string {
    if Overrider(lines, key).Some? then Overrider(lines, key).value else Plain(value)
  }

  lemma RewriteReads(ss: seq<Option<(string, string)>>, k: nat, key: string, value: string)
    requires k < |ss| && SetsKey(ss[k], key)
    ensures var later := After(ss, k, key);
      Fold(ss[k := Some((key, value))]) == Fold(ss)[key := if later.Some? then later.value else value]
  {
    var s := Some((key, value));
    var ss' := ss[k := s];
    var before, after := Fold(ss), Fold(ss');
    forall other
      ensures other in after <==> other in before
      ensures other in after && other != key ==> after[other] == before[other]
    {
      SameLast(ss, k, s, key, other);
      FoldIs(ss, other);
      FoldIs(ss', other);
    }
    SameLast(ss, k, s, key, key);
    FoldIs(ss', key);
    assert SetsKey(ss[k], key);
  }

  lemma RewriteLineReads(lines: seq<string>, k: nat, entry: string, key: string, value: string)
    requires k < |lines| && Sets(lines[k], key) && Setting(entry) == Some((key, value))
    ensures var later := After(Settings(lines), k, key);
      Read(lines[k := entry]) == Read(lines)[key := if later.Some? then later.value else value]
  {
    RewriteReads(Settings(lines), k, key, value);
    assert Settings(lines[k := entry]) == Settings(lines)[k := Some((key, value))];
  }

  /** Reading after writing one entry, whatever the value. */
  lemma WriteOneReads(lines: seq<string>, key: string, value: string)
    requires GoodKey(key)
    ensures Read(WriteOne(lines, key, value)) == Read(lines)[key := Landed(lines, key, value)]
  {
    var entry, k := key + "=" + value, Place(lines, key);
    EntrySets(key, value);
    if k == |lines| {
      ReadNext(lines, entry);
    } else {
      HeldIsSet(lines[k], key);
      RewriteLineReads(lines, k, entry, key, Plain(value));
    }
  }

  lemma {:induction false} PlaceIs(lines: seq<string>, key: string, k: nat)
    requires k <= |lines| && (k < |lines| ==> Holds(lines[k], key))
    requires forall i :: 0 <= i < k ==> !Holds(lines[i], key)
    ensures Place(lines, key) == k
  {
  }

  /** Writing one key moves no other key's line. */
  lemma OtherPlaces(lines: seq<string>, key: string, value: string, other: string)
    requires GoodKey(key) && GoodKey(other) && other != key
    ensures var k := Place(lines, other);
      Place(WriteOne(lines, key, value), other) == if k < |lines| then k else |WriteOne(lines, key, value)|
  {
    var entry, k, written := key + "=" + value, Place(lines, key), WriteOne(lines, key, value);
    EntrySets(key, value);
    SetsOne(entry, key, other);
    if k < |lines| {
      HeldIsSet(lines[k], key);
      SetsOne(lines[k], key, other);
    }
    PlaceIs(written, other, if Place(lines, other) < |lines| then Place(lines, other) else |written|);
  }

  lemma OwnPlace(lines: seq<string>, key: string, value: string)
    requires GoodKey(key)
    ensures Place(WriteOne(lines, key, value), key) == Place(lines, key)
  {
    EntrySets(key, value);
    PlaceIs(WriteOne(lines, key, value), key, Place(lines, key));
  }

  lemma LastSnoc(ss: seq<Option<(string, string)>>, s: Option<(string, string)>, key: string)
    ensures LastSet(ss + [s], key) == if SetsKey(s, key) then Some(|ss|) else LastSet(ss, key)
  {
    assert (ss + [s])[..|ss|] == ss;
  }

  lemma SameAfter(ss: seq<Option<(string, string)>>, k: nat, s: Option<(string, string)>, key: string, other: string, at: nat)
    requires k < |ss| && SetsKey(ss[k], key) && SetsKey(s, key) && (other == key ==> at == k)
    ensures After(ss[k := s], at, other) == After(ss, at, other)
  {
    SameLast(ss, k, s, key, other);
    var last := LastSet(ss, other);
    if last.Some? && last.value > at {
      assert last.value != k;
    }
  }

  lemma RewrittenOverrider(lines: seq<string>, key: string, value: string, other: string)
    requires GoodKey(key) && GoodKey(other) && Place(lines, key) < |lines|
    ensures Overrider(WriteOne(lines, key, value), other) == Overrider(lines, other)
  {
    var k, entry, s := Place(lines, key), key + "=" + value, Some((key, Plain(value)));
    EntrySets(key, value);
    HeldIsSet(lines[k], key);
    assert Settings(lines[k := entry]) == Settings(lines)[k := s];
    SameAfter(Settings(lines), k, s, key, other, Place(lines, other));
    if other == key {
      OwnPlace(lines, key, value);
    } else {
      OtherPlaces(lines, key, value, other);
    }
  }

  lemma SettingsSnoc(lines: seq<string>, line: string)
    ensures Settings(lines + [line]) == Settings(lines) + [Setting(line)]
  {
  }

  lemma AppendedOverrider(lines: seq<string>, key: string, value: string, other: string)
    requires GoodKey(key) && GoodKey(other) && Place(lines, key) == |lines|
    ensures Overrider(WriteOne(lines, key, value), other) == Overrider(lines, other)
  {
    var entry, s := key + "=" + value, Some((key, Plain(value)));
    EntrySets(key, value);
    SettingsSnoc(lines, entry);
    LastSnoc(Settings(lines), s, other);
    if other == key {
      OwnPlace(lines, key, value);
    } else {
      OtherPlaces(lines, key, value, other);
    }
  }

  /** So no write changes which later line overrides a key. */
  lemma SameOverrider(lines: seq<string>, key: string, value: string, other: string)
    requires GoodKey(key) && GoodKey(other)
    ensures Overrider(WriteOne(lines, key, value), other) == Overrider(lines, other)
  {
    if Place(lines, key) < |lines| {
      RewrittenOverrider(lines, key, value, other);
    } else {
      AppendedOverrider(lines, key, value, other);
    }
  }

  // ── A whole merge ──────────────────────────────────────────────────────

  function Merged(env: Env, entries: seq<(string, string)>): Env {
    if entries == [] then env
    else Merged(env, entries[..|entries| - 1])[entries[|entries| - 1].0 := entries[|entries| - 1].1]
  }

  ghost predicate AllGood(entries: seq<(string, string)>) {
    forall i :: 0 <= i < |entries| ==> GoodKey(entries[i].0)
  }

  function LandedAll(lines: seq<string>, entries: seq<(string, string)>): seq<(string, string)> {
    seq(|entries|, i requires 0 <= i < |entries| => (entries[i].0, Landed(lines, entries[i].0, entries[i].1)))
  }

  lemma {:induction false} SameOverriders(lines: seq<string>, entries: seq<(string, string)>, key: string)
    requires AllGood(entries) && GoodKey(key)
    ensures Overrider(WriteAll(lines, entries), key) == Overrider(lines, key)
  {
    if entries != [] {
      var n := |entries| - 1;
      SameOverriders(lines, entries[..n], key);
      SameOverrider(WriteAll(lines, entries[..n]), entries[n].0, entries[n].1, key);
    }
  }

  lemma {:induction false} WriteAllReads(lines: seq<string>, entries: seq<(string, string)>)
    requires AllGood(entries)
    ensures Read(WriteAll(lines, entries)) == Merged(Read(lines), LandedAll(lines, entries))
  {
    if entries != [] {
      var n := |entries| - 1;
      var before := WriteAll(lines, entries[..n]);
      WriteAllReads(lines, entries[..n]);
      WriteOneReads(before, entries[n].0, entries[n].1);
      SameOverriders(lines, entries[..n], entries[n].0);
      assert LandedAll(lines, entries)[..n] == LandedAll(lines, entries[..n]);
    }
  }

  /** No later entry has the same key. */
  ghost predicate Final(entries: seq<(string, string)>, i: nat)
    requires i < |entries|
  {
    forall j :: i < j < |entries| ==> entries[j].0 != entries[i].0
  }

  function LastEntry(entries: seq<(string, string)>, key: string): (k: Option<nat>)
    ensures k.Some? ==> k.value < |entries| && entries[k.value].0 == key
    ensures forall i :: (if k.Some? then k.value else -1) < i < |entries| ==> entries[i].0 != key
  {
    if entries == [] then None
    else if entries[|entries| - 1].0 == key then Some(|entries| - 1)
    else LastEntry(entries[..|entries| - 1], key)
  }

  lemma {:induction false} MergedIs(env: Env, entries: seq<(string, string)>, key: string)
    ensures key in Merged(env, entries) <==> key in env || LastEntry(entries, key).Some?
    ensures key in Merged(env, entries) ==>
      Merged(env, entries)[key] == if LastEntry(entries, key).Some? then entries[LastEntry(entries, key).value].1 else env[key]
  {
    if entries != [] {
      MergedIs(env, entries[..|entries| - 1], key);
    }
  }

  lemma FinalIsLast(entries: seq<(string, string)>, i: nat)
    requires i < |entries| && Final(entries, i)
    ensures LastEntry(entries, entries[i].0) == Some(i)
  {
  }

  /** Two merges of the same keys agree exactly when their final values do. */
  lemma SameMerge(env: Env, a: seq<(string, string)>, b: seq<(string, string)>)
    requires |a| == |b| && forall i :: 0 <= i < |a| ==> a[i].0 == b[i].0
    ensures Merged(env, a) == Merged(env, b) <==> forall i :: 0 <= i < |a| && Final(a, i) ==> a[i].1 == b[i].1
  {
    forall i | 0 <= i < |a| && Final(a, i)
      ensures a[i].0 in Merged(env, a) && Merged(env, a)[a[i].0] == a[i].1
      ensures a[i].0 in Merged(env, b) && Merged(env, b)[a[i].0] == b[i].1
    {
      FinalIsLast(a, i);
      FinalIsLast(b, i);
      MergedIs(env, a, a[i].0);
      MergedIs(env, b, a[i].0);
    }
    if forall i :: 0 <= i < |a| && Final(a, i) ==> a[i].1 == b[i].1 {
      forall key
        ensures key in Merged(env, a) <==> key in Merged(env, b)
        ensures key in Merged(env, a) ==> Merged(env, a)[key] == Merged(env, b)[key]
      {
        SameLastEntry(a, b, key);
        MergedIs(env, a, key);
        MergedIs(env, b, key);
      }
    }
  }

  lemma SameLastEntry(a: seq<(string, string)>, b: seq<(string, string)>, key: string)
    requires |a| == |b| && forall i :: 0 <= i < |a| ==> a[i].0 == b[i].0
    ensures LastEntry(a, key) == LastEntry(b, key)
    ensures LastEntry(a, key).Some? ==> Final(a, LastEntry(a, key).value)
  {
  }

  // ── What the file holds after a merge ──────────────────────────────────

  function Entry(entry: (string, string)): string {
    entry.0 + "=" + entry.1
  }

  /** Line `p` stands at its key's place and is the last entry written for it. */
  ghost predicate IsFinalEntry(written: seq<string>, entries: seq<(string, string)>, p: nat, i: nat)
    requires p < |written| && i < |entries|
  {
    Final(entries, i) && written[p] == Entry(entries[i]) && Place(written, entries[i].0) == p
  }

  ghost predicate FromMerge(lines: seq<string>, written: seq<string>, entries: seq<(string, string)>, p: nat)
    requires p < |written|
  {
    (p < |lines| && written[p] == lines[p]) || exists i :: 0 <= i < |entries| && IsFinalEntry(written, entries, p, i)
  }

  lemma {:induction false} NeverShorter(lines: seq<string>, entries: seq<(string, string)>)
    ensures |lines| <= |WriteAll(lines, entries)|
  {
    if entries != [] {
      NeverShorter(lines, entries[..|entries| - 1]);
    }
  }

  lemma FinalSnoc(entries: seq<(string, string)>, i: nat)
    requires entries != [] && i < |entries| - 1
    requires Final(entries[..|entries| - 1], i) && entries[|entries| - 1].0 != entries[i].0
    ensures Final(entries, i)
  {
    forall j | i < j < |entries|
      ensures entries[j].0 != entries[i].0
    {
      assert j < |entries| - 1 ==> entries[..|entries| - 1][j] == entries[j];
    }
  }

  /** One more write keeps the final entries of the other keys where they are. */
  lemma StillPlaced(before: seq<string>, key: string, value: string, entry: (string, string), p: nat)
    requires GoodKey(key) && GoodKey(entry.0) && p < |before| && p != Place(before, key)
    requires before[p] == Entry(entry) && Place(before, entry.0) == p
    ensures var written := WriteOne(before, key, value);
      p < |written| && written[p] == Entry(entry) && Place(written, entry.0) == p && entry.0 != key
  {
    OtherPlaces(before, key, value, entry.0);
  }

  /** A line is as it was, or holds the last value written for its key. */
  lemma {:induction false} WrittenLines(lines: seq<string>, entries: seq<(string, string)>, p: nat)
    requires AllGood(entries) && p < |WriteAll(lines, entries)|
    ensures FromMerge(lines, WriteAll(lines, entries), entries, p)
  {
    if entries != [] {
      var n := |entries| - 1;
      var (key, value) := entries[n];
      var before, written := WriteAll(lines, entries[..n]), WriteAll(lines, entries);
      if p == Place(before, key) {
        OwnPlace(before, key, value);
        assert IsFinalEntry(written, entries, p, n);
      } else {
        WrittenLines(lines, entries[..n], p);
        assert written[p] == before[p];
        if !(p < |lines| && before[p] == lines[p]) {
          var i :| 0 <= i < n && IsFinalEntry(before, entries[..n], p, i);
          StillPlaced(before, key, value, entries[i], p);
          FinalSnoc(entries, i);
          assert IsFinalEntry(written, entries, p, i);
        }
      }
    }
  }

  lemma MergeOneLine(lines: seq<string>, entries: seq<(string, string)>)
    requires AllOneLine(lines) && AllGood(entries)
    requires forall i :: 0 <= i < |entries| && Final(entries, i) ==> OneLine(entries[i].1)
    ensures AllOneLine(WriteAll(lines, entries))
  {
    var written := WriteAll(lines, entries);
    forall p | 0 <= p < |written|
      ensures OneLine(written[p])
    {
      WrittenLines(lines, entries, p);
    }
  }

  // ── Reading back what was written ──────────────────────────────────────

  /** The merge reads back: good keys, and every key's last value is of one line and lands. */
  ghost predicate Sticks(lines: seq<string>, entries: seq<(string, string)>) {
    && AllGood(entries)
    && forall i :: 0 <= i < |entries| && Final(entries, i) ==>
         OneLine(entries[i].1) && Landed(lines, entries[i].0, entries[i].1) == entries[i].1
  }

  /** Whatever text is read, its keys are good and its values have one line and no quote at an end. */
  lemma ReadShape(text: string, key: string)
    requires key in ReadText(text)
    ensures GoodKey(key) && OneLine(ReadText(text)[key]) && !Quoted(ReadText(text)[key])
  {
    var ss := Settings(Lines(text));
    FoldIs(ss, key);
    LinesAreLines(text);
    SettingShape(Lines(text)[LastSet(ss, key).value]);
  }

  lemma MergeReads(text: string, entries: seq<(string, string)>)
    requires AllGood(entries) && forall i :: 0 <= i < |entries| && Final(entries, i) ==> OneLine(entries[i].1)
    ensures ReadText(WriteText(text, entries)) == Merged(ReadText(text), LandedAll(Lines(text), entries))
  {
    LinesAreLines(text);
    MergeOneLine(Lines(text), entries);
    FileReadsAsLines(WriteAll(Lines(text), entries));
    WriteAllReads(Lines(text), entries);
  }

  /** Everything in a merged map that came out of a file is something the reader can return. */
  lemma MergedShape(text: string, env: Env, entries: seq<(string, string)>, i: nat)
    requires ReadText(text) == Merged(env, entries) && i < |entries|
    ensures GoodKey(entries[i].0) && (Final(entries, i) ==> OneLine(entries[i].1) && !Quoted(entries[i].1))
  {
    MergedIs(env, entries, entries[i].0);
    assert LastEntry(entries, entries[i].0).Some?;
    ReadShape(text, entries[i].0);
    if Final(entries, i) {
      FinalIsLast(entries, i);
    }
  }

  /**
    A merge write followed by a read is the old map with every entry updated in
    order if and only if every key is one the reader can return and, for the last
    entry of each key, the value has one line and is what the key then reads as:
    the value of a later line that overrides it, or else the value itself without
    white space and quotes at its ends.
   */
  lemma ReadAfterMerge(text: string, entries: seq<(string, string)>)
    ensures ReadText(WriteText(text, entries)) == Merged(ReadText(text), entries) <==> Sticks(Lines(text), entries)
  {
    var landed := LandedAll(Lines(text), entries);
    if ReadText(WriteText(text, entries)) == Merged(ReadText(text), entries) {
      forall i | 0 <= i < |entries|
        ensures GoodKey(entries[i].0) && (Final(entries, i) ==> OneLine(entries[i].1))
      {
        MergedShape(WriteText(text, entries), ReadText(text), entries, i);
      }
    }
    if AllGood(entries) && (forall i :: 0 <= i < |entries| && Final(entries, i) ==> OneLine(entries[i].1)) {
      MergeReads(text, entries);
      SameMerge(ReadText(text), entries, landed);
    }
  }

  /** One entry. */
  lemma ReadAfterWrite(text: string, key: string, value: string)
    ensures ReadText(WriteText(text, [(key, value)])) == ReadText(text)[key := value]
       <==> GoodKey(key) && OneLine(value) && Landed(Lines(text), key, value) == value
  {
    var entries := [(key, value)];
    assert entries[..0] == [];
    assert Merged(ReadText(text), entries) == ReadText(text)[key := value];
    assert Final(entries, 0);
    ReadAfterMerge(text, entries);
  }

  // ── Inputs that do not read back ───────────────────────────────────────

  /** A value of more than one line, or with a quote at an end, never reads back. */
  lemma NeverReadsBack(text: string, key: string, value: string)
    requires !OneLine(value) || Quoted(value)
    ensures ReadText(WriteText(text, [(key, value)])) != ReadText(text)[key := value]
  {
    var entries := [(key, value)];
    assert entries[..0] == [];
    assert Merged(ReadText(text), entries) == ReadText(text)[key := value];
    assert Final(entries, 0);
    if ReadText(WriteText(text, entries)) == Merged(ReadText(text), entries) {
      MergedShape(WriteText(text, entries), ReadText(text), entries, 0);
    }
  }

  lemma TwoSettings(a: string, b: string)
    requires OneLine(a) && OneLine(b) && Setting(a).Some? && Setting(b).Some?
    ensures ReadText(FileText([a, b])) == map[Setting(a).value.0 := Setting(a).value.1][Setting(b).value.0 := Setting(b).value.1]
  {
    FileReadsAsLines([a, b]);
    ReadTwo(a, b);
  }

  lemma ReadTwo(a: string, b: string)
    requires Setting(a).Some? && Setting(b).Some?
    ensures Read([a, b]) == map[Setting(a).value.0 := Setting(a).value.1][Setting(b).value.0 := Setting(b).value.1]
  {
    assert [] + [a] == [a] && [a] + [b] == [a, b];
    ReadNext([], a);
    ReadNext([a], b);
  }

  lemma WriteToNothing(key: string, value: string)
    ensures WriteText("", [(key, value)]) == FileText([key + "=" + value])
  {
    var entries := [(key, value)];
    assert entries[..0] == [] && Lines("") == [];
    assert WriteAll([], entries) == [] + [key + "=" + value] == [key + "=" + value];
  }

  /** The second line of a value becomes a setting of its own. */
  lemma NewlineSplits(key: string, first: string, other: string, second: string)
    requires GoodKey(key) && GoodKey(other) && OneLine(first) && OneLine(second)
    ensures ReadText(WriteText("", [(key, first + "\n" + other + "=" + second)]))
         == map[key := Plain(first)][other := Plain(second)]
  {
    var a, b := key + "=" + first, other + "=" + second;
    var value := first + "\n" + other + "=" + second;
    WriteToNothing(key, value);
    assert key + "=" + value == a + "\n" + b;
    assert Text.Join([a, b], "\n") == a + "\n" + b by { assert [a, b][1..] == [b]; }
    assert FileText([key + "=" + value]) == FileText([a, b]);
    EntrySets(key, first);
    EntrySets(other, second);
    TwoSettings(a, b);
  }

  /** A space before the `=` hides the line from the writer, not from the reader. */
  lemma SpacedSets(key: string, value: string)
    requires GoodKey(key)
    ensures Setting(key + " =" + value) == Some((key, Plain(value)))
  {
    var head := key + " ";
    var line := head + "=" + value;
    assert key + " =" + value == line;
    TrimShape(key);
    assert line[0] == key[0] && TrimStart(line) == line;
    TrimEndAfter(head + "=", value);
    TrimOfTrimEnd(value);
    Text.IndexOfFirst(head, '=', TrimEnd(value));
    TrimSpaceAfter(key, ' ');
    var s := Trim(line);
    assert s == head + ['='] + TrimEnd(value);
    assert s[..|head|] == head && s[|head| + 1..] == TrimEnd(value);
  }

  lemma TwoLines(a: string, b: string)
    requires OneLine(a) && OneLine(b) && b != ""
    ensures Lines(a + "\n" + b) == [StripCr(a), b]
  {
    assert Text.Join([a, b], "\n") == a + "\n" + b by { assert [a, b][1..] == [b]; }
    Text.SplitJoin([a, b], '\n');
    assert [a, b][..1] == [a];
    assert StripAll([a]) == [StripCr(a)];
  }

  /** So a write is lost whenever such a line stands after the one that was rewritten. */
  lemma SpacedLineWins(key: string, first: string, second: string, value: string)
    requires GoodKey(key) && OneLine(first) && OneLine(second) && value != Plain(second)
    ensures var text := (key + "=" + first) + "\n" + (key + " =" + second);
      ReadText(WriteText(text, [(key, value)])) != ReadText(text)[key := value]
  {
    var a, b := key + "=" + first, key + " =" + second;
    TwoLines(a, b);
    SpacedIsLast(key, first, second);
    ReadAfterWrite(a + "\n" + b, key, value);
  }

  lemma SpacedIsLast(key: string, first: string, second: string)
    requires GoodKey(key)
    ensures Overrider([StripCr(key + "=" + first), key + " =" + second], key) == Some(Plain(second))
  {
    EntrySets(key, first);
    StripTrims(key + "=" + first);
    SpacedSets(key, second);
    SecondOverrides(StripCr(key + "=" + first), key + " =" + second, key, Plain(second));
  }

  lemma SecondOverrides(a: string, b: string, key: string, value: string)
    requires Holds(a, key) && Setting(b) == Some((key, value))
    ensures Overrider([a, b], key) == Some(value)
  {
    assert Place([a, b], key) == 0;
    assert SetsKey(Settings([a, b])[1], key);
  }
}
