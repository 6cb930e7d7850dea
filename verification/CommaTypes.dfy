/**
  Content types with commas. A comma cuts a content type into several pieces of
  the flags column, so the per-stage writer neither finds it again nor ignores
  what its pieces look like. This module says for which lists of calls the single
  terminal write still leaves the same flags.
 */
module CommaTypes {
  import opened Basics
  import opened Rows
  import opened AudioFlags
  import Text

  function TextOf(flags: Option<string>): string {
    if flags.Some? then flags.value else ""
  }

  /** The flags text once the markers of `d` have been appended. */
  function With(flags: Option<string>, d: seq<string>): string {
    if d == [] then TextOf(flags) else AppendedFlags(flags, Text.Join(d, ","))
  }

  /** The markers the per-stage writer appends, in order. */
  function Appended(calls: seq<AudioCall>, flags: Option<string>): seq<string> {
    if calls == [] then []
    else
      var before, call := Appended(calls[..|calls| - 1], flags), calls[|calls| - 1];
      var m := Marker(call.Mime());
      if call.bytes == [] || m in Text.Split(With(flags, before), ',') then before else before + [m]
  }

  ghost predicate Markers(d: seq<string>) {
    forall i :: 0 <= i < |d| ==> PREFIX <= d[i]
  }

  lemma {:induction false} AllMarkers(calls: seq<AudioCall>, flags: Option<string>)
    ensures Markers(Appended(calls, flags)) && Markers(StoreAll(calls).markers)
    ensures StoreAll(calls).bytes == [] <==> StoreAll(calls).markers == []
  {
    if calls != [] {
      AllMarkers(calls[..|calls| - 1], flags);
    }
  }

  lemma JoinNonEmpty(d: seq<string>)
    requires Markers(d) && d != []
    ensures Text.Join(d, ",") != ""
  {
    assert d[0] != "";
  }

  lemma WithSnoc(flags: Option<string>, d: seq<string>, m: string)
    requires Markers(d)
    ensures With(flags, d + [m]) == (if With(flags, d) == "" then m else With(flags, d) + "," + m)
  {
    if d != [] {
      var joined := Text.Join(d, ",");
      JoinNonEmpty(d);
      Text.JoinAppend(d, ",", m);
      assert flags.Some? ==> flags.value + "," + joined + "," + m == flags.value + "," + (joined + "," + m);
    } else {
      assert [] + [m] == [m];
    }
  }

  /** What the per-stage writes leave in the row, for any content types. */
  lemma {:induction false} StageWritesAre(calls: seq<AudioCall>, row: Row)
    ensures var after, s := StageWrites(calls, row), Appended(calls, row.flags);
      && after.flags == (if s == [] then row.flags else Some(With(row.flags, s)))
      && after.blob == (if StoreAll(calls).bytes == [] then row.blob else Some(StoreAll(calls).bytes))
      && FlagText(after) == With(row.flags, s)
  {
    if calls != [] {
      var n := |calls| - 1;
      StageWritesAre(calls[..n], row);
      if calls[n].bytes != [] {
        AllMarkers(calls[..n], row.flags);
        WithSnoc(row.flags, Appended(calls[..n], row.flags), Marker(calls[n].Mime()));
      }
    }
  }

  // ── Pieces ─────────────────────────────────────────────────────────────

  function Pieces(d: seq<string>): seq<string> {
    if d == [] then [] else Text.Split(d[0], ',') + Pieces(d[1..])
  }

  lemma {:induction false} SplitJoined(d: seq<string>)
    requires d != []
    ensures Text.Split(Text.Join(d, ","), ',') == Pieces(d)
  {
    if |d| == 1 {
      assert Pieces(d[1..]) == [];
    } else {
      SplitJoined(d[1..]);
      Text.SplitAppend(d[0], ',', Text.Join(d[1..], ","));
      assert Text.Join(d, ",") == d[0] + [','] + Text.Join(d[1..], ",");
    }
  }

  /** The pieces of the old text, of which an empty text has none. */
  function OldPieces(flags: Option<string>): seq<string> {
    if TextOf(flags) == "" then [] else Text.Split(flags.value, ',')
  }

  lemma SplitWith(flags: Option<string>, d: seq<string>)
    requires d != []
    ensures Text.Split(With(flags, d), ',') == OldPieces(flags) + Pieces(d)
  {
    SplitJoined(d);
    if TextOf(flags) != "" {
      Text.SplitAppend(flags.value, ',', Text.Join(d, ","));
      assert flags.value + "," + Text.Join(d, ",") == flags.value + [','] + Text.Join(d, ",");
    }
  }

  lemma {:induction false} InPieces(d: seq<string>, m: string)
    ensures m in Pieces(d) <==> exists i :: 0 <= i < |d| && m in Text.Split(d[i], ',')
  {
    if d != [] {
      InPieces(d[1..], m);
      if i :| 0 <= i < |d| && m in Text.Split(d[i], ',') {
        assert i > 0 ==> d[1..][i - 1] == d[i];
      }
      if i :| 0 <= i < |d| - 1 && m in Text.Split(d[1..][i], ',') {
        assert d[i + 1] == d[1..][i];
      }
    }
  }

  /** What the per-stage writer finds already listed. */
  lemma SeenIs(flags: Option<string>, d: seq<string>, m: string)
    requires m != ""
    ensures m in Text.Split(With(flags, d), ',') <==>
      m in Text.Split(TextOf(flags), ',') || exists i :: 0 <= i < |d| && m in Text.Split(d[i], ',')
  {
    EmptySplit(m);
    InPieces(d, m);
    if d != [] {
      SplitWith(flags, d);
    }
  }

  lemma PiecesOfCommaFree(m: string)
    ensures ',' !in m ==> Text.Split(m, ',') == [m]
  {
    if ',' !in m {
      Text.SplitNoSep(m, ',');
    }
  }

  lemma CommaNeverFound(s: string, m: string)
    requires ',' in m
    ensures m !in Text.Split(s, ',')
  {
    Text.PiecesHaveNoSep(s, ',');
  }

  // ── When the two writers append the same markers ───────────────────────

  ghost predicate Stored(calls: seq<AudioCall>, m: string) {
    exists i :: 0 <= i < |calls| && calls[i].bytes != [] && Marker(calls[i].Mime()) == m
  }

  lemma {:induction false} StoredIsListed(calls: seq<AudioCall>, m: string)
    ensures m in StoreAll(calls).markers <==> Stored(calls, m)
  {
    if calls != [] {
      var n := |calls| - 1;
      StoredIsListed(calls[..n], m);
      if i :| 0 <= i < |calls| && calls[i].bytes != [] && Marker(calls[i].Mime()) == m {
        assert i < n ==> calls[..n][i] == calls[i];
      }
      if i :| 0 <= i < n && calls[..n][i].bytes != [] && Marker(calls[..n][i].Mime()) == m {
        assert calls[i] == calls[..n][i];
      }
    }
  }

  /**
    Storing `m` after `before` suits both writers: a marker with a comma is new;
    one without is either stored again, or appears nowhere, neither in the row's
    flags nor among the pieces of what was stored.
   */
  ghost predicate Suits(before: seq<AudioCall>, m: string, flags: Option<string>) {
    if ',' in m then !Stored(before, m)
    else Stored(before, m) || (m !in Text.Split(TextOf(flags), ',') && Unheard(before, m))
  }

  /** `m` is no piece of what was stored. */
  ghost predicate Unheard(calls: seq<AudioCall>, m: string) {
    forall i :: 0 <= i < |calls| && calls[i].bytes != [] ==> m !in Text.Split(Marker(calls[i].Mime()), ',')
  }

  ghost predicate Independent(calls: seq<AudioCall>, flags: Option<string>) {
    calls == [] ||
    var n := |calls| - 1;
    Independent(calls[..n], flags) && (calls[n].bytes != [] ==> Suits(calls[..n], Marker(calls[n].Mime()), flags))
  }

  lemma {:induction false} PiecesStored(calls: seq<AudioCall>, m: string)
    ensures (exists i :: 0 <= i < |StoreAll(calls).markers| && m in Text.Split(StoreAll(calls).markers[i], ','))
       <==> !Unheard(calls, m)
  {
    var d := StoreAll(calls).markers;
    if i :| 0 <= i < |d| && m in Text.Split(d[i], ',') {
      StoredIsListed(calls, d[i]);
      assert d[i] in d;
    }
    if i :| 0 <= i < |calls| && calls[i].bytes != [] && m in Text.Split(Marker(calls[i].Mime()), ',') {
      var x := Marker(calls[i].Mime());
      StoredIsListed(calls, x);
      assert Stored(calls, x);
      var j :| 0 <= j < |d| && d[j] == x;
    }
  }

  /** While the two have appended the same, they agree on the next marker exactly when it suits. */
  lemma NextAgrees(calls: seq<AudioCall>, m: string, flags: Option<string>)
    requires Appended(calls, flags) == StoreAll(calls).markers && m != ""
    ensures (m in Text.Split(With(flags, Appended(calls, flags)), ',') <==> m in StoreAll(calls).markers)
       <==> Suits(calls, m, flags)
    ensures m in StoreAll(calls).markers && ',' !in m ==> m in Text.Split(With(flags, Appended(calls, flags)), ',')
  {
    var d := StoreAll(calls).markers;
    StoredIsListed(calls, m);
    if ',' in m {
      CommaNeverFound(With(flags, d), m);
    } else {
      SeenIs(flags, d, m);
      PiecesStored(calls, m);
      PiecesOfCommaFree(m);
      if m in d {
        var j :| 0 <= j < |d| && d[j] == m;
        assert m in Text.Split(d[j], ',');
      }
    }
  }

  lemma {:induction false} SameWhenIndependent(calls: seq<AudioCall>, flags: Option<string>)
    requires Independent(calls, flags)
    ensures Appended(calls, flags) == StoreAll(calls).markers
  {
    if calls != [] {
      var n := |calls| - 1;
      SameWhenIndependent(calls[..n], flags);
      NextAgrees(calls[..n], Marker(calls[n].Mime()), flags);
    }
  }

  // ── A difference never heals ───────────────────────────────────────────

  ghost predicate Repeats(d: seq<string>) {
    exists i, j :: 0 <= i < j < |d| && d[i] == d[j]
  }

  /** A marker the single write lists and the per-stage writer will never append. */
  ghost predicate Missed(calls: seq<AudioCall>, flags: Option<string>, m: string) {
    var s := Appended(calls, flags);
    m != "" && m in StoreAll(calls).markers && m !in s && m in Text.Split(With(flags, s), ',')
  }

  lemma {:induction false} ListedOnce(calls: seq<AudioCall>)
    ensures !Repeats(StoreAll(calls).markers)
  {
    if calls != [] {
      ListedOnce(calls[..|calls| - 1]);
    }
  }

  lemma MissedStays(calls: seq<AudioCall>, flags: Option<string>, m: string)
    requires calls != [] && Missed(calls[..|calls| - 1], flags, m)
    ensures Missed(calls, flags, m)
  {
    var n := |calls| - 1;
    var s, s' := Appended(calls[..n], flags), Appended(calls, flags);
    SeenIs(flags, s, m);
    SeenIs(flags, s', m);
    if s' != s {
      assert s' == s + [Marker(calls[n].Mime())];
      if i :| 0 <= i < |s| && m in Text.Split(s[i], ',') {
        assert s'[i] == s[i];
      }
    }
  }

  lemma RepeatsStays(d: seq<string>, m: string)
    requires Repeats(d)
    ensures Repeats(d + [m])
  {
    var i, j :| 0 <= i < j < |d| && d[i] == d[j];
    assert (d + [m])[i] == (d + [m])[j];
  }

  lemma {:induction false} Diverged(calls: seq<AudioCall>, flags: Option<string>)
    requires !Independent(calls, flags)
    ensures Repeats(Appended(calls, flags)) || exists m :: Missed(calls, flags, m)
  {
    var n := |calls| - 1;
    var m, s := Marker(calls[n].Mime()), Appended(calls[..n], flags);
    if !Independent(calls[..n], flags) {
      Diverged(calls[..n], flags);
      if Repeats(s) {
        RepeatsStays(s, m);
      } else {
        var x :| Missed(calls[..n], flags, x);
        MissedStays(calls, flags, x);
      }
    } else {
      SameWhenIndependent(calls[..n], flags);
      NextAgrees(calls[..n], m, flags);
      if m in s {
        var i :| 0 <= i < |s| && s[i] == m;
        assert Appended(calls, flags)[i] == m && Appended(calls, flags)[|s|] == m;
      } else {
        assert Missed(calls, flags, m);
      }
    }
  }

  /** The two writers append the same markers if and only if every call suits both. */
  lemma SameIff(calls: seq<AudioCall>, flags: Option<string>)
    ensures Appended(calls, flags) == StoreAll(calls).markers <==> Independent(calls, flags)
  {
    if Independent(calls, flags) {
      SameWhenIndependent(calls, flags);
    } else {
      Diverged(calls, flags);
      ListedOnce(calls);
    }
  }

  // ── From the text back to the markers ──────────────────────────────────

  /** No piece of the content type after its first comma looks like a marker. */
  ghost predicate Readable(m: string) {
    PREFIX <= m && forall i :: 1 <= i < |Text.Split(m, ',')| ==> !(PREFIX <= Text.Split(m, ',')[i])
  }

  ghost predicate AllReadable(d: seq<string>) {
    forall i :: 0 <= i < |d| ==> Readable(d[i])
  }

  lemma {:induction false} HeadOfSplit(head: string, s: string)
    requires ',' !in head
    ensures head <= Text.Split(head + s, ',')[0]
  {
    if head == "" {
      assert head + s == s;
    } else {
      HeadOfSplit(head[1..], s);
      assert (head + s)[1..] == head[1..] + s;
    }
  }

  lemma MarkerHead(m: string)
    requires PREFIX <= m
    ensures PREFIX <= Text.Split(m, ',')[0]
  {
    HeadOfSplit(PREFIX, m[|PREFIX|..]);
    assert m == PREFIX + m[|PREFIX|..];
  }

  lemma {:induction false} JoinSplit(s: string)
    ensures Text.Join(Text.Split(s, ','), ",") == s
  {
    if s != "" {
      JoinSplit(s[1..]);
      var rest := Text.Split(s[1..], ',');
      if s[0] == ',' {
        assert ([""] + rest)[1..] == rest;
      } else {
        assert Text.OnFirst(s[0], rest)[1..] == rest[1..];
        assert |rest| > 1 ==> Text.Join(rest, ",") == rest[0] + "," + Text.Join(rest[1..], ",");
      }
    }
  }

  /** The first markers of two lists with the same pieces have equally many pieces. */
  lemma SameFirst(a: seq<string>, b: seq<string>)
    requires AllReadable(a) && AllReadable(b) && a != [] && b != []
    requires Pieces(a) == Pieces(b)
    ensures |Text.Split(a[0], ',')| <= |Text.Split(b[0], ',')|
  {
    var pa, pb := Text.Split(a[0], ','), Text.Split(b[0], ',');
    if |pa| > |pb| {
      assert Pieces(a)[|pb|] == pa[|pb|];
      if |b| > 1 {
        NextHead(b);
      }
    }
  }

  lemma NextHead(b: seq<string>)
    requires |b| > 1 && PREFIX <= b[1]
    ensures var n := |Text.Split(b[0], ',')|;
      n < |Pieces(b)| && PREFIX <= Pieces(b)[n]
  {
    MarkerHead(b[1]);
    assert Pieces(b[1..])[0] == Text.Split(b[1], ',')[0];
  }

  lemma {:induction false} PiecesInjective(a: seq<string>, b: seq<string>)
    requires AllReadable(a) && AllReadable(b) && Pieces(a) == Pieces(b)
    ensures a == b
  {
    if a != [] && b != [] {
      SameFirst(a, b);
      SameFirst(b, a);
      var pa, pb := Text.Split(a[0], ','), Text.Split(b[0], ',');
      assert pa == Pieces(a)[..|pa|] == pb;
      JoinSplit(a[0]);
      JoinSplit(b[0]);
      assert Pieces(a[1..]) == Pieces(a)[|pa|..] == Pieces(b[1..]);
      PiecesInjective(a[1..], b[1..]);
      assert a == [a[0]] + a[1..] && b == [b[0]] + b[1..];
    }
  }

  lemma SameText(flags: Option<string>, a: seq<string>, b: seq<string>)
    requires AllReadable(a) && AllReadable(b) && With(flags, a) == With(flags, b)
    ensures a == b
  {
    if a == [] || b == [] {
      if a != [] { JoinNonEmpty(a); }
      if b != [] { JoinNonEmpty(b); }
    } else {
      SplitWith(flags, a);
      SplitWith(flags, b);
      assert Pieces(a) == (OldPieces(flags) + Pieces(a))[|OldPieces(flags)|..];
      assert Pieces(b) == (OldPieces(flags) + Pieces(b))[|OldPieces(flags)|..];
      PiecesInjective(a, b);
    }
  }

  ghost predicate ReadableCalls(calls: seq<AudioCall>) {
    forall i :: 0 <= i < |calls| ==> Readable(Marker(calls[i].Mime()))
  }

  lemma {:induction false} ReadableMarkers(calls: seq<AudioCall>, flags: Option<string>)
    requires ReadableCalls(calls)
    ensures AllReadable(Appended(calls, flags)) && AllReadable(StoreAll(calls).markers)
  {
    if calls != [] {
      ReadableMarkers(calls[..|calls| - 1], flags);
    }
  }

  // ── The two writers ────────────────────────────────────────────────────

  /** Whatever the content types are, calls that suit both writers leave the two in agreement. */
  lemma SuitedWritersAgree(calls: seq<AudioCall>, row: Row, outcome: Outcome, result: RunResult, now: int)
    requires Independent(calls, row.flags)
    requires !outcome.TakeHold? && !(outcome.EndComplete? && row.status.Audit?)
    ensures var after, mirrored := TerminalRow(row, outcome, CarriedResult(StoreAll(calls), result), now),
          StageWrites(calls, row);
        after.flags == mirrored.flags && after.blob == mirrored.blob
  {
    StageWritesAre(calls, row);
    SameWhenIndependent(calls, row.flags);
    AllMarkers(calls, row.flags);
  }

  /**
    For any content types none of whose later pieces looks like a marker, the
    single terminal write leaves the flags and blob of the per-stage writes if and
    only if every stored call suits both writers.
   */
  lemma WritersAgreeIff(calls: seq<AudioCall>, row: Row, outcome: Outcome, result: RunResult, now: int)
    requires ReadableCalls(calls)
    requires !outcome.TakeHold? && !(outcome.EndComplete? && row.status.Audit?)
    ensures var after, mirrored := TerminalRow(row, outcome, CarriedResult(StoreAll(calls), result), now),
          StageWrites(calls, row);
        (after.flags == mirrored.flags && after.blob == mirrored.blob) <==> Independent(calls, row.flags)
  {
    var s, d := Appended(calls, row.flags), StoreAll(calls).markers;
    StageWritesAre(calls, row);
    SameIff(calls, row.flags);
    AllMarkers(calls, row.flags);
    ReadableMarkers(calls, row.flags);
    if With(row.flags, s) == With(row.flags, d) {
      SameText(row.flags, s, d);
    }
  }

  lemma {:induction false} TwiceIsDependent(calls: seq<AudioCall>, flags: Option<string>, i: nat, j: nat)
    requires i < j < |calls| && calls[i].bytes != [] && calls[j].bytes != []
    requires calls[i].Mime() == calls[j].Mime() && ',' in Marker(calls[j].Mime())
    ensures !Independent(calls, flags)
  {
    var before := calls[..|calls| - 1];
    assert before[i] == calls[i];
    if j < |before| {
      assert before[j] == calls[j];
      TwiceIsDependent(before, flags, i, j);
    } else {
      StoredAt(before, i);
      AgainIsDependent(calls, flags, Marker(calls[j].Mime()));
    }
  }

  lemma StoredAt(calls: seq<AudioCall>, i: nat)
    requires i < |calls| && calls[i].bytes != []
    ensures Stored(calls, Marker(calls[i].Mime()))
  {
  }

  lemma AgainIsDependent(calls: seq<AudioCall>, flags: Option<string>, m: string)
    requires calls != [] && calls[|calls| - 1].bytes != [] && m == Marker(calls[|calls| - 1].Mime())
    requires ',' in m && Stored(calls[..|calls| - 1], m)
    ensures !Independent(calls, flags)
  {
  }

  /** Storing one content type with a comma at two calls makes the writers differ, whatever else is stored. */
  lemma CommaTypeTwiceDiverges(calls: seq<AudioCall>, row: Row, i: nat, j: nat, outcome: Outcome, result: RunResult, now: int)
    requires ReadableCalls(calls)
    requires !outcome.TakeHold? && !(outcome.EndComplete? && row.status.Audit?)
    requires i < j < |calls| && calls[i].bytes != [] && calls[j].bytes != []
    requires calls[i].Mime() == calls[j].Mime() && ',' in calls[j].Mime()
    ensures var after, mirrored := TerminalRow(row, outcome, CarriedResult(StoreAll(calls), result), now),
          StageWrites(calls, row);
        after.flags != mirrored.flags
  {
    var m := Marker(calls[j].Mime());
    assert m[|PREFIX|..] == calls[j].Mime();
    WritersAgreeIff(calls, row, outcome, result, now);
    TwiceIsDependent(calls, row.flags, i, j);
    StageWritesAre(calls, row);
    AllMarkers(calls, row.flags);
    StoredIsListed(calls, m);
    assert Stored(calls, m);
  }

  lemma IndependentAlone(call: AudioCall, flags: Option<string>)
    requires ',' in Marker(call.Mime())
    ensures Independent([call], flags)
  {
    var calls := [call];
    assert calls[..0] == [] && Independent(calls[..0], flags);
    assert !Stored(calls[..0], Marker(call.Mime()));
    assert Suits(calls[..0], Marker(call.Mime()), flags);
  }

  /** One call with a comma in its type, on the other hand, leaves the two in agreement. */
  lemma CommaTypeOnceAgrees(call: AudioCall, row: Row, outcome: Outcome, result: RunResult, now: int)
    requires ',' in call.Mime()
    requires !outcome.TakeHold? && !(outcome.EndComplete? && row.status.Audit?)
    ensures var after, mirrored := TerminalRow(row, outcome, CarriedResult(StoreAll([call]), result), now),
          StageWrites([call], row);
        after.flags == mirrored.flags && after.blob == mirrored.blob
  {
    assert Marker(call.Mime())[|PREFIX|..] == call.Mime();
    IndependentAlone(call, row.flags);
    SuitedWritersAgree([call], row, outcome, result, now);
  }

  /**
    The condition on later pieces is needed: a type whose second piece looks like
    the marker of another type hides that type from the per-stage writer, and
    storing it a second time can then make up for what was left out.
   */
  lemma RepeatedTypeCanAgree(x: string, y: string, bytes: Blob, row: Row)
    requires x != "" && y != "" && x != y && ',' !in x && ',' !in y && bytes != []
    ensures var both := AudioCall(Pre, x + ",audio_type=" + y, bytes);
      var calls := [both, AudioCall(Pre, x, bytes), AudioCall(Pre, y, bytes), both];
      !Independent(calls, row.flags)
      && StageWrites(calls, row).flags == TerminalRow(row, EndDropped(""), CarriedResult(StoreAll(calls), EMPTY_RESULT), 0).flags
  {
    var both, first, second := AudioCall(Pre, x + ",audio_type=" + y, bytes), AudioCall(Pre, x, bytes), AudioCall(Pre, y, bytes);
    var calls := [both, first, second, both];
    TwoPieces(x, y);
    TwiceIsDependent(calls, row.flags, 0, 3);
    assert [both] + [first] + [second] + [both] == calls;
    SameInTheEnd(both, first, second, row);
  }

  lemma SameInTheEnd(both: AudioCall, first: AudioCall, second: AudioCall, row: Row)
    requires both.mime != "" && first.mime != "" && second.mime != "" && first.mime != second.mime
    requires both.bytes != [] && first.bytes != [] && second.bytes != []
    requires var m, m1, m2 := Marker(both.mime), Marker(first.mime), Marker(second.mime);
      && m == m1 + "," + m2 && ',' in m && ',' !in m1 && ',' !in m2 && Text.Split(m, ',') == [m1, m2]
    ensures var calls := [both] + [first] + [second] + [both];
      StageWrites(calls, row).flags == TerminalRow(row, EndDropped(""), CarriedResult(StoreAll(calls), EMPTY_RESULT), 0).flags
  {
    var m, m1, m2 := Marker(both.mime), Marker(first.mime), Marker(second.mime);
    AppendedByStages(both, first, second, row.flags);
    SameJoin(m, m1, m2);
    SameFlags([both] + [first] + [second] + [both], row, [m] + [m], [m] + [m1] + [m2]);
  }

  lemma SameFlags(calls: seq<AudioCall>, row: Row, s: seq<string>, d: seq<string>)
    requires Listed(calls, row.flags, s, d) && s != [] && d != [] && Text.Join(s, ",") == Text.Join(d, ",")
    ensures StageWrites(calls, row).flags == TerminalRow(row, EndDropped(""), CarriedResult(StoreAll(calls), EMPTY_RESULT), 0).flags
  {
    StageWritesAre(calls, row);
    AllMarkers(calls, row.flags);
  }

  lemma SameJoin(m: string, mx: string, my: string)
    requires m == mx + "," + my
    ensures Text.Join([m] + [m], ",") == Text.Join([m] + [mx] + [my], ",")
  {
    assert [m] + [m] == [m, m] && [m] + [mx] + [my] == [m, mx, my];
    assert [m, m][1..] == [m] && [m, mx, my][1..] == [mx, my] && [mx, my][1..] == [my];
    assert Text.Join([mx, my], ",") == mx + "," + my;
  }

  lemma TwoPieces(x: string, y: string)
    requires ',' !in x && ',' !in y
    ensures var m := Marker(x + ",audio_type=" + y);
      m == Marker(x) + "," + Marker(y) && ',' in m && ',' !in Marker(x) && ',' !in Marker(y) && Text.Split(m, ',') == [Marker(x), Marker(y)]
  {
    var m, mx, my := Marker(x + ",audio_type=" + y), Marker(x), Marker(y);
    assert m == mx + [','] + my;
    Text.SplitAppend(mx, ',', my);
    Text.SplitNoSep(mx, ',');
    Text.SplitNoSep(my, ',');
    assert m[|mx|] == ',';
  }

  /** What each writer has listed so far. */
  ghost predicate Listed(calls: seq<AudioCall>, flags: Option<string>, s: seq<string>, d: seq<string>) {
    Appended(calls, flags) == s && StoreAll(calls).markers == d
  }

  lemma ListNext(calls: seq<AudioCall>, call: AudioCall, flags: Option<string>, s: seq<string>, d: seq<string>)
    requires Listed(calls, flags, s, d) && call.bytes != []
    ensures var m := Marker(call.Mime());
      Listed(calls + [call], flags, if m in Text.Split(With(flags, s), ',') then s else s + [m], if m in d then d else d + [m])
  {
    assert (calls + [call])[..|calls|] == calls;
  }

  /** A type one of whose pieces stands alone in the type just stored is not appended again. */
  lemma HiddenNext(calls: seq<AudioCall>, call: AudioCall, flags: Option<string>, both: string, d: seq<string>)
    requires Listed(calls, flags, [both], d) && call.bytes != []
    requires Marker(call.Mime()) in Text.Split(both, ',') && Marker(call.Mime()) !in d
    ensures Listed(calls + [call], flags, [both], d + [Marker(call.Mime())])
  {
    ListNext(calls, call, flags, [both], d);
    SeenIs(flags, [both], Marker(call.Mime()));
    assert Marker(call.Mime()) in Text.Split([both][0], ',');
  }

  /** The per-stage writer appends the double type both times and nothing else; the single write lists all three. */
  lemma AppendedByStages(both: AudioCall, first: AudioCall, second: AudioCall, flags: Option<string>)
    requires both.mime != "" && first.mime != "" && second.mime != "" && first.mime != second.mime
    requires both.bytes != [] && first.bytes != [] && second.bytes != []
    requires var m := Marker(both.mime);
      ',' in m && ',' !in Marker(first.mime) && ',' !in Marker(second.mime)
      && Text.Split(m, ',') == [Marker(first.mime), Marker(second.mime)]
    ensures var m := Marker(both.mime);
      Listed([both] + [first] + [second] + [both], flags, [m] + [m], [m] + [Marker(first.mime)] + [Marker(second.mime)])
  {
    var m, m1, m2 := Marker(both.mime), Marker(first.mime), Marker(second.mime);
    assert m1[|PREFIX|..] == first.mime && m2[|PREFIX|..] == second.mime;
    BothListed(both, flags);
    HiddenNext([both], first, flags, m, [m]);
    HiddenNext([both] + [first], second, flags, m, [m] + [m1]);
    ListAgain([both] + [first] + [second], both, flags, [m], [m] + [m1] + [m2]);
  }

  lemma BothListed(both: AudioCall, flags: Option<string>)
    requires both.bytes != [] && ',' in Marker(both.Mime())
    ensures Listed([both], flags, [Marker(both.Mime())], [Marker(both.Mime())])
  {
    CommaNeverFound(With(flags, []), Marker(both.Mime()));
    assert [both][..0] == [];
  }

  lemma ListAgain(calls: seq<AudioCall>, call: AudioCall, flags: Option<string>, s: seq<string>, d: seq<string>)
    requires Listed(calls, flags, s, d) && call.bytes != [] && ',' in Marker(call.Mime()) && Marker(call.Mime()) in d
    ensures Listed(calls + [call], flags, s + [Marker(call.Mime())], d)
  {
    CommaNeverFound(With(flags, s), Marker(call.Mime()));
    ListNext(calls, call, flags, s, d);
  }
}
