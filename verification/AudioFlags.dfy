/**
  Rendered audio and its content types. The bytes live in `data_blob`, the
  content types ride in the comma-separated `flags` column. The pipeline
  carries both in memory (`Store`) and lands them in one write; the older
  per-stage writer (`SetAudio`) touched the row on every call. This module
  says exactly when the two leave the same row behind, and what a reader
  (`GetAudio`) then gets.
 */
module AudioFlags {
  import opened Basics
  import opened Rows
  import Text

  datatype AudioStage = NoStage | Pre | In | Post

  /** The audio part of a message's in-memory state. */
  datatype Carried = Carried(bytes: Blob, mime: string, stage: AudioStage, markers: seq<string>)

  datatype AudioCall = AudioCall(stage: AudioStage, mime: string, bytes: Blob) {
    function Mime(): string {
      if mime == "" then DEFAULT_MIME else mime
    }
  }

  const DEFAULT_MIME := "audio/mpeg"
  const PREFIX := "audio_type="
  const SILENT := Carried([], "", NoStage, [])

  function Marker(mime: string): string {
    PREFIX + mime
  }

  /** `store_audio`: empty bytes are ignored, a marker is recorded once. */
  function Store(a: Carried, call: AudioCall): Carried {
    if call.bytes == [] then a
    else
      var marker := Marker(call.Mime());
      Carried(call.bytes, call.Mime(), call.stage, if marker in a.markers then a.markers else a.markers + [marker])
  }

  function StoreAll(calls: seq<AudioCall>): Carried {
    if calls == [] then SILENT
    else Store(StoreAll(calls[..|calls| - 1]), calls[|calls| - 1])
  }

  function CarriedResult(a: Carried, result: RunResult): RunResult {
    result.(audio := if a.bytes == [] then None else Some((a.mime, a.bytes)), markers := a.markers)
  }

  /** The flags text after one more marker, as `set_audio` writes it. */
  function OneMore(text: string, marker: string): string {
    if marker in Text.Split(text, ',') then text
    else if text == "" then marker
    else text + "," + marker
  }

  /** `set_audio`: one SELECT of the flags and one UPDATE per call. */
  function SetAudio(row: Row, mime: string, bytes: Blob): Row {
    row.(blob := Some(bytes), flags := Some(OneMore(FlagText(row), Marker(mime))))
  }

  /** The row a per-stage writer leaves behind for the same calls. */
  function StageWrites(calls: seq<AudioCall>, row: Row): Row {
    if calls == [] then row
    else
      var before, call := StageWrites(calls[..|calls| - 1], row), calls[|calls| - 1];
      if call.bytes == [] then before else SetAudio(before, call.Mime(), call.bytes)
  }

  /** `get_audio`: the first content type named in the flags, and the bytes. */
  function GetAudio(row: Row): Option<(string, Blob)> {
    if row.blob.None? || row.blob.value == [] then None
    else Some((FirstType(Text.Split(FlagText(row), ',')), row.blob.value))
  }

  function FirstType(pieces: seq<string>): string {
    if pieces == [] then DEFAULT_MIME
    else if PREFIX <= pieces[0] then pieces[0][|PREFIX|..]
    else FirstType(pieces[1..])
  }

  ghost predicate CommaFree(calls: seq<AudioCall>) {
    forall i :: 0 <= i < |calls| ==> ',' !in calls[i].mime
  }

  ghost predicate CommaFreeMarkers(d: seq<string>) {
    forall m :: m in d ==> ',' !in m && PREFIX <= m
  }

  /** The markers of `d` the flags do not already list. */
  function Fresh(d: seq<string>, seen: seq<string>): seq<string> {
    if d == [] then []
    else
      var m, before := d[|d| - 1], Fresh(d[..|d| - 1], seen);
      if m in seen then before else before + [m]
  }

  lemma {:induction false} MarkersAreCommaFree(calls: seq<AudioCall>)
    requires CommaFree(calls)
    ensures CommaFreeMarkers(StoreAll(calls).markers)
    ensures StoreAll(calls).bytes == [] <==> StoreAll(calls).markers == []
  {
    if calls != [] {
      MarkersAreCommaFree(calls[..|calls| - 1]);
    }
  }

  lemma {:induction false} FreshMembers(d: seq<string>, seen: seq<string>)
    ensures forall m :: m in Fresh(d, seen) <==> m in d && m !in seen
  {
    if d != [] {
      FreshMembers(d[..|d| - 1], seen);
      assert d == d[..|d| - 1] + [d[|d| - 1]];
    }
  }

  lemma {:induction false} SplitJoin(d: seq<string>)
    requires CommaFreeMarkers(d) && d != []
    ensures Text.Split(Text.Join(d, ","), ',') == d
    ensures Text.Join(d, ",") != ""
  {
    if |d| == 1 {
      Text.SplitNoSep(d[0], ',');
    } else {
      SplitJoin(d[1..]);
      Text.SplitAppend(d[0], ',', Text.Join(d[1..], ","));
      Text.SplitNoSep(d[0], ',');
      assert Text.Join(d, ",") == d[0] + [','] + Text.Join(d[1..], ",");
    }
  }

  lemma SplitAppended(flags: Option<string>, d: seq<string>)
    requires CommaFreeMarkers(d) && d != []
    ensures Text.Split(AppendedFlags(flags, Text.Join(d, ",")), ',')
         == if flags.None? || flags.value == "" then d else Text.Split(flags.value, ',') + d
  {
    SplitJoin(d);
    if flags.Some? && flags.value != "" {
      Text.SplitAppend(flags.value, ',', Text.Join(d, ","));
      assert flags.value + "," + Text.Join(d, ",") == flags.value + [','] + Text.Join(d, ",");
    }
  }

  /** What carrying `a` has to leave of `row`. */
  ghost predicate Written(a: Carried, row: Row, after: Row) {
    && after.blob == (if a.bytes == [] then row.blob else Some(a.bytes))
    && after.flags == (if a.bytes == [] then row.flags else Some(WithMarkers(row.flags, a.markers)))
  }

  lemma WrittenNext(a: Carried, call: AudioCall, row: Row, after: Row)
    requires Written(a, row, after) && call.bytes != []
    requires CommaFreeMarkers(a.markers) && (a.bytes == [] <==> a.markers == [])
    ensures Written(Store(a, call), row, SetAudio(after, call.Mime(), call.bytes))
  {
    NextMarker(a.markers, call.Mime(), FlagText(after), row.flags);
  }

  /** What the per-stage writes leave in the row, for any starting flags. */
  lemma {:induction false} StageWritesForm(calls: seq<AudioCall>, row: Row)
    requires CommaFree(calls)
    ensures Written(StoreAll(calls), row, StageWrites(calls, row))
  {
    if calls != [] {
      var n := |calls| - 1;
      StageWritesForm(calls[..n], row);
      MarkersAreCommaFree(calls[..n]);
      if calls[n].bytes != [] {
        WrittenNext(StoreAll(calls[..n]), calls[n], row, StageWrites(calls[..n], row));
      }
    }
  }

  /** The flags text once the markers of `d` that are not yet listed have been appended. */
  function WithMarkers(flags: Option<string>, d: seq<string>): string {
    var text := if flags.Some? then flags.value else "";
    var added := Fresh(d, Text.Split(text, ','));
    if added != [] then AppendedFlags(flags, Text.Join(added, ",")) else text
  }

  /** Its pieces are the old pieces and the markers of `d`. */
  lemma WithMarkersPieces(flags: Option<string>, d: seq<string>, m: string)
    requires CommaFreeMarkers(d) && m != ""
    ensures var text := if flags.Some? then flags.value else "";
      m in Text.Split(WithMarkers(flags, d), ',') <==> m in Text.Split(text, ',') || m in d
  {
    var text := if flags.Some? then flags.value else "";
    var added := Fresh(d, Text.Split(text, ','));
    FreshMembers(d, Text.Split(text, ','));
    EmptySplit(m);
    if added != [] {
      SplitAppended(flags, added);
    }
  }

  lemma AppendNew(flags: Option<string>, added: seq<string>, m: string)
    requires CommaFreeMarkers(added)
    ensures var text := if flags.Some? then flags.value else "";
      var before := if added != [] then AppendedFlags(flags, Text.Join(added, ",")) else text;
      (if before == "" then m else before + "," + m) == AppendedFlags(flags, Text.Join(added + [m], ","))
  {
    if added != [] {
      var joined := Text.Join(added, ",");
      SplitJoin(added);
      Text.JoinAppend(added, ",", m);
      assert flags.Some? ==> flags.value + "," + joined + "," + m == flags.value + "," + (joined + "," + m);
    }
  }

  /** One more `set_audio` on a row that already lists the markers of `d`. */
  lemma NextMarker(d: seq<string>, mime: string, text: string, flags: Option<string>)
    requires CommaFreeMarkers(d)
    requires text == WithMarkers(flags, d)
    ensures OneMore(text, Marker(mime)) == WithMarkers(flags, if Marker(mime) in d then d else d + [Marker(mime)])
  {
    var m, seen := Marker(mime), Text.Split(if flags.Some? then flags.value else "", ',');
    WithMarkersPieces(flags, d, m);
    if m !in d {
      assert (d + [m])[..|d|] == d;
      if m !in seen {
        FreshMembers(d, seen);
        AppendNew(flags, Fresh(d, seen), m);
      }
    }
  }

  lemma EmptySplit(m: string)
    requires m != ""
    ensures m !in Text.Split("", ',')
  {
  }

  /**
    The single terminal write refines the per-stage writes. For comma-free
    content types the two leave the same flags and the same blob if and only if
    no stored content type was already listed in the row's flags.
   */
  lemma OneWriteRefinesStageWrites(calls: seq<AudioCall>, row: Row, outcome: Outcome, result: RunResult, now: int)
    requires CommaFree(calls)
    requires !outcome.TakeHold? && !(outcome.EndComplete? && row.status.Audit?)
    ensures var after, mirrored := TerminalRow(row, outcome, CarriedResult(StoreAll(calls), result), now),
          StageWrites(calls, row);
        (after.flags == mirrored.flags && after.blob == mirrored.blob)
        <==> (forall m :: m in StoreAll(calls).markers ==> m !in Text.Split(FlagText(row), ','))
  {
    MarkersAreCommaFree(calls);
    StageWritesForm(calls, row);
    if StoreAll(calls).markers != [] {
      SameText(row.flags, StoreAll(calls).markers);
    }
  }

  lemma SameText(flags: Option<string>, d: seq<string>)
    requires CommaFreeMarkers(d) && d != []
    ensures WithMarkers(flags, d) == AppendedFlags(flags, Text.Join(d, ","))
       <==> (forall m :: m in d ==> m !in Text.Split(if flags.Some? then flags.value else "", ','))
  {
    var text := if flags.Some? then flags.value else "";
    var seen := Text.Split(text, ',');
    if forall m :: m in d ==> m !in seen {
      FreshOfNew(d, seen);
    } else {
      var m :| m in d && m in seen;
      EmptySplit(m);
      FreshIsShorter(d, seen);
    }
  }

  lemma {:induction false} FreshOfNew(d: seq<string>, seen: seq<string>)
    requires forall m :: m in d ==> m !in seen
    ensures Fresh(d, seen) == d
  {
    if d != [] {
      FreshOfNew(d[..|d| - 1], seen);
      assert d == d[..|d| - 1] + [d[|d| - 1]];
    }
  }

  /** A dropped marker makes the joined text strictly shorter. */
  lemma {:induction false} FreshIsShorter(d: seq<string>, seen: seq<string>)
    requires CommaFreeMarkers(d)
    ensures |Text.Join(Fresh(d, seen), ",")| <= |Text.Join(d, ",")|
    ensures (exists m :: m in d && m in seen) ==> |Text.Join(Fresh(d, seen), ",")| < |Text.Join(d, ",")|
  {
    if d != [] {
      var n := |d| - 1;
      var before, m := d[..n], d[n];
      FreshIsShorter(before, seen);
      assert d == before + [m];
      if before != [] {
        Text.JoinAppend(before, ",", m);
      }
      if Fresh(before, seen) != [] {
        Text.JoinAppend(Fresh(before, seen), ",", m);
      }
    }
  }

  /**
    Reading back: when the row named no content type before, the reader gets the
    last bytes stored, under the FIRST content type stored. So it returns exactly
    the last call when the first and the last content types agree, and only then.
   */
  lemma ReadBack(calls: seq<AudioCall>, row: Row, outcome: Outcome, result: RunResult, now: int)
    requires CommaFree(calls) && StoreAll(calls).bytes != []
    requires !(outcome.EndComplete? && row.status.Audit?)
    requires forall p :: p in Text.Split(FlagText(row), ',') ==> !(PREFIX <= p)
    ensures var a := StoreAll(calls);
      && a.markers != [] && PREFIX <= a.markers[0]
      && GetAudio(TerminalRow(row, outcome, CarriedResult(a, result), now)) == Some((a.markers[0][|PREFIX|..], a.bytes))
      && (GetAudio(TerminalRow(row, outcome, CarriedResult(a, result), now)) == Some((a.mime, a.bytes))
          <==> a.markers[0] == Marker(a.mime))
  {
    var a := StoreAll(calls);
    MarkersAreCommaFree(calls);
    assert a.markers[0] in a.markers;
    SplitAppended(row.flags, a.markers);
    var seen := Text.Split(FlagText(row), ',');
    if row.flags.Some? && row.flags.value != "" {
      FirstTypeSkips(seen, a.markers);
    }
    var first := a.markers[0];
    assert first == PREFIX + first[|PREFIX|..];
  }

  lemma {:induction false} FirstTypeSkips(pieces: seq<string>, d: seq<string>)
    requires d != [] && PREFIX <= d[0]
    requires forall p :: p in pieces ==> !(PREFIX <= p)
    ensures FirstType(pieces + d) == d[0][|PREFIX|..]
  {
    if pieces == [] {
      assert pieces + d == d;
    } else {
      assert pieces[0] in pieces && (pieces + d)[0] == pieces[0];
      assert forall p :: p in pieces[1..] ==> p in pieces;
      assert (pieces + d)[1..] == pieces[1..] + d;
      FirstTypeSkips(pieces[1..], d);
    }
  }

  /** With one content type throughout, what is read is exactly what was last stored. */
  lemma {:induction false} SingleTypeRoundTrip(calls: seq<AudioCall>, mime: string, row: Row, outcome: Outcome, result: RunResult, now: int)
    requires ',' !in mime && mime != ""
    requires calls != [] && forall i :: 0 <= i < |calls| ==> calls[i].mime == mime && calls[i].bytes != []
    requires !(outcome.EndComplete? && row.status.Audit?)
    requires forall p :: p in Text.Split(FlagText(row), ',') ==> !(PREFIX <= p)
    ensures GetAudio(TerminalRow(row, outcome, CarriedResult(StoreAll(calls), result), now))
         == Some((mime, calls[|calls| - 1].bytes))
  {
    SingleTypeMarkers(calls, mime);
    ReadBack(calls, row, outcome, result, now);
  }

  lemma {:induction false} SingleTypeMarkers(calls: seq<AudioCall>, mime: string)
    requires mime != "" && calls != []
    requires forall i :: 0 <= i < |calls| ==> calls[i].mime == mime && calls[i].bytes != []
    ensures StoreAll(calls).markers == [Marker(mime)] && StoreAll(calls).mime == mime
    ensures StoreAll(calls).bytes == calls[|calls| - 1].bytes
  {
    if |calls| > 1 {
      SingleTypeMarkers(calls[..|calls| - 1], mime);
    }
  }
}
