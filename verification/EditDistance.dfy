/**
  The distance behind "did you mean" (src/main.rs, `edit_distance` and
  `closest_command`): two rolling rows compute the recursive distance, and that
  distance is the length of a shortest edit script.
 */
module EditDistance {
  import opened Basics
  import Registry
  import Text

  // ── The distance ───────────────────────────────────────────────────────

  function Min(x: nat, y: nat): nat { if x < y then x else y }

  function Cost(x: char, y: char): nat { if x == y then 0 else 1 }

  function Init(s: string): string
    requires s != ""
  {
    s[..|s| - 1]
  }

  function Last(s: string): char
    requires s != ""
  {
    s[|s| - 1]
  }

  function Distance(a: string, b: string): nat
    decreases |a| + |b|
  {
    if a == "" then |b|
    else if b == "" then |a|
    else
      Min(Min(Distance(Init(a), b) + 1, Distance(a, Init(b)) + 1),
          Distance(Init(a), Init(b)) + Cost(Last(a), Last(b)))
  }

  // ── It is a metric ─────────────────────────────────────────────────────

  lemma {:induction false} Symmetric(a: string, b: string)
    ensures Distance(a, b) == Distance(b, a)
    decreases |a| + |b|
  {
    if a != "" && b != "" {
      Symmetric(Init(a), b);
      Symmetric(a, Init(b));
      Symmetric(Init(a), Init(b));
    }
  }

  lemma {:induction false} ZeroIffEqual(a: string, b: string)
    ensures Distance(a, b) == 0 <==> a == b
    decreases |a| + |b|
  {
    if a != "" && b != "" {
      ZeroIffEqual(Init(a), Init(b));
      assert a == Init(a) + [Last(a)] && b == Init(b) + [Last(b)];
    }
  }

  /** The distance lies between the difference of the lengths and their sum. */
  lemma {:induction false} LengthBounds(a: string, b: string)
    ensures |a| <= |b| + Distance(a, b) && |b| <= |a| + Distance(a, b)
    ensures Distance(a, b) <= |a| + |b|
    decreases |a| + |b|
  {
    if a != "" && b != "" {
      LengthBounds(Init(a), b);
      LengthBounds(a, Init(b));
      LengthBounds(Init(a), Init(b));
    }
  }

  lemma {:induction false} Triangle(a: string, b: string, c: string)
    ensures Distance(a, c) <= Distance(a, b) + Distance(b, c)
    decreases |a| + |b| + |c|
  {
    if a == "" || b == "" || c == "" {
      LengthBounds(a, b);
      LengthBounds(b, c);
      LengthBounds(a, c);
    } else if Distance(a, b) == Distance(Init(a), b) + 1 {
      Triangle(Init(a), b, c);
    } else if Distance(b, c) == Distance(b, Init(c)) + 1 {
      Triangle(a, b, Init(c));
    } else if Distance(a, b) == Distance(a, Init(b)) + 1 {
      if Distance(b, c) == Distance(Init(b), c) + 1 {
        Triangle(a, Init(b), c);
      } else {
        Triangle(a, Init(b), Init(c));
      }
    } else if Distance(b, c) == Distance(Init(b), c) + 1 {
      Triangle(Init(a), Init(b), c);
    } else {
      Triangle(Init(a), Init(b), Init(c));
    }
  }

  // ── Edit scripts ───────────────────────────────────────────────────────

  datatype Edit = Insert(at: nat, ch: char) | Delete(at: nat) | Substitute(at: nat, ch: char) {
    predicate AppliesTo(s: string) {
      if Insert? then at <= |s| else at < |s|
    }

    function On(s: string): string
      requires AppliesTo(s)
    {
      match this
      case Insert(at, ch) => s[..at] + [ch] + s[at..]
      case Delete(at) => s[..at] + s[at + 1..]
      case Substitute(at, ch) => s[..at] + [ch] + s[at + 1..]
    }
  }

  /** Doing the edits in order turns `a` into `b`. */
  predicate Turns(script: seq<Edit>, a: string, b: string) {
    if script == [] then a == b
    else script[0].AppliesTo(a) && Turns(script[1..], script[0].On(a), b)
  }

  lemma {:induction false} SameTail(a: string, b: string, tail: string)
    ensures Distance(a + tail, b + tail) <= Distance(a, b)
  {
    if tail == "" {
      assert a + tail == a && b + tail == b;
    } else {
      SameTail(a, b, Init(tail));
      assert Init(a + tail) == a + Init(tail) && Init(b + tail) == b + Init(tail);
    }
  }

  lemma OneMore(head: string, s: string)
    requires s != "" && Init(s) == head
    ensures Distance(head, s) <= 1 && Distance(s, head) <= 1
  {
    ZeroIffEqual(head, head);
  }

  lemma OneChanged(s: string, t: string)
    requires s != "" && t != "" && Init(s) == Init(t)
    ensures Distance(s, t) <= 1
  {
    ZeroIffEqual(Init(s), Init(t));
  }

  lemma NearAtTheEnd(head: string, x: string, y: string)
    requires |x| <= 1 && |y| <= 1
    ensures Distance(head + x, head + y) <= 1
  {
    var s, t := head + x, head + y;
    assert if x == "" then s == head else Init(s) == head;
    assert if y == "" then t == head else Init(t) == head;
    if x == "" && y == "" {
      ZeroIffEqual(s, t);
    } else if x == "" {
      OneMore(head, t);
    } else if y == "" {
      OneMore(head, s);
    } else {
      OneChanged(s, t);
    }
  }

  /** Two strings that differ in at most one place are at distance one or less. */
  lemma NearInTheMiddle(head: string, x: string, y: string, tail: string, s: string, t: string)
    requires |x| <= 1 && |y| <= 1 && s == (head + x) + tail && t == (head + y) + tail
    ensures Distance(s, t) <= 1
  {
    NearAtTheEnd(head, x, y);
    SameTail(head + x, head + y, tail);
  }

  lemma OneEditIsNear(e: Edit, s: string)
    requires e.AppliesTo(s)
    ensures Distance(s, e.On(s)) <= 1
  {
    var head := s[..e.at];
    if e.Insert? {
      assert s == (head + "") + s[e.at..];
      NearInTheMiddle(head, "", [e.ch], s[e.at..], s, e.On(s));
    } else {
      assert s == (head + [s[e.at]]) + s[e.at + 1..];
      if e.Delete? {
        assert e.On(s) == (head + "") + s[e.at + 1..];
        NearInTheMiddle(head, [s[e.at]], "", s[e.at + 1..], s, e.On(s));
      } else {
        NearInTheMiddle(head, [s[e.at]], [e.ch], s[e.at + 1..], s, e.On(s));
      }
    }
  }

  /** No script is shorter than the distance. */
  lemma {:induction false} NoScriptIsShorter(script: seq<Edit>, a: string, b: string)
    requires Turns(script, a, b)
    ensures Distance(a, b) <= |script|
    decreases |script|
  {
    if script == [] {
      ZeroIffEqual(a, b);
    } else {
      var next := script[0].On(a);
      OneEditIsNear(script[0], a);
      NoScriptIsShorter(script[1..], next, b);
      Triangle(a, next, b);
    }
  }

  lemma {:induction false} TurnsInTurn(first: seq<Edit>, second: seq<Edit>, a: string, b: string, c: string)
    requires Turns(first, a, b) && Turns(second, b, c)
    ensures Turns(first + second, a, c)
    decreases |first|
  {
    if first == [] {
      assert first + second == second;
    } else {
      var all := first + second;
      assert all[0] == first[0] && all[1..] == first[1..] + second;
      TurnsInTurn(first[1..], second, first[0].On(a), b, c);
    }
  }

  lemma OnBefore(e: Edit, a: string, tail: string)
    requires e.AppliesTo(a)
    ensures e.AppliesTo(a + tail) && e.On(a + tail) == e.On(a) + tail
  {
    assert (a + tail)[..e.at] == a[..e.at];
    if e.Insert? {
      assert (a + tail)[e.at..] == a[e.at..] + tail;
    } else {
      assert (a + tail)[e.at + 1..] == a[e.at + 1..] + tail;
    }
  }

  /** A script leaves anything appended to both strings alone. */
  lemma {:induction false} TurnsBefore(script: seq<Edit>, a: string, b: string, tail: string)
    requires Turns(script, a, b)
    ensures Turns(script, a + tail, b + tail)
    decreases |script|
  {
    if script != [] {
      OnBefore(script[0], a, tail);
      TurnsBefore(script[1..], script[0].On(a), b, tail);
    }
  }

  lemma InsertLast(before: seq<Edit>, a: string, b: string)
    requires b != "" && Turns(before, a, Init(b))
    ensures Turns(before + [Insert(|b| - 1, Last(b))], a, b)
  {
    var e := Insert(|b| - 1, Last(b));
    assert e.On(Init(b)) == b;
    TurnsInTurn(before, [e], a, Init(b), b);
  }

  lemma DeleteLast(after: seq<Edit>, a: string, b: string)
    requires a != "" && Turns(after, Init(a), b)
    ensures Turns([Delete(|a| - 1)] + after, a, b)
  {
    assert Delete(|a| - 1).On(a) == Init(a);
  }

  lemma SubstituteLast(before: seq<Edit>, a: string, b: string)
    requires a != "" && b != "" && Turns(before, Init(a), Init(b))
    ensures Turns(if Last(a) == Last(b) then before else [Substitute(|a| - 1, Last(b))] + before, a, b)
  {
    TurnsBefore(before, Init(a), Init(b), [Last(b)]);
    LastReplaced(a, b);
    if Last(a) != Last(b) {
      FirstEdit(Substitute(|a| - 1, Last(b)), before, a, b);
    }
  }

  lemma LastReplaced(a: string, b: string)
    requires a != "" && b != ""
    ensures Init(b) + [Last(b)] == b
    ensures Init(a) + [Last(b)] == if Last(a) == Last(b) then a else Substitute(|a| - 1, Last(b)).On(a)
  {
    assert a[|a|..] == [];
  }

  lemma FirstEdit(e: Edit, script: seq<Edit>, a: string, b: string)
    requires e.AppliesTo(a) && Turns(script, e.On(a), b)
    ensures Turns([e] + script, a, b)
  {
    assert ([e] + script)[1..] == script;
  }

  /** Some script is exactly as long as the distance. */
  lemma {:induction false} ShortestScript(a: string, b: string) returns (script: seq<Edit>)
    ensures Turns(script, a, b) && |script| == Distance(a, b)
    decreases |a| + |b|
  {
    if a == "" && b == "" {
      script := [];
    } else if b != "" && (a == "" || Distance(a, b) == Distance(a, Init(b)) + 1) {
      script := ShortestScript(a, Init(b));
      InsertLast(script, a, b);
      script := script + [Insert(|b| - 1, Last(b))];
    } else if b == "" || Distance(a, b) == Distance(Init(a), b) + 1 {
      script := ShortestScript(Init(a), b);
      DeleteLast(script, a, b);
      script := [Delete(|a| - 1)] + script;
    } else {
      script := ShortestScript(Init(a), Init(b));
      SubstituteLast(script, a, b);
      script := if Last(a) == Last(b) then script else [Substitute(|a| - 1, Last(b))] + script;
    }
  }

  /** The distance is the least number of insertions, deletions and substitutions. */
  lemma DistanceIsMinimal(a: string, b: string)
    ensures exists script :: Turns(script, a, b) && |script| == Distance(a, b)
    ensures forall script :: Turns(script, a, b) ==> Distance(a, b) <= |script|
  {
    var shortest := ShortestScript(a, b);
    forall script | Turns(script, a, b)
      ensures Distance(a, b) <= |script|
    {
      NoScriptIsShorter(script, a, b);
    }
  }

  // ── The rolling rows ───────────────────────────────────────────────────

  /** `row` holds the distances from `a` to every prefix of `b` up to its length. */
  ghost predicate IsRow(row: seq<nat>, a: string, b: string) {
    |row| <= |b| + 1 && forall j :: 0 <= j < |row| ==> row[j] == Distance(a, b[..j])
  }

  lemma NextEntry(a: string, i: nat, b: string, j: nat)
    requires i < |a| && j < |b|
    ensures Distance(a[..i + 1], b[..j + 1])
         == Min(Min(Distance(a[..i], b[..j + 1]) + 1, Distance(a[..i + 1], b[..j]) + 1),
                Distance(a[..i], b[..j]) + Cost(a[i], b[j]))
  {
    assert Init(a[..i + 1]) == a[..i] && Init(b[..j + 1]) == b[..j];
  }

  lemma RowSnoc(row: seq<nat>, a: string, b: string, d: nat)
    requires IsRow(row, a, b) && |row| <= |b| && d == Distance(a, b[..|row|])
    ensures IsRow(row + [d], a, b)
  {
  }

  method NextRow(a: string, i: nat, b: string, prev: seq<nat>) returns (cur: seq<nat>)
    requires i < |a| && |prev| == |b| + 1 && IsRow(prev, a[..i], b)
    ensures |cur| == |b| + 1 && IsRow(cur, a[..i + 1], b)
  {
    cur := [i + 1];
    for j := 0 to |b|
      invariant |cur| == j + 1 && IsRow(cur, a[..i + 1], b)
    {
      NextEntry(a, i, b, j);
      var cost := if a[i] == b[j] then 0 else 1;
      var d := Min(Min(prev[j + 1] + 1, cur[j] + 1), prev[j] + cost);
      RowSnoc(cur, a[..i + 1], b, d);
      cur := cur + [d];
    }
  }

  lemma FirstRow(row: seq<nat>, b: string)
    requires |row| == |b| + 1 && forall j :: 0 <= j < |row| ==> row[j] == j
    ensures IsRow(row, "", b)
  {
  }

  /** `edit_distance`: one row at a time, each filled from the one before. */
  method EditDistance(a: string, b: string) returns (d: nat)
    ensures d == Distance(a, b)
  {
    var prev: seq<nat> := seq(|b| + 1, j => j);
    FirstRow(prev, b);
    assert a[..0] == "";
    for i := 0 to |a|
      invariant |prev| == |b| + 1 && IsRow(prev, a[..i], b)
    {
      prev := NextRow(a, i, b, prev);
    }
    assert a[..|a|] == a && b[..|b|] == b;
    d := prev[|b|];
  }

  // ── "Did you mean" ─────────────────────────────────────────────────────

  function Apart(want: string, name: string): nat {
    Distance(want, Text.AsciiLower(name))
  }

  predicate SharesPrefix(want: string, name: string) {
    Text.AsciiLower(name) <= want || want <= Text.AsciiLower(name)
  }

  predicate Close(want: string, name: string) {
    Apart(want, name) <= 2 || SharesPrefix(want, name)
  }

  /** No other name of the list is nearer, and none before it is as near. */
  ghost predicate FirstNearest(want: string, names: seq<string>, k: nat) {
    && Nearest(want, names, k)
    && (forall i :: 0 <= i < k ==> Apart(want, names[k]) < Apart(want, names[i]))
  }

  /** The first of the nearest names. */
  function NearestAt(want: string, names: seq<string>): (k: nat)
    requires names != []
    ensures k < |names|
  {
    var n := |names| - 1;
    if n == 0 then 0
    else
      var k := NearestAt(want, names[..n]);
      if Apart(want, names[n]) < Apart(want, names[k]) then n else k
  }

  lemma {:induction false} NearestAtIs(want: string, names: seq<string>)
    requires names != []
    ensures FirstNearest(want, names, NearestAt(want, names))
  {
    var n := |names| - 1;
    if n > 0 {
      NearestAtIs(want, names[..n]);
      assert names == names[..n] + [names[n]];
    }
  }

  /** Only the first nearest name is asked whether it is close enough. */
  function Suggestion(want: string, names: seq<string>): Option<string> {
    if names == [] || !Close(want, names[NearestAt(want, names)]) then None
    else Some(names[NearestAt(want, names)])
  }

  /**
    `closest_command`. `names` are the flag's command names in the order the hash
    map lists them. The answer is a nearest name, and there is none only when no
    name is within two edits.
   */
  method ClosestCommand(reg: Registry.Registry, flag: string, name: string, names: seq<string>) returns (best: Option<string>)
    requires forall n :: n in names <==> n in reg.Names(flag)
    ensures best == Suggestion(Text.AsciiLower(name), names)
    ensures best.Some? ==>
      && best.value in reg.Names(flag)
      && Close(Text.AsciiLower(name), best.value)
      && forall n :: n in reg.Names(flag) ==> Apart(Text.AsciiLower(name), best.value) <= Apart(Text.AsciiLower(name), n)
    ensures best.None? ==> forall n :: n in reg.Names(flag) ==> Apart(Text.AsciiLower(name), n) > 2
  {
    best := Suggest(Text.AsciiLower(name), names);
    SuggestionIsNearest(Text.AsciiLower(name), names);
  }

  method Suggest(want: string, names: seq<string>) returns (best: Option<string>)
    ensures best == Suggestion(want, names)
  {
    var near, at := 0, 0;
    for i := 0 to |names|
      invariant i > 0 ==> at == NearestAt(want, names[..i]) && near == Apart(want, names[at])
    {
      assert names[..i + 1][..i] == names[..i];
      var d := EditDistance(want, Text.AsciiLower(names[i]));
      if i == 0 || d < near {
        near, at := d, i;
      }
    }
    assert names[..|names|] == names;
    if names == [] {
      return None;
    }
    var lower := Text.AsciiLower(names[at]);
    best := if near <= 2 || want <= lower || lower <= want then Some(names[at]) else None;
  }

  /** What is suggested is close and nearest; nothing is only when nothing is within two edits. */
  lemma SuggestionIsNearest(want: string, names: seq<string>)
    ensures var best := Suggestion(want, names);
      && (best.Some? ==> best.value in names && Close(want, best.value))
      && (best.Some? ==> forall n :: n in names ==> Apart(want, best.value) <= Apart(want, n))
      && (best.None? ==> forall n :: n in names ==> Apart(want, n) > 2)
  {
    if names != [] {
      NearestAtIs(want, names);
    }
  }

  lemma OneFirstNearest(want: string, names: seq<string>, j: nat, k: nat)
    requires FirstNearest(want, names, j) && FirstNearest(want, names, k)
    ensures j == k
  {
    assert Apart(want, names[j]) <= Apart(want, names[k]);
  }

  /**
    The shared-prefix rule is only asked of the nearest name. Nothing is suggested
    although some name is close exactly when all names are more than two edits away,
    some name shares a prefix, and the first nearest one does not.
   */
  lemma MissedIff(want: string, names: seq<string>)
    ensures (exists i :: 0 <= i < |names| && Close(want, names[i])) && Suggestion(want, names).None?
      <==> && names != []
           && (forall i :: 0 <= i < |names| ==> Apart(want, names[i]) > 2)
           && !SharesPrefix(want, names[NearestAt(want, names)])
           && exists i :: 0 <= i < |names| && SharesPrefix(want, names[i])
  {
    if names != [] {
      NearestAtIs(want, names);
      var k := NearestAt(want, names);
      if i :| 0 <= i < |names| && SharesPrefix(want, names[i]) {
        assert Close(want, names[i]);
      }
      if Close(want, names[k]) {
        assert Apart(want, names[k]) <= 2 || SharesPrefix(want, names[k]);
      }
    }
  }

  /**
    Equally near names make the answer depend on the order the hash map lists them
    in: some order suggests nothing exactly when some nearest name is not close.
   */
  lemma NoneInSomeOrder(want: string, names: seq<string>)
    requires names != []
    ensures (exists order: seq<string> :: multiset(order) == multiset(names) && Suggestion(want, order).None?)
      <==> exists i :: 0 <= i < |names| && Nearest(want, names, i) && !Close(want, names[i])
  {
    if order: seq<string> :| multiset(order) == multiset(names) && Suggestion(want, order).None? {
      SameMembers(order, names);
      NearestAtIs(want, order);
      var j := NearestInBoth(want, order, names, NearestAt(want, order));
    }
    if i :| 0 <= i < |names| && Nearest(want, names, i) && !Close(want, names[i]) {
      var order := PutFirst(want, names, i);
    }
  }

  lemma PutFirst(want: string, names: seq<string>, k: nat) returns (order: seq<string>)
    requires Nearest(want, names, k) && !Close(want, names[k])
    ensures multiset(order) == multiset(names) && Suggestion(want, order).None?
  {
    order := [names[k]] + (names[..k] + names[k + 1..]);
    assert names == names[..k] + [names[k]] + names[k + 1..];
    var j := NearestInBoth(want, names, order, k);
    forall i | 0 <= i < |order|
      ensures Apart(want, order[0]) <= Apart(want, order[i])
    {
      assert Apart(want, order[j]) <= Apart(want, order[i]);
    }
    NearestAtIs(want, order);
    OneFirstNearest(want, order, 0, NearestAt(want, order));
  }

  /** A nearest name is nearest in every order. */
  lemma NearestInBoth(want: string, a: seq<string>, b: seq<string>, k: nat) returns (j: nat)
    requires multiset(a) == multiset(b) && Nearest(want, a, k)
    ensures Nearest(want, b, j) && b[j] == a[k]
  {
    SameMembers(a, b);
    assert a[k] in b;
    j :| j < |b| && b[j] == a[k];
    forall i | 0 <= i < |b|
      ensures Apart(want, b[j]) <= Apart(want, b[i])
    {
      assert b[i] in a;
    }
  }

  /** No name of the list is nearer. */
  ghost predicate Nearest(want: string, names: seq<string>, k: nat) {
    k < |names| && forall i :: 0 <= i < |names| ==> Apart(want, names[k]) <= Apart(want, names[i])
  }

  lemma SameMembers(a: seq<string>, b: seq<string>)
    requires multiset(a) == multiset(b)
    ensures |a| == |b| && forall s :: s in a <==> s in b
  {
    assert |a| == |multiset(a)| == |multiset(b)| == |b|;
    forall s
      ensures s in a <==> s in b
    {
      assert s in a <==> s in multiset(a);
      assert s in b <==> s in multiset(b);
    }
  }

  lemma AlreadyLower(s: string)
    requires forall i :: 0 <= i < |s| ==> 'a' <= s[i] <= 'z'
    ensures Text.AsciiLower(s) == s
  {
  }

  /** A long name sharing a prefix loses to any shorter name that has nothing in common with the input. */
  lemma LongNameLoses(want: string, near: string, far: string)
    requires Text.AsciiLower(near) == near && Text.AsciiLower(far) == far
    requires 0 < |want| && |want| + 3 <= |near| && |near| + 2 * |want| <= |far|
    requires want <= far && want[0] != near[0]
    ensures Suggestion(want, [near, far]).None? && Close(want, far)
  {
    LengthBounds(want, near);
    LengthBounds(want, far);
    NearestAtIs(want, [near, far]);
    OneFirstNearest(want, [near, far], 0, NearestAt(want, [near, far]));
  }

  /** Typing `r` with `wxyz` and `rollerskate` registered suggests nothing. */
  lemma SharedPrefixMissed(want: string, near: string, far: string)
    requires want == "r" && near == "wxyz" && far == "rollerskate"
    ensures Suggestion(want, [near, far]).None? && Close(want, far)
  {
    AlreadyLower(near);
    AlreadyLower(far);
    LongNameLoses(want, near, far);
  }
}
