/** Splitting and joining strings, with the laws the column formats rely on. */
module Text {
  /** Pieces of `s` between occurrences of `sep`; never empty, like Rust's `str::split`. */
  function Split(s: string, sep: char): (r: seq<string>)
    ensures r != []
  {
    if s == "" then [""]
    else if s[0] == sep then [""] + Split(s[1..], sep)
    else OnFirst(s[0], Split(s[1..], sep))
  }

  function OnFirst(c: char, pieces: seq<string>): seq<string>
    requires pieces != []
  {
    [[c] + pieces[0]] + pieces[1..]
  }

  function Join(parts: seq<string>, sep: string): string {
    if parts == [] then ""
    else if |parts| == 1 then parts[0]
    else parts[0] + sep + Join(parts[1..], sep)
  }

  lemma {:induction false} SplitNoSep(s: string, sep: char)
    requires sep !in s
    ensures Split(s, sep) == [s]
  {
    if s != "" {
      SplitNoSep(s[1..], sep);
      assert [s[0]] + s[1..] == s;
    }
  }

  lemma OnFirstAppend(c: char, a: seq<string>, b: seq<string>)
    requires a != []
    ensures OnFirst(c, a + b) == OnFirst(c, a) + b
  {
    assert (a + b)[1..] == a[1..] + b;
  }

  /** Appending `sep + t` to a string appends exactly the pieces of `t`. */
  lemma {:induction false} SplitAppend(s: string, sep: char, t: string)
    ensures Split(s + [sep] + t, sep) == Split(s, sep) + Split(t, sep)
  {
    var whole := s + [sep] + t;
    if s == "" {
      assert whole == [sep] + t;
      assert whole[1..] == t;
    } else {
      assert whole[0] == s[0];
      assert whole[1..] == s[1..] + [sep] + t;
      SplitAppend(s[1..], sep, t);
      if s[0] != sep {
        OnFirstAppend(s[0], Split(s[1..], sep), Split(t, sep));
      }
    }
  }

  lemma {:induction false} JoinAppend(parts: seq<string>, sep: string, x: string)
    requires parts != []
    ensures Join(parts + [x], sep) == Join(parts, sep) + sep + x
  {
    if |parts| == 1 {
      assert (parts + [x])[1..] == [x];
    } else {
      JoinAppend(parts[1..], sep, x);
      assert (parts + [x])[1..] == parts[1..] + [x];
    }
  }

  lemma {:induction false} PiecesHaveNoSep(s: string, sep: char)
    ensures forall i :: 0 <= i < |Split(s, sep)| ==> sep !in Split(s, sep)[i]
  {
    if s != "" {
      PiecesHaveNoSep(s[1..], sep);
    }
  }

  /** Splitting undoes joining, for pieces without the separator. */
  lemma {:induction false} SplitJoin(parts: seq<string>, sep: char)
    requires parts != [] && forall i :: 0 <= i < |parts| ==> sep !in parts[i]
    ensures Split(Join(parts, [sep]), sep) == parts
  {
    SplitNoSep(parts[0], sep);
    if |parts| > 1 {
      SplitJoin(parts[1..], sep);
      SplitAppend(parts[0], sep, Join(parts[1..], [sep]));
      assert parts == [parts[0]] + parts[1..];
    }
  }

  /** Index of the first `c`, or the length: where `split_once` cuts. */
  function IndexOf(s: string, c: char): (n: nat)
    ensures n <= |s| && (n < |s| ==> s[n] == c)
    ensures c !in s[..n]
  {
    if s == "" || s[0] == c then 0
    else
      var n := IndexOf(s[1..], c);
      assert s[..n + 1] == [s[0]] + s[1..][..n];
      n + 1
  }

  lemma {:induction false} IndexOfFirst(head: string, c: char, tail: string)
    requires c !in head
    ensures IndexOf(head + [c] + tail, c) == |head|
  {
    var s := head + [c] + tail;
    if head != "" {
      IndexOfFirst(head[1..], c, tail);
      assert s[0] == head[0] && s[1..] == head[1..] + [c] + tail;
    }
  }

  lemma IndexOfNone(s: string, c: char)
    requires c !in s
    ensures IndexOf(s, c) == |s|
  {
  }

  function AsciiLowerChar(c: char): char {
    if 'A' <= c <= 'Z' then c - 'A' + 'a' else c
  }

  /** Rust's `to_ascii_lowercase`. */
  function AsciiLower(s: string): string {
    seq(|s|, i requires 0 <= i < |s| => AsciiLowerChar(s[i]))
  }
}
