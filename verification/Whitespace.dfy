/** Trimming and splitting on Unicode white space, as Rust's `str` does it. */
module Whitespace {
  import Text

  /** The Unicode `White_Space` property, which `char::is_whitespace` tests. */
  predicate IsSpace(c: char) {
    || '\t' <= c <= '\r' || c == ' ' || c == '\U{0085}' || c == '\U{00A0}' || c == '\U{1680}'
    || '\U{2000}' <= c <= '\U{200A}' || c == '\U{2028}' || c == '\U{2029}'
    || c == '\U{202F}' || c == '\U{205F}' || c == '\U{3000}'
  }

  function TrimStart(s: string): (r: string)
    ensures r == "" || !IsSpace(r[0])
    ensures |r| <= |s|
  {
    if s != "" && IsSpace(s[0]) then TrimStart(s[1..]) else s
  }

  function TrimEnd(s: string): (r: string)
    ensures r <= s
    ensures r == "" || !IsSpace(r[|r| - 1])
  {
    if s != "" && IsSpace(s[|s| - 1]) then TrimEnd(s[..|s| - 1]) else s
  }

  function Trim(s: string): string {
    TrimEnd(TrimStart(s))
  }

  /** Length of the word at the front of `s`: the index `find(char::is_whitespace)` gives. */
  function WordEnd(s: string): (n: nat)
    ensures n <= |s| && (n == 0 <==> s == "" || IsSpace(s[0]))
    ensures forall i :: 0 <= i < n ==> !IsSpace(s[i])
    ensures n < |s| ==> IsSpace(s[n])
  {
    if s == "" || IsSpace(s[0]) then 0 else 1 + WordEnd(s[1..])
  }

  /** `split_whitespace`. */
  function Words(s: string): seq<string>
    decreases |s|
  {
    if s == "" then []
    else if IsSpace(s[0]) then Words(s[1..])
    else [s[..WordEnd(s)]] + Words(s[WordEnd(s)..])
  }

  predicate Clean(word: string) {
    word != "" && forall i :: 0 <= i < |word| ==> !IsSpace(word[i])
  }

  predicate AllClean(words: seq<string>) {
    forall i :: 0 <= i < |words| ==> Clean(words[i])
  }

  lemma {:induction false} WordsClean(s: string)
    ensures AllClean(Words(s))
    decreases |s|
  {
    if s != "" {
      WordsClean(if IsSpace(s[0]) then s[1..] else s[WordEnd(s)..]);
    }
  }

  lemma {:induction false} WordEndAt(word: string, rest: string)
    requires forall i :: 0 <= i < |word| ==> !IsSpace(word[i])
    requires rest == "" || IsSpace(rest[0])
    ensures WordEnd(word + rest) == |word|
  {
    if word == "" {
      assert word + rest == rest;
    } else {
      WordEndAt(word[1..], rest);
      assert (word + rest)[1..] == word[1..] + rest;
    }
  }

  lemma WordsOfWord(word: string, rest: string)
    requires Clean(word) && (rest == "" || IsSpace(rest[0]))
    ensures Words(word + rest) == [word] + Words(rest)
  {
    WordEndAt(word, rest);
    assert (word + rest)[0] == word[0];
    assert (word + rest)[..|word|] == word && (word + rest)[|word|..] == rest;
  }

  /** Splitting undoes joining with single spaces. */
  lemma {:induction false} WordsOfJoin(words: seq<string>)
    requires AllClean(words)
    ensures Words(Text.Join(words, " ")) == words
  {
    if words != [] {
      WordsOfJoin(words[1..]);
      assert words == [words[0]] + words[1..];
      if |words| == 1 {
        WordsOfWord(words[0], "");
        assert words[0] + "" == words[0];
      } else {
        var more := " " + Text.Join(words[1..], " ");
        WordsOfWord(words[0], more);
        assert more[1..] == Text.Join(words[1..], " ");
        assert Text.Join(words, " ") == words[0] + more;
      }
    }
  }

  // ── Trimming does not change the words ─────────────────────────────────

  lemma {:induction false} WordsTrimStart(s: string)
    ensures Words(TrimStart(s)) == Words(s)
  {
    if s != "" && IsSpace(s[0]) {
      WordsTrimStart(s[1..]);
    }
  }

  lemma {:induction false} WordsSpaceAfter(s: string, c: char)
    requires IsSpace(c)
    ensures Words(s + [c]) == Words(s)
    decreases |s|
  {
    var all := s + [c];
    if s == "" {
      assert all[1..] == "";
    } else if IsSpace(s[0]) {
      WordsSpaceAfter(s[1..], c);
      assert all[1..] == s[1..] + [c];
    } else {
      var n := WordEnd(s);
      var rest := s[n..] + [c];
      WordsSpaceAfter(s[n..], c);
      WordsOfWord(s[..n], s[n..]);
      WordsOfWord(s[..n], rest);
      assert s == s[..n] + s[n..] && all == s[..n] + rest;
    }
  }

  lemma {:induction false} WordsTrimEnd(s: string)
    ensures Words(TrimEnd(s)) == Words(s)
  {
    if s != "" && IsSpace(s[|s| - 1]) {
      WordsTrimEnd(s[..|s| - 1]);
      WordsSpaceAfter(s[..|s| - 1], s[|s| - 1]);
      assert s == s[..|s| - 1] + [s[|s| - 1]];
    }
  }

  lemma WordsTrim(s: string)
    ensures Words(Trim(s)) == Words(s)
  {
    WordsTrimStart(s);
    WordsTrimEnd(TrimStart(s));
  }

  lemma TrimKeeps(s: string)
    requires s == "" || (!IsSpace(s[0]) && !IsSpace(s[|s| - 1]))
    ensures TrimStart(s) == s && Trim(s) == s
  {
  }

  /** White space at the end is trimmed whatever comes before it. */
  lemma {:induction false} TrimSpaceAfter(s: string, c: char)
    requires IsSpace(c)
    ensures Trim(s + [c]) == Trim(s)
  {
    var all := s + [c];
    if s == "" {
      assert all[1..] == "";
    } else if IsSpace(s[0]) {
      TrimSpaceAfter(s[1..], c);
      assert all[1..] == s[1..] + [c];
    } else {
      assert all[..|s|] == s;
    }
  }

  lemma {:induction false} TrimOfTrimEnd(s: string)
    ensures Trim(TrimEnd(s)) == Trim(s)
  {
    if s != "" && IsSpace(s[|s| - 1]) {
      TrimOfTrimEnd(s[..|s| - 1]);
      TrimSpaceAfter(s[..|s| - 1], s[|s| - 1]);
      assert s == s[..|s| - 1] + [s[|s| - 1]];
    }
  }

  lemma {:induction false} TrimEndAfter(head: string, s: string)
    requires head != "" && !IsSpace(head[|head| - 1])
    ensures TrimEnd(head + s) == head + TrimEnd(s)
  {
    var all := head + s;
    if s == "" {
      assert all == head;
    } else if IsSpace(s[|s| - 1]) {
      TrimEndAfter(head, s[..|s| - 1]);
      assert all[..|all| - 1] == head + s[..|s| - 1];
    }
  }

  lemma {:induction false} TrimStartTakes(s: string)
    ensures forall c :: c in TrimStart(s) ==> c in s
  {
    if s != "" && IsSpace(s[0]) {
      TrimStartTakes(s[1..]);
    }
  }

  /** Trimming adds no character and leaves no white space at the ends. */
  lemma TrimShape(s: string)
    ensures forall c :: c in Trim(s) ==> c in s
    ensures Trim(s) != "" ==> !IsSpace(Trim(s)[0]) && !IsSpace(Trim(s)[|Trim(s)| - 1])
    ensures Trim(Trim(s)) == Trim(s)
  {
    TrimStartTakes(s);
    TrimKeeps(Trim(s));
  }
}
