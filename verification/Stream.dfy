/** Streamed replies (crates/stream/src/chunks.rs, chat.rs, scripted.rs): how a text becomes pieces, and when the pieces
    are written. */
module Streams {
  import opened Options
  import opened Text
  import opened Times

  // ----- Words and tokens -----

  function WordLength(s: string): (n: nat)
    ensures n <= |s|
  {
    if s == [] || IsSpace(s[0]) then 0 else 1 + WordLength(s[1..])
  }

  /** The maximal runs of characters that are not white space. */
  function Words(s: string): seq<string>
    decreases |s|
  {
    if s == [] then []
    else if IsSpace(s[0]) then Words(s[1..])
    else [s[..WordLength(s)]] + Words(s[WordLength(s)..])
  }

  /** The separator goes in front of every word but the first. */
  function Token(i: nat, word: string): string {
    if i == 0 then word else " " + word
  }

  function Tokens(text: string): seq<string> {
    var words := Words(text);
    seq(|words|, i requires 0 <= i < |words| => Token(i, words[i]))
  }

  method Tokenize(text: string) returns (tokens: seq<string>)
    ensures tokens == Tokens(text)
  {
    var words := Words(text);
    tokens := [];
    for i := 0 to |words|
      invariant |tokens| == i && forall j :: 0 <= j < i ==> tokens[j] == Token(j, words[j])
    {
      tokens := tokens + [Token(i, words[i])];
    }
  }

  function Concat(ss: seq<string>): string {
    if ss == [] then [] else ss[0] + Concat(ss[1..])
  }

  /** The words that follow, each after one space. */
  function Trailing(words: seq<string>): string {
    if words == [] then [] else " " + (words[0] + Trailing(words[1..]))
  }

  function Spaced(words: seq<string>): string {
    if words == [] then [] else words[0] + Trailing(words[1..])
  }

  lemma {:induction false} TrailingTokens(ss: seq<string>, words: seq<string>)
    requires |ss| == |words| && forall i :: 0 <= i < |ss| ==> ss[i] == " " + words[i]
    ensures Concat(ss) == Trailing(words)
  {
    if ss != [] {
      TrailingTokens(ss[1..], words[1..]);
      assert ss[0] + Concat(ss[1..]) == " " + (words[0] + Trailing(words[1..]));
    }
  }

  lemma TokensSpell(text: string)
    ensures Concat(Tokens(text)) == Spaced(Words(text))
  {
    if Words(text) != [] {
      TrailingTokens(Tokens(text)[1..], Words(text)[1..]);
    }
  }

  predicate IsWord(s: string) {
    s != [] && forall i :: 0 <= i < |s| ==> !IsSpace(s[i])
  }

  predicate AllWords(ss: seq<string>) {
    forall i :: 0 <= i < |ss| ==> IsWord(ss[i])
  }

  lemma {:induction false} WordLengthStops(s: string)
    ensures forall i :: 0 <= i < WordLength(s) ==> !IsSpace(s[i])
    ensures WordLength(s) < |s| ==> IsSpace(s[WordLength(s)])
    ensures s != [] && !IsSpace(s[0]) ==> WordLength(s) > 0
  {
    if s != [] && !IsSpace(s[0]) {
      WordLengthStops(s[1..]);
      assert forall i :: 0 < i < |s| ==> s[i] == s[1..][i - 1];
    }
  }

  lemma {:induction false} WordLengthIs(w: string, rest: string)
    requires forall i :: 0 <= i < |w| ==> !IsSpace(w[i])
    requires rest != [] ==> IsSpace(rest[0])
    ensures WordLength(w + rest) == |w|
  {
    if w == [] {
      assert w + rest == rest;
    } else {
      assert (w + rest)[1..] == w[1..] + rest;
      WordLengthIs(w[1..], rest);
    }
  }

  lemma {:induction false} WordsAreWords(s: string)
    ensures AllWords(Words(s))
    decreases |s|
  {
    if s != [] {
      WordLengthStops(s);
      WordsAreWords(if IsSpace(s[0]) then s[1..] else s[WordLength(s)..]);
    }
  }

  /** The pieces keep every word, whole and in order; only white space can be lost. */
  lemma WordsSurvive(text: string)
    ensures Words(Concat(Tokens(text))) == Words(text)
  {
    TokensSpell(text);
    WordsAreWords(text);
    SpacedReads(Words(text));
  }

  lemma FirstWord(w: string, rest: string)
    requires IsWord(w) && (rest != [] ==> IsSpace(rest[0]))
    ensures Words(w + rest) == [w] + Words(rest)
  {
    WordLengthIs(w, rest);
    assert (w + rest)[..|w|] == w && (w + rest)[|w|..] == rest && (w + rest)[0] == w[0];
  }

  lemma SkipSpace(s: string)
    ensures Words(" " + s) == Words(s)
  {
    assert (" " + s)[1..] == s;
  }

  lemma {:induction false} TrailingReads(words: seq<string>)
    requires AllWords(words)
    ensures Words(Trailing(words)) == words
  {
    if words != [] {
      var rest := Trailing(words[1..]);
      TrailingReads(words[1..]);
      FirstWord(words[0], rest);
      SkipSpace(words[0] + rest);
      assert [words[0]] + words[1..] == words;
    }
  }

  lemma SpacedReads(words: seq<string>)
    requires AllWords(words)
    ensures Words(Spaced(words)) == words
  {
    if words != [] {
      TrailingReads(words[1..]);
      FirstWord(words[0], Trailing(words[1..]));
      assert [words[0]] + words[1..] == words;
    }
  }

  // ----- Which texts come through unchanged -----

  /** A white space at `i` is one plain space with a word after it. */
  predicate PlainSpace(s: string, i: nat)
    requires i < |s|
  {
    IsSpace(s[i]) ==> s[i] == ' ' && i + 1 < |s| && !IsSpace(s[i + 1])
  }

  predicate Runs(s: string) {
    forall i :: 0 <= i < |s| ==> PlainSpace(s, i)
  }

  predicate Normalised(s: string) {
    Runs(s) && (s != [] ==> !IsSpace(s[0]))
  }

  lemma RunsAfterWord(w: string, rest: string)
    requires IsWord(w) && Runs(rest)
    ensures Normalised(w + rest)
  {
    forall i | 0 <= i < |w + rest| ensures PlainSpace(w + rest, i) {
      if i >= |w| {
        assert PlainSpace(rest, i - |w|);
      }
    }
  }

  lemma RunsAfterSpace(s: string)
    requires s != [] && Normalised(s)
    ensures Runs(" " + s)
  {
    forall i | 0 <= i < |" " + s| ensures PlainSpace(" " + s, i) {
      if i > 0 {
        assert PlainSpace(s, i - 1);
      }
    }
  }

  lemma {:induction false} TrailingRuns(words: seq<string>)
    requires AllWords(words)
    ensures Runs(Trailing(words))
  {
    if words != [] {
      TrailingRuns(words[1..]);
      RunsAfterWord(words[0], Trailing(words[1..]));
      RunsAfterSpace(words[0] + Trailing(words[1..]));
    }
  }

  lemma AfterOneWord(s: string, n: nat)
    requires Normalised(s) && n < |s| && IsSpace(s[n])
    ensures n + 1 < |s| && Normalised(s[n + 1..])
    ensures s[n..] == " " + s[n + 1..]
  {
    assert PlainSpace(s, n);
    var rest := s[n + 1..];
    forall i | 0 <= i < |rest| ensures PlainSpace(rest, i) {
      assert PlainSpace(s, n + 1 + i);
    }
  }

  lemma {:induction false} NormalisedSpells(s: string)
    requires Normalised(s)
    ensures Spaced(Words(s)) == s
    decreases |s|
  {
    if s != [] {
      WordLengthStops(s);
      var w := s[..WordLength(s)];
      if w == s {
        assert s[|s|..] == [] && Words(s) == [s];
      } else {
        AfterOneWord(s, |w|);
        var rest := s[|w| + 1..];
        NormalisedSpells(rest);
        assert s == w + s[|w|..];
        FirstWord(w, " " + rest);
        SkipSpace(rest);
        SpacedTwo(w, Words(rest));
      }
    }
  }

  lemma SpacedTwo(w: string, words: seq<string>)
    requires words != []
    ensures Spaced([w] + words) == w + (" " + Spaced(words))
  {
    assert ([w] + words)[1..] == words;
  }

  /** Joining the pieces gives the text back exactly when it was normalised already: no white space at either end, and
      single plain spaces in between. */
  lemma PiecesReproduceIff(text: string)
    ensures Concat(Tokens(text)) == text <==> Normalised(text)
  {
    TokensSpell(text);
    WordsAreWords(text);
    if Words(text) != [] {
      TrailingRuns(Words(text)[1..]);
      RunsAfterWord(Words(text)[0], Trailing(Words(text)[1..]));
    }
    if Normalised(text) {
      NormalisedSpells(text);
    }
  }

  // ----- The pieces of a chat reply -----

  datatype Piece = Role | Content(text: string) | Stop | Done

  /** What a client has put together from the pieces it got. */
  function Assembled(pieces: seq<Piece>): string {
    if pieces == [] then []
    else
      var last := pieces[|pieces| - 1];
      Assembled(pieces[..|pieces| - 1]) + if last.Content? then last.text else []
  }

  method ChatPieces(text: string) returns (pieces: seq<Piece>)
    ensures |pieces| == |Words(text)| + 3
    ensures pieces[0] == Role && pieces[|pieces| - 2..] == [Stop, Done]
    ensures forall i :: 0 < i <= |Words(text)| ==> pieces[i] == Content(Tokens(text)[i - 1])
  {
    pieces := [Role];
    var tokens := Tokenize(text);
    for i := 0 to |tokens|
      invariant |pieces| == i + 1 && pieces[0] == Role
      invariant forall j :: 0 < j <= i ==> pieces[j] == Content(tokens[j - 1])
    {
      pieces := pieces + [Content(tokens[i])];
    }
    pieces := pieces + [Stop, Done];
  }

  /** The pieces of a reply, as `ChatPieces` makes them. */
  ghost predicate Replies(pieces: seq<Piece>, text: string) {
    && |pieces| == |Words(text)| + 3
    && pieces[0] == Role && pieces[|pieces| - 2..] == [Stop, Done]
    && forall i :: 0 < i <= |Words(text)| ==> pieces[i] == Content(Tokens(text)[i - 1])
  }

  lemma {:induction false} ConcatLast(ss: seq<string>, s: string)
    ensures Concat(ss + [s]) == Concat(ss) + s
  {
    if ss == [] {
      assert [s][1..] == [] && Concat([s]) == s + Concat([]);
    } else {
      assert (ss + [s])[1..] == ss[1..] + [s];
      ConcatLast(ss[1..], s);
    }
  }

  /** How many of the first `k` pieces carry a token. */
  function TokensAmong(text: string, k: nat): (n: nat)
    ensures n <= |Tokens(text)|
  {
    if k == 0 then 0 else if k <= |Tokens(text)| + 1 then k - 1 else |Tokens(text)|
  }

  lemma AssembledNext(pieces: seq<Piece>, k: nat)
    requires k < |pieces|
    ensures Assembled(pieces[..k + 1]) == Assembled(pieces[..k]) + if pieces[k].Content? then pieces[k].text else []
  {
    assert pieces[..k + 1][..k] == pieces[..k];
  }

  lemma ConcatNext(ss: seq<string>, k: nat)
    requires k < |ss|
    ensures Concat(ss[..k + 1]) == Concat(ss[..k]) + ss[k]
  {
    assert ss[..k + 1] == ss[..k] + [ss[k]];
    ConcatLast(ss[..k], ss[k]);
  }

  lemma PieceAt(pieces: seq<Piece>, text: string, k: nat)
    requires Replies(pieces, text) && k < |pieces|
    ensures 0 < k <= |Tokens(text)| ==> pieces[k] == Content(Tokens(text)[k - 1])
    ensures k == 0 || k > |Tokens(text)| ==> !pieces[k].Content?
  {
    if k > |Tokens(text)| {
      assert pieces[k] == pieces[|pieces| - 2..][k - (|pieces| - 2)];
    }
  }

  /** After `k` pieces a client has the first tokens, one for each content piece it got. */
  lemma {:induction false} AssembledIs(pieces: seq<Piece>, text: string, k: nat)
    requires Replies(pieces, text) && k <= |pieces|
    ensures Assembled(pieces[..k]) == Concat(Tokens(text)[..TokensAmong(text, k)])
    decreases k
  {
    if k > 0 {
      AssembledIs(pieces, text, k - 1);
      AssembledNext(pieces, k - 1);
      PieceAt(pieces, text, k - 1);
      if 1 < k <= |Tokens(text)| + 1 {
        ConcatNext(Tokens(text), k - 2);
      }
    }
  }

  /** A client that got the whole reply has the text exactly when the text was normalised. */
  lemma WholeReplyIff(pieces: seq<Piece>, text: string)
    requires Replies(pieces, text)
    ensures Assembled(pieces) == text <==> Normalised(text)
  {
    AssembledIs(pieces, text, |pieces|);
    assert pieces[..|pieces|] == pieces && Tokens(text)[..|Tokens(text)|] == Tokens(text);
    PiecesReproduceIff(text);
  }

  // ----- Writing the pieces -----

  datatype Item = Chunk(seqNo: nat) | Injected(seqNo: nat)

  function DueAt(start: Time, seqNo: nat, delayMs: nat): Time {
    start + delayMs * seqNo * NANOS_PER_MS
  }

  /** The first chunk is due at the start, and each further one exactly the delay after the one before. */
  lemma EvenlyDue(start: Time, seqNo: nat, delayMs: nat)
    ensures DueAt(start, 0, delayMs) == start
    ensures DueAt(start, seqNo + 1, delayMs) == DueAt(start, seqNo, delayMs) + delayMs * NANOS_PER_MS
  {
  }

  function Chunks(n: nat): seq<Item> {
    seq(n, i requires 0 <= i < n => Chunk(i))
  }

  /** All that a stream will ever write: its chunks, or the chunks before the failure and one error. */
  function Planned(total: nat, failAt: Option<nat>): seq<Item> {
    if failAt.Some? && failAt.value < total then Chunks(failAt.value) + [Injected(failAt.value)] else Chunks(total)
  }

  /** The chunks among those items. */
  function ChunkCount(total: nat, failAt: Option<nat>): nat {
    if failAt.Some? && failAt.value < total then failAt.value else total
  }

  /** Item by item: chunks numbered from zero, and in the place of the chunk to fail at, if there is one, the error, after
      which there is nothing. */
  lemma PlannedItems(total: nat, failAt: Option<nat>, i: nat)
    ensures |Planned(total, failAt)| == if failAt.Some? && failAt.value < total then failAt.value + 1 else total
    ensures i < |Planned(total, failAt)| ==> Planned(total, failAt)[i] == if failAt == Some(i) then Injected(i) else Chunk(i)
    ensures ChunkCount(total, failAt) + (if failAt.Some? && failAt.value < total then 1 else 0) == |Planned(total, failAt)|
  {
  }

  /** `i` is the first poll from `from` on that shows `due` or later; the end of the polls when there is none. */
  ghost predicate FirstPoll(polls: seq<Time>, from: nat, due: Time, i: nat) {
    && from <= i <= |polls|
    && (i < |polls| ==> polls[i] >= due)
    && forall j :: from <= j < i ==> polls[j] < due
  }

  method WaitUntil(polls: seq<Time>, from: nat, due: Time) returns (i: nat)
    requires from <= |polls|
    ensures FirstPoll(polls, from, due, i)
  {
    i := from;
    while i < |polls| && polls[i] < due
      invariant from <= i <= |polls|
      invariant forall j :: from <= j < i ==> polls[j] < due
    {
      i := i + 1;
    }
  }

  /** The poll at which the chunk before chunk `k` went out. */
  function Before(at: seq<nat>, k: nat): nat
    requires k <= |at|
  {
    if k == 0 then 0 else at[k - 1]
  }

  /** Chunk `k` goes out at the first poll, from the one its predecessor went out at, that shows its due time. */
  ghost predicate OnTime(polls: seq<Time>, start: Time, delayMs: nat, at: seq<nat>, k: nat) {
    k < |at| && at[k] < |polls| && FirstPoll(polls, Before(at, k), DueAt(start, k, delayMs), at[k])
  }

  ghost predicate Paced(polls: seq<Time>, start: Time, delayMs: nat, at: seq<nat>) {
    forall k: nat :: k < |at| ==> OnTime(polls, start, delayMs, at, k)
  }

  /** No chunk goes out before the one in front of it, even on a clock that goes back. */
  lemma {:induction false} ChunksInTurn(polls: seq<Time>, start: Time, delayMs: nat, at: seq<nat>, j: nat, k: nat)
    requires Paced(polls, start, delayMs, at) && j <= k < |at|
    ensures at[j] <= at[k]
    decreases k
  {
    assert OnTime(polls, start, delayMs, at, k);
    if j < k { ChunksInTurn(polls, start, delayMs, at, j, k - 1); }
  }

  lemma PacedNext(polls: seq<Time>, start: Time, delayMs: nat, at: seq<nat>, poll: nat)
    requires Paced(polls, start, delayMs, at)
    requires poll < |polls| && FirstPoll(polls, Before(at, |at|), DueAt(start, |at|, delayMs), poll)
    ensures Paced(polls, start, delayMs, at + [poll])
  {
    forall k: nat | k < |at + [poll]| ensures OnTime(polls, start, delayMs, at + [poll], k) {
      if k < |at| {
        assert OnTime(polls, start, delayMs, at, k);
        assert Before(at + [poll], k) == Before(at, k);
      }
    }
  }

  /** The stream, for as long as the clock is polled. `at` tells at which poll each chunk went out. */
  method Unfold(total: nat, failAt: Option<nat>, start: Time, delayMs: nat, polls: seq<Time>)
    returns (items: seq<Item>, at: seq<nat>, ended: bool)
    ensures items <= Planned(total, failAt) && Paced(polls, start, delayMs, at)
    ensures ended <==> items == Planned(total, failAt)
    ensures |at| == if ended then ChunkCount(total, failAt) else |items|
    ensures !ended ==> FirstPoll(polls, Before(at, |at|), DueAt(start, |at|, delayMs), |polls|)
  {
    items, at := [], [];
    var next := 0;
    while next < total
      invariant items == Chunks(next) && |at| == next <= ChunkCount(total, failAt)
      invariant Paced(polls, start, delayMs, at)
    {
      if failAt.Some? && next >= failAt.value {
        items := items + [Injected(next)];
        return items, at, true;
      }
      assert next > 0 ==> OnTime(polls, start, delayMs, at, next - 1);
      var poll := WaitUntil(polls, Before(at, next), DueAt(start, next, delayMs));
      if poll == |polls| {
        assert items == Planned(total, failAt)[..next];
        return items, at, false;
      }
      PacedNext(polls, start, delayMs, at, poll);
      items, at := items + [Chunk(next)], at + [poll];
      next := next + 1;
    }
    return items, at, true;
  }

  lemma DueGrows(start: Time, j: nat, k: nat, delayMs: nat)
    requires j <= k
    ensures DueAt(start, j, delayMs) <= DueAt(start, k, delayMs)
  {
    assert delayMs * k == delayMs * j + delayMs * (k - j);
    assert delayMs * (k - j) >= 0;
  }

  /** On a clock that does not go back, every chunk goes out at the first poll of all that shows its due time: what the
      chunks before it waited for makes no difference. */
  lemma {:induction false} EachChunkOnItsOwn(polls: seq<Time>, start: Time, delayMs: nat, at: seq<nat>, k: nat)
    requires Paced(polls, start, delayMs, at) && k < |at|
    requires forall i, j :: 0 <= i <= j < |polls| ==> polls[i] <= polls[j]
    ensures FirstPoll(polls, 0, DueAt(start, k, delayMs), at[k])
    decreases k
  {
    assert OnTime(polls, start, delayMs, at, k);
    if k > 0 {
      EachChunkOnItsOwn(polls, start, delayMs, at, k - 1);
      DueGrows(start, k - 1, k, delayMs);
    }
  }

  /** One poll that shows the last due time flushes the stream: no chunk is left for a later one. */
  lemma {:induction false} AdvanceFlushes(polls: seq<Time>, start: Time, delayMs: nat, at: seq<nat>, k: nat, last: nat, i: nat)
    requires Paced(polls, start, delayMs, at) && k < |at| && k <= last
    requires i < |polls| && polls[i] >= DueAt(start, last, delayMs)
    ensures at[k] <= i
    decreases k
  {
    DueGrows(start, k, last, delayMs);
    assert OnTime(polls, start, delayMs, at, k);
    if k > 0 {
      AdvanceFlushes(polls, start, delayMs, at, k - 1, last, i);
    }
  }

  /** So a stream whose polls reach the last due time has written all it ever will. */
  lemma ReachedMeansEnded(total: nat, failAt: Option<nat>, start: Time, delayMs: nat, polls: seq<Time>, at: seq<nat>, i: nat)
    requires Paced(polls, start, delayMs, at) && |at| < ChunkCount(total, failAt)
    requires i < |polls| && polls[i] >= DueAt(start, ChunkCount(total, failAt) - 1, delayMs)
    ensures !FirstPoll(polls, Before(at, |at|), DueAt(start, |at|, delayMs), |polls|)
  {
    var last := ChunkCount(total, failAt) - 1;
    DueGrows(start, |at|, last, delayMs);
    if at != [] {
      AdvanceFlushes(polls, start, delayMs, at, |at| - 1, last, i);
    }
  }
}
