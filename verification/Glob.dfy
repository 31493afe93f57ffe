/** The route wildcard matcher (crates/core/src/fault.rs).

    `*` stands for any run of bytes and every other byte for itself. The matcher is a two-pointer loop that
    remembers only the last star it met; the proof shows that committing to the last star loses no match. */
module Glob {
  import opened ByteStrings

  const STAR: byte := 42

  // ----- What a pattern means -----

  ghost function Stars(pattern: Bytes): nat {
    if pattern == [] then 0 else (if pattern[0] == STAR then 1 else 0) + Stars(pattern[1..])
  }

  /** The text obtained by writing `runs[i]` for the i-th star of the pattern. */
  ghost function Fill(pattern: Bytes, runs: seq<Bytes>): Bytes
    requires |runs| == Stars(pattern)
  {
    if pattern == [] then []
    else if pattern[0] == STAR then runs[0] + Fill(pattern[1..], runs[1..])
    else [pattern[0]] + Fill(pattern[1..], runs)
  }

  /** A text matches when some choice of one run per star spells it out. */
  ghost predicate Spells(pattern: Bytes, text: Bytes) {
    exists runs: seq<Bytes> :: |runs| == Stars(pattern) && Fill(pattern, runs) == text
  }

  /** The same relation by recursion on the pattern, which is the form the loop invariant needs. */
  ghost predicate Matches(pattern: Bytes, text: Bytes) {
    if pattern == [] then text == []
    else if pattern[0] == STAR then exists k: nat :: k <= |text| && Matches(pattern[1..], text[k..])
    else text != [] && text[0] == pattern[0] && Matches(pattern[1..], text[1..])
  }

  lemma {:induction false} MatchesIsSpells(pattern: Bytes, text: Bytes)
    ensures Matches(pattern, text) <==> Spells(pattern, text)
  {
    if Matches(pattern, text) {
      var runs := MatchRuns(pattern, text);
    }
    if Spells(pattern, text) {
      var runs: seq<Bytes> :| |runs| == Stars(pattern) && Fill(pattern, runs) == text;
      FillMatches(pattern, runs);
    }
  }

  lemma FillStar(pattern: Bytes, run: Bytes, rest: seq<Bytes>)
    requires pattern != [] && pattern[0] == STAR && |rest| == Stars(pattern[1..])
    ensures Stars(pattern) == 1 + |rest|
    ensures Fill(pattern, [run] + rest) == run + Fill(pattern[1..], rest)
  {
    assert ([run] + rest)[1..] == rest;
  }

  /** The runs that a match assigns to the stars. */
  lemma {:induction false} MatchRuns(pattern: Bytes, text: Bytes) returns (runs: seq<Bytes>)
    requires Matches(pattern, text)
    ensures |runs| == Stars(pattern) && Fill(pattern, runs) == text
    decreases pattern
  {
    if pattern == [] {
      runs := [];
    } else if pattern[0] == STAR {
      var k: nat :| k <= |text| && Matches(pattern[1..], text[k..]);
      var rest := MatchRuns(pattern[1..], text[k..]);
      FillStar(pattern, text[..k], rest);
      runs := [text[..k]] + rest;
    } else {
      runs := MatchRuns(pattern[1..], text[1..]);
    }
  }

  lemma {:induction false} FillMatches(pattern: Bytes, runs: seq<Bytes>)
    requires |runs| == Stars(pattern)
    ensures Matches(pattern, Fill(pattern, runs))
    decreases pattern
  {
    if pattern == [] {
    } else if pattern[0] == STAR {
      FillMatches(pattern[1..], runs[1..]);
      assert Fill(pattern, runs)[|runs[0]|..] == Fill(pattern[1..], runs[1..]);
    } else {
      FillMatches(pattern[1..], runs);
      assert Fill(pattern, runs)[1..] == Fill(pattern[1..], runs);
    }
  }

  // ----- Why committing to the last star is enough -----

  ghost predicate NoStar(pattern: Bytes) {
    STAR !in pattern
  }

  /** A star-free prefix must be matched letter by letter. */
  lemma {:induction false} LiteralPrefix(literal: Bytes, rest: Bytes, text: Bytes)
    requires NoStar(literal)
    ensures Matches(literal + rest, text) <==> literal <= text && Matches(rest, text[|literal|..])
    decreases literal
  {
    if literal == [] {
      assert literal + rest == rest;
    } else {
      assert (literal + rest)[1..] == literal[1..] + rest;
      if text != [] {
        LiteralPrefix(literal[1..], rest, text[1..]);
        assert text[0] == literal[0] && literal[1..] <= text[1..] <==> literal <= text;
        if literal <= text { assert text[1..][|literal[1..]|..] == text[|literal|..]; }
      }
    }
  }

  /** A star may give back what it swallowed to a star further right. */
  lemma StarAbsorbs(rest: Bytes, text: Bytes, from: nat, k: nat)
    requires rest != [] && rest[0] == STAR && from <= k <= |text|
    requires Matches(rest, text[k..])
    ensures Matches(rest, text[from..])
  {
    var j: nat :| j <= |text[k..]| && Matches(rest[1..], text[k..][j..]);
    assert text[k..][j..] == text[from..][k - from + j..];
  }

  /** A star takes `k` bytes and leaves the rest to the rest. */
  lemma StarTakes(tail: Bytes, text: Bytes, k: nat)
    requires k <= |text| && Matches(tail, text[k..])
    ensures Matches([STAR] + tail, text)
  {
    assert ([STAR] + tail)[1..] == tail;
  }

  lemma StarTook(tail: Bytes, text: Bytes) returns (k: nat)
    requires Matches([STAR] + tail, text)
    ensures k <= |text| && Matches(tail, text[k..])
  {
    assert ([STAR] + tail)[1..] == tail;
    k :| k <= |text| && Matches(([STAR] + tail)[1..], text[k..]);
  }

  /** When the literal after the last star has been matched up to the next star, the earlier star can be forgotten. */
  lemma CommitToNewStar(literal: Bytes, rest: Bytes, text: Bytes)
    requires NoStar(literal) && literal <= text
    requires rest != [] && rest[0] == STAR
    ensures Matches([STAR] + (literal + rest), text) <==> Matches(rest, text[|literal|..])
  {
    if Matches([STAR] + (literal + rest), text) {
      var k := StarTook(literal + rest, text);
      LiteralPrefix(literal, rest, text[k..]);
      assert text[k..][|literal|..] == text[k + |literal|..];
      StarAbsorbs(rest, text, |literal|, k + |literal|);
    }
    if Matches(rest, text[|literal|..]) {
      LiteralPrefix(literal, rest, text);
      assert text[0..] == text;
      StarTakes(literal + rest, text, 0);
    }
  }

  /** When the literal after the last star fails where it stands, that star must swallow one more byte. */
  lemma SwallowOneMore(tail: Bytes, text: Bytes)
    requires text != [] && !Matches(tail, text)
    ensures Matches([STAR] + tail, text) <==> Matches([STAR] + tail, text[1..])
  {
    if Matches([STAR] + tail, text) {
      var k := StarTook(tail, text);
      assert text[0..] == text;
      assert text[1..][k - 1..] == text[k..];
      StarTakes(tail, text[1..], k - 1);
    }
    if Matches([STAR] + tail, text[1..]) {
      var k := StarTook(tail, text[1..]);
      assert text[1..][k..] == text[k + 1..];
      StarTakes(tail, text, k + 1);
    }
  }

  /** A text needs at least one byte for every byte of the pattern that is not a star. */
  lemma {:induction false} NeedsLiterals(pattern: Bytes, text: Bytes)
    requires Matches(pattern, text)
    ensures |pattern| <= |text| + Stars(pattern)
    decreases pattern
  {
    if pattern != [] {
      if pattern[0] == STAR {
        var k: nat :| k <= |text| && Matches(pattern[1..], text[k..]);
        NeedsLiterals(pattern[1..], text[k..]);
      } else {
        NeedsLiterals(pattern[1..], text[1..]);
      }
    }
  }

  lemma {:induction false} StarsAtMost(pattern: Bytes)
    ensures Stars(pattern) <= |pattern|
    ensures NoStar(pattern) ==> Stars(pattern) == 0
    ensures Stars(pattern) == |pattern| ==> forall i :: 0 <= i < |pattern| ==> pattern[i] == STAR
  {
    if pattern != [] {
      StarsAtMost(pattern[1..]);
      if NoStar(pattern) { assert NoStar(pattern[1..]); }
      assert forall i :: 0 < i < |pattern| ==> pattern[i] == pattern[1..][i - 1];
    }
  }

  lemma {:induction false} StarsAppend(a: Bytes, b: Bytes)
    ensures Stars(a + b) == Stars(a) + Stars(b)
  {
    if a == [] { assert a + b == b; }
    else {
      assert (a + b)[1..] == a[1..] + b;
      StarsAppend(a[1..], b);
    }
  }

  /** Only stars may be left over when the text has run out. */
  lemma {:induction false} EmptyTextNeedsStars(pattern: Bytes)
    ensures Matches(pattern, []) <==> forall i :: 0 <= i < |pattern| ==> pattern[i] == STAR
  {
    if pattern != [] {
      EmptyTextNeedsStars(pattern[1..]);
      var empty: Bytes := [];
      assert empty[0..] == empty;
      assert forall i :: 0 < i < |pattern| ==> pattern[i] == pattern[1..][i - 1];
      if pattern[0] == STAR && Matches(pattern[1..], []) { assert Matches(pattern[1..], empty[0..]); }
      if (forall i :: 0 <= i < |pattern| ==> pattern[i] == STAR) {
        assert forall i :: 0 <= i < |pattern[1..]| ==> pattern[1..][i] == STAR by {
          assert forall i :: 0 <= i < |pattern[1..]| ==> pattern[1..][i] == pattern[i + 1];
        }
      }
    }
  }

  /** The text ran out inside the literal after the last star: whether the pattern still matches depends only on
      what is left of it. */
  lemma TextRanOut(literal: Bytes, rest: Bytes, text: Bytes)
    requires NoStar(literal) && literal == text
    ensures Matches([STAR] + (literal + rest), text) <==> Matches(rest, [])
  {
    assert text[0..] == text && text[|literal|..] == [];
    if Matches([STAR] + (literal + rest), text) {
      NeedsLiterals([STAR] + (literal + rest), text);
      StarsAtMost(literal);
      StarsAtMost(rest);
      StarsAppend([STAR], literal + rest);
      StarsAppend(literal, rest);
      EmptyTextNeedsStars(rest);
    }
    if Matches(rest, []) {
      LiteralPrefix(literal, rest, text);
      StarTakes(literal + rest, text, 0);
    }
  }

  // ----- The matcher -----

  datatype LastStar = NoneYet | At(pos: nat)

  /** What the loop knows: the question it still has to answer is equivalent to the original one. */
  ghost predicate Pending(pattern: Bytes, text: Bytes, p: nat, t: nat, star: LastStar, resume: nat) {
    p <= |pattern| && t <= |text| && resume <= t &&
    match star
    case NoneYet => resume == 0 && (Matches(pattern, text) <==> Matches(pattern[p..], text[t..]))
    case At(s) =>
      s < p && pattern[s] == STAR && NoStar(pattern[s + 1..p]) && pattern[s + 1..p] == text[resume..t] &&
      (Matches(pattern, text) <==> Matches(pattern[s..], text[resume..]))
  }

  /** The stars left over at the end of the pattern. */
  method SkipStars(pattern: Bytes, from: nat) returns (p: nat)
    requires from <= |pattern|
    ensures from <= p <= |pattern| && (p < |pattern| ==> pattern[p] != STAR)
    ensures forall i :: from <= i < p ==> pattern[i] == STAR
  {
    p := from;
    while p < |pattern| && pattern[p] == STAR
      invariant from <= p <= |pattern|
      invariant forall i :: from <= i < p ==> pattern[i] == STAR
    {
      p := p + 1;
    }
  }

  method GlobMatch(pattern: Bytes, text: Bytes) returns (matched: bool)
    ensures matched <==> Spells(pattern, text)
  {
    var p: nat, t: nat := 0, 0;
    var star: LastStar, resume: nat := NoneYet, 0;
    while t < |text|
      invariant p <= |pattern| && t <= |text| && resume <= t && (star.At? ==> star.pos < p)
      invariant Pending(pattern, text, p, t, star, resume)
      decreases |text| - resume, |text| - t, |pattern| - p
    {
      if p < |pattern| && pattern[p] == STAR {
        StarStep(pattern, text, p, t, star, resume);
        star := At(p);
        resume := t;
        p := p + 1;
      } else if p < |pattern| && pattern[p] == text[t] {
        LiteralStep(pattern, text, p, t, star, resume);
        p := p + 1;
        t := t + 1;
      } else if star.At? {
        BacktrackStep(pattern, text, p, t, star.pos, resume);
        p := star.pos + 1;
        resume := resume + 1;
        t := resume;
      } else {
        DeadEnd(pattern, text, p, t, resume);
        return false;
      }
    }
    var end := SkipStars(pattern, p);
    EndStep(pattern, text, p, t, star, resume, end);
    return end == |pattern|;
  }

  lemma StarStep(pattern: Bytes, text: Bytes, p: nat, t: nat, star: LastStar, resume: nat)
    requires Pending(pattern, text, p, t, star, resume)
    requires p < |pattern| && pattern[p] == STAR
    ensures Pending(pattern, text, p + 1, t, At(p), t)
  {
    if star.At? {
      var literal := pattern[star.pos + 1..p];
      assert pattern[star.pos..] == [STAR] + (literal + pattern[p..]);
      assert text[resume..][..|literal|] == literal;
      CommitToNewStar(literal, pattern[p..], text[resume..]);
      assert text[resume..][|literal|..] == text[t..];
    }
  }

  lemma LiteralStep(pattern: Bytes, text: Bytes, p: nat, t: nat, star: LastStar, resume: nat)
    requires Pending(pattern, text, p, t, star, resume)
    requires p < |pattern| && t < |text| && pattern[p] == text[t] && pattern[p] != STAR
    ensures Pending(pattern, text, p + 1, t + 1, star, resume)
  {
    if star.At? {
      assert pattern[star.pos + 1..p + 1] == pattern[star.pos + 1..p] + [pattern[p]];
      assert text[resume..t + 1] == text[resume..t] + [text[t]];
    } else {
      assert pattern[p..][1..] == pattern[p + 1..] && text[t..][1..] == text[t + 1..];
    }
  }

  lemma BacktrackStep(pattern: Bytes, text: Bytes, p: nat, t: nat, s: nat, resume: nat)
    requires Pending(pattern, text, p, t, At(s), resume)
    requires t < |text| && (p < |pattern| ==> pattern[p] != STAR && pattern[p] != text[t])
    ensures Pending(pattern, text, s + 1, resume + 1, At(s), resume + 1)
  {
    var literal := pattern[s + 1..p];
    var tail := pattern[s + 1..];
    assert tail == literal + pattern[p..];
    LiteralPrefix(literal, pattern[p..], text[resume..]);
    assert text[resume..][|literal|..] == text[t..];
    assert !Matches(tail, text[resume..]);
    assert pattern[s..] == [STAR] + tail;
    SwallowOneMore(tail, text[resume..]);
    assert text[resume..][1..] == text[resume + 1..];
  }

  lemma DeadEnd(pattern: Bytes, text: Bytes, p: nat, t: nat, resume: nat)
    requires Pending(pattern, text, p, t, NoneYet, resume)
    requires t < |text| && (p < |pattern| ==> pattern[p] != STAR && pattern[p] != text[t])
    ensures !Spells(pattern, text)
  {
    MatchesIsSpells(pattern, text);
  }

  /** The text is used up at `p`, and `q` is where the stars after it end. */
  lemma EndStep(pattern: Bytes, text: Bytes, p: nat, t: nat, star: LastStar, resume: nat, q: nat)
    requires Pending(pattern, text, p, t, star, resume) && t == |text|
    requires p <= q <= |pattern| && forall i :: p <= i < q ==> pattern[i] == STAR
    requires q < |pattern| ==> pattern[q] != STAR
    ensures q == |pattern| <==> Spells(pattern, text)
  {
    MatchesIsSpells(pattern, text);
    if star.At? {
      var literal := pattern[star.pos + 1..p];
      assert pattern[star.pos..] == [STAR] + (literal + pattern[p..]);
      TextRanOut(literal, pattern[p..], text[resume..]);
    }
    assert text[t..] == [];
    EmptyTextNeedsStars(pattern[p..]);
    assert forall i :: 0 <= i < |pattern[p..]| ==> pattern[p..][i] == pattern[p + i];
    if q < |pattern| {
      assert pattern[p..][q - p] == pattern[q];
    }
  }
}
