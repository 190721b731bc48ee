/** The glob matcher of the health checks: one pass over pattern and text that remembers only the
    last star it met. `Matches` is the recursive meaning of `*` and `?`; `Scan` is the value of the
    scanning loop from any of its states, and the lemmas relate the two. */
module WildcardMatch {
  import opened Common

  newtype byte = b: int | 0 <= b < 256

  const STAR: byte := 42
  const QUESTION: byte := 63

  /** What a pattern means: `*` stands for any run of bytes, `?` for any one byte. */
  ghost predicate Matches(pattern: seq<byte>, text: seq<byte>)
    decreases |pattern| + |text|
  {
    if pattern == [] then text == []
    else if pattern[0] == STAR then
      Matches(pattern[1..], text) || (text != [] && Matches(pattern, text[1..]))
    else
      text != [] && (pattern[0] == QUESTION || pattern[0] == text[0]) && Matches(pattern[1..], text[1..])
  }

  predicate Consumes(pattern: seq<byte>, text: seq<byte>, p: nat, t: nat)
    requires t < |text|
  {
    p < |pattern| && (pattern[p] == QUESTION || pattern[p] == text[t])
  }

  predicate OnlyStars(pattern: seq<byte>, p: nat)
    requires p <= |pattern|
    decreases |pattern| - p
  {
    p == |pattern| || (pattern[p] == STAR && OnlyStars(pattern, p + 1))
  }

  ghost predicate LoopState(pattern: seq<byte>, text: seq<byte>, p: nat, t: nat, star: Option<nat>, retry: nat)
  {
    p <= |pattern| && t <= |text| && retry <= t &&
    (star.Some? ==> star.value < p && pattern[star.value] == STAR)
  }

  /** The answer the loop reaches from the state (p, t, star, retry). */
  predicate Scan(pattern: seq<byte>, text: seq<byte>, p: nat, t: nat, star: Option<nat>, retry: nat)
    requires LoopState(pattern, text, p, t, star, retry)
    decreases |text| - retry, |text| - t + |pattern| - p
  {
    if t == |text| then OnlyStars(pattern, p)
    else if Consumes(pattern, text, p, t) then Scan(pattern, text, p + 1, t + 1, star, retry)
    else if p < |pattern| && pattern[p] == STAR then Scan(pattern, text, p + 1, t, Some(p), t)
    else if star.Some? then Scan(pattern, text, star.value + 1, retry + 1, star, retry + 1)
    else false
  }

  predicate Accepts(pattern: seq<byte>, text: seq<byte>) {
    Scan(pattern, text, 0, 0, None, 0)
  }

  /** The loop itself. It terminates on every input, never accepts a text the pattern does not
      match, and decides matching exactly when no byte of the text is a star. */
  method WildcardMatch(pattern: seq<byte>, text: seq<byte>) returns (matched: bool)
    ensures matched == Accepts(pattern, text)
    ensures matched ==> Matches(pattern, text)
    ensures STAR !in text ==> (matched <==> Matches(pattern, text))
  {
    AcceptsIsSound(pattern, text);
    if STAR !in text { AcceptsDecides(pattern, text); }
    var p: nat, t: nat := 0, 0;
    var star: Option<nat> := None;
    var retry: nat := 0;
    while t < |text|
      invariant LoopState(pattern, text, p, t, star, retry)
      invariant Scan(pattern, text, p, t, star, retry) == Accepts(pattern, text)
      decreases |text| - retry, |text| - t + |pattern| - p
    {
      if p < |pattern| && (pattern[p] == QUESTION || pattern[p] == text[t]) {
        p, t := p + 1, t + 1;
      } else if p < |pattern| && pattern[p] == STAR {
        star := Some(p);
        p := p + 1;
        retry := t;
      } else if star.Some? {
        p := star.value + 1;
        retry := retry + 1;
        t := retry;
      } else {
        return false;
      }
    }
    while p < |pattern| && pattern[p] == STAR
      invariant p <= |pattern|
      invariant OnlyStars(pattern, p) == Accepts(pattern, text)
    {
      p := p + 1;
    }
    matched := p == |pattern|;
  }

  // ---- Soundness: what has been consumed always matches ----

  lemma {:induction false} MatchesExtends(pattern: seq<byte>, text: seq<byte>, c: byte, x: seq<byte>)
    requires Matches(pattern, text)
    requires Matches([c], x)
    ensures Matches(pattern + [c], text + x)
    decreases |pattern| + |text|
  {
    if pattern == [] {
      assert pattern + [c] == [c] && text + x == x;
    } else {
      assert (pattern + [c])[1..] == pattern[1..] + [c];
      if pattern[0] == STAR && Matches(pattern[1..], text) {
        MatchesExtends(pattern[1..], text, c, x);
      } else {
        MatchesExtends(if pattern[0] == STAR then pattern else pattern[1..], text[1..], c, x);
        assert (text + x)[1..] == text[1..] + x;
      }
    }
  }

  /** A pattern that ends in a star matches every extension of what it matched. */
  lemma {:induction false} FinalStarAbsorbs(pattern: seq<byte>, text: seq<byte>, x: byte)
    requires pattern != [] && pattern[|pattern| - 1] == STAR
    requires Matches(pattern, text)
    ensures Matches(pattern, text + [x])
    decreases |pattern| + |text|
  {
    if |pattern| == 1 {
      OneStarMatchesAll(text + [x]);
      assert pattern == [STAR];
    } else if pattern[0] == STAR && Matches(pattern[1..], text) {
      FinalStarAbsorbs(pattern[1..], text, x);
    } else {
      FinalStarAbsorbs(if pattern[0] == STAR then pattern else pattern[1..], text[1..], x);
      assert (text + [x])[1..] == text[1..] + [x];
    }
  }

  lemma {:induction false} OneStarMatchesAll(text: seq<byte>)
    ensures Matches([STAR], text)
  {
    if text != [] { OneStarMatchesAll(text[1..]); }
  }

  lemma StarsMatchNothing(pattern: seq<byte>, p: nat)
    requires p <= |pattern| && OnlyStars(pattern, p)
    ensures Matches(pattern[p..], [])
    decreases |pattern| - p
  {
    if p < |pattern| {
      StarsMatchNothing(pattern, p + 1);
      assert pattern[p..][1..] == pattern[p + 1..];
    }
  }

  lemma OnlyStarsClosesMatch(pattern: seq<byte>, p: nat, text: seq<byte>)
    requires p <= |pattern| && OnlyStars(pattern, p) && Matches(pattern[..p], text)
    ensures Matches(pattern, text)
    decreases |pattern| - p
  {
    if p == |pattern| {
      assert pattern[..p] == pattern;
    } else {
      MatchesExtends(pattern[..p], text, STAR, []);
      assert pattern[..p + 1] == pattern[..p] + [STAR] && text + [] == text;
      OnlyStarsClosesMatch(pattern, p + 1, text);
    }
  }

  lemma {:induction false} ScanIsSound(pattern: seq<byte>, text: seq<byte>, p: nat, t: nat, star: Option<nat>, retry: nat)
    requires LoopState(pattern, text, p, t, star, retry)
    requires Matches(pattern[..p], text[..t])
    requires star.Some? ==> Matches(pattern[..star.value + 1], text[..retry])
    requires Scan(pattern, text, p, t, star, retry)
    ensures Matches(pattern, text)
    decreases |text| - retry, |text| - t + |pattern| - p
  {
    if t == |text| {
      assert text[..t] == text;
      OnlyStarsClosesMatch(pattern, p, text);
    } else if Consumes(pattern, text, p, t) {
      OneByteMatches(pattern[p], text[t]);
      MatchesExtends(pattern[..p], text[..t], pattern[p], [text[t]]);
      assert pattern[..p + 1] == pattern[..p] + [pattern[p]] && text[..t + 1] == text[..t] + [text[t]];
      ScanIsSound(pattern, text, p + 1, t + 1, star, retry);
    } else if p < |pattern| && pattern[p] == STAR {
      MatchesExtends(pattern[..p], text[..t], STAR, []);
      assert pattern[..p + 1] == pattern[..p] + [STAR] && text[..t] + [] == text[..t];
      ScanIsSound(pattern, text, p + 1, t, Some(p), t);
    } else {
      FinalStarAbsorbs(pattern[..star.value + 1], text[..retry], text[retry]);
      assert text[..retry + 1] == text[..retry] + [text[retry]];
      ScanIsSound(pattern, text, star.value + 1, retry + 1, star, retry + 1);
    }
  }

  lemma OneByteMatches(c: byte, x: byte)
    requires c == QUESTION || c == x
    ensures Matches([c], [x])
  {
    assert [c][1..] == [] && [x][1..] == [];
    if c == STAR { assert Matches([STAR], []); }
  }

  lemma AcceptsIsSound(pattern: seq<byte>, text: seq<byte>)
    ensures Accepts(pattern, text) ==> Matches(pattern, text)
  {
    if Accepts(pattern, text) { ScanIsSound(pattern, text, 0, 0, None, 0); }
  }

  // ---- Completeness: retrying only the last star loses nothing on star-free texts ----

  /** Nothing in pattern[from..to] is a star, and each byte of it accepts the text byte facing it. */
  ghost predicate Facing(pattern: seq<byte>, from: nat, to: nat, text: seq<byte>, at: nat)
    requires from <= to <= |pattern|
  {
    at + (to - from) <= |text| &&
    forall i {:trigger pattern[i]} :: from <= i < to ==>
      pattern[i] != STAR && (pattern[i] == QUESTION || pattern[i] == text[at + (i - from)])
  }

  /** A star-free block is consumed byte by byte: what follows it must match what follows its image. */
  lemma {:induction false} BlockSplits(pattern: seq<byte>, from: nat, to: nat, text: seq<byte>, at: nat)
    requires from <= to <= |pattern| && at <= |text|
    requires forall i :: from <= i < to ==> pattern[i] != STAR
    ensures Matches(pattern[from..], text[at..]) <==>
            Facing(pattern, from, to, text, at) && Matches(pattern[to..], text[at + (to - from)..])
    decreases |pattern| - from
  {
    if from < to {
      var ps, ts := pattern[from..], text[at..];
      assert ps[1..] == pattern[from + 1..] && ps[0] == pattern[from];
      if at < |text| {
        assert ts[1..] == text[at + 1..] && ts[0] == text[at];
        BlockSplits(pattern, from + 1, to, text, at + 1);
        if Facing(pattern, from, to, text, at) {
          forall i | from + 1 <= i < to
            ensures pattern[i] == QUESTION || pattern[i] == text[at + 1 + (i - (from + 1))] {}
        }
        if Facing(pattern, from + 1, to, text, at + 1) && (pattern[from] == QUESTION || pattern[from] == text[at]) {
          forall i | from <= i < to
            ensures pattern[i] != STAR && (pattern[i] == QUESTION || pattern[i] == text[at + (i - from)])
          {
            if i > from { assert at + (i - from) == at + 1 + (i - (from + 1)); }
          }
        }
      }
    }
  }

  /** A star that can start later can start earlier. */
  lemma {:induction false} StarStartsEarlier(pattern: seq<byte>, text: seq<byte>, early: nat, late: nat)
    requires pattern != [] && pattern[0] == STAR
    requires early <= late <= |text| && Matches(pattern, text[late..])
    ensures Matches(pattern, text[early..])
    decreases late - early
  {
    if early < late {
      StarStartsEarlier(pattern, text, early + 1, late);
      assert text[early..][1..] == text[early + 1..];
    }
  }

  /** A star pattern matches from `at` only if its remainder matches from some later point. */
  lemma {:induction false} StarChooses(pattern: seq<byte>, text: seq<byte>, at: nat) returns (k: nat)
    requires pattern != [] && pattern[0] == STAR
    requires at <= |text| && Matches(pattern, text[at..])
    ensures at <= k <= |text| && Matches(pattern[1..], text[k..])
    decreases |text| - at
  {
    if Matches(pattern[1..], text[at..]) {
      k := at;
    } else {
      assert text[at..][1..] == text[at + 1..];
      k := StarChooses(pattern, text, at + 1);
    }
  }

  /** What the loop still owes: with no star met, the whole question is the remaining one; after a
      star at s, the block since s faces the text from `retry`, and a match exists only if
      the pattern from s matches the text from `retry`. */
  ghost predicate Pending(pattern: seq<byte>, text: seq<byte>, p: nat, t: nat, star: Option<nat>, retry: nat)
    requires LoopState(pattern, text, p, t, star, retry)
  {
    match star
    case None => t == p && retry == 0 && Facing(pattern, 0, p, text, 0)
    case Some(s) =>
      t == retry + (p - s - 1) && Facing(pattern, s + 1, p, text, retry) &&
      (Matches(pattern, text) ==> Matches(pattern[s..], text[retry..]))
  }

  lemma RemainderNeeded(pattern: seq<byte>, text: seq<byte>, p: nat, t: nat, star: Option<nat>, retry: nat)
    requires LoopState(pattern, text, p, t, star, retry) && Pending(pattern, text, p, t, star, retry)
    requires star.None? && Matches(pattern, text)
    ensures Matches(pattern[p..], text[t..])
  {
    BlockSplits(pattern, 0, p, text, 0);
    assert pattern[0..] == pattern && text[0..] == text;
  }

  /** Meeting a further star commits to the leftmost image of the block before it. */
  lemma LaterStarSuffices(pattern: seq<byte>, text: seq<byte>, p: nat, t: nat, star: Option<nat>, retry: nat)
    requires LoopState(pattern, text, p, t, star, retry) && Pending(pattern, text, p, t, star, retry)
    requires p < |pattern| && pattern[p] == STAR && Matches(pattern, text)
    ensures Matches(pattern[p..], text[t..])
  {
    if star.None? {
      RemainderNeeded(pattern, text, p, t, star, retry);
    } else {
      var s := star.value;
      var k := StarChooses(pattern[s..], text, retry);
      assert pattern[s..][1..] == pattern[s + 1..];
      BlockSplits(pattern, s + 1, p, text, k);
      StarStartsEarlier(pattern[p..], text, t, k + (p - s - 1));
    }
  }

  /** A literal step keeps the debt: on a star-free text the consumed pattern byte is no star. */
  lemma LiteralStepKeepsPending(pattern: seq<byte>, text: seq<byte>, p: nat, t: nat, star: Option<nat>, retry: nat)
    requires LoopState(pattern, text, p, t, star, retry) && Pending(pattern, text, p, t, star, retry)
    requires STAR !in text && t < |text| && Consumes(pattern, text, p, t)
    ensures Pending(pattern, text, p + 1, t + 1, star, retry)
  {
    assert text[t] in text;
    var from := if star.Some? then star.value + 1 else 0;
    assert Facing(pattern, from, p, text, retry) && t == retry + (p - from);
    forall i | from <= i < p + 1
      ensures pattern[i] != STAR && (pattern[i] == QUESTION || pattern[i] == text[retry + (i - from)]) {}
  }

  /** A failed attempt from `retry` shows that the star must absorb the byte at `retry`. */
  lemma RetryKeepsPending(pattern: seq<byte>, text: seq<byte>, p: nat, t: nat, s: nat, retry: nat)
    requires LoopState(pattern, text, p, t, Some(s), retry) && Pending(pattern, text, p, t, Some(s), retry)
    requires t < |text| && !Consumes(pattern, text, p, t) && !(p < |pattern| && pattern[p] == STAR)
    ensures Pending(pattern, text, s + 1, retry + 1, Some(s), retry + 1)
  {
    assert !Matches(pattern[p..], text[t..]);
    BlockSplits(pattern, s + 1, p, text, retry);
    assert pattern[s..][1..] == pattern[s + 1..] && text[retry..][1..] == text[retry + 1..];
  }

  lemma {:induction false} ScanIsComplete(pattern: seq<byte>, text: seq<byte>, p: nat, t: nat, star: Option<nat>, retry: nat)
    requires LoopState(pattern, text, p, t, star, retry) && Pending(pattern, text, p, t, star, retry)
    requires STAR !in text && Matches(pattern, text)
    ensures Scan(pattern, text, p, t, star, retry)
    decreases |text| - retry, |text| - t + |pattern| - p
  {
    if t == |text| {
      if star.None? {
        RemainderNeeded(pattern, text, p, t, star, retry);
      } else {
        RetryImpossibleAtEnd(pattern, text, p, t, star.value, retry);
      }
      EmptyTextNeedsStars(pattern, p);
    } else if Consumes(pattern, text, p, t) {
      LiteralStepKeepsPending(pattern, text, p, t, star, retry);
      ScanIsComplete(pattern, text, p + 1, t + 1, star, retry);
    } else if p < |pattern| && pattern[p] == STAR {
      LaterStarSuffices(pattern, text, p, t, star, retry);
      ScanIsComplete(pattern, text, p + 1, t, Some(p), t);
    } else if star.Some? {
      RetryKeepsPending(pattern, text, p, t, star.value, retry);
      ScanIsComplete(pattern, text, star.value + 1, retry + 1, star, retry + 1);
    } else {
      RemainderNeeded(pattern, text, p, t, star, retry);
      assert false;
    }
  }

  lemma RetryImpossibleAtEnd(pattern: seq<byte>, text: seq<byte>, p: nat, t: nat, s: nat, retry: nat)
    requires LoopState(pattern, text, p, t, Some(s), retry) && Pending(pattern, text, p, t, Some(s), retry)
    requires Matches(pattern, text) && t == |text|
    ensures Matches(pattern[p..], text[t..])
  {
    var k := StarChooses(pattern[s..], text, retry);
    assert pattern[s..][1..] == pattern[s + 1..];
    BlockSplits(pattern, s + 1, p, text, k);
    assert k + (p - s - 1) <= |text|;
    assert k == retry;
  }

  lemma EmptyTextNeedsStars(pattern: seq<byte>, p: nat)
    requires p <= |pattern| && Matches(pattern[p..], [])
    ensures OnlyStars(pattern, p)
    decreases |pattern| - p
  {
    if p < |pattern| {
      assert pattern[p..][1..] == pattern[p + 1..];
      EmptyTextNeedsStars(pattern, p + 1);
    }
  }

  lemma AcceptsDecides(pattern: seq<byte>, text: seq<byte>)
    requires STAR !in text
    ensures Accepts(pattern, text) <==> Matches(pattern, text)
  {
    AcceptsIsSound(pattern, text);
    if Matches(pattern, text) { ScanIsComplete(pattern, text, 0, 0, None, 0); }
  }

  // ---- Exactly when completeness holds ----

  lemma {:induction false} LiteralPrefixConsumed(pattern: seq<byte>, text: seq<byte>, i: nat, n: nat)
    requires i <= n <= |pattern| && n <= |text| && pattern[..n] == text[..n]
    ensures Scan(pattern, text, i, i, None, 0) == Scan(pattern, text, n, n, None, 0)
    decreases n - i
  {
    if i < n {
      assert pattern[i] == pattern[..n][i] == text[..n][i] == text[i];
      LiteralPrefixConsumed(pattern, text, i + 1, n);
    }
  }

  lemma {:induction false} TextMatchesItself(text: seq<byte>, rest: seq<byte>, tail: seq<byte>)
    requires Matches(rest, tail)
    ensures Matches(text + rest, text + tail)
  {
    if text == [] {
      assert text + rest == rest && text + tail == tail;
    } else {
      TextMatchesItself(text[1..], rest, tail);
      assert (text + rest)[1..] == text[1..] + rest && (text + tail)[1..] == text[1..] + tail;
    }
  }

  /** A star byte in the text defeats the scan: it swallows the pattern's star as a literal. The
      pattern that fails is the text up to that byte, then `*`, or `*?` when the byte is the last. */
  lemma StarByteDefeatsScan(text: seq<byte>, at: nat) returns (pattern: seq<byte>)
    requires at < |text| && text[at] == STAR
    ensures Matches(pattern, text) && !Accepts(pattern, text)
  {
    var rest := if at + 1 < |text| then [STAR] else [STAR, QUESTION];
    pattern := text[..at] + rest;
    assert text == text[..at] + text[at..];
    if at + 1 < |text| {
      OneStarMatchesAll(text[at..]);
    } else {
      assert text[at..] == [STAR];
      assert rest[1..] == [QUESTION];
      OneByteMatches(QUESTION, STAR);
      assert Matches(rest, [STAR]);
    }
    TextMatchesItself(text[..at], rest, text[at..]);
    assert pattern[..at + 1] == text[..at + 1];
    LiteralPrefixConsumed(pattern, text, 0, at + 1);
    if at + 1 == |text| {
      assert pattern[at + 1] == QUESTION && QUESTION != STAR;
    }
  }

  /** The scan is complete for every pattern on exactly the texts without a star byte. */
  lemma CompleteExactlyOnStarFreeTexts(text: seq<byte>)
    ensures (forall pattern :: Matches(pattern, text) ==> Accepts(pattern, text)) <==> STAR !in text
  {
    if STAR in text {
      var at :| 0 <= at < |text| && text[at] == STAR;
      var pattern := StarByteDefeatsScan(text, at);
    } else {
      forall pattern | Matches(pattern, text) ensures Accepts(pattern, text) {
        AcceptsDecides(pattern, text);
      }
    }
  }
}
