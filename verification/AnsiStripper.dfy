/** The escape-sequence stripper of the diagnostic normaliser. Captured output is read as plain
    characters, control sequences (ESC [ parameters intermediates final, sections 5.4 and 5.6 of
    ECMA-48) and operating-system commands (ESC ] ... ended by BEL or by ESC \). */
module AnsiStripper {
  import opened Common

  /** A text is the sequence of its code points. */
  type Code = nat
  type Text = seq<Code>

  const ESC: Code := 0x1B
  const BRACKET: Code := 0x5B
  const CLOSE: Code := 0x5D
  const BACKSLASH: Code := 0x5C
  const BEL: Code := 0x07
  const CR: Code := 0x0D
  const LF: Code := 0x0A
  const CSI8: Code := 0x9B
  const OSC8: Code := 0x9D

  datatype AnsiError =
    | EightBitControl | UnterminatedEscape | UnsupportedEscape
    | MalformedCsi | MalformedOsc | UnterminatedOsc

  type Stripped = Result<Text, AnsiError>

  // ---- The grammar ----

  datatype Piece =
    | Plain(c: Code)
    | Csi(parameters: Text, intermediates: Text, final: Code)
    | Osc(body: Text, bell: bool)

  predicate InRange(c: Code, low: int, high: int) { low <= c <= high }

  predicate IsPlain(c: Code) { c != ESC && c != CSI8 && c != OSC8 }

  predicate ValidPiece(piece: Piece) {
    match piece
    case Plain(c) => IsPlain(c)
    case Csi(parameters, intermediates, final) =>
      (forall i :: 0 <= i < |parameters| ==> InRange(parameters[i], 0x30, 0x3F)) &&
      (forall i :: 0 <= i < |intermediates| ==> InRange(intermediates[i], 0x20, 0x2F)) &&
      InRange(final, 0x40, 0x7E)
    case Osc(body, _) => forall i :: 0 <= i < |body| ==> body[i] != ESC && body[i] != BEL
  }

  predicate ValidPieces(pieces: seq<Piece>) { forall i :: 0 <= i < |pieces| ==> ValidPiece(pieces[i]) }

  function OscEnd(bell: bool): Text { if bell then [BEL] else [ESC, BACKSLASH] }

  function RenderPiece(piece: Piece): Text {
    match piece
    case Plain(c) => [c]
    case Csi(parameters, intermediates, final) => [ESC, BRACKET] + (parameters + intermediates + [final])
    case Osc(body, bell) => [ESC, CLOSE] + (body + OscEnd(bell))
  }

  function Render(pieces: seq<Piece>): Text {
    if pieces == [] then [] else RenderPiece(pieces[0]) + Render(pieces[1..])
  }

  function Plains(pieces: seq<Piece>): Text {
    if pieces == [] then []
    else (if pieces[0].Plain? then [pieces[0].c] else []) + Plains(pieces[1..])
  }

  // ---- What the scanner computes, on the text still to be read ----

  /** Length of the longest prefix of `text` within the range. */
  function RunLength(text: Text, low: int, high: int): (n: nat)
    ensures n <= |text|
    ensures forall i :: 0 <= i < n ==> InRange(text[i], low, high)
    ensures n < |text| ==> !InRange(text[n], low, high)
  {
    if text == [] || !InRange(text[0], low, high) then 0 else 1 + RunLength(text[1..], low, high)
  }

  /** Characters of a control sequence after its introducer. */
  function CsiLength(text: Text): (r: Result<nat, AnsiError>)
    ensures r.Ok? ==> 0 < r.value <= |text|
  {
    var n := RunLength(text, 0x30, 0x3F);
    var m := n + RunLength(text[n..], 0x20, 0x2F);
    if m < |text| && InRange(text[m], 0x40, 0x7E) then Ok(m + 1) else Err(MalformedCsi)
  }

  /** Characters of an operating-system command after its introducer. */
  function OscLength(text: Text): (r: Result<nat, AnsiError>)
    ensures r.Ok? ==> 0 < r.value <= |text|
  {
    if text == [] then Err(UnterminatedOsc)
    else if text[0] == BEL then Ok(1)
    else if text[0] == ESC then (if |text| > 1 && text[1] == BACKSLASH then Ok(2) else Err(MalformedOsc))
    else match OscLength(text[1..]) case Ok(n) => Ok(n + 1) case Err(e) => Err(e)
  }

  /** Length of the escape sequence that starts `text`. */
  function EscapeLength(text: Text): (r: Result<nat, AnsiError>)
    requires text != [] && text[0] == ESC
    ensures r.Ok? ==> 2 < r.value <= |text|
  {
    if |text| < 2 then Err(UnterminatedEscape)
    else if text[1] == BRACKET then
      (match CsiLength(text[2..]) case Ok(n) => Ok(n + 2) case Err(e) => Err(e))
    else if text[1] == CLOSE then
      (match OscLength(text[2..]) case Ok(n) => Ok(n + 2) case Err(e) => Err(e))
    else Err(UnsupportedEscape)
  }

  function Prepend(head: Text, rest: Stripped): Stripped {
    if rest.Ok? then Ok(head + rest.value) else rest
  }

  function Strip(text: Text): Stripped {
    if text == [] then Ok([])
    else if text[0] == CSI8 || text[0] == OSC8 then Err(EightBitControl)
    else if text[0] != ESC then Prepend([text[0]], Strip(text[1..]))
    else match EscapeLength(text) case Ok(n) => Strip(text[n..]) case Err(e) => Err(e)
  }

  // ---- The loops ----

  method ConsumeCsi(text: Text, start: nat) returns (r: Result<nat, AnsiError>)
    requires start <= |text|
    ensures r == (match CsiLength(text[start..]) case Ok(n) => Ok(start + n) case Err(e) => Err(e))
  {
    var index := start;
    ghost var n := RunLength(text[start..], 0x30, 0x3F);
    assert forall i :: start <= i < start + n ==> text[i] == text[start..][i - start];
    while index < |text| && InRange(text[index], 0x30, 0x3F)
      invariant start <= index <= start + n
    {
      index := index + 1;
    }
    assert index == start + n && text[start..][n..] == text[index..];
    ghost var middle := index;
    ghost var m := RunLength(text[middle..], 0x20, 0x2F);
    assert forall i :: middle <= i < middle + m ==> text[i] == text[middle..][i - middle];
    while index < |text| && InRange(text[index], 0x20, 0x2F)
      invariant middle <= index <= middle + m
    {
      index := index + 1;
    }
    if index >= |text| || !InRange(text[index], 0x40, 0x7E) {
      return Err(MalformedCsi);
    }
    return Ok(index + 1);
  }

  method ConsumeOsc(text: Text, start: nat) returns (r: Result<nat, AnsiError>)
    requires start <= |text|
    ensures r == (match OscLength(text[start..]) case Ok(n) => Ok(start + n) case Err(e) => Err(e))
  {
    var index := start;
    while index < |text|
      invariant start <= index <= |text|
      invariant OscLength(text[start..]) ==
        (match OscLength(text[index..]) case Ok(n) => Ok(index - start + n) case Err(e) => Err(e))
    {
      var character := text[index];
      assert text[index..][1..] == text[index + 1..];
      if character == BEL {
        return Ok(index + 1);
      }
      if character == ESC {
        if index + 1 < |text| && text[index + 1] == BACKSLASH {
          return Ok(index + 2);
        }
        return Err(MalformedOsc);
      }
      index := index + 1;
    }
    return Err(UnterminatedOsc);
  }

  /** The answer once `output` has been collected and `text` is read up to `i`. */
  function ScanFrom(text: Text, output: Text, i: nat): Stripped
    requires i <= |text|
  {
    Prepend(output, Strip(text[i..]))
  }

  function AfterEscape(text: Text, output: Text, at: nat, length: Result<nat, AnsiError>): Stripped
    requires at <= |text| && (length.Ok? ==> at + length.value <= |text|)
  {
    match length case Ok(n) => ScanFrom(text, output, at + n) case Err(e) => Err(e)
  }

  lemma ScanStarts(text: Text)
    ensures ScanFrom(text, [], 0) == Strip(text)
  {
    assert text[0..] == text;
    PrependNothing(Strip(text));
  }

  lemma ScanEnds(text: Text, output: Text)
    ensures ScanFrom(text, output, |text|) == Ok(output)
  {
    assert text[|text|..] == [] && output + [] == output;
  }

  /** One turn of the scanner, in terms of positions. */
  lemma ScanPlain(text: Text, output: Text, i: nat)
    requires i < |text|
    ensures text[i] == CSI8 || text[i] == OSC8 ==> ScanFrom(text, output, i) == Err(EightBitControl)
    ensures IsPlain(text[i]) ==> ScanFrom(text, output, i) == ScanFrom(text, output + [text[i]], i + 1)
  {
    assert text[i..][1..] == text[i + 1..];
    if IsPlain(text[i]) && Strip(text[i + 1..]).Ok? {
      ConcatAssociates(output, [text[i]], Strip(text[i + 1..]).value);
    }
  }

  lemma ScanEscape(text: Text, output: Text, i: nat)
    requires i < |text| && text[i] == ESC
    ensures i + 1 == |text| ==> ScanFrom(text, output, i) == Err(UnterminatedEscape)
    ensures i + 1 < |text| ==>
      ScanFrom(text, output, i) ==
        if text[i + 1] == BRACKET then AfterEscape(text, output, i + 2, CsiLength(text[i + 2..]))
        else if text[i + 1] == CLOSE then AfterEscape(text, output, i + 2, OscLength(text[i + 2..]))
        else Err(UnsupportedEscape)
  {
    var rest := text[i..];
    if i + 1 < |text| {
      assert rest[2..] == text[i + 2..];
      if EscapeLength(rest).Ok? {
        assert rest[EscapeLength(rest).value..] == text[i + EscapeLength(rest).value..];
      }
    }
  }

  method StripAnsi(text: Text) returns (r: Stripped)
    ensures r == Strip(text)
  {
    hide Strip, CsiLength, OscLength, ScanFrom, Prepend, EscapeLength, RunLength;
    ScanStarts(text);
    var output: Text := [];
    var index := 0;
    while index < |text|
      invariant 0 <= index <= |text|
      invariant ScanFrom(text, output, index) == Strip(text)
    {
      var character := text[index];
      if character == CSI8 || character == OSC8 {
        ScanPlain(text, output, index);
        return Err(EightBitControl);
      }
      if character != ESC {
        ScanPlain(text, output, index);
        output := output + [character];
        index := index + 1;
        continue;
      }
      ScanEscape(text, output, index);
      if index + 1 >= |text| {
        return Err(UnterminatedEscape);
      }
      var introducer := text[index + 1];
      if introducer == BRACKET {
        var end := ConsumeCsi(text, index + 2);
        if end.Err? { return Err(end.error); }
        index := end.value;
        continue;
      }
      if introducer == CLOSE {
        var end := ConsumeOsc(text, index + 2);
        if end.Err? { return Err(end.error); }
        index := end.value;
        continue;
      }
      return Err(UnsupportedEscape);
    }
    ScanEnds(text, output);
    return Ok(output);
  }

  lemma PrependNothing(rest: Stripped)
    ensures Prepend([], rest) == rest
  {
    if rest.Ok? { assert [] + rest.value == rest.value; }
  }

  // ---- The scanner accepts exactly the grammar ----

  lemma {:induction false} OscRead(body: Text, bell: bool, rest: Text)
    requires ValidPiece(Osc(body, bell))
    ensures OscLength(body + OscEnd(bell) + rest) == Ok(|body| + |OscEnd(bell)|)
  {
    if body == [] {
      assert body + OscEnd(bell) == OscEnd(bell);
    } else {
      OscRead(body[1..], bell, rest);
      ConcatRest(body, OscEnd(bell));
      ConcatRest(body + OscEnd(bell), rest);
    }
  }

  lemma {:induction false} RunStops(run: Text, rest: Text, low: int, high: int)
    requires forall i :: 0 <= i < |run| ==> InRange(run[i], low, high)
    requires rest != [] && !InRange(rest[0], low, high)
    ensures RunLength(run + rest, low, high) == |run|
  {
    if run != [] {
      RunStops(run[1..], rest, low, high);
      assert (run + rest)[1..] == run[1..] + rest;
    }
  }

  lemma CsiRunsRead(parameters: Text, intermediates: Text, end: Text)
    requires end != [] && ValidPiece(Csi(parameters, intermediates, end[0]))
    ensures CsiLength(parameters + (intermediates + end)) == Ok(|parameters| + |intermediates| + 1)
  {
    var tail := intermediates + end;
    assert tail[0] == if intermediates == [] then end[0] else intermediates[0];
    RunStops(parameters, tail, 0x30, 0x3F);
    RunStops(intermediates, end, 0x20, 0x2F);
    ConcatDrop(parameters, tail);
  }

  lemma CsiRead(parameters: Text, intermediates: Text, final: Code, rest: Text)
    requires ValidPiece(Csi(parameters, intermediates, final))
    ensures CsiLength(parameters + intermediates + [final] + rest) == Ok(|parameters| + |intermediates| + 1)
  {
    var end := [final] + rest;
    ConcatAssociates(parameters + intermediates, [final], rest);
    ConcatAssociates(parameters, intermediates, end);
    assert end[0] == final;
    CsiRunsRead(parameters, intermediates, end);
  }

  lemma EscapeRead(introducer: Code, tail: Text)
    ensures EscapeLength([ESC, introducer] + tail) ==
      if introducer == BRACKET then (match CsiLength(tail) case Ok(n) => Ok(n + 2) case Err(e) => Err(e))
      else if introducer == CLOSE then (match OscLength(tail) case Ok(n) => Ok(n + 2) case Err(e) => Err(e))
      else Err(UnsupportedEscape)
  {
    assert ([ESC, introducer] + tail)[2..] == tail;
  }

  /** Reading one piece leaves exactly what follows it. */
  lemma PieceRead(piece: Piece, rest: Text)
    requires ValidPiece(piece)
    ensures Strip(RenderPiece(piece) + rest) == Prepend(if piece.Plain? then [piece.c] else [], Strip(rest))
  {
    var text := RenderPiece(piece) + rest;
    assert text[|RenderPiece(piece)|..] == rest;
    if !piece.Plain? {
      EscapePieceRead(piece, rest);
      PrependNothing(Strip(rest));
    }
  }

  lemma EscapePieceRead(piece: Piece, rest: Text)
    requires ValidPiece(piece) && !piece.Plain?
    ensures EscapeLength(RenderPiece(piece) + rest) == Ok(|RenderPiece(piece)|)
  {
    match piece
    case Csi(parameters, intermediates, final) =>
      var inner := parameters + intermediates + [final];
      ConcatAssociates([ESC, BRACKET], inner, rest);
      CsiRead(parameters, intermediates, final, rest);
      EscapeRead(BRACKET, inner + rest);
    case Osc(body, bell) =>
      ConcatAssociates([ESC, CLOSE], body + OscEnd(bell), rest);
      OscRead(body, bell, rest);
      EscapeRead(CLOSE, body + OscEnd(bell) + rest);
  }

  lemma {:induction false} GrammarIsAccepted(pieces: seq<Piece>)
    requires ValidPieces(pieces)
    ensures Strip(Render(pieces)) == Ok(Plains(pieces))
  {
    if pieces != [] {
      GrammarIsAccepted(pieces[1..]);
      PieceRead(pieces[0], Render(pieces[1..]));
    }
  }

  lemma {:induction false} OscShape(text: Text) returns (body: Text, bell: bool)
    requires OscLength(text).Ok?
    ensures ValidPiece(Osc(body, bell))
    ensures body + OscEnd(bell) == text[..OscLength(text).value]
  {
    if text[0] == BEL {
      body, bell := [], true;
    } else if text[0] == ESC {
      body, bell := [], false;
      assert text[..2] == [ESC, BACKSLASH];
    } else {
      var shorter, b := OscShape(text[1..]);
      body, bell := [text[0]] + shorter, b;
      var n := OscLength(text[1..]).value;
      var end := OscEnd(bell);
      assert body + end == [text[0]] + (shorter + end) == [text[0]] + text[1..][..n] == text[..n + 1];
    }
  }

  lemma CsiShape(text: Text) returns (piece: Piece)
    requires CsiLength(text).Ok?
    ensures piece.Csi? && ValidPiece(piece)
    ensures RenderPiece(piece) == [ESC, BRACKET] + text[..CsiLength(text).value]
  {
    var n := RunLength(text, 0x30, 0x3F);
    var m := RunLength(text[n..], 0x20, 0x2F);
    piece := Csi(text[..n], text[n..][..m], text[n + m]);
    assert text[..n + m + 1] == text[..n] + text[n..][..m] + [text[n + m]];
  }

  /** The escape sequence that starts an accepted text is a piece of the grammar. */
  lemma EscapeShape(text: Text) returns (piece: Piece)
    requires text != [] && text[0] == ESC && EscapeLength(text).Ok?
    ensures ValidPiece(piece) && RenderPiece(piece) == text[..EscapeLength(text).value]
  {
    var n := EscapeLength(text).value;
    var rest := text[2..];
    assert text[..n] == [ESC, text[1]] + rest[..n - 2];
    if text[1] == BRACKET {
      piece := CsiShape(rest);
    } else {
      var body, bell := OscShape(rest);
      piece := Osc(body, bell);
      var end := OscEnd(bell);
      assert RenderPiece(piece) == [ESC, CLOSE] + (body + end);
    }
  }

  lemma RenderCons(piece: Piece, rest: seq<Piece>)
    ensures Render([piece] + rest) == RenderPiece(piece) + Render(rest)
    ensures Plains([piece] + rest) == (if piece.Plain? then [piece.c] else []) + Plains(rest)
  {
    assert ([piece] + rest)[1..] == rest;
  }

  lemma {:induction false} AcceptedIsGrammar(text: Text) returns (pieces: seq<Piece>)
    requires Strip(text).Ok?
    ensures ValidPieces(pieces) && Render(pieces) == text
    decreases |text|
  {
    if text == [] {
      pieces := [];
    } else {
      var n, piece;
      if text[0] != ESC {
        n, piece := 1, Plain(text[0]);
        assert text[..1] == [text[0]];
      } else {
        n := EscapeLength(text).value;
        piece := EscapeShape(text);
      }
      assert text == text[..n] + text[n..];
      var rest := AcceptedIsGrammar(text[n..]);
      pieces := [piece] + rest;
      RenderCons(piece, rest);
    }
  }

  /** The scanner succeeds on exactly the texts of the grammar, and then returns the plain
      characters of any reading of the text. */
  lemma StripDecidesGrammar(text: Text)
    ensures Strip(text).Ok? <==> exists pieces :: ValidPieces(pieces) && Render(pieces) == text
    ensures forall pieces :: ValidPieces(pieces) && Render(pieces) == text ==> Strip(text) == Ok(Plains(pieces))
  {
    forall pieces | ValidPieces(pieces) && Render(pieces) == text
      ensures Strip(text) == Ok(Plains(pieces))
    {
      GrammarIsAccepted(pieces);
    }
    if Strip(text).Ok? { var pieces := AcceptedIsGrammar(text); }
  }

  // ---- Consequences ----

  lemma {:induction false} RenderConcat(left: seq<Piece>, right: seq<Piece>)
    ensures Render(left + right) == Render(left) + Render(right)
  {
    if left == [] {
      assert left + right == right;
    } else {
      ConcatRest(left, right);
      RenderConcat(left[1..], right);
      ConcatAssociates(RenderPiece(left[0]), Render(left[1..]), Render(right));
    }
  }

  lemma {:induction false} PlainsConcat(left: seq<Piece>, right: seq<Piece>)
    ensures Plains(left + right) == Plains(left) + Plains(right)
  {
    if left == [] {
      assert left + right == right;
    } else {
      ConcatRest(left, right);
      PlainsConcat(left[1..], right);
      ConcatAssociates(if left[0].Plain? then [left[0].c] else [], Plains(left[1..]), Plains(right));
    }
  }

  /** Two accepted captures may be stripped apart or together. */
  lemma StripDistributes(left: Text, right: Text)
    requires Strip(left).Ok? && Strip(right).Ok?
    ensures Strip(left + right) == Ok(Strip(left).value + Strip(right).value)
  {
    var l := AcceptedIsGrammar(left);
    var r := AcceptedIsGrammar(right);
    RenderConcat(l, r);
    PlainsConcat(l, r);
    GrammarIsAccepted(l);
    GrammarIsAccepted(r);
    GrammarIsAccepted(l + r);
  }

  lemma {:induction false} PlainTextUnchanged(text: Text)
    requires forall i :: 0 <= i < |text| ==> IsPlain(text[i])
    ensures Strip(text) == Ok(text)
  {
    if text != [] {
      PlainTextUnchanged(text[1..]);
      assert [text[0]] + text[1..] == text;
    }
  }

  lemma {:induction false} StrippedIsPlain(text: Text)
    requires Strip(text).Ok?
    ensures forall c :: c in Strip(text).value ==> IsPlain(c) && c in text
    decreases |text|
  {
    if text != [] {
      var n := if text[0] != ESC then 1 else EscapeLength(text).value;
      StrippedIsPlain(text[n..]);
      assert forall c :: c in text[n..] ==> c in text;
    }
  }

  lemma {:induction false} StripIsIdempotent(text: Text)
    requires Strip(text).Ok?
    ensures Strip(Strip(text).value) == Strip(text)
  {
    StrippedIsPlain(text);
    var out := Strip(text).value;
    forall i | 0 <= i < |out| ensures IsPlain(out[i]) { assert out[i] in out; }
    PlainTextUnchanged(out);
  }

  // ---- The end-of-line step, which runs before stripping ----

  /** `replace("\r\n", "\n")`: non-overlapping occurrences, left to right. */
  function ReplaceCrLf(text: Text): Text {
    if text == [] then []
    else if StartsPair(text) then [LF] + ReplaceCrLf(text[2..])
    else [text[0]] + ReplaceCrLf(text[1..])
  }

  /** `replace("\r", "\n")`. */
  function ReplaceCr(text: Text): Text {
    if text == [] then [] else [if text[0] == CR then LF else text[0]] + ReplaceCr(text[1..])
  }

  function UnifyLineEnds(text: Text): Text { ReplaceCr(ReplaceCrLf(text)) }

  predicate SplitsCrLf(left: Text, right: Text) {
    left != [] && right != [] && left[|left| - 1] == CR && right[0] == LF
  }

  lemma {:induction false} ReplaceCrRemovesCr(text: Text)
    ensures CR !in ReplaceCr(text)
    ensures forall c :: c in ReplaceCr(text) ==> c == LF || c in text
    ensures |ReplaceCr(text)| == |text|
  {
    if text != [] { ReplaceCrRemovesCr(text[1..]); }
  }

  lemma {:induction false} ReplaceCrDistributes(left: Text, right: Text)
    ensures ReplaceCr(left + right) == ReplaceCr(left) + ReplaceCr(right)
  {
    if left == [] {
      assert left + right == right;
    } else {
      assert (left + right)[1..] == left[1..] + right;
      ReplaceCrDistributes(left[1..], right);
    }
  }

  predicate StartsPair(text: Text) { |text| > 1 && text[0] == CR && text[1] == LF }

  lemma {:induction false} ReplaceCrLfJoins(left: Text, right: Text)
    requires !SplitsCrLf(left, right)
    ensures ReplaceCrLf(left + right) == ReplaceCrLf(left) + ReplaceCrLf(right)
    decreases |left|
  {
    var text := left + right;
    if left == [] {
      assert text == right;
    } else {
      ConcatRest(left, right);
      if StartsPair(left) {
        ConcatRest(left[1..], right);
        assert text[2..] == left[2..] + right;
        ReplaceCrLfJoins(left[2..], right);
        ConcatAssociates([LF], ReplaceCrLf(left[2..]), ReplaceCrLf(right));
      } else {
        assert !StartsPair(text);
        ReplaceCrLfJoins(left[1..], right);
        ConcatAssociates([left[0]], ReplaceCrLf(left[1..]), ReplaceCrLf(right));
      }
    }
  }

  /** A cut inside a CR LF pair yields one more line end than the uncut text. */
  lemma CutPairAddsLine(left: Text, right: Text)
    requires SplitsCrLf(left, right)
    ensures |ReplaceCrLf(left + right)| < |ReplaceCrLf(left)| + |ReplaceCrLf(right)|
  {
    var head, pair := left[..|left| - 1], [CR] + right;
    ConcatAssociates(head, [CR], right);
    assert left == head + [CR];
    ReplaceCrLfJoins(head, [CR]);
    ReplaceCrLfJoins(head, pair);
    PairBecomesLf(right);
    assert [CR][1..] == [];
  }

  lemma PairBecomesLf(right: Text)
    requires right != [] && right[0] == LF
    ensures |ReplaceCrLf([CR] + right)| == |ReplaceCrLf(right)|
  {
    assert ([CR] + right)[2..] == right[1..];
  }

  /** A capture may be cut in two before the end-of-line step exactly when the cut does not
      fall inside a CR LF pair. */
  lemma LineEndsSplitExactly(left: Text, right: Text)
    ensures UnifyLineEnds(left + right) == UnifyLineEnds(left) + UnifyLineEnds(right) <==> !SplitsCrLf(left, right)
  {
    if SplitsCrLf(left, right) { CutPairAddsLine(left, right); } else { ReplaceCrLfJoins(left, right); }
    ReplaceCrDistributes(ReplaceCrLf(left), ReplaceCrLf(right));
    ReplaceCrRemovesCr(ReplaceCrLf(left + right));
    ReplaceCrRemovesCr(ReplaceCrLf(left));
    ReplaceCrRemovesCr(ReplaceCrLf(right));
  }

  /** After both steps the text has no carriage return and no escape or eight-bit introducer. */
  lemma NormalizedTextIsClean(text: Text)
    requires Strip(UnifyLineEnds(text)).Ok?
    ensures forall c :: c in Strip(UnifyLineEnds(text)).value ==> c != CR && IsPlain(c)
  {
    ReplaceCrRemovesCr(ReplaceCrLf(text));
    StrippedIsPlain(UnifyLineEnds(text));
  }
}
