/**
 * The event-stream text decoder `parseSSEResponse`, in both of its forms:
 * the filter/map/join pipeline of the dataset runner and the loop with an
 * accumulator of the dataset script. Both keep the lines of the body that
 * begin with exactly `data: `, parse the rest of each as JSON, append the
 * `delta` of every `text-delta` event whose delta is truthy, and trim.
 */
module StreamDecoder {
  import opened Wrappers
  import opened Text
  import opened Values

  /**
   * The two properties of a parsed payload the decoder reads. A payload
   * that is not an object (a number, an array, a string) reads as two
   * undefined or other fields, like any property read on it.
   */
  datatype Event = Event(kind: Field, delta: Field)

  /**
   * `JSON.parse` followed by the property reads: `None` when parsing throws
   * or when the payload is `null` (reading a property of it throws).
   */
  type Parser = string -> Option<Event>

  /** The only event marker recognised, with exactly one space. */
  const DataPrefix: string := "data: "

  const TextDelta: string := "text-delta"

  predicate IsDataLine(line: string) {
    StartsWith(line, DataPrefix)
  }

  /** The event a data line carries, if its payload parses. */
  function EventOf(line: string, parse: Parser): Option<Event>
    requires IsDataLine(line)
  {
    parse(line[|DataPrefix|..])
  }

  /** The fragment an event adds to the output: a truthy `delta` of a `text-delta` event. */
  function FragmentOf(e: Event): Option<string> {
    if e.kind == Str(TextDelta) && Truthy(e.delta) then Some(Render(e.delta)) else None
  }

  /** The fragment one line of the body adds, if any. */
  function LineFragment(line: string, parse: Parser): Option<string> {
    if !IsDataLine(line) then None
    else match EventOf(line, parse)
      case None => None
      case Some(e) => FragmentOf(e)
  }

  /** Reference definition: the fragments of the lines, in stream order. */
  function Fragments(lines: seq<string>, parse: Parser): seq<string> {
    if lines == [] then []
    else
      (match LineFragment(lines[0], parse) case Some(d) => [d] case None => [])
      + Fragments(lines[1..], parse)
  }

  /** Reference definition of the decoded text of a sequence of lines. */
  function DecodeLines(lines: seq<string>, parse: Parser): string {
    Trim(Concat(Fragments(lines, parse)))
  }

  lemma {:induction false} FragmentsAppend(lines: seq<string>, line: string, parse: Parser)
    ensures Fragments(lines + [line], parse) == Fragments(lines, parse) + LineFragments(line, parse)
  {
    if lines == [] {
      assert [] + [line] == [line];
    } else {
      assert (lines + [line])[1..] == lines[1..] + [line];
      FragmentsAppend(lines[1..], line, parse);
    }
  }

  // ---------------------------------------------------------------------
  // Map/join form (evals/langfuse-dataset-example)
  // ---------------------------------------------------------------------

  /** `.filter((line) => line.startsWith('data: '))` */
  function KeepDataLines(lines: seq<string>): (kept: seq<string>)
    ensures forall i :: 0 <= i < |kept| ==> IsDataLine(kept[i])
    ensures forall l :: l in kept <==> l in lines && IsDataLine(l)
  {
    if lines == [] then []
    else if IsDataLine(lines[0]) then [lines[0]] + KeepDataLines(lines[1..])
    else KeepDataLines(lines[1..])
  }

  /**
   * The filter keeps order: the kept lines of a concatenation are the kept
   * lines of each part, in turn, and a single line is kept exactly when it
   * is a data line.
   */
  lemma {:induction false} KeepDataLinesInOrder(a: seq<string>, b: seq<string>)
    ensures KeepDataLines(a + b) == KeepDataLines(a) + KeepDataLines(b)
    ensures |a| == 1 ==> KeepDataLines(a) == if IsDataLine(a[0]) then a else []
  {
    if a != [] {
      assert (a + b)[1..] == a[1..] + b;
      KeepDataLinesInOrder(a[1..], b);
      if |a| == 1 {
        assert a[1..] == [];
      }
    } else {
      assert a + b == b;
    }
  }

  /** The `.map` callback: the fragment, or "" when there is none or the payload is malformed. */
  function Piece(line: string, parse: Parser): (p: string)
    requires IsDataLine(line)
    ensures p == LineFragment(line, parse).GetOr("")
  {
    match EventOf(line, parse)
    case None => ""
    case Some(e) => if e.kind == Str(TextDelta) && Truthy(e.delta) then Render(e.delta) else ""
  }

  function Pieces(kept: seq<string>, parse: Parser): (ps: seq<string>)
    requires forall i :: 0 <= i < |kept| ==> IsDataLine(kept[i])
    ensures |ps| == |kept|
  {
    if kept == [] then [] else [Piece(kept[0], parse)] + Pieces(kept[1..], parse)
  }

  /** The fragments one line adds, as a sequence of zero or one strings. */
  function LineFragments(line: string, parse: Parser): (fs: seq<string>)
    ensures Fragments([line], parse) == fs
    ensures Concat(fs) == LineFragment(line, parse).GetOr("")
  {
    assert [line][1..] == [];
    match LineFragment(line, parse) case Some(d) => ConcatCons(d, []); [d] case None => []
  }

  lemma FragmentsCons(line: string, rest: seq<string>, parse: Parser)
    ensures Fragments([line] + rest, parse) == LineFragments(line, parse) + Fragments(rest, parse)
  {
    assert ([line] + rest)[1..] == rest;
  }

  lemma {:induction false} PiecesConcat(lines: seq<string>, parse: Parser)
    ensures Concat(Pieces(KeepDataLines(lines), parse)) == Concat(Fragments(lines, parse))
  {
    if lines != [] {
      var l, rest := lines[0], lines[1..];
      assert lines == [l] + rest;
      PiecesConcat(rest, parse);
      FragmentsCons(l, rest, parse);
      ConcatAppend(LineFragments(l, parse), Fragments(rest, parse));
      if IsDataLine(l) {
        var kept := KeepDataLines(lines);
        assert kept == [l] + KeepDataLines(rest);
        assert kept[1..] == KeepDataLines(rest);
        assert Pieces(kept, parse) == [Piece(l, parse)] + Pieces(KeepDataLines(rest), parse);
        ConcatCons(Piece(l, parse), Pieces(KeepDataLines(rest), parse));
      }
    }
  }

  /**
   * `parseSSEResponse` of the dataset runner: the decoded text is the
   * in-order concatenation of the fragments of the body's lines, trimmed.
   */
  function DecodeJoined(body: string, parse: Parser): (text: string)
    ensures text == DecodeLines(Split(body, '\n'), parse)
    ensures Trimmed(text)
  {
    var lines := Split(body, '\n');
    var pieces := Pieces(KeepDataLines(lines), parse);
    JoinEmptyIsConcat(pieces);
    PiecesConcat(lines, parse);
    Trim(Join(pieces, ""))
  }

  // ---------------------------------------------------------------------
  // Loop form (langfuse-example)
  // ---------------------------------------------------------------------

  /**
   * `parseSSEResponse` of the dataset script: a loop over the lines that
   * appends each fragment to an accumulator and swallows parse failures.
   * It computes the same text as the map/join form on every body.
   */
  method DecodeLoop(body: string, parse: Parser) returns (text: string)
    ensures text == DecodeLines(Split(body, '\n'), parse)
    ensures text == DecodeJoined(body, parse)
  {
    var lines := Split(body, '\n');
    var acc := "";
    var i := 0;
    while i < |lines|
      invariant 0 <= i <= |lines|
      invariant acc == Concat(Fragments(lines[..i], parse))
    {
      var line := lines[i];
      AccumulateLine(lines, i, parse);
      if StartsWith(line, DataPrefix) {
        var parsed := parse(line[6..]);
        if parsed.Some? {
          var data := parsed.value;
          if data.kind == Str(TextDelta) && Truthy(data.delta) {
            acc := acc + Render(data.delta);
          }
        }
      }
      i := i + 1;
    }
    assert lines[..|lines|] == lines;
    text := Trim(acc);
  }

  /** One turn of the loop: line `i` adds its fragment, if any, to the accumulated text. */
  lemma AccumulateLine(lines: seq<string>, i: nat, parse: Parser)
    requires i < |lines|
    ensures Concat(Fragments(lines[..i + 1], parse))
         == Concat(Fragments(lines[..i], parse)) + LineFragment(lines[i], parse).GetOr("")
  {
    FragmentsAppend(lines[..i], lines[i], parse);
    assert lines[..i + 1] == lines[..i] + [lines[i]];
    ConcatAppend(Fragments(lines[..i], parse), LineFragments(lines[i], parse));
  }

  // ---------------------------------------------------------------------
  // Properties
  // ---------------------------------------------------------------------

  /**
   * A line that is not a data line, or whose payload does not parse, or
   * that is not a `text-delta` event with truthy delta, contributes nothing:
   * removing it from the stream leaves the fragments unchanged.
   */
  lemma {:induction false} SkippedLineContributesNothing(
    before: seq<string>, line: string, after: seq<string>, parse: Parser)
    requires LineFragment(line, parse).None?
    ensures Fragments(before + [line] + after, parse) == Fragments(before + after, parse)
  {
    if before == [] {
      assert before + [line] + after == [line] + after;
      assert before + after == after;
      FragmentsCons(line, after, parse);
    } else {
      var b, bs := before[0], before[1..];
      assert before + [line] + after == [b] + (bs + [line] + after);
      assert before + after == [b] + (bs + after);
      FragmentsCons(b, bs + [line] + after, parse);
      FragmentsCons(b, bs + after, parse);
      SkippedLineContributesNothing(bs, line, after, parse);
    }
  }

  /** A malformed payload never raises and is one such skipped line. */
  lemma MalformedLineIsSkipped(payload: string, parse: Parser)
    requires parse(payload).None?
    ensures LineFragment(DataPrefix + payload, parse).None?
  {
    assert (DataPrefix + payload)[|DataPrefix|..] == payload;
  }

  /** Decoding a body made of the given lines is decoding the lines. */
  lemma DecodeJoinedOfLines(lines: seq<string>, parse: Parser)
    requires NoneContains(lines, '\n')
    ensures DecodeJoined(Join(lines, "\n"), parse) == DecodeLines(lines, parse)
  {
    if lines == [] {
      assert Split("", '\n') == [""];
      assert !IsDataLine("");
    } else {
      SplitJoin(lines, '\n');
    }
  }

  /**
   * Inserting a skipped line anywhere in a body does not change the
   * decoded text.
   */
  lemma SkippedLineLeavesTextUnchanged(
    before: seq<string>, line: string, after: seq<string>, parse: Parser)
    requires NoneContains(before, '\n') && NoneContains(after, '\n') && '\n' !in line
    requires LineFragment(line, parse).None?
    ensures DecodeJoined(Join(before + [line] + after, "\n"), parse)
         == DecodeJoined(Join(before + after, "\n"), parse)
  {
    NoneContainsAppend(before, [line], '\n');
    NoneContainsAppend(before + [line], after, '\n');
    NoneContainsAppend(before, after, '\n');
    DecodeJoinedOfLines(before + [line] + after, parse);
    DecodeJoinedOfLines(before + after, parse);
    SkippedLineContributesNothing(before, line, after, parse);
  }

  /** The data line carrying a payload. */
  function DeltaLine(payload: string): string {
    DataPrefix + payload
  }

  function DeltaLines(payloads: seq<string>): (lines: seq<string>)
    ensures |lines| == |payloads|
  {
    if payloads == [] then [] else [DeltaLine(payloads[0])] + DeltaLines(payloads[1..])
  }

  /**
   * A stream of well-formed `text-delta` lines yields the ordered
   * concatenation of their deltas (an empty delta is falsy and adds nothing).
   */
  lemma {:induction false} WellFormedStream(payloads: seq<string>, deltas: seq<string>, parse: Parser)
    requires |payloads| == |deltas|
    requires forall i :: 0 <= i < |payloads| ==>
               parse(payloads[i]) == Some(Event(Str(TextDelta), Str(deltas[i])))
    ensures Concat(Fragments(DeltaLines(payloads), parse)) == Concat(deltas)
  {
    if payloads != [] {
      var line := DeltaLine(payloads[0]);
      assert line[|DataPrefix|..] == payloads[0];
      assert IsDataLine(line);
      var lines := DeltaLines(payloads);
      assert lines == [line] + DeltaLines(payloads[1..]);
      FragmentsCons(line, DeltaLines(payloads[1..]), parse);
      ConcatAppend(LineFragments(line, parse), Fragments(DeltaLines(payloads[1..]), parse));
      WellFormedStream(payloads[1..], deltas[1..], parse);
      assert deltas == [deltas[0]] + deltas[1..];
      ConcatCons(deltas[0], deltas[1..]);
    }
  }
}
