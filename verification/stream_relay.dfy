/** The streaming half of the AI generation service: the `'data'` handler that
    reads `data: ` lines from each upstream chunk and forwards delta fragments,
    and the `'end'` handler that writes one final normalised frame. The
    upstream frames follow a simplified subset of the `text/event-stream`
    format of section 9.2 (Server-sent events) of the WHATWG HTML Living
    Standard. */
module StreamRelay {
  import opened Wrappers
  import opened Strings
  import opened AiService

  const DataPrefix := "data: "
  const DoneToken := "[DONE]"
  /** The only line that terminates a chunk. */
  const DoneLine := "data: [DONE]"

  /** One `data: …\n\n` event written to the client. */
  datatype Frame =
    | DoneMarker                // data: [DONE]
    | Delta(content: string)    // data: {"content": …}
    | Final(result: Generated)  // data: {"jsxCode": …, "cssCode": …, "done": true}
    | StreamError(error: string) // data: {"error": …}

  /** What one streaming call has done so far: the accumulated text, every
      frame the code has written in order, and how many frames had been
      written when `res.end()` was first called. */
  datatype RelayState = RelayState(fullContent: string, written: seq<Frame>, endedAt: Option<nat>) {
    predicate Ended() {
      endedAt.Some?
    }
  }

  /** The frames the client receives: those written before the end. */
  function Sent(st: RelayState): (r: seq<Frame>)
    ensures r <= st.written
  {
    if st.endedAt.Some? && st.endedAt.value <= |st.written| then st.written[..st.endedAt.value] else st.written
  }

  /** The frames the code writes after it has ended the response. */
  function AfterEnd(st: RelayState): (r: seq<Frame>)
    ensures Sent(st) + r == st.written
  {
    if st.endedAt.Some? && st.endedAt.value <= |st.written| then st.written[st.endedAt.value..] else []
  }

  /** `res.write(frame)`. */
  function Write(st: RelayState, f: Frame): (r: RelayState)
    ensures r.written == st.written + [f]
    ensures r.fullContent == st.fullContent && r.endedAt == st.endedAt
  {
    st.(written := st.written + [f])
  }

  /** `res.end()`: the first call fixes where the response ended. */
  function End(st: RelayState): (r: RelayState)
    ensures r.Ended() && r.written == st.written && r.fullContent == st.fullContent
    ensures st.Ended() ==> r == st
    ensures !st.Ended() ==> r.endedAt == Some(|st.written|)
    ensures !st.Ended() ==> AfterEnd(r) == [] && Sent(r) == st.written
  {
    if st.Ended() then st else st.(endedAt := Some(|st.written|))
  }

  /** The text of the delta frames among `frames`, concatenated. */
  function DeltaText(frames: seq<Frame>): string {
    if frames == [] then ""
    else (if frames[0].Delta? then frames[0].content else "") + DeltaText(frames[1..])
  }

  lemma {:induction false} DeltaTextAppend(a: seq<Frame>, b: seq<Frame>)
    ensures DeltaText(a + b) == DeltaText(a) + DeltaText(b)
    decreases |a|
  {
    if a != [] {
      DeltaTextAppend(a[1..], b);
      var head := if a[0].Delta? then a[0].content else "";
      assert a + b != [] && (a + b)[0] == a[0];
      assert (a + b)[1..] == a[1..] + b;
      calc {
        DeltaText(a + b);
        head + DeltaText(a[1..] + b);
        head + (DeltaText(a[1..]) + DeltaText(b));
        (head + DeltaText(a[1..])) + DeltaText(b);
      }
    } else {
      assert a + b == b;
    }
  }

  function Concat(fragments: seq<string>): string {
    if fragments == [] then "" else fragments[0] + Concat(fragments[1..])
  }

  function DeltaFrames(fragments: seq<string>): (r: seq<Frame>)
    ensures |r| == |fragments|
    ensures forall i :: 0 <= i < |r| ==> r[i] == Delta(fragments[i])
  {
    seq(|fragments|, i requires 0 <= i < |fragments| => Delta(fragments[i]))
  }

  lemma {:induction false} DeltaTextOfFragments(fragments: seq<string>)
    ensures DeltaText(DeltaFrames(fragments)) == Concat(fragments)
    decreases |fragments|
  {
    if fragments != [] {
      DeltaTextOfFragments(fragments[1..]);
      assert DeltaFrames(fragments)[1..] == DeltaFrames(fragments[1..]);
    }
  }

  /** The payload of a line that starts with `data: `. */
  function DataPayload(line: string): (r: Option<string>)
    ensures r.Some? <==> StartsWith(line, DataPrefix)
    ensures r.Some? ==> DataPrefix + r.value == line
  {
    if StartsWith(line, DataPrefix) then Some(line[|DataPrefix|..]) else None
  }

  /** Only the exact line `data: [DONE]` carries the terminator. */
  lemma DoneOnlyOnDoneLine(line: string)
    ensures DataPayload(line) == Some(DoneToken) <==> line == DoneLine
  {
    if line == DoneLine {
      assert StartsWith(line, DataPrefix);
      assert line[|DataPrefix|..] == DoneToken;
    }
  }

  /** The delta fragment a payload carries: `choices[0].delta.content` when
      the payload parses and that field is a non-empty string. */
  function DeltaFragment(payload: string, parse: Parser): (r: Option<string>)
    ensures r.Some? ==> r.value != ""
    ensures r.Some? ==> parse(payload).Some? && parse(payload).value.deltaContent == r
    ensures (parse(payload).Some? && parse(payload).value.deltaContent.Some?
             && parse(payload).value.deltaContent.value != "") ==> r == parse(payload).value.deltaContent
  {
    match parse(payload)
    case Some(p) => if p.deltaContent.Some? && p.deltaContent.value != "" then p.deltaContent else None
    case None => None
  }

  /** The fragments of `lines` up to the first terminator, in order. */
  function Fragments(lines: seq<string>, parse: Parser): (r: seq<string>)
    ensures forall i :: 0 <= i < |r| ==> r[i] != ""
    decreases |lines|
  {
    if lines == [] then []
    else if lines[0] == DoneLine then []
    else match DataPayload(lines[0])
      case None => Fragments(lines[1..], parse)
      case Some(payload) =>
        match DeltaFragment(payload, parse)
        case None => Fragments(lines[1..], parse)
        case Some(c) => [c] + Fragments(lines[1..], parse)
  }

  /** The `'data'` handler's loop over the lines of one chunk. */
  function LinesStep(st: RelayState, lines: seq<string>, parse: Parser): (r: RelayState)
    ensures st.written <= r.written
    ensures st.Ended() ==> r.endedAt == st.endedAt
    decreases |lines|
  {
    if lines == [] then st
    else match DataPayload(lines[0])
      case None => LinesStep(st, lines[1..], parse)
      case Some(payload) =>
        if payload == DoneToken then
          End(Write(st, DoneMarker))
        else match DeltaFragment(payload, parse)
          case None => LinesStep(st, lines[1..], parse)
          case Some(c) => LinesStep(Write(st.(fullContent := st.fullContent + c), Delta(c)), lines[1..], parse)
  }

  lemma DeltaFramesCons(w: seq<Frame>, c: string, rest: seq<string>, tail: seq<Frame>)
    ensures w + [Delta(c)] + DeltaFrames(rest) + tail == w + DeltaFrames([c] + rest) + tail
  {
    assert DeltaFrames([c] + rest) == [Delta(c)] + DeltaFrames(rest);
  }

  /** The frames the lines of one chunk write: one delta frame per
      fragment, in arrival order, then the terminator frame if a terminator
      line occurs. */
  lemma {:induction false} LinesStepFrames(st: RelayState, lines: seq<string>, parse: Parser)
    ensures LinesStep(st, lines, parse).written
         == st.written + DeltaFrames(Fragments(lines, parse)) + (if DoneLine in lines then [DoneMarker] else [])
    decreases |lines|
  {
    if lines != [] {
      DoneOnlyOnDoneLine(lines[0]);
      var r := LinesStep(st, lines, parse);
      var rest := Fragments(lines[1..], parse);
      var tail: seq<Frame> := if DoneLine in lines then [DoneMarker] else [];
      if lines[0] == DoneLine {
        assert Fragments(lines, parse) == [];
        assert r.written == st.written + [DoneMarker];
      } else {
        assert lines == [lines[0]] + lines[1..];
        assert tail == if DoneLine in lines[1..] then [DoneMarker] else [];
        var payload := DataPayload(lines[0]);
        if payload.None? || DeltaFragment(payload.value, parse).None? {
          LinesStepFrames(st, lines[1..], parse);
          assert Fragments(lines, parse) == rest;
        } else {
          var c := DeltaFragment(payload.value, parse).value;
          LinesStepFrames(Write(st.(fullContent := st.fullContent + c), Delta(c)), lines[1..], parse);
          assert Fragments(lines, parse) == [c] + rest;
          DeltaFramesCons(st.written, c, rest, tail);
        }
      }
    }
  }

  /** The accumulated text grows by exactly the fragments of the chunk. */
  lemma {:induction false} LinesStepContent(st: RelayState, lines: seq<string>, parse: Parser)
    ensures LinesStep(st, lines, parse).fullContent == st.fullContent + Concat(Fragments(lines, parse))
    decreases |lines|
  {
    if lines != [] {
      DoneOnlyOnDoneLine(lines[0]);
      match DataPayload(lines[0])
      case None =>
        LinesStepContent(st, lines[1..], parse);
      case Some(payload) =>
        if payload != DoneToken {
          match DeltaFragment(payload, parse)
          case None =>
            LinesStepContent(st, lines[1..], parse);
          case Some(c) =>
            LinesStepContent(Write(st.(fullContent := st.fullContent + c), Delta(c)), lines[1..], parse);
            assert Concat([c] + Fragments(lines[1..], parse)) == c + Concat(Fragments(lines[1..], parse));
        }
    }
  }

  /** The response ends exactly when a terminator line occurs, at the
      position just after the terminator frame; otherwise its end is as it
      was. */
  lemma {:induction false} LinesStepEnds(st: RelayState, lines: seq<string>, parse: Parser)
    ensures var r := LinesStep(st, lines, parse);
      && r.Ended() == (st.Ended() || DoneLine in lines)
      && (!st.Ended() && DoneLine in lines ==> r.endedAt == Some(|r.written|))
      && (st.Ended() || DoneLine !in lines ==> r.endedAt == st.endedAt)
    decreases |lines|
  {
    if lines != [] {
      DoneOnlyOnDoneLine(lines[0]);
      assert lines == [lines[0]] + lines[1..];
      match DataPayload(lines[0])
      case None =>
        LinesStepEnds(st, lines[1..], parse);
      case Some(payload) =>
        if payload != DoneToken {
          match DeltaFragment(payload, parse)
          case None =>
            LinesStepEnds(st, lines[1..], parse);
          case Some(c) =>
            LinesStepEnds(Write(st.(fullContent := st.fullContent + c), Delta(c)), lines[1..], parse);
        }
    }
  }

  /** All of what the lines of one chunk do, together. */
  lemma LinesStepEffect(st: RelayState, lines: seq<string>, parse: Parser)
    ensures var r := LinesStep(st, lines, parse);
      && r.written == st.written + DeltaFrames(Fragments(lines, parse)) + (if DoneLine in lines then [DoneMarker] else [])
      && r.fullContent == st.fullContent + Concat(Fragments(lines, parse))
      && r.Ended() == (st.Ended() || DoneLine in lines)
      && (!st.Ended() && DoneLine in lines ==> r.endedAt == Some(|r.written|))
      && (st.Ended() || DoneLine !in lines ==> r.endedAt == st.endedAt)
  {
    LinesStepFrames(st, lines, parse);
    LinesStepContent(st, lines, parse);
    LinesStepEnds(st, lines, parse);
  }

  /** One `'data'` event: the chunk is split on newlines with no buffering
      across chunks, and its lines are handled in order. */
  function ChunkStep(st: RelayState, chunk: string, parse: Parser): (r: RelayState)
    ensures var lines := SplitLines(chunk);
      && r.written == st.written + DeltaFrames(Fragments(lines, parse)) + (if DoneLine in lines then [DoneMarker] else [])
      && r.fullContent == st.fullContent + Concat(Fragments(lines, parse))
      && r.Ended() == (st.Ended() || DoneLine in lines)
  {
    LinesStepEffect(st, SplitLines(chunk), parse);
    LinesStep(st, SplitLines(chunk), parse)
  }

  /** The `'end'` handler as written: one final frame with the normalised
      accumulated text, then `res.end()`, whether or not the response has
      already ended. */
  function EndStep(st: RelayState, parse: Parser): (r: RelayState)
    ensures r.written == st.written + [Final(Normalize(st.fullContent, parse))]
    ensures r.Ended() && r.fullContent == st.fullContent
    ensures st.Ended() ==> r.endedAt == st.endedAt
    ensures !st.Ended() ==> r.endedAt == Some(|r.written|)
  {
    End(Write(st, Final(Normalize(st.fullContent, parse))))
  }

  /** A terminator ends the chunk: lines after it have no effect. */
  lemma {:induction false} DoneCutsChunk(st: RelayState, pre: seq<string>, post: seq<string>, parse: Parser)
    ensures LinesStep(st, pre + [DoneLine] + post, parse) == LinesStep(st, pre + [DoneLine], parse)
    decreases |pre|
  {
    var lines := pre + [DoneLine] + post;
    if pre == [] {
      DoneOnlyOnDoneLine(DoneLine);
      assert lines[0] == DoneLine && (pre + [DoneLine])[0] == DoneLine;
    } else {
      DoneCutsChunk(st, pre[1..], post, parse);
      assert lines[0] == pre[0] && (pre + [DoneLine])[0] == pre[0];
      assert lines[1..] == pre[1..] + [DoneLine] + post;
      assert (pre + [DoneLine])[1..] == pre[1..] + [DoneLine];
      match DataPayload(pre[0])
      case None =>
      case Some(payload) =>
        if payload != DoneToken {
          match DeltaFragment(payload, parse)
          case None =>
          case Some(c) =>
            DoneCutsChunk(Write(st.(fullContent := st.fullContent + c), Delta(c)), pre[1..], post, parse);
        }
    }
  }

  /** A line the handler skips (no `data: ` prefix, an unparsable payload, or
      one without a non-empty delta) writes nothing and leaves the
      accumulated text as it was. */
  lemma SkippedLine(st: RelayState, line: string, rest: seq<string>, parse: Parser)
    requires line != DoneLine
    requires DataPayload(line).None? || DeltaFragment(DataPayload(line).value, parse).None?
    ensures LinesStep(st, [line] + rest, parse) == LinesStep(st, rest, parse)
  {
    DoneOnlyOnDoneLine(line);
    assert ([line] + rest)[1..] == rest;
  }

  /** The accumulated text is exactly the text of the delta frames written. */
  predicate Accounted(st: RelayState) {
    st.fullContent == DeltaText(st.written)
  }

  lemma {:induction false} ChunkStepKeepsAccounted(st: RelayState, chunk: string, parse: Parser)
    requires Accounted(st)
    ensures Accounted(ChunkStep(st, chunk, parse))
  {
    var lines := SplitLines(chunk);
    var fs := Fragments(lines, parse);
    var tail: seq<Frame> := if DoneLine in lines then [DoneMarker] else [];
    LinesStepEffect(st, lines, parse);
    DeltaTextAppend(st.written + DeltaFrames(fs), tail);
    DeltaTextAppend(st.written, DeltaFrames(fs));
    DeltaTextOfFragments(fs);
    assert DeltaText(tail) == "" by {
      if tail != [] { assert tail[1..] == []; }
    }
  }

  lemma {:induction false} EndStepKeepsAccounted(st: RelayState, parse: Parser)
    requires Accounted(st)
    ensures Accounted(EndStep(st, parse))
  {
    var f := Final(Normalize(st.fullContent, parse));
    DeltaTextAppend(st.written, [f]);
    assert [f][1..] == [];
  }

  /** The state a streaming call starts in: nothing written if the upstream
      request was accepted; otherwise the single error frame and the end of
      the response. */
  function StartState(accepted: bool): (r: RelayState)
    ensures Accounted(r)
    ensures AfterEnd(r) == []
    ensures !accepted ==> Sent(r) == [StreamError(GenerateFailed)] && r.Ended()
    ensures accepted ==> r.written == [] && !r.Ended() && r.fullContent == ""
  {
    if accepted then RelayState("", [], None)
    else
      var r := RelayState("", [StreamError(GenerateFailed)], Some(1));
      assert DeltaText(r.written) == "" by {
        assert r.written[1..] == [];
      }
      r
  }

  /** A whole streaming call as written: every chunk's `'data'` event, then
      the `'end'` event. */
  function Run(st: RelayState, chunks: seq<string>, parse: Parser): (r: RelayState)
    ensures r.Ended() && st.written < r.written
    ensures r.written[|r.written| - 1] == Final(Normalize(r.fullContent, parse))
    decreases |chunks|
  {
    if chunks == [] then EndStep(st, parse) else Run(ChunkStep(st, chunks[0], parse), chunks[1..], parse)
  }

  /** Across a whole streaming call the accumulated text equals the text of
      every delta frame written, and the last frame written is the final
      frame carrying `Normalize` of that text: the same result the
      non-streaming path gives for it. */
  lemma {:induction false} RunForwardsEveryFragment(st: RelayState, chunks: seq<string>, parse: Parser)
    requires Accounted(st)
    ensures var r := Run(st, chunks, parse);
      && Accounted(r)
      && |r.written| > 0
      && r.written[|r.written| - 1] == Final(Normalize(r.fullContent, parse))
    decreases |chunks|
  {
    if chunks == [] {
      EndStepKeepsAccounted(st, parse);
    } else {
      var next := ChunkStep(st, chunks[0], parse);
      ChunkStepKeepsAccounted(st, chunks[0], parse);
      RunForwardsEveryFragment(next, chunks[1..], parse);
      assert Run(st, chunks, parse) == Run(next, chunks[1..], parse);
    }
  }

  /** No chunk of the stream holds a `data: [DONE]` line. */
  predicate NoTerminator(chunks: seq<string>)
    decreases |chunks|
  {
    chunks == [] || (DoneLine !in SplitLines(chunks[0]) && NoTerminator(chunks[1..]))
  }

  /** As written, a stream without a terminator ends only in the `'end'`
      handler, just after the final frame. */
  lemma {:induction false} RunNoDoneEndsLast(st: RelayState, chunks: seq<string>, parse: Parser)
    requires !st.Ended() && NoTerminator(chunks)
    ensures Run(st, chunks, parse).endedAt == Some(|Run(st, chunks, parse).written|)
    decreases |chunks|
  {
    if chunks != [] {
      var next := ChunkStep(st, chunks[0], parse);
      assert !next.Ended();
      RunNoDoneEndsLast(next, chunks[1..], parse);
    }
  }

  /** As written, a stream without `data: [DONE]` is delivered whole: nothing
      is written after the end, and the last frame the client receives is
      the final frame carrying `Normalize` of the accumulated text. */
  lemma RunNoDoneDelivers(st: RelayState, chunks: seq<string>, parse: Parser)
    requires !st.Ended() && NoTerminator(chunks)
    ensures var r := Run(st, chunks, parse);
      && AfterEnd(r) == [] && Sent(r) == r.written
      && Sent(r)[|Sent(r)| - 1] == Final(Normalize(r.fullContent, parse))
  {
    RunNoDoneEndsLast(st, chunks, parse);
    EndedAtLengthSendsAll(Run(st, chunks, parse));
  }

  /** A response ended just after its last frame has delivered every frame. */
  lemma EndedAtLengthSendsAll(st: RelayState)
    requires st.endedAt == Some(|st.written|)
    ensures AfterEnd(st) == [] && Sent(st) == st.written
  {
    assert st.written[..|st.written|] == st.written;
  }

  /** A chunk that is one delta line appends that delta and nothing else. */
  lemma OneDeltaChunk(st: RelayState, line: string, c: string, parse: Parser)
    requires '\n' !in line && line != DoneLine && StartsWith(line, DataPrefix)
    requires parse(line[|DataPrefix|..]).Some? && parse(line[|DataPrefix|..]).value.deltaContent == Some(c) && c != ""
    ensures ChunkStep(st, line, parse) == RelayState(st.fullContent + c, st.written + [Delta(c)], st.endedAt)
  {
    assert DeltaFragment(DataPayload(line).value, parse) == Some(c);
    SplitSingleLine(line);
    DoneOnlyOnDoneLine(line);
    assert [line][1..] == [];
    LinesStepEffect(st, [line], parse);
    assert Fragments([line], parse) == [c];
    assert Concat([c]) == c;
  }

  /** A chunk that is the terminator line writes the terminator and ends the
      response. */
  lemma DoneChunk(st: RelayState, parse: Parser)
    requires !st.Ended()
    ensures ChunkStep(st, DoneLine, parse) == RelayState(st.fullContent, st.written + [DoneMarker], Some(|st.written| + 1))
  {
    assert forall i :: 0 <= i < |DoneLine| ==> DoneLine[i] != '\n';
    SplitSingleLine(DoneLine);
    DoneOnlyOnDoneLine(DoneLine);
  }

  /** As written: the 'end' handler does not check whether the '[DONE]'
      branch already ended the response. A stream of two delta chunks and a
      terminator chunk (for instance `data: {"choices":[{"delta":{"content":"He"}}]}`,
      then the same with "llo", then `data: [DONE]`) delivers the two deltas
      and the terminator, and then the final normalised frame is written
      after the response has ended, so the client never receives it. */
  lemma DoneThenEndWritesAfterEnd(first: string, second: string, c1: string, c2: string, parse: Parser)
    requires '\n' !in first && first != DoneLine && StartsWith(first, DataPrefix)
    requires parse(first[|DataPrefix|..]).Some? && parse(first[|DataPrefix|..]).value.deltaContent == Some(c1) && c1 != ""
    requires '\n' !in second && second != DoneLine && StartsWith(second, DataPrefix)
    requires parse(second[|DataPrefix|..]).Some? && parse(second[|DataPrefix|..]).value.deltaContent == Some(c2) && c2 != ""
    ensures var r := Run(StartState(true), [first, second, DoneLine], parse);
      && Sent(r) == [Delta(c1), Delta(c2), DoneMarker]
      && AfterEnd(r) == [Final(Normalize(c1 + c2, parse))]
  {
    DoneOnlyOnDoneLine(first);
    DoneOnlyOnDoneLine(second);
    var s0 := StartState(true);
    OneDeltaChunk(s0, first, c1, parse);
    var s1 := ChunkStep(s0, first, parse);
    OneDeltaChunk(s1, second, c2, parse);
    var s2 := ChunkStep(s1, second, parse);
    assert s2 == RelayState(c1 + c2, [Delta(c1), Delta(c2)], None);
    DoneChunk(s2, parse);
    var s3 := ChunkStep(s2, DoneLine, parse);
    assert s3 == RelayState(c1 + c2, [Delta(c1), Delta(c2), DoneMarker], Some(3));
    RunThreeChunks(s0, first, second, DoneLine, parse);
  }

  /** A call of three chunks is three `'data'` events and the `'end'` event. */
  lemma RunThreeChunks(st: RelayState, a: string, b: string, c: string, parse: Parser)
    ensures Run(st, [a, b, c], parse)
         == EndStep(ChunkStep(ChunkStep(ChunkStep(st, a, parse), b, parse), c, parse), parse)
  {
    var s1 := ChunkStep(st, a, parse);
    var s2 := ChunkStep(s1, b, parse);
    assert [a, b, c][0] == a && [a, b, c][1..] == [b, c];
    assert Run(st, [a, b, c], parse) == Run(s1, [b, c], parse);
    assert [b, c][0] == b && [b, c][1..] == [c];
    assert Run(s1, [b, c], parse) == Run(s2, [c], parse);
    assert [c][0] == c && [c][1..] == [];
  }

  /** Corrected line loop: identical to `LinesStep` except that on the
      terminator it first writes the final normalised frame, so that the
      result reaches the client before the response ends. */
  function LinesStepChecked(st: RelayState, lines: seq<string>, parse: Parser): (r: RelayState)
    ensures st.written <= r.written
    ensures st.Ended() ==> r.endedAt == st.endedAt
    decreases |lines|
  {
    if lines == [] then st
    else match DataPayload(lines[0])
      case None => LinesStepChecked(st, lines[1..], parse)
      case Some(payload) =>
        if payload == DoneToken then
          End(Write(Write(st, Final(Normalize(st.fullContent, parse))), DoneMarker))
        else match DeltaFragment(payload, parse)
          case None => LinesStepChecked(st, lines[1..], parse)
          case Some(c) => LinesStepChecked(Write(st.(fullContent := st.fullContent + c), Delta(c)), lines[1..], parse)
  }

  /** On an open response the corrected loop does what the original does,
      except that a terminator is preceded by the final normalised frame. */
  lemma {:induction false} LinesStepCheckedAgrees(st: RelayState, lines: seq<string>, parse: Parser)
    requires !st.Ended()
    ensures var a, b := LinesStepChecked(st, lines, parse), LinesStep(st, lines, parse);
      && a.fullContent == b.fullContent
      && a.Ended() == b.Ended()
      && (!b.Ended() ==> a == b)
      && (b.Ended() ==> && |b.written| > 0
                        && b.written[|b.written| - 1] == DoneMarker
                        && a.written == b.written[..|b.written| - 1] + [Final(Normalize(b.fullContent, parse)), DoneMarker]
                        && a.endedAt == Some(|a.written|))
    decreases |lines|
  {
    if lines != [] {
      match DataPayload(lines[0])
      case None =>
        LinesStepCheckedAgrees(st, lines[1..], parse);
      case Some(payload) =>
        if payload == DoneToken {
          var b := LinesStep(st, lines, parse);
          assert b.written == st.written + [DoneMarker];
          assert b.written[..|b.written| - 1] == st.written;
        } else {
          match DeltaFragment(payload, parse)
          case None =>
            LinesStepCheckedAgrees(st, lines[1..], parse);
          case Some(c) =>
            LinesStepCheckedAgrees(Write(st.(fullContent := st.fullContent + c), Delta(c)), lines[1..], parse);
        }
    }
  }

  /** Corrected `'data'` handler: a chunk arriving after the response ended
      is dropped, and a terminator is preceded by the final frame. */
  function ChunkStepChecked(st: RelayState, chunk: string, parse: Parser): (r: RelayState)
    ensures st.Ended() ==> r == st
    ensures !st.Ended() ==> var b := ChunkStep(st, chunk, parse);
      && r.fullContent == b.fullContent
      && r.Ended() == b.Ended()
      && (!b.Ended() ==> r == b)
      && (b.Ended() ==> && |b.written| > 0
                        && b.written[|b.written| - 1] == DoneMarker
                        && r.written == b.written[..|b.written| - 1] + [Final(Normalize(b.fullContent, parse)), DoneMarker]
                        && AfterEnd(r) == [])
  {
    if st.Ended() then st
    else
      LinesStepCheckedAgrees(st, SplitLines(chunk), parse);
      LinesStepChecked(st, SplitLines(chunk), parse)
  }

  /** Corrected `'end'` handler: the final frame is written only while the
      response is open. */
  function EndStepChecked(st: RelayState, parse: Parser): (r: RelayState)
    ensures r.Ended()
    ensures !st.Ended() ==> Sent(r) == st.written + [Final(Normalize(st.fullContent, parse))] && AfterEnd(r) == []
    ensures st.Ended() ==> r == st
  {
    if st.Ended() then st else EndStep(st, parse)
  }

  /** A whole streaming call with the corrected handlers. */
  function RunChecked(st: RelayState, chunks: seq<string>, parse: Parser): (r: RelayState)
    ensures r.Ended()
    ensures st.Ended() ==> r == st
    decreases |chunks|
  {
    if chunks == [] then EndStepChecked(st, parse)
    else RunChecked(ChunkStepChecked(st, chunks[0], parse), chunks[1..], parse)
  }

  /** Corrected: nothing is ever written after the response has ended, and
      the response always ends. */
  lemma {:induction false} RunCheckedNeverWritesAfterEnd(st: RelayState, chunks: seq<string>, parse: Parser)
    requires AfterEnd(st) == []
    ensures AfterEnd(RunChecked(st, chunks, parse)) == []
    decreases |chunks|
  {
    if chunks != [] {
      var next := ChunkStepChecked(st, chunks[0], parse);
      assert AfterEnd(next) == [];
      RunCheckedNeverWritesAfterEnd(next, chunks[1..], parse);
    }
  }

  /** Corrected: on an accepted stream, whether it finishes with
      `data: [DONE]` or by the upstream end, the client receives every delta
      fragment and the final frame carrying `Normalize` of their text, and
      nothing is written after the end. */
  lemma {:induction false} RunCheckedDeliversFinal(st: RelayState, chunks: seq<string>, parse: Parser)
    requires !st.Ended() && Accounted(st)
    ensures var r := RunChecked(st, chunks, parse);
      && AfterEnd(r) == [] && Sent(r) == r.written
      && Accounted(r)
      && Final(Normalize(r.fullContent, parse)) in Sent(r)
    decreases |chunks|
  {
    if chunks == [] {
      EndStepKeepsAccounted(st, parse);
      var r := RunChecked(st, chunks, parse);
      assert Sent(r)[|st.written|] == Final(Normalize(r.fullContent, parse));
    } else {
      var b := ChunkStep(st, chunks[0], parse);
      var next := ChunkStepChecked(st, chunks[0], parse);
      ChunkStepKeepsAccounted(st, chunks[0], parse);
      if !b.Ended() {
        RunCheckedDeliversFinal(next, chunks[1..], parse);
      } else {
        var pre := b.written[..|b.written| - 1];
        var f := Final(Normalize(b.fullContent, parse));
        assert b.written == pre + [DoneMarker];
        DeltaTextAppend(pre, [DoneMarker]);
        DeltaTextAppend(pre, [f, DoneMarker]);
        assert [DoneMarker][1..] == [] && [f, DoneMarker][1..] == [DoneMarker];
        assert Accounted(next);
        assert next.written[|pre|] == f;
        assert Sent(next) == next.written;
      }
    }
  }

  /** The closure state of one `streamComponent` call (its `fullContent`
      and its response `res`), updated in place by the `'data'` and `'end'`
      handlers. */
  class Relay {
    const parse: Parser
    var fullContent: string
    var written: seq<Frame>
    var endedAt: Option<nat>

    function State(): RelayState
      reads this
    {
      RelayState(fullContent, written, endedAt)
    }

    /** Builds the messages and posts the streaming request; when the request
        fails, the catch block writes the error frame and ends the response. */
    constructor Start(system: string, prompt: string, history: seq<HistoryEntry>,
                      accepts: seq<Message> -> bool, parse: Parser)
      ensures this.parse == parse
      ensures State() == StartState(accepts(BuildMessages(system, history, prompt)))
    {
      this.parse := parse;
      var messages := BuildMessages(system, history, prompt);
      fullContent := "";
      if accepts(messages) {
        written := [];
        endedAt := None;
      } else {
        written := [StreamError(GenerateFailed)];
        endedAt := Some(1);
      }
    }

    /** `res.write(frame)`. */
    method Emit(f: Frame)
      modifies this
      ensures State() == Write(old(State()), f)
    {
      written := written + [f];
    }

    /** `res.end()`. */
    method EndResponse()
      modifies this
      ensures State() == End(old(State()))
    {
      if endedAt.None? {
        endedAt := Some(|written|);
      }
    }

    /** The `'data'` handler, as written. */
    method OnData(chunk: string)
      modifies this
      ensures State() == ChunkStep(old(State()), chunk, parse)
    {
      var lines := SplitLines(chunk);
      var i := 0;
      while i < |lines|
        invariant 0 <= i <= |lines|
        invariant LinesStep(State(), lines[i..], parse) == ChunkStep(old(State()), chunk, parse)
      {
        assert lines[i..][0] == lines[i] && lines[i..][1..] == lines[i + 1..];
        var payload := DataPayload(lines[i]);
        if payload.Some? {
          var data := payload.value;
          if data == DoneToken {
            Emit(DoneMarker);
            EndResponse();
            return;
          }
          var fragment := DeltaFragment(data, parse);
          if fragment.Some? {
            fullContent := fullContent + fragment.value;
            Emit(Delta(fragment.value));
          }
        }
        i := i + 1;
      }
    }

    /** The `'end'` handler, as written. */
    method OnEnd()
      modifies this
      ensures State() == EndStep(old(State()), parse)
    {
      var result := Normalize(fullContent, parse);
      Emit(Final(result));
      EndResponse();
    }

    /** The `'data'` handler, corrected: chunks after the end are ignored,
        and the terminator is preceded by the final normalised frame. */
    method OnDataChecked(chunk: string)
      modifies this
      ensures State() == ChunkStepChecked(old(State()), chunk, parse)
    {
      if endedAt.Some? {
        return;
      }
      var lines := SplitLines(chunk);
      var i := 0;
      while i < |lines|
        invariant 0 <= i <= |lines|
        invariant LinesStepChecked(State(), lines[i..], parse) == ChunkStepChecked(old(State()), chunk, parse)
      {
        assert lines[i..][0] == lines[i] && lines[i..][1..] == lines[i + 1..];
        var payload := DataPayload(lines[i]);
        if payload.Some? {
          var data := payload.value;
          if data == DoneToken {
            var result := Normalize(fullContent, parse);
            Emit(Final(result));
            Emit(DoneMarker);
            EndResponse();
            return;
          }
          var fragment := DeltaFragment(data, parse);
          if fragment.Some? {
            fullContent := fullContent + fragment.value;
            Emit(Delta(fragment.value));
          }
        }
        i := i + 1;
      }
    }

    /** The `'end'` handler, corrected to write only while the response is
        open. */
    method OnEndChecked()
      modifies this
      ensures State() == EndStepChecked(old(State()), parse)
    {
      if endedAt.None? {
        OnEnd();
      }
    }
  }
}
