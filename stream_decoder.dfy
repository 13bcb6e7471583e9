/** The line decoder that both AI generators run over the streamed body of
    the ai-coach function: each chunk is split on "\n" on its own (nothing is
    carried over to the next chunk), every `data: ` line other than
    `data: [DONE]` is parsed as JSON, and a non-empty
    `choices[0].delta.content` is appended to the accumulated text, which is
    published after each append.

    `JSON.parse` followed by the optional chain `choices?.[0]?.delta?.content`
    is the oracle `delta`: None when parsing throws or the path is missing,
    Some(c) for the text `+=` appends, and Some("") for a falsy content. A
    truthy content that appends "" (an empty array) is indistinguishable
    here from a falsy one. */
module StreamDecoder {
  import opened Common

  const DataPrefix: string := "data: "
  const DoneLine: string := "data: [DONE]"

  /** `s.split("\n")`: never empty, and "" splits into [""]. */
  function SplitLines(s: string): (lines: seq<string>)
    ensures |lines| >= 1
    decreases |s|
  {
    if s == [] then [""]
    else
      var rest := SplitLines(s[1..]);
      if s[0] == '\n' then [""] + rest
      else [[s[0]] + rest[0]] + rest[1..]
  }

  /** `lines.join("\n")` */
  function JoinLines(lines: seq<string>): string
    decreases |lines|
  {
    if |lines| == 0 then ""
    else if |lines| == 1 then lines[0]
    else lines[0] + "\n" + JoinLines(lines[1..])
  }

  /** `line.startsWith("data: ") && line !== "data: [DONE]"`: the line
      carries the `data: ` prefix and its payload is anything but the
      `[DONE]` sentinel (an empty payload included). */
  predicate IsDataLine(line: string)
    ensures IsDataLine(line) <==>
              |DataPrefix| <= |line| && line[..|DataPrefix|] == DataPrefix
              && line[|DataPrefix|..] != "[DONE]"
  {
    assert DoneLine == DataPrefix + "[DONE]";
    assert StartsWith(line, DataPrefix) ==> line == line[..|DataPrefix|] + line[|DataPrefix|..];
    StartsWith(line, DataPrefix) && line != DoneLine
  }

  /** What one line adds to the accumulated text. */
  function LineContent(line: string, delta: string -> Option<string>): (c: Option<string>)
    ensures c.Some? ==> c.value != "" && IsDataLine(line) && delta(line[|DataPrefix|..]) == c
  {
    if IsDataLine(line) then
      var parsed := delta(line[|DataPrefix|..]);
      if parsed.Some? && parsed.value != "" then parsed else None
    else None
  }

  /** The lines of all chunks, each chunk split on its own. */
  function StreamLines(chunks: seq<string>): seq<string>
    decreases |chunks|
  {
    if chunks == [] then []
    else StreamLines(chunks[..|chunks| - 1]) + SplitLines(chunks[|chunks| - 1])
  }

  /** The non-empty contents of the lines, in order. */
  function Contents(lines: seq<string>, delta: string -> Option<string>): (cs: seq<string>)
    ensures |cs| <= |lines|
    ensures forall i :: 0 <= i < |cs| ==> cs[i] != ""
    decreases |lines|
  {
    if lines == [] then []
    else
      var last := LineContent(lines[|lines| - 1], delta);
      Contents(lines[..|lines| - 1], delta) + (if last.Some? then [last.value] else [])
  }

  function Concat(ss: seq<string>): string
    decreases |ss|
  {
    if ss == [] then "" else Concat(ss[..|ss| - 1]) + ss[|ss| - 1]
  }

  /** The successive values of an accumulator that starts at `base` and
      has `cs` appended one at a time. */
  function Snapshots(base: string, cs: seq<string>): (snaps: seq<string>)
    ensures |snaps| == |cs|
    decreases |cs|
  {
    if cs == [] then [] else Snapshots(base, cs[..|cs| - 1]) + [base + Concat(cs)]
  }

  lemma ContentsSnoc(lines: seq<string>, line: string, delta: string -> Option<string>)
    ensures LineContent(line, delta).None? ==> Contents(lines + [line], delta) == Contents(lines, delta)
    ensures LineContent(line, delta).Some? ==>
              Contents(lines + [line], delta) == Contents(lines, delta) + [LineContent(line, delta).value]
  {
    assert (lines + [line])[..|lines|] == lines;
  }

  lemma SnapshotsSnoc(base: string, cs: seq<string>, c: string)
    ensures Concat(cs + [c]) == Concat(cs) + c
    ensures Snapshots(base, cs + [c]) == Snapshots(base, cs) + [base + Concat(cs) + c]
  {
    assert (cs + [c])[..|cs|] == cs;
    assert base + (Concat(cs) + c) == base + Concat(cs) + c;
  }

  lemma {:induction false} ContentsAppend(a: seq<string>, b: seq<string>, delta: string -> Option<string>)
    ensures Contents(a + b, delta) == Contents(a, delta) + Contents(b, delta)
    decreases |b|
  {
    if b == [] {
      assert a + b == a;
    } else {
      var b' := b[..|b| - 1];
      assert a + b == (a + b') + [b[|b| - 1]];
      assert b == b' + [b[|b| - 1]];
      ContentsAppend(a, b', delta);
      ContentsSnoc(a + b', b[|b| - 1], delta);
      ContentsSnoc(b', b[|b| - 1], delta);
    }
  }

  lemma {:induction false} ConcatAppend(a: seq<string>, b: seq<string>)
    ensures Concat(a + b) == Concat(a) + Concat(b)
    decreases |b|
  {
    if b == [] {
      assert a + b == a;
    } else {
      var b' := b[..|b| - 1];
      assert a + b == (a + b') + [b[|b| - 1]];
      assert b == b' + [b[|b| - 1]];
      ConcatAppend(a, b');
      SnapshotsSnoc("", a + b', b[|b| - 1]);
      SnapshotsSnoc("", b', b[|b| - 1]);
    }
  }

  /** Publishing `a` and then `b` is publishing `b` from where `a` left off. */
  lemma {:induction false} SnapshotsAppend(a: seq<string>, b: seq<string>)
    ensures Snapshots("", a + b) == Snapshots("", a) + Snapshots(Concat(a), b)
    decreases |b|
  {
    if b == [] {
      assert a + b == a;
    } else {
      var b' := b[..|b| - 1];
      var c := b[|b| - 1];
      assert a + b == (a + b') + [c];
      assert b == b' + [c];
      SnapshotsAppend(a, b');
      SnapshotsSnoc("", a + b', c);
      SnapshotsSnoc(Concat(a), b', c);
      ConcatAppend(a, b');
      assert "" + Concat(a + b') + c == Concat(a) + Concat(b') + c;
    }
  }

  lemma StreamLinesSnoc(chunks: seq<string>, k: nat)
    requires k < |chunks|
    ensures StreamLines(chunks[..k + 1]) == StreamLines(chunks[..k]) + SplitLines(chunks[k])
  {
    assert chunks[..k + 1][..k] == chunks[..k];
  }

  /** The final text of a stream, built chunk by chunk as the reader loop
      does: each chunk adds the contents of its own lines. It is the
      contents of all the stream's lines concatenated in order. */
  function StreamText(chunks: seq<string>, delta: string -> Option<string>): (text: string)
    ensures text == Concat(Contents(StreamLines(chunks), delta))
    decreases |chunks|
  {
    if chunks == [] then ""
    else
      var init, last := chunks[..|chunks| - 1], chunks[|chunks| - 1];
      ContentsAppend(StreamLines(init), SplitLines(last), delta);
      ConcatAppend(Contents(StreamLines(init), delta), Contents(SplitLines(last), delta));
      StreamText(init, delta) + Concat(Contents(SplitLines(last), delta))
  }

  /** The `for (const line of lines)` loop over the lines of one chunk:
      appends their contents to `fullText` and publishes each new value. */
  method DecodeLines(lines: seq<string>, delta: string -> Option<string>, fullText0: string)
    returns (fullText: string, updates: seq<string>)
    ensures fullText == fullText0 + Concat(Contents(lines, delta))
    ensures updates == Snapshots(fullText0, Contents(lines, delta))
  {
    fullText, updates := fullText0, [];
    var j := 0;
    while j < |lines|
      invariant 0 <= j <= |lines|
      invariant fullText == fullText0 + Concat(Contents(lines[..j], delta))
      invariant updates == Snapshots(fullText0, Contents(lines[..j], delta))
    {
      var line := lines[j];
      assert lines[..j + 1] == lines[..j] + [line];
      ContentsSnoc(lines[..j], line, delta);
      if IsDataLine(line) {
        var parsed := delta(line[|DataPrefix|..]);
        if parsed.Some? && parsed.value != "" {
          SnapshotsSnoc(fullText0, Contents(lines[..j], delta), parsed.value);
          fullText := fullText + parsed.value;
          updates := updates + [fullText];
        }
      }
      j := j + 1;
    }
    assert lines[..|lines|] == lines;
  }

  /** The `while (reader)` loop of generateWorkout / generateMeal: returns the
      final `fullText` and every value passed to the result setter. */
  method DecodeStream(chunks: seq<string>, delta: string -> Option<string>)
    returns (fullText: string, updates: seq<string>)
    ensures fullText == StreamText(chunks, delta)
    ensures updates == Snapshots("", Contents(StreamLines(chunks), delta))
  {
    fullText, updates := "", [];
    var k := 0;
    while k < |chunks|
      invariant 0 <= k <= |chunks|
      invariant fullText == Concat(Contents(StreamLines(chunks[..k]), delta))
      invariant updates == Snapshots("", Contents(StreamLines(chunks[..k]), delta))
    {
      var more: seq<string>;
      ghost var before := Contents(StreamLines(chunks[..k]), delta);
      ghost var added := Contents(SplitLines(chunks[k]), delta);
      var lines := SplitLines(chunks[k]);
      fullText, more := DecodeLines(lines, delta, fullText);
      updates := updates + more;
      StreamLinesSnoc(chunks, k);
      ContentsAppend(StreamLines(chunks[..k]), SplitLines(chunks[k]), delta);
      ConcatAppend(before, added);
      SnapshotsAppend(before, added);
      k := k + 1;
    }
    assert chunks[..|chunks|] == chunks;
  }
}

/** What the decoder promises, stated over the functions of StreamDecoder. */
module StreamDecoderProperties {
  import opened Common
  import opened StreamDecoder

  /** Text is only ever appended: every published value starts with the
      accumulator's starting value and strictly extends each earlier one, and
      the last one is the final text. */
  lemma {:induction false} SnapshotsOnlyGrow(base: string, cs: seq<string>)
    requires forall i :: 0 <= i < |cs| ==> cs[i] != ""
    ensures forall i :: 0 <= i < |cs| ==> base <= Snapshots(base, cs)[i]
    ensures forall i, j :: 0 <= i < j < |cs| ==> Snapshots(base, cs)[i] < Snapshots(base, cs)[j]
    ensures |cs| > 0 ==> Snapshots(base, cs)[|cs| - 1] == base + Concat(cs)
    decreases |cs|
  {
    if cs != [] {
      var init := cs[..|cs| - 1];
      var c := cs[|cs| - 1];
      assert cs == init + [c];
      SnapshotsOnlyGrow(base, init);
      SnapshotsSnoc(base, init, c);
      var old_ := Snapshots(base, init);
      var snaps := Snapshots(base, cs);
      var top := base + Concat(init) + c;
      assert snaps == old_ + [top];
      assert base + Concat(init) < top by {
        assert top == (base + Concat(init)) + c;
      }
      forall i | 0 <= i < |cs| ensures base <= snaps[i] {
        if i < |init| { assert snaps[i] == old_[i]; }
      }
      forall i, j | 0 <= i < j < |cs|
        ensures snaps[i] < snaps[j]
      {
        assert snaps[i] == old_[i];
        if j < |init| {
          assert snaps[j] == old_[j];
        } else if i < |init| - 1 {
          assert old_[i] < old_[|init| - 1];
          PrefixTransitive(old_[i], old_[|init| - 1], top);
        }
      }
    }
  }

  lemma PrefixTransitive(a: string, b: string, c: string)
    requires a < b && b < c
    ensures a < c
  {
    assert c[..|a|] == b[..|a|];
  }

  /** `s.split("\n")` when `s` has no newline. */
  lemma {:induction false} SplitWithoutNewline(s: string)
    requires '\n' !in s
    ensures SplitLines(s) == [s]
    decreases |s|
  {
    if s != [] {
      assert '\n' !in s[1..] by {
        forall i | 0 <= i < |s[1..]| ensures s[1..][i] != '\n' { assert s[1..][i] == s[i + 1]; }
      }
      SplitWithoutNewline(s[1..]);
      assert [s[0]] + s[1..] == s;
    }
  }

  /** Round trip: joining the lines of `s` with "\n" gives `s` back, and no
      line holds a newline. */
  lemma {:induction false} JoinSplit(s: string)
    ensures JoinLines(SplitLines(s)) == s
    ensures forall i :: 0 <= i < |SplitLines(s)| ==> '\n' !in SplitLines(s)[i]
    decreases |s|
  {
    LinesHaveNoNewline(s);
    if s != [] {
      JoinSplit(s[1..]);
      var rest := SplitLines(s[1..]);
      if s[0] == '\n' {
        assert SplitLines(s) == [""] + rest;
        assert ([""] + rest)[1..] == rest;
        assert s == "\n" + s[1..];
      } else {
        var lines := SplitLines(s);
        assert lines == [[s[0]] + rest[0]] + rest[1..];
        assert s == [s[0]] + s[1..];
        if |rest| > 1 {
          assert lines[1..] == rest[1..];
          assert JoinLines(rest) == rest[0] + "\n" + JoinLines(rest[1..]);
        }
      }
    }
  }

  /** No line of `s.split("\n")` holds a newline. */
  lemma {:induction false} LinesHaveNoNewline(s: string)
    ensures forall i :: 0 <= i < |SplitLines(s)| ==> '\n' !in SplitLines(s)[i]
    decreases |s|
  {
    if s != [] && s[0] != '\n' {
      LinesHaveNoNewline(s[1..]);
      var rest := SplitLines(s[1..]);
      var lines := SplitLines(s);
      forall i | 0 <= i < |lines| ensures '\n' !in lines[i] {
        if i > 0 {
          assert lines[i] == rest[i];
        } else {
          assert '\n' !in rest[0];
          assert lines[0] == [s[0]] + rest[0];
        }
      }
    } else if s != [] {
      LinesHaveNoNewline(s[1..]);
      assert SplitLines(s) == [""] + SplitLines(s[1..]);
    }
  }

  /** A newline in the middle splits into the lines of each side. */
  lemma {:induction false} SplitAtNewline(a: string, b: string)
    ensures SplitLines(a + "\n" + b) == SplitLines(a) + SplitLines(b)
    decreases |a|
  {
    if a == [] {
      assert a + "\n" + b == "\n" + b;
      assert ("\n" + b)[1..] == b;
    } else {
      assert (a + "\n" + b)[0] == a[0];
      assert (a + "\n" + b)[1..] == a[1..] + "\n" + b;
      SplitAtNewline(a[1..], b);
    }
  }

  /** Round trip: splitting lines that were joined with "\n" gives them back. */
  lemma {:induction false} SplitJoin(lines: seq<string>)
    requires |lines| >= 1
    requires forall i :: 0 <= i < |lines| ==> '\n' !in lines[i]
    ensures SplitLines(JoinLines(lines)) == lines
    decreases |lines|
  {
    if |lines| == 1 {
      SplitWithoutNewline(lines[0]);
    } else {
      SplitWithoutNewline(lines[0]);
      SplitJoin(lines[1..]);
      SplitAtNewline(lines[0], JoinLines(lines[1..]));
      assert [lines[0]] + lines[1..] == lines;
    }
  }

  /** A line that contributes nothing (not a data line, `data: [DONE]`, a
      payload that does not parse or has no content) leaves the
      contributions of the lines around it as they were: it neither stops
      the loop nor disturbs its neighbours in the same chunk. */
  lemma SilentLineIsIsolated(before: seq<string>, line: string, after: seq<string>,
                             delta: string -> Option<string>)
    requires !IsDataLine(line) || delta(line[|DataPrefix|..]).None? || delta(line[|DataPrefix|..]) == Some("")
    ensures Contents(before + [line] + after, delta) == Contents(before, delta) + Contents(after, delta)
  {
    ContentsAppend(before + [line], after, delta);
    ContentsSnoc(before, line, delta);
  }

  /** `data: [DONE]` is skipped and the data lines after it are still decoded. */
  lemma DoneDoesNotStop(before: seq<string>, after: seq<string>, delta: string -> Option<string>)
    ensures Contents(before + [DoneLine] + after, delta) == Contents(before, delta) + Contents(after, delta)
  {
    SilentLineIsIsolated(before, DoneLine, after, delta);
  }

  /** Text that ends on a newline and the text after it split apart. */
  lemma AppendAfterNewline(q: string, b: string, delta: string -> Option<string>)
    requires |q| > 0 && q[|q| - 1] == '\n'
    ensures Contents(SplitLines(q + b), delta) == Contents(SplitLines(q), delta) + Contents(SplitLines(b), delta)
  {
    var lines := SplitLines(q[..|q| - 1]);
    SplitAfterNewline(q, b);
    ContentsAppend(lines, SplitLines(b), delta);
    assert LineContent("", delta).None?;
    ContentsSnoc(lines, "", delta);
  }

  /** The lines of `p + "\n" + b` and of `p + "\n"`. */
  lemma SplitAfterNewline(q: string, b: string)
    requires |q| > 0 && q[|q| - 1] == '\n'
    ensures SplitLines(q + b) == SplitLines(q[..|q| - 1]) + SplitLines(b)
    ensures SplitLines(q) == SplitLines(q[..|q| - 1]) + [""]
  {
    var p := q[..|q| - 1];
    assert q == p + "\n" + "";
    assert q + b == p + "\n" + b;
    SplitAtNewline(p, b);
    SplitAtNewline(p, "");
  }

  lemma ConcatEndsWithNewline(chunks: seq<string>)
    requires chunks != []
    requires forall i :: 0 <= i < |chunks| ==> |chunks[i]| > 0 && chunks[i][|chunks[i]| - 1] == '\n'
    ensures |Concat(chunks)| > 0 && Concat(chunks)[|Concat(chunks)| - 1] == '\n'
  {
    var last := chunks[|chunks| - 1];
    assert Concat(chunks) == Concat(chunks[..|chunks| - 1]) + last;
  }

  /** When every chunk ends on a newline, decoding the chunks one by one gives
      exactly the contents of the whole stream decoded as a single chunk. */
  lemma {:induction false} NewlineAlignedChunking(chunks: seq<string>, delta: string -> Option<string>)
    requires forall i :: 0 <= i < |chunks| ==> |chunks[i]| > 0 && chunks[i][|chunks[i]| - 1] == '\n'
    ensures Contents(StreamLines(chunks), delta) == Contents(SplitLines(Concat(chunks)), delta)
    ensures StreamText(chunks, delta) == Concat(Contents(SplitLines(Concat(chunks)), delta))
    decreases |chunks|
  {
    if chunks != [] {
      var init := chunks[..|chunks| - 1];
      var last := chunks[|chunks| - 1];
      NewlineAlignedChunking(init, delta);
      assert StreamLines(chunks) == StreamLines(init) + SplitLines(last);
      ContentsAppend(StreamLines(init), SplitLines(last), delta);
      assert Concat(chunks) == Concat(init) + last;
      if init != [] {
        ConcatEndsWithNewline(init);
        AppendAfterNewline(Concat(init), last, delta);
      } else {
        assert Concat(init) == "" && StreamLines(init) == [];
        assert Concat(chunks) == last;
      }
    }
  }

  /** No buffering across chunks: a data line whose payload is cut in two by a
      chunk boundary contributes nothing, although the same bytes in one chunk
      would have contributed the parsed content. */
  lemma SplitPayloadIsLost(p1: string, p2: string, delta: string -> Option<string>)
    requires '\n' !in p1 && '\n' !in p2
    requires delta(p1).None? && !StartsWith(p2, DataPrefix)
    requires Truthy(delta(p1 + p2)) && DataPrefix + p1 + p2 != DoneLine
    ensures StreamText([DataPrefix + p1, p2], delta) == ""
    ensures StreamText([DataPrefix + p1 + p2], delta) == delta(p1 + p2).value
  {
    var line1 := DataPrefix + p1;
    NoNewlineInDataLine(p1);
    NoNewlineInDataLine(p1 + p2);
    assert DataPrefix + (p1 + p2) == DataPrefix + p1 + p2;
    SplitWithoutNewline(line1);
    SplitWithoutNewline(p2);
    SplitWithoutNewline(DataPrefix + p1 + p2);
    SplitLineIsSilent(p1, p2, delta);
    WholeLineDecodes(p1 + p2, delta);
  }

  lemma NoNewlineInDataLine(p: string)
    requires '\n' !in p
    ensures '\n' !in DataPrefix + p
  {
    var line := DataPrefix + p;
    forall i | 0 <= i < |line| ensures line[i] != '\n' {
      if i >= |DataPrefix| { assert line[i] == p[i - |DataPrefix|]; }
    }
  }

  lemma SplitLineIsSilent(p1: string, p2: string, delta: string -> Option<string>)
    requires SplitLines(DataPrefix + p1) == [DataPrefix + p1] && SplitLines(p2) == [p2]
    requires delta(p1).None? && !StartsWith(p2, DataPrefix)
    ensures StreamText([DataPrefix + p1, p2], delta) == ""
  {
    var line1 := DataPrefix + p1;
    var none: seq<string> := [];
    assert line1[|DataPrefix|..] == p1;
    assert [line1, p2][..1] == [line1];
    assert [line1][..0] == none;
    assert StreamLines([line1]) == StreamLines(none) + SplitLines(line1) == [line1];
    assert StreamLines([line1, p2]) == StreamLines([line1]) + SplitLines(p2) == [line1, p2];
    ContentsSnoc(none, line1, delta);
    assert none + [line1] == [line1];
    ContentsSnoc([line1], p2, delta);
    assert [line1] + [p2] == [line1, p2];
  }

  lemma WholeLineDecodes(p: string, delta: string -> Option<string>)
    requires SplitLines(DataPrefix + p) == [DataPrefix + p]
    requires Truthy(delta(p)) && DataPrefix + p != DoneLine
    ensures StreamText([DataPrefix + p], delta) == delta(p).value
  {
    var line := DataPrefix + p;
    var none: seq<string> := [];
    assert line[|DataPrefix|..] == p;
    assert line[..|DataPrefix|] == DataPrefix;
    assert [line][..0] == none;
    assert StreamLines([line]) == [line];
    ContentsSnoc(none, line, delta);
    assert none + [line] == [line];
    assert Contents([line], delta) == [delta(p).value];
    assert Concat([delta(p).value]) == Concat([delta(p).value][..0]) + delta(p).value;
  }
}
