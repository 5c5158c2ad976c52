/** The newer revision of the library (go-i3barjson.go): the block wire
    shape, the streaming array encoder that opens an infinite JSON array and
    never closes it, `Init`, which writes the header line, and the write loop
    that feeds status lines to the encoder in order. The goroutine and its
    channels become a plain loop over a finite input sequence. */
module I3barJson {
  import opened Wrappers
  import opened Json
  import opened Stream
  import opened I3barProtocol

  // ---------------------------------------------------------------------------
  // Block and StatusLine

  /** One block; `minWidth` is a string in this revision. */
  datatype Block = Block(
    fullText: string, shortText: string, color: string, minWidth: string, align: string,
    name: string, instance: string, urgent: bool, separator: bool,
    separatorBlockWidth: int, markup: string)

  /** A status line holds block pointers; `None` is a nil pointer. */
  type StatusLine = seq<Option<Block>>

  function BlockTags(b: Block): seq<Tag>
  {
    [ Tag("full_text", Str(b.fullText), false),
      Tag("short_text", Str(b.shortText), true),
      Tag("color", Str(b.color), true),
      Tag("min_width", Str(b.minWidth), true),
      Tag("align", Str(b.align), true),
      Tag("name", Str(b.name), true),
      Tag("instance", Str(b.instance), true),
      Tag("urgent", Bool(b.urgent), true),
      Tag("separator", Bool(b.separator), false),
      Tag("separator_block_width", Int(b.separatorBlockWidth), true),
      Tag("markup", Str(b.markup), true) ]
  }

  function BlockFields(b: Block): seq<Pair>
  {
    Select(BlockTags(b))
  }

  /** The optional string member `k`: present exactly when `s` is non-empty. */
  function OptStr(s: string): Option<Scalar>
  {
    if s == "" then None else Some(Str(s))
  }

  /** `full_text` and `separator` are always present; every other key appears
      only when its field is non-empty, non-zero or true. */
  lemma BlockWireShape(b: Block)
    ensures var r := BlockFields(b);
      && Lookup(r, "full_text") == Some(Str(b.fullText))
      && Lookup(r, "separator") == Some(Bool(b.separator))
      && Lookup(r, "short_text") == OptStr(b.shortText)
      && Lookup(r, "color") == OptStr(b.color)
      && Lookup(r, "min_width") == OptStr(b.minWidth)
      && Lookup(r, "align") == OptStr(b.align)
      && Lookup(r, "name") == OptStr(b.name)
      && Lookup(r, "instance") == OptStr(b.instance)
      && Lookup(r, "urgent") == (if b.urgent then Some(Bool(true)) else None)
      && Lookup(r, "separator_block_width") ==
           (if b.separatorBlockWidth == 0 then None else Some(Int(b.separatorBlockWidth)))
      && Lookup(r, "markup") == OptStr(b.markup)
  {
    BlockRequiredMembers(b);
    BlockStyleMembers(b);
    BlockNameMembers(b);
    BlockFlagMembers(b);
  }

  lemma BlockRequiredMembers(b: Block)
    ensures var r := BlockFields(b);
      && Lookup(r, "full_text") == Some(Str(b.fullText))
      && Lookup(r, "separator") == Some(Bool(b.separator))
  {
    BlockKeysDeclared(b);
    BlockMemberAt(BlockTags(b), 0);
    BlockMemberAt(BlockTags(b), 8);
  }

  lemma BlockStyleMembers(b: Block)
    ensures var r := BlockFields(b);
      && Lookup(r, "short_text") == OptStr(b.shortText)
      && Lookup(r, "color") == OptStr(b.color)
      && Lookup(r, "min_width") == OptStr(b.minWidth)
      && Lookup(r, "align") == OptStr(b.align)
  {
    BlockKeysDeclared(b);
    BlockMemberAt(BlockTags(b), 1);
    BlockMemberAt(BlockTags(b), 2);
    BlockMemberAt(BlockTags(b), 3);
    BlockMemberAt(BlockTags(b), 4);
  }

  lemma BlockNameMembers(b: Block)
    ensures var r := BlockFields(b);
      && Lookup(r, "name") == OptStr(b.name)
      && Lookup(r, "instance") == OptStr(b.instance)
      && Lookup(r, "markup") == OptStr(b.markup)
  {
    BlockKeysDeclared(b);
    BlockMemberAt(BlockTags(b), 5);
    BlockMemberAt(BlockTags(b), 6);
    BlockMemberAt(BlockTags(b), 10);
  }

  lemma BlockFlagMembers(b: Block)
    ensures var r := BlockFields(b);
      && Lookup(r, "urgent") == (if b.urgent then Some(Bool(true)) else None)
      && Lookup(r, "separator_block_width") ==
           (if b.separatorBlockWidth == 0 then None else Some(Int(b.separatorBlockWidth)))
  {
    BlockKeysDeclared(b);
    BlockMemberAt(BlockTags(b), 7);
    BlockMemberAt(BlockTags(b), 9);
  }

  /** The emitted keys appear in declaration order. */
  lemma BlockKeyOrderKept(b: Block)
    ensures IsSubsequence(Keys(BlockFields(b)), BlockKeyOrder)
  {
    BlockKeysDeclared(b);
    SelectKeepsOrder(BlockTags(b));
  }

  lemma BlockKeysDeclared(b: Block)
    ensures TagKeys(BlockTags(b)) == BlockKeyOrder
  {
  }

  function DecodeBlock(pairs: seq<Pair>): Block
  {
    Block(StrMember(pairs, "full_text"), StrMember(pairs, "short_text"), StrMember(pairs, "color"),
          StrMember(pairs, "min_width"), StrMember(pairs, "align"), StrMember(pairs, "name"),
          StrMember(pairs, "instance"), BoolMember(pairs, "urgent"), BoolMember(pairs, "separator"),
          IntMember(pairs, "separator_block_width"), StrMember(pairs, "markup"))
  }

  lemma BlockRoundTrip(b: Block)
    ensures DecodeBlock(BlockFields(b)) == b
  {
    BlockWireShape(b);
  }

  function ElementJson(e: Option<Block>): string
  {
    match e
    case None => "null"
    case Some(b) => RenderObject(BlockFields(b))
  }

  /** json.Marshal of a status line: an array of its elements, in order, on one line. */
  function LineJson(line: StatusLine): string
  {
    RenderArray(Each(ElementJson, line))
  }

  /** A status line is written on one line, whatever its texts hold, so the
      newline json.Encoder adds is the only one each value brings. */
  lemma LineIsOneLine(line: StatusLine)
    ensures OneLine(LineJson(line))
  {
    var items := Each(ElementJson, line);
    forall i | 0 <= i < |items|
      ensures OneLine(items[i])
    {
      if line[i].Some? {
        ObjectOneLine(BlockFields(line[i].value));
      }
    }
    ArrayOneLine(items);
  }

  // ---------------------------------------------------------------------------
  // The streaming array encoder

  /** What `Encode` writes before the value. */
  function Delimiter(count: int): string
  {
    if count == 0 then "[" else ","
  }

  /** The encoder's `count`, its inner json.Encoder's remembered error, and the writer. */
  datatype ArrayState = ArrayState(count: int, sticky: Option<Error>, sink: Sink)

  datatype ArrayStepResult = ArrayStepResult(state: ArrayState, err: Option<Error>)

  /** One `jsonArrayEncoder.Encode` call on a value whose encoding is `text`. */
  function ArrayStep(st: ArrayState, text: string): ArrayStepResult
  {
    var count := if st.count == 0 then st.count + 1 else st.count;
    var d := Put(st.sink, Delimiter(st.count));
    if d.err.Some? then ArrayStepResult(ArrayState(count, st.sticky, d.sink), d.err)
    else
      var e := EncodeStep(st.sticky, d.sink, text);
      ArrayStepResult(ArrayState(count, e.sticky, e.sink), e.err)
  }

  /** What one call does. `count` becomes 1 whatever happens. When the
      delimiter write fails, the call returns that error and writes nothing
      more; the value is not attempted and no error is remembered. When the
      encoder already remembers an error, only the delimiter is written and that
      error is returned. When both writes succeed, the delimiter and the value
      are appended. When only the value write fails, its error is returned and
      remembered. */
  lemma StepCases(st: ArrayState, text: string)
    ensures var r := ArrayStep(st, text);
      && r.state.count == (if st.count == 0 then 1 else st.count)
      && (!Writable(st.sink) ==>
           && r.err.Some? && r.err == Put(st.sink, Delimiter(st.count)).err
           && r.state.sticky == st.sticky
           && r.state.sink == Put(st.sink, Delimiter(st.count)).sink)
      && (Writable(st.sink) && st.sticky.Some? ==>
           && r.err == st.sticky && r.state.sticky == st.sticky
           && r.state.sink == Sink(st.sink.data + Delimiter(st.count), Next(st.sink.script)))
      && (Writable(st.sink) && st.sticky.None? ==>
           && r.state.sticky == r.err
           && r.state.sink == Put(Sink(st.sink.data + Delimiter(st.count), Next(st.sink.script)), text).sink
           && (r.err.None? <==> Writable(Sink([], Next(st.sink.script)))))
  {
  }

  /** `jsonArrayEncoder`: the number of calls made (held at 1 once the array is
      open), the writer, and the `json.Encoder` it wraps around the same writer. */
  class ArrayEncoder<V> {
    var count: int
    const w: Writer
    const e: ValueEncoder<V>

    ghost predicate Valid()
    {
      e.w == w
    }

    ghost function State(): ArrayState
      reads this, e, w
    {
      ArrayState(count, e.err, w.State())
    }

    /** `newJsonArrayEncoder`: nothing written yet, no error remembered. */
    constructor (w: Writer, marshal: V -> string)
      ensures Valid() && this.w == w && e.marshal == marshal && fresh(e)
      ensures State() == ArrayState(0, None, w.State())
    {
      this.w := w;
      e := new ValueEncoder(w, marshal);
      count := 0;
    }

    /** Writes `[` on the first call and `,` on every later one, then the value;
        a failed delimiter write skips the value. */
    method Encode(v: V) returns (err: Option<Error>)
      requires Valid()
      modifies this, e, w
      ensures Valid()
      ensures ArrayStepResult(State(), err) == ArrayStep(old(State()), e.marshal(v) + "\n")
    {
      var linePrefix := ",";
      if count == 0 {
        linePrefix := "[";
        count := count + 1;
      }
      err := w.Write(linePrefix);
      if err.Some? {
        return;
      }
      err := e.Encode(v);
    }
  }

  datatype ArrayTrace = ArrayTrace(state: ArrayState, errs: seq<Option<Error>>)

  /** `Encode` called on each text in turn; `errs[i]` is what call `i` returned. */
  function ArrayRun(st: ArrayState, texts: seq<string>): (r: ArrayTrace)
    ensures |r.errs| == |texts|
  {
    if texts == [] then ArrayTrace(st, [])
    else
      var prev := ArrayRun(st, texts[..|texts| - 1]);
      var step := ArrayStep(prev.state, texts[|texts| - 1]);
      ArrayTrace(step.state, prev.errs + [step.err])
  }

  /** The open array after writing `texts` one call at a time: `[` before the
      first, `,` before every later one, and never `]`. */
  function Framed(texts: seq<string>): string
  {
    if texts == [] then ""
    else
      var n := |texts| - 1;
      Framed(texts[..n]) + Delimiter(n) + texts[n]
  }

  /** Closing the stream with `]` would give exactly the JSON array of the
      elements: the writer always holds an array text missing only its end. */
  lemma {:induction false} FramedIsOpenArray(texts: seq<string>)
    requires texts != []
    ensures Framed(texts) == "[" + Join(texts)
    ensures Framed(texts) + "]" == RenderArray(texts)
  {
    var n := |texts| - 1;
    if n == 0 {
      assert texts[..0] == [];
      assert Framed(texts) == "[" + texts[0];
      assert Join(texts) == texts[0];
    } else {
      FramedIsOpenArray(texts[..n]);
      assert texts[..n] + [texts[n]] == texts;
      JoinSnoc(texts[..n], texts[n]);
    }
  }

  /** Each text preceded by a comma. */
  function Commas(texts: seq<string>): string
  {
    if texts == [] then "" else Commas(texts[..|texts| - 1]) + "," + texts[|texts| - 1]
  }

  /** `count` is a flag: it stays within 0..1 and is 1 once any call has been made. */
  lemma {:induction false} CountIsFlag(st: ArrayState, texts: seq<string>)
    requires 0 <= st.count <= 1
    ensures ArrayRun(st, texts).state.count == if st.count == 0 && texts == [] then 0 else 1
  {
    if texts != [] {
      CountIsFlag(st, texts[..|texts| - 1]);
    }
  }

  lemma StepGrows(st: ArrayState, text: string)
    ensures st.sink.data <= ArrayStep(st, text).state.sink.data
  {
    var d := Put(st.sink, Delimiter(st.count));
    PutKeepsPrefix(st.sink, Delimiter(st.count));
    EncodeKeepsPrefix(st.sticky, d.sink, text);
  }

  /** The writer only grows: no call takes back what an earlier one wrote. */
  lemma {:induction false} RunGrows(st: ArrayState, texts: seq<string>)
    ensures st.sink.data <= ArrayRun(st, texts).state.sink.data
  {
    if texts != [] {
      var n := |texts| - 1;
      RunGrows(st, texts[..n]);
      StepGrows(ArrayRun(st, texts[..n]).state, texts[n]);
    }
  }

  /** Running on `xs` and then on `ys` is running on `xs + ys`. */
  lemma {:induction false} RunComposes(st: ArrayState, xs: seq<string>, ys: seq<string>)
    ensures var a := ArrayRun(st, xs);
      var b := ArrayRun(a.state, ys);
      ArrayRun(st, xs + ys) == ArrayTrace(b.state, a.errs + b.errs)
  {
    var a := ArrayRun(st, xs);
    if ys != [] {
      var ys', y := ys[..|ys| - 1], ys[|ys| - 1];
      RunComposes(st, xs, ys');
      var b' := ArrayRun(a.state, ys');
      var step := ArrayStep(b'.state, y);
      assert ArrayRun(a.state, ys) == ArrayTrace(step.state, b'.errs + [step.err]);
      assert (xs + ys)[..|xs + ys| - 1] == xs + ys' && (xs + ys)[|xs + ys| - 1] == y;
      assert ArrayRun(st, xs + ys) == ArrayTrace(step.state, (a.errs + b'.errs) + [step.err]);
      assert (a.errs + b'.errs) + [step.err] == a.errs + (b'.errs + [step.err]);
    } else {
      assert xs + ys == xs;
    }
  }

  /** Later calls never change what earlier calls did: the writer still starts
      with what it held after `xs`, and each of those calls keeps its error. */
  lemma EarlierCallsStand(st: ArrayState, xs: seq<string>, ys: seq<string>)
    ensures ArrayRun(st, xs).state.sink.data <= ArrayRun(st, xs + ys).state.sink.data
    ensures ArrayRun(st, xs + ys).errs[..|xs|] == ArrayRun(st, xs).errs
  {
    RunComposes(st, xs, ys);
    var a := ArrayRun(st, xs);
    RunGrows(a.state, ys);
    assert (a.errs + ArrayRun(a.state, ys).errs)[..|xs|] == a.errs;
  }

  /** A call whose two writes both succeed writes its delimiter and then the value. */
  lemma StepWithoutFailures(st: ArrayState, text: string)
    requires st.sticky.None? && NoFailures(st.sink.script)
    ensures var r := ArrayStep(st, text);
      && r.err.None? && r.state.sticky.None? && NoFailures(r.state.sink.script)
      && r.state.sink.data == st.sink.data + Delimiter(st.count) + text
  {
    assert Writable(Sink([], Next(st.sink.script)));
  }

  /** With no write failing, a fresh encoder leaves the writer holding exactly
      the open array of the values: `[` e1 `,` e2 ... `,` eN, and no call reports an error. */
  lemma {:induction false} RunWithoutFailures(st: ArrayState, texts: seq<string>)
    requires st.count == 0 && st.sticky.None? && NoFailures(st.sink.script)
    ensures var r := ArrayRun(st, texts);
      && r.state.sink.data == st.sink.data + Framed(texts)
      && r.state.count == (if texts == [] then 0 else 1)
      && r.state.sticky.None? && NoFailures(r.state.sink.script)
      && AllOk(r.errs)
  {
    if texts != [] {
      var n := |texts| - 1;
      var init := texts[..n];
      RunWithoutFailures(st, init);
      var prev := ArrayRun(st, init);
      StepWithoutFailures(prev.state, texts[n]);
      var step := ArrayStep(prev.state, texts[n]);
      assert ArrayRun(st, texts) == ArrayTrace(step.state, prev.errs + [step.err]);
      assert Delimiter(prev.state.count) == Delimiter(n);
      AppendThree(st.sink.data, Framed(init), Delimiter(n), texts[n]);
    }
  }

  /** With no write failing, an encoder that has already opened the array
      writes `,` and the value for every call. */
  lemma {:induction false} RunAfterOpen(st: ArrayState, texts: seq<string>)
    requires st.count == 1 && st.sticky.None? && NoFailures(st.sink.script)
    ensures var r := ArrayRun(st, texts);
      && r.state.sink.data == st.sink.data + Commas(texts)
      && r.state.count == 1 && r.state.sticky.None? && NoFailures(r.state.sink.script)
      && AllOk(r.errs)
  {
    if texts != [] {
      RunAfterOpen(st, texts[..|texts| - 1]);
    }
  }

  /** A run of calls that all returned nil, on a fresh encoder, leaves exactly
      the open array of their values on the writer, whatever later writes do. */
  lemma {:induction false} RunOfSuccessfulCalls(st: ArrayState, texts: seq<string>)
    requires st.count == 0 && st.sticky.None? && AllOk(ArrayRun(st, texts).errs)
    ensures var r := ArrayRun(st, texts);
      r.state.sink.data == st.sink.data + Framed(texts) && r.state.sticky.None?
  {
    if texts != [] {
      var n := |texts| - 1;
      var init := texts[..n];
      var prev := ArrayRun(st, init);
      var step := ArrayStep(prev.state, texts[n]);
      assert ArrayRun(st, texts) == ArrayTrace(step.state, prev.errs + [step.err]);
      assert AllOk(prev.errs) by {
        assert forall i :: 0 <= i < |prev.errs| ==> (prev.errs + [step.err])[i] == prev.errs[i];
      }
      assert step.err.None? by {
        assert (prev.errs + [step.err])[n] == step.err;
      }
      RunOfSuccessfulCalls(st, init);
      CountIsFlag(st, init);
      StepCases(prev.state, texts[n]);
      assert Delimiter(prev.state.count) == Delimiter(n);
      AppendThree(st.sink.data, Framed(init), Delimiter(n), texts[n]);
    }
  }

  /** `count` is advanced before the `[` is written, so a first call whose
      write fails is never retried with `[`. A failed write delivers either
      nothing or the whole one-character `[`; either way, while no later write
      fails, every later value is written after a `,` and every later call
      returns nil. */
  lemma {:induction false} FailedOpenIsNotRetried(st: ArrayState, t: string, texts: seq<string>, kept: nat, cause: nat)
    requires st.count == 0 && st.sticky.None?
    requires st.sink.script != [] && st.sink.script[0] == Short(kept, cause)
    requires NoFailures(st.sink.script[1..])
    ensures var r := ArrayRun(st, [t] + texts);
      && r.errs[0] == Some(Io(cause))
      && AllOk(r.errs[1..])
      && r.state.sink.data == st.sink.data + (if kept == 0 then "" else "[") + Commas(texts)
  {
    RunComposes(st, [t], texts);
    var a := ArrayRun(st, [t]);
    var delivered := if kept == 0 then "" else "[";
    assert [t][..0] == [];
    assert "["[..if kept < 1 then kept else 1] == delivered;
    assert a.state == ArrayState(1, None, Sink(st.sink.data + delivered, st.sink.script[1..]));
    RunAfterOpen(a.state, texts);
    var r := ArrayRun(st, [t] + texts);
    assert r.errs[1..] == ArrayRun(a.state, texts).errs;
  }

  /** When that failed first write did deliver its `[`, the next value follows
      a `,` straight after it: the writer holds `[,`, which no JSON reader
      accepts, while that next call, whose writes succeed, reports success. */
  lemma OpenBracketThenComma(st: ArrayState, t0: string, t1: string, kept: nat, cause: nat)
    requires st.count == 0 && st.sticky.None?
    requires st.sink.script != [] && st.sink.script[0] == Short(kept, cause) && kept > 0
    requires NoFailures(st.sink.script[1..])
    ensures var r := ArrayRun(st, [t0, t1]);
      && r.errs == [Some(Io(cause)), None]
      && r.state.sink.data == st.sink.data + "[," + t1
  {
    FailedOpenIsNotRetried(st, t0, [t1], kept, cause);
    assert [t0] + [t1] == [t0, t1];
    assert [t1][..0] == [];
    var r := ArrayRun(st, [t0, t1]);
    assert r.errs == [r.errs[0]] + r.errs[1..];
  }

  /** After a failed value write, a call whose `,` write succeeds writes only
      that `,` and returns the old error. */
  lemma StickyStep(st: ArrayState, text: string)
    requires st.count == 1 && st.sticky.Some? && NoFailures(st.sink.script)
    ensures var r := ArrayStep(st, text);
      && r.err == st.sticky && r.state.count == 1 && r.state.sticky == st.sticky
      && r.state.sink.data == st.sink.data + "," && NoFailures(r.state.sink.script)
  {
    assert Writable(st.sink);
  }

  /** Once a value write has failed, the inner json.Encoder returns that error
      for good: while no later write fails, each later call writes its `,`, never
      a value, and returns that error. (A later `,` write that fails returns its
      own error instead.) */
  lemma {:induction false} StickyValueError(st: ArrayState, texts: seq<string>)
    requires st.count == 1 && st.sticky.Some? && NoFailures(st.sink.script)
    ensures var r := ArrayRun(st, texts);
      && r.state.sink.data == st.sink.data + seq(|texts|, _ => ',')
      && r.state.count == 1 && r.state.sticky == st.sticky && NoFailures(r.state.sink.script)
      && forall i :: 0 <= i < |texts| ==> r.errs[i] == st.sticky
  {
    if texts != [] {
      var n := |texts| - 1;
      StickyValueError(st, texts[..n]);
      var prev := ArrayRun(st, texts[..n]);
      StickyStep(prev.state, texts[n]);
      assert seq(n + 1, _ => ',') == seq(n, _ => ',') + [','];
    }
  }

  // ---------------------------------------------------------------------------
  // Init followed by the write loop

  datatype SessionTrace = SessionTrace(sink: Sink, result: Result<seq<Option<Error>>, Error>)

  /** `Init` on a non-nil writer, then the write loop over `texts`: the errors
      it logged, or the error `Init` returned. */
  function SessionRun(h: Option<Header>, k: Sink, texts: seq<string>): (r: SessionTrace)
    ensures r.result.Success? <==> Writable(k)
    ensures r.result.Failure? ==>
      r.result.error == HeaderUnwritable && r.sink == Put(k, HeaderLine(h)).sink
    ensures r.result.Success? ==> |r.result.value| == |texts|
  {
    var p := Put(k, HeaderLine(h));
    if p.err.Some? then SessionTrace(p.sink, Failure(HeaderUnwritable))
    else
      var run := ArrayRun(ArrayState(0, None, p.sink), texts);
      SessionTrace(run.state.sink, Success(run.errs))
  }

  /** `Init`: a nil writer is refused; otherwise the header is written as one
      line, and an encoder for the status lines is handed back when that write
      succeeded. */
  method Init(h: Option<Header>, w: Writer?) returns (r: Result<ArrayEncoder<StatusLine>, Error>)
    modifies w
    ensures w == null ==> r == Failure(WriterRequired)
    ensures w != null ==>
      var p := Put(old(w.State()), HeaderLine(h));
      && w.State() == p.sink
      && (r.Failure? <==> p.err.Some?)
      && (r.Failure? ==> r.error == HeaderUnwritable)
    ensures r.Success? ==>
      && fresh(r.value) && fresh(r.value.e) && r.value.Valid() && r.value.w == w
      && r.value.e.marshal == LineJson
      && r.value.State() == ArrayState(0, None, w.State())
  {
    if w == null {
      return Failure(WriterRequired);
    }
    var jsonWriter := new ArrayEncoder(w, LineJson);
    var msg := HeaderJson(h);
    var err := w.Write(msg + "\n");
    if err.Some? {
      return Failure(HeaderUnwritable);
    }
    return Success(jsonWriter);
  }

  /** `writeLoop`: encodes each status line in turn; `results[i]` is what call
      `i` returned (the loop prints each error and carries on). */
  method WriteLoop(enc: ArrayEncoder<StatusLine>, lines: seq<StatusLine>) returns (results: seq<Option<Error>>)
    requires enc.Valid()
    modifies enc, enc.e, enc.w
    ensures enc.Valid() && |results| == |lines|
    ensures ArrayTrace(enc.State(), results) == ArrayRun(old(enc.State()), Encodings(enc.e.marshal, lines))
  {
    ghost var start := enc.State();
    results := [];
    var i := 0;
    while i < |lines|
      invariant 0 <= i <= |lines|
      invariant enc.Valid()
      invariant ArrayTrace(enc.State(), results) == ArrayRun(start, Encodings(enc.e.marshal, lines[..i]))
    {
      assert lines[..i + 1][..i] == lines[..i];
      var err := enc.Encode(lines[i]);
      results := results + [err];
      i := i + 1;
    }
    assert lines[..i] == lines;
  }

  /** `Init` and then the write loop over `lines`. */
  method Session(h: Option<Header>, w: Writer?, lines: seq<StatusLine>) returns (r: Result<seq<Option<Error>>, Error>)
    modifies w
    ensures w == null ==> r == Failure(WriterRequired)
    ensures w != null ==>
      SessionTrace(w.State(), r) == SessionRun(h, old(w.State()), Encodings(LineJson, lines))
  {
    var init := Init(h, w);
    if init.Failure? {
      return Failure(init.error);
    }
    var results := WriteLoop(init.value, lines);
    return Success(results);
  }

  /** The header line is written before anything else: when its write
      succeeds, everything later comes after it; when it fails, the writer
      holds at most part of it and no status line is ever written. */
  lemma HeaderComesFirst(h: Option<Header>, k: Sink, texts: seq<string>)
    ensures var r := SessionRun(h, k, texts);
      && (Writable(k) ==> k.data + HeaderLine(h) <= r.sink.data)
      && (!Writable(k) ==> k.data <= r.sink.data <= k.data + HeaderLine(h))
  {
    var p := Put(k, HeaderLine(h));
    PutKeepsPrefix(k, HeaderLine(h));
    if Writable(k) {
      RunGrows(ArrayState(0, None, p.sink), texts);
    }
  }

  /** With no write failing, the writer ends up holding the header line and
      then the open array of the values, and nothing else. */
  lemma SessionWithoutFailures(h: Option<Header>, k: Sink, texts: seq<string>)
    requires NoFailures(k.script)
    ensures var r := SessionRun(h, k, texts);
      && r.sink.data == k.data + HeaderLine(h) + Framed(texts)
      && r.result.Success? && AllOk(r.result.value)
  {
    var line := HeaderLine(h);
    PutWithoutFailure(k, line);
    RunWithoutFailures(ArrayState(0, None, Sink(k.data + line, Next(k.script))), texts);
  }

  lemma FramedTwo(texts: seq<string>)
    requires |texts| == 2
    ensures Framed(texts) == "[" + texts[0] + "," + texts[1]
  {
    assert texts[..1][..0] == [];
    assert Framed(texts[..1]) == "[" + texts[0];
  }

  /** The wire for a header and two status lines: the header line, then one
      array whose elements are the status lines, each followed by the newline
      json.Encoder ends every value with, the second one preceded by a comma. */
  lemma WireExample(h: Option<Header>, x: StatusLine, y: StatusLine)
    ensures SessionRun(h, Sink("", []), Encodings(LineJson, [x, y])).sink.data
      == HeaderLine(h) + ("[" + (LineJson(x) + "\n") + "," + (LineJson(y) + "\n"))
  {
    var texts := Encodings(LineJson, [x, y]);
    var t0, t1 := LineJson(x) + "\n", LineJson(y) + "\n";
    assert texts == [t0, t1];
    SessionWithoutFailures(h, Sink("", []), texts);
    FramedTwo(texts);
    assert "" + HeaderLine(h) == HeaderLine(h);
  }
}
