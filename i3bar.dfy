/** The older revision of the library (go-i3bar.go): a header with the same tags, a block
    whose `min_width` is an integer, a status line that holds blocks by value,
    and a write loop that hands each status line straight to a `json.Encoder`,
    so the values follow one another with no array around them. */
module I3bar {
  import opened Wrappers
  import opened Json
  import opened Stream
  import opened I3barProtocol

  // ---------------------------------------------------------------------------
  // Block and StatusLine

  /** One block; `minWidth` is an integer in this revision. */
  datatype Block = Block(
    fullText: string, shortText: string, color: string, minWidth: int, align: string,
    name: string, instance: string, urgent: bool, separator: bool,
    separatorBlockWidth: int, markup: string)

  type StatusLine = seq<Block>

  function BlockTags(b: Block): seq<Tag>
  {
    [ Tag("full_text", Str(b.fullText), false),
      Tag("short_text", Str(b.shortText), true),
      Tag("color", Str(b.color), true),
      Tag("min_width", Int(b.minWidth), true),
      Tag("align", Str(b.align), true),
      Tag("name", Str(b.name), true),
      Tag("instance", Str(b.instance), true),
      Tag("urgent", Bool(b.urgent), true),
      Tag("separator", Bool(b.separator), false),
      Tag("separator_block_width", Int(b.separatorBlockWidth), true),
      Tag("markup", Str(b.markup), true) ]
  }

  function BlockFields(b: Block): seq<Pair>
  {
    Select(BlockTags(b))
  }

  function OptStr(s: string): Option<Scalar>
  {
    if s == "" then None else Some(Str(s))
  }

  function OptInt(i: int): Option<Scalar>
  {
    if i == 0 then None else Some(Int(i))
  }

  /** `full_text` and `separator` are always present; `min_width` and
      `separator_block_width` appear only when non-zero, `urgent` only when
      true, and the string fields only when non-empty. */
  lemma BlockWireShape(b: Block)
    ensures var r := BlockFields(b);
      && Lookup(r, "full_text") == Some(Str(b.fullText))
      && Lookup(r, "separator") == Some(Bool(b.separator))
      && Lookup(r, "short_text") == OptStr(b.shortText)
      && Lookup(r, "color") == OptStr(b.color)
      && Lookup(r, "min_width") == OptInt(b.minWidth)
      && Lookup(r, "align") == OptStr(b.align)
      && Lookup(r, "name") == OptStr(b.name)
      && Lookup(r, "instance") == OptStr(b.instance)
      && Lookup(r, "urgent") == (if b.urgent then Some(Bool(true)) else None)
      && Lookup(r, "separator_block_width") == OptInt(b.separatorBlockWidth)
      && Lookup(r, "markup") == OptStr(b.markup)
  {
    BlockRequiredMembers(b);
    BlockNumberMembers(b);
    BlockStyleMembers(b);
    BlockNameMembers(b);
  }

  lemma BlockRequiredMembers(b: Block)
    ensures var r := BlockFields(b);
      && Lookup(r, "full_text") == Some(Str(b.fullText))
      && Lookup(r, "separator") == Some(Bool(b.separator))
  {
    BlockKeysDeclared(b);
    BlockMemberAt(BlockTags(b), 0);
    BlockMemberAt(BlockTags(b), 8);
  }

  lemma BlockNumberMembers(b: Block)
    ensures var r := BlockFields(b);
      && Lookup(r, "min_width") == OptInt(b.minWidth)
      && Lookup(r, "urgent") == (if b.urgent then Some(Bool(true)) else None)
      && Lookup(r, "separator_block_width") == OptInt(b.separatorBlockWidth)
  {
    BlockKeysDeclared(b);
    BlockMemberAt(BlockTags(b), 3);
    BlockMemberAt(BlockTags(b), 7);
    BlockMemberAt(BlockTags(b), 9);
  }

  lemma BlockStyleMembers(b: Block)
    ensures var r := BlockFields(b);
      && Lookup(r, "short_text") == OptStr(b.shortText)
      && Lookup(r, "color") == OptStr(b.color)
      && Lookup(r, "align") == OptStr(b.align)
  {
    BlockKeysDeclared(b);
    BlockMemberAt(BlockTags(b), 1);
    BlockMemberAt(BlockTags(b), 2);
    BlockMemberAt(BlockTags(b), 4);
  }

  lemma BlockNameMembers(b: Block)
    ensures var r := BlockFields(b);
      && Lookup(r, "name") == OptStr(b.name)
      && Lookup(r, "instance") == OptStr(b.instance)
      && Lookup(r, "markup") == OptStr(b.markup)
  {
    BlockKeysDeclared(b);
    BlockMemberAt(BlockTags(b), 5);
    BlockMemberAt(BlockTags(b), 6);
    BlockMemberAt(BlockTags(b), 10);
  }

  /** The emitted keys appear in declaration order. */
  lemma BlockKeyOrderKept(b: Block)
    ensures IsSubsequence(Keys(BlockFields(b)), BlockKeyOrder)
  {
    BlockKeysDeclared(b);
    SelectKeepsOrder(BlockTags(b));
  }

  lemma BlockKeysDeclared(b: Block)
    ensures TagKeys(BlockTags(b)) == BlockKeyOrder
  {
  }

  function DecodeBlock(pairs: seq<Pair>): Block
  {
    Block(StrMember(pairs, "full_text"), StrMember(pairs, "short_text"), StrMember(pairs, "color"),
          IntMember(pairs, "min_width"), StrMember(pairs, "align"), StrMember(pairs, "name"),
          StrMember(pairs, "instance"), BoolMember(pairs, "urgent"), BoolMember(pairs, "separator"),
          IntMember(pairs, "separator_block_width"), StrMember(pairs, "markup"))
  }

  /** Omitting the empty fields loses nothing: decoding gives the block back. */
  lemma BlockRoundTrip(b: Block)
    ensures DecodeBlock(BlockFields(b)) == b
  {
    BlockWireShape(b);
  }

  function BlockJson(b: Block): string
  {
    RenderObject(BlockFields(b))
  }

  /** json.Marshal of a status line: an array of its blocks, in order. */
  function LineJson(line: StatusLine): string
  {
    RenderArray(Each(BlockJson, line))
  }

  /** A status line is written on one line. */
  lemma LineIsOneLine(line: StatusLine)
    ensures OneLine(LineJson(line))
  {
    var items := Each(BlockJson, line);
    forall i | 0 <= i < |items|
      ensures OneLine(items[i])
    {
      ObjectOneLine(BlockFields(line[i]));
    }
    ArrayOneLine(items);
  }

  // ---------------------------------------------------------------------------
  // The write loop over a plain json.Encoder

  datatype PlainTrace = PlainTrace(sticky: Option<Error>, sink: Sink, errs: seq<Option<Error>>)

  /** `Encode` called on each text in turn on a `json.Encoder` whose remembered
      error is `sticky`; `errs[i]` is what call `i` returned. */
  function PlainRun(sticky: Option<Error>, k: Sink, texts: seq<string>): (r: PlainTrace)
    ensures |r.errs| == |texts|
  {
    if texts == [] then PlainTrace(sticky, k, [])
    else
      var prev := PlainRun(sticky, k, texts[..|texts| - 1]);
      var step := EncodeStep(prev.sticky, prev.sink, texts[|texts| - 1]);
      PlainTrace(step.sticky, step.sink, prev.errs + [step.err])
  }

  /** With no write failing, the writer holds the values one after another:
      no `[`, no `,`, nothing between them, and no call reports an error. */
  lemma {:induction false} PlainRunWithoutFailures(k: Sink, texts: seq<string>)
    requires NoFailures(k.script)
    ensures var r := PlainRun(None, k, texts);
      && r.sink.data == k.data + Concat(texts)
      && r.sticky.None? && NoFailures(r.sink.script)
      && AllOk(r.errs)
  {
    if texts != [] {
      var n := |texts| - 1;
      PlainRunWithoutFailures(k, texts[..n]);
      var prev := PlainRun(None, k, texts[..n]);
      PutWithoutFailure(prev.sink, texts[n]);
    }
  }

  /** A run of calls that all returned nil leaves exactly their values, one
      after another, on the writer, whatever later writes do. */
  lemma {:induction false} PlainRunOfSuccessfulCalls(k: Sink, texts: seq<string>)
    requires AllOk(PlainRun(None, k, texts).errs)
    ensures var r := PlainRun(None, k, texts);
      r.sink.data == k.data + Concat(texts) && r.sticky.None?
  {
    if texts != [] {
      var n := |texts| - 1;
      var prev := PlainRun(None, k, texts[..n]);
      var step := EncodeStep(prev.sticky, prev.sink, texts[n]);
      assert PlainRun(None, k, texts).errs == prev.errs + [step.err];
      assert AllOk(prev.errs) by {
        assert forall i :: 0 <= i < |prev.errs| ==> (prev.errs + [step.err])[i] == prev.errs[i];
      }
      assert step.err.None? by {
        assert (prev.errs + [step.err])[n] == step.err;
      }
      PlainRunOfSuccessfulCalls(k, texts[..n]);
    }
  }

  /** The writer only grows: no call takes back what an earlier one wrote. */
  lemma {:induction false} PlainRunGrows(sticky: Option<Error>, k: Sink, texts: seq<string>)
    ensures k.data <= PlainRun(sticky, k, texts).sink.data
  {
    if texts != [] {
      var n := |texts| - 1;
      PlainRunGrows(sticky, k, texts[..n]);
      var prev := PlainRun(sticky, k, texts[..n]);
      EncodeKeepsPrefix(prev.sticky, prev.sink, texts[n]);
    }
  }

  /** Once a write has failed, the encoder writes nothing more and every later
      call returns that first error. */
  lemma {:induction false} PlainRunAfterError(sticky: Option<Error>, k: Sink, texts: seq<string>)
    requires sticky.Some?
    ensures var r := PlainRun(sticky, k, texts);
      && r.sink == k && r.sticky == sticky
      && forall i :: 0 <= i < |texts| ==> r.errs[i] == sticky
  {
    if texts != [] {
      PlainRunAfterError(sticky, k, texts[..|texts| - 1]);
    }
  }

  /** Running on `xs` and then on `ys` is running on `xs + ys`. */
  lemma {:induction false} PlainRunComposes(sticky: Option<Error>, k: Sink, xs: seq<string>, ys: seq<string>)
    ensures var a := PlainRun(sticky, k, xs);
      var b := PlainRun(a.sticky, a.sink, ys);
      PlainRun(sticky, k, xs + ys) == PlainTrace(b.sticky, b.sink, a.errs + b.errs)
  {
    var a := PlainRun(sticky, k, xs);
    if ys != [] {
      var ys' := ys[..|ys| - 1];
      PlainRunComposes(sticky, k, xs, ys');
      assert (xs + ys)[..|xs + ys| - 1] == xs + ys';
      var b' := PlainRun(a.sticky, a.sink, ys');
      var e := EncodeStep(b'.sticky, b'.sink, ys[|ys| - 1]).err;
      assert (a.errs + b'.errs) + [e] == a.errs + (b'.errs + [e]);
    } else {
      assert xs + ys == xs;
    }
  }

  /** The first write that fails ends the output for good: the writer keeps
      what that write managed to deliver, and that call and every later one
      return its error. */
  lemma FirstFailureIsFinal(k: Sink, t: string, texts: seq<string>, kept: nat, cause: nat)
    requires k.script != [] && k.script[0] == Short(kept, cause)
    ensures var r := PlainRun(None, k, [t] + texts);
      && r.sink.data == k.data + t[..if kept < |t| then kept else |t|]
      && forall i :: 0 <= i < |r.errs| ==> r.errs[i] == Some(Io(cause))
  {
    PlainRunComposes(None, k, [t], texts);
    var a := PlainRun(None, k, [t]);
    assert [t][..0] == [];
    assert a.sticky == Some(Io(cause)) && a.errs == [Some(Io(cause))];
    PlainRunAfterError(a.sticky, a.sink, texts);
  }

  // ---------------------------------------------------------------------------
  // Init followed by the write loop

  datatype SessionTrace = SessionTrace(sink: Sink, result: Result<seq<Option<Error>>, Error>)

  /** `Init` on a non-nil writer, then the write loop over `texts`. */
  function SessionRun(h: Option<Header>, k: Sink, texts: seq<string>): (r: SessionTrace)
    ensures r.result.Success? <==> Writable(k)
    ensures r.result.Failure? ==>
      r.result.error == HeaderUnwritable && r.sink == Put(k, HeaderLine(h)).sink
    ensures r.result.Success? ==> |r.result.value| == |texts|
  {
    var p := Put(k, HeaderLine(h));
    if p.err.Some? then SessionTrace(p.sink, Failure(HeaderUnwritable))
    else
      var run := PlainRun(None, p.sink, texts);
      SessionTrace(run.sink, Success(run.errs))
  }

  /** The header line is written before anything else; when that write
      fails, the writer holds at most part of it and no status line follows. */
  lemma HeaderComesFirst(h: Option<Header>, k: Sink, texts: seq<string>)
    ensures var r := SessionRun(h, k, texts);
      && (Writable(k) ==> k.data + HeaderLine(h) <= r.sink.data)
      && (!Writable(k) ==> k.data <= r.sink.data <= k.data + HeaderLine(h))
  {
    var p := Put(k, HeaderLine(h));
    PutKeepsPrefix(k, HeaderLine(h));
    if Writable(k) {
      PlainRunGrows(None, p.sink, texts);
    }
  }

  /** With no write failing, the writer holds the header line and then each
      value in turn, with nothing between them. */
  lemma SessionWithoutFailures(h: Option<Header>, k: Sink, texts: seq<string>)
    requires NoFailures(k.script)
    ensures var r := SessionRun(h, k, texts);
      && r.sink.data == k.data + HeaderLine(h) + Concat(texts)
      && r.result.Success? && AllOk(r.result.value)
  {
    var line := HeaderLine(h);
    PutWithoutFailure(k, line);
    PlainRunWithoutFailures(Sink(k.data + line, Next(k.script)), texts);
  }

  lemma ConcatTwo(texts: seq<string>)
    requires |texts| == 2
    ensures Concat(texts) == texts[0] + texts[1]
  {
    assert texts[..1][..0] == [];
    assert Concat(texts[..1]) == texts[0];
  }

  /** The wire for a header and two status lines: the header line, then each
      status line on its own line, with no array around them. */
  lemma WireExample(h: Option<Header>, x: StatusLine, y: StatusLine)
    ensures SessionRun(h, Sink("", []), Encodings(LineJson, [x, y])).sink.data
      == HeaderLine(h) + ((LineJson(x) + "\n") + (LineJson(y) + "\n"))
  {
    var texts := Encodings(LineJson, [x, y]);
    var t0, t1 := LineJson(x) + "\n", LineJson(y) + "\n";
    assert texts == [t0, t1];
    SessionOfTwo(h, t0, t1);
  }

  lemma SessionOfTwo(h: Option<Header>, t0: string, t1: string)
    ensures SessionRun(h, Sink("", []), [t0, t1]).sink.data == HeaderLine(h) + (t0 + t1)
  {
    SessionWithoutFailures(h, Sink("", []), [t0, t1]);
    ConcatTwo([t0, t1]);
    assert "" + HeaderLine(h) == HeaderLine(h);
  }

  /** `Init`: a nil writer is refused; otherwise the header is written as one
      line, and a `json.Encoder` on the writer is handed back when that write
      succeeded. */
  method Init(h: Option<Header>, w: Writer?) returns (r: Result<ValueEncoder<StatusLine>, Error>)
    modifies w
    ensures w == null ==> r == Failure(WriterRequired)
    ensures w != null ==>
      var p := Put(old(w.State()), HeaderLine(h));
      && w.State() == p.sink
      && (r.Failure? <==> p.err.Some?)
      && (r.Failure? ==> r.error == HeaderUnwritable)
    ensures r.Success? ==>
      && fresh(r.value) && r.value.w == w && r.value.marshal == LineJson && r.value.err == None
  {
    if w == null {
      return Failure(WriterRequired);
    }
    var jsonWriter := new ValueEncoder(w, LineJson);
    var msg := HeaderJson(h);
    var err := w.Write(msg + "\n");
    if err.Some? {
      return Failure(HeaderUnwritable);
    }
    return Success(jsonWriter);
  }

  /** `writeLoop`: encodes each status line in turn; `results[i]` is what call
      `i` returned (the loop prints each error and carries on). */
  method WriteLoop(e: ValueEncoder<StatusLine>, lines: seq<StatusLine>) returns (results: seq<Option<Error>>)
    modifies e, e.w
    ensures |results| == |lines|
    ensures PlainTrace(e.err, e.w.State(), results)
         == PlainRun(old(e.err), old(e.w.State()), Encodings(e.marshal, lines))
  {
    ghost var sticky0, sink0 := e.err, e.w.State();
    results := [];
    var i := 0;
    while i < |lines|
      invariant 0 <= i <= |lines|
      invariant PlainTrace(e.err, e.w.State(), results) == PlainRun(sticky0, sink0, Encodings(e.marshal, lines[..i]))
    {
      assert lines[..i + 1][..i] == lines[..i];
      var err := e.Encode(lines[i]);
      results := results + [err];
      i := i + 1;
    }
    assert lines[..i] == lines;
  }

  /** `Init` and then the write loop over `lines`. */
  method Session(h: Option<Header>, w: Writer?, lines: seq<StatusLine>) returns (r: Result<seq<Option<Error>>, Error>)
    modifies w
    ensures w == null ==> r == Failure(WriterRequired)
    ensures w != null ==>
      SessionTrace(w.State(), r) == SessionRun(h, old(w.State()), Encodings(LineJson, lines))
  {
    var init := Init(h, w);
    if init.Failure? {
      return Failure(init.error);
    }
    var results := WriteLoop(init.value, lines);
    return Success(results);
  }
}
