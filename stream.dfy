/** The output side both revisions share: an `io.Writer` whose writes may
    fail, and Go's `json.Encoder`, which marshals one value, appends a newline,
    hands the bytes to the writer in a single Write call, and remembers the
    first write error it sees (a later Encode returns that error again and
    writes nothing). */
module Stream {
  import opened Wrappers

  datatype Error =
    | WriterRequired      // "error: Writer required"
    | HeaderUnwritable    // "error: couldn't write to Writer"
    | Io(cause: nat)      // an error returned by the writer itself

  /** How the writer answers one Write call: it takes everything, or it keeps
      only the first `kept` characters and reports an error. */
  datatype WriteOutcome = Full | Short(kept: nat, cause: nat)

  /** The writer's state: what it holds so far and how it will answer the next
      writes (once `script` runs out, every write succeeds). */
  datatype Sink = Sink(data: string, script: seq<WriteOutcome>)

  /** The next write succeeds. */
  predicate Writable(k: Sink)
  {
    k.script == [] || k.script[0].Full?
  }

  /** The outcomes left after one write. */
  function Next(script: seq<WriteOutcome>): seq<WriteOutcome>
  {
    if script == [] then [] else script[1..]
  }

  /** No write from now on fails. */
  predicate NoFailures(script: seq<WriteOutcome>)
  {
    forall i :: 0 <= i < |script| ==> script[i].Full?
  }

  predicate AllOk(errs: seq<Option<Error>>)
  {
    forall i :: 0 <= i < |errs| ==> errs[i].None?
  }

  datatype Written = Written(sink: Sink, err: Option<Error>)

  /** One `Write(s)` call: the writer keeps a prefix of `s` (all of it when it
      succeeds) and consumes one scripted outcome. */
  function Put(k: Sink, s: string): (r: Written)
    ensures r.err.None? <==> Writable(k)
    ensures Writable(k) ==> r.sink.data == k.data + s
    ensures r.sink.script == Next(k.script)
  {
    if Writable(k) then Written(Sink(k.data + s, if k.script == [] then [] else k.script[1..]), None)
    else
      var n := if k.script[0].kept < |s| then k.script[0].kept else |s|;
      Written(Sink(k.data + s[..n], k.script[1..]), Some(Io(k.script[0].cause)))
  }

  /** A write never takes back what the writer holds and adds at most `s`. */
  lemma PutKeepsPrefix(k: Sink, s: string)
    ensures k.data <= Put(k, s).sink.data <= k.data + s
  {
    if !Writable(k) {
      var n := if k.script[0].kept < |s| then k.script[0].kept else |s|;
      assert s[..n] <= s;
    }
  }

  /** A write on a writer that never fails appends all of `s`. */
  lemma PutWithoutFailure(k: Sink, s: string)
    requires NoFailures(k.script)
    ensures Put(k, s) == Written(Sink(k.data + s, Next(k.script)), None)
    ensures NoFailures(Next(k.script))
  {
    assert Writable(k);
  }

  /** Appending three texts one by one is appending their concatenation. */
  lemma AppendThree(a: string, b: string, c: string, d: string)
    ensures a + b + c + d == a + (b + c + d)
  {
  }

  /** An in-memory `io.Writer` whose answers follow a script. */
  class Writer {
    var data: string
    var script: seq<WriteOutcome>

    ghost function State(): Sink
      reads this
    {
      Sink(data, script)
    }

    constructor (script: seq<WriteOutcome>)
      ensures data == [] && this.script == script
    {
      data := [];
      this.script := script;
    }

    method Write(s: string) returns (err: Option<Error>)
      modifies this
      ensures Written(State(), err) == Put(old(State()), s)
    {
      if script == [] || script[0].Full? {
        data := data + s;
        err := None;
      } else {
        var n := if script[0].kept < |s| then script[0].kept else |s|;
        data := data + s[..n];
        err := Some(Io(script[0].cause));
      }
      if script != [] {
        script := script[1..];
      }
    }
  }

  datatype Encoded = Encoded(sticky: Option<Error>, sink: Sink, err: Option<Error>)

  /** `json.Encoder.Encode` of a value whose encoding, newline included, is
      `text`, given the encoder's remembered error `sticky`. */
  function EncodeStep(sticky: Option<Error>, k: Sink, text: string): (r: Encoded)
    ensures r.sticky == r.err
    ensures sticky.Some? ==> r.err == sticky && r.sink == k
    ensures sticky.None? ==> (r.err.None? <==> Writable(k))
    ensures sticky.None? && Writable(k) ==> r.sink.data == k.data + text
  {
    if sticky.Some? then Encoded(sticky, k, sticky)
    else
      var w := Put(k, text);
      Encoded(w.err, w.sink, w.err)
  }

  lemma EncodeKeepsPrefix(sticky: Option<Error>, k: Sink, text: string)
    ensures k.data <= EncodeStep(sticky, k, text).sink.data <= k.data + text
  {
    PutKeepsPrefix(k, text);
  }

  /** A `json.Encoder` writing to `w`; `marshal` is the JSON text of a value
      of the type it is used for. */
  class ValueEncoder<V> {
    const w: Writer
    const marshal: V -> string
    var err: Option<Error>

    constructor (w: Writer, marshal: V -> string)
      ensures this.w == w && this.marshal == marshal && err == None
    {
      this.w := w;
      this.marshal := marshal;
      err := None;
    }

    method Encode(v: V) returns (r: Option<Error>)
      modifies this, w
      ensures Encoded(err, w.State(), r) == EncodeStep(old(err), old(w.State()), marshal(v) + "\n")
    {
      if err.Some? {
        return err;
      }
      var text := marshal(v) + "\n";
      r := w.Write(text);
      if r.Some? {
        err := r;
      }
    }
  }

  /** The texts an encoder writes for `vs`, one encoded value per element. */
  function Encodings<V>(marshal: V -> string, vs: seq<V>): (r: seq<string>)
    ensures |r| == |vs|
    ensures forall i :: 0 <= i < |vs| ==> r[i] == marshal(vs[i]) + "\n"
  {
    if vs == [] then [] else Encodings(marshal, vs[..|vs| - 1]) + [marshal(vs[|vs| - 1]) + "\n"]
  }

  /** The texts one after another, with nothing between them. */
  function Concat(texts: seq<string>): string
  {
    if texts == [] then "" else Concat(texts[..|texts| - 1]) + texts[|texts| - 1]
  }
}
