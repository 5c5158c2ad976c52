/** What both revisions of the library share: the status-line header, whose
    fields have the same types and JSON tags in both (only the Go field names
    differ), with its wire shape under the struct tags and the
    single line `Init` writes for it (the JSON text followed by the newline
    `fmt.Fprintln` adds); and the keys a block is declared with, which the two
    revisions' `Block` structs list in the same order. */
module I3barProtocol {
  import opened Wrappers
  import opened Json

  datatype Header = Header(version: int, stopSignal: int, contSignal: int, clickEvents: bool)

  const HeaderKeyOrder: seq<string> := ["version", "stop_signal", "cont_signal", "click_events"]

  /** The struct's fields with their tags, in declaration order. */
  function HeaderTags(h: Header): seq<Tag>
  {
    [ Tag("version", Int(h.version), false),
      Tag("stop_signal", Int(h.stopSignal), true),
      Tag("cont_signal", Int(h.contSignal), true),
      Tag("click_events", Bool(h.clickEvents), true) ]
  }

  function HeaderFields(h: Header): seq<Pair>
  {
    Select(HeaderTags(h))
  }

  /** json.Marshal of a `*Header`; a nil pointer marshals to `null`. */
  function HeaderJson(h: Option<Header>): string
  {
    match h
    case None => "null"
    case Some(h) => RenderObject(HeaderFields(h))
  }

  /** What `Init` prints: the header JSON as exactly one line. */
  function HeaderLine(h: Option<Header>): string
  {
    HeaderJson(h) + "\n"
  }

  /** The header takes exactly one line: its only newline is the last character. */
  lemma HeaderIsOneLine(h: Option<Header>)
    ensures var r := HeaderLine(h);
      |r| >= 1 && r[|r| - 1] == '\n' && OneLine(r[..|r| - 1])
  {
    var j := HeaderJson(h);
    assert HeaderLine(h)[..|j|] == j;
    if h.Some? {
      ObjectOneLine(HeaderFields(h.value));
    }
  }

  /** `version` is always present; the signals appear only when non-zero and
      `click_events` only when true; no other key appears, and the keys keep
      their declaration order. */
  lemma HeaderWireShape(h: Header)
    ensures var r := HeaderFields(h);
      && Lookup(r, "version") == Some(Int(h.version))
      && Lookup(r, "stop_signal") == (if h.stopSignal == 0 then None else Some(Int(h.stopSignal)))
      && Lookup(r, "cont_signal") == (if h.contSignal == 0 then None else Some(Int(h.contSignal)))
      && Lookup(r, "click_events") == (if h.clickEvents then Some(Bool(true)) else None)
      && IsSubsequence(Keys(r), HeaderKeyOrder)
  {
    var t := HeaderTags(h);
    assert TagKeys(t) == HeaderKeyOrder;
    assert DistinctKeys(t);
    SelectLookupAt(t, 0);
    SelectLookupAt(t, 1);
    SelectLookupAt(t, 2);
    SelectLookupAt(t, 3);
    SelectKeepsOrder(t);
  }

  /** Decoding a header object into a zero-valued Header. */
  function DecodeHeader(pairs: seq<Pair>): Header
  {
    Header(IntMember(pairs, "version"), IntMember(pairs, "stop_signal"),
           IntMember(pairs, "cont_signal"), BoolMember(pairs, "click_events"))
  }

  /** Omitting the empty fields loses nothing: decoding gives the header back. */
  lemma HeaderRoundTrip(h: Header)
    ensures DecodeHeader(HeaderFields(h)) == h
  {
    HeaderWireShape(h);
  }

  /** A header carrying only a version is sent as the `version` member alone. */
  lemma VersionOnlyHeader(v: int)
    ensures HeaderFields(Header(v, 0, 0, false)) == [Pair("version", Int(v))]
  {
    var t := HeaderTags(Header(v, 0, 0, false));
    assert Select(t[4..]) == [];
    assert Select(t[3..]) == [] by { assert Omitted(t[3]) && t[3..][1..] == t[4..]; }
    assert Select(t[2..]) == [] by { assert Omitted(t[2]) && t[2..][1..] == t[3..]; }
    assert Select(t[1..]) == [] by { assert Omitted(t[1]) && t[1..][1..] == t[2..]; }
    assert !Omitted(t[0]);
  }

  // ---------------------------------------------------------------------------
  // Block keys

  const BlockKeyOrder: seq<string> :=
    ["full_text", "short_text", "color", "min_width", "align", "name", "instance",
     "urgent", "separator", "separator_block_width", "markup"]

  /** No two block fields share a JSON key. */
  lemma BlockKeysDistinct()
    ensures Distinct(BlockKeyOrder)
  {
  }

  /** A struct declared with the block keys, in order, whichever revision's
      field types it has: the `i`-th key is missing exactly when its field is
      omitted, and otherwise carries the field's value. */
  lemma BlockMemberAt(tags: seq<Tag>, i: nat)
    requires TagKeys(tags) == BlockKeyOrder && i < |tags|
    ensures Lookup(Select(tags), BlockKeyOrder[i]) ==
      if Omitted(tags[i]) then None else Some(tags[i].value)
  {
    BlockKeysDistinct();
    SelectLookupDeclared(tags, BlockKeyOrder, i);
  }
}
