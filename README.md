# i3bar status-line producer, modelled in Dafny

This project models the producer side of the i3bar JSON protocol as implemented by
the Go library go-i3barjson, in both of its revisions:

- `go-i3barjson.go` (newer). `Init` writes the header as a single line. A `jsonArrayEncoder`
  then streams an infinite JSON array. The first `Encode` writes `[` and every later one
  writes `,`, each followed by the status line that Go's `json.Encoder` writes, newline
  included. The array is never closed.
- `go-i3bar.go` (older). `Init` writes the same header line. The write loop hands each status
  line straight to a `json.Encoder`, so the values follow one another with no array framing.

The model has six modules:

- `Json` (json.dfy) covers the part of `encoding/json` the protocol uses. It selects keys
  under `json:"key,omitempty"` tags in declaration order. It escapes strings (compact output
  with HTML escaping on, as `json.Marshal` and `json.Encoder` produce). It renders integers,
  objects and arrays. Escaped strings and numbers are read back by small reference
  decoders, which state what the written text means.
- `Stream` (stream.dfy) holds the output side. It has an in-memory `io.Writer` whose answers
  follow a script, where a failing write keeps a prefix of its input. It also has
  `json.Encoder`, which remembers the first write error: every later `Encode` returns that
  error and writes nothing.
- `I3barProtocol` (protocol.dfy) holds what both revisions share: the `Header` struct, whose
  field types and JSON tags agree in both (only the Go field names differ), the line `Init`
  writes for it, and the keys a `Block` is declared with, which both list in the same order.
- `I3barJson` (i3barjson.dfy) is the newer revision: `Block` with a string `min_width`,
  `StatusLine` as a list of block pointers, `jsonArrayEncoder` as a class, `Init`, and
  `writeLoop` as a loop.
- `I3bar` (i3bar.dfy) is the older revision: `Block` with an integer `min_width`,
  `StatusLine` as a list of blocks, `Init` and `writeLoop`.
- `Wrappers` (wrappers.dfy) holds the `Option` and `Result` datatypes.

Each state-changing operation is a method on a class. It is tied by its postcondition to a
function on values: `Put`, `EncodeStep`, `ArrayStep`, `ArrayRun`, `PlainRun` or `SessionRun`.
The lemmas state what the source promises about those functions. The channel that feeds
`writeLoop` becomes a finite sequence of status lines. The goroutine becomes a loop that runs
to the end of that sequence. Returning from the loop stands for closing `q`.

Three points of the code's behaviour shape the model:

- `count` is advanced before the delimiter is written (go-i3barjson.go:84-89), so a first call
  whose write fails is never retried with `[`. When that write delivers nothing, the array is
  never opened. When it delivers its `[`, the next value follows `[,`, which no JSON reader
  accepts. While no later write fails, every later value follows a `,` and the next call
  returns nil (`FailedOpenIsNotRetried`, `OpenBracketThenComma`).
- Errors in `writeLoop` are only printed, and the loop carries on (go-i3barjson.go:142-145).
  They are not returned to whoever sent the status line.
- `json.Encoder` ends every value with a newline. Each array element on the wire is therefore
  followed by `\n`, before the next `,` (`WireExample`).

String escaping follows Go 1.22 and later, which writes `\b` and `\f` for backspace and form
feed. Earlier releases wrote `\u0008` and `\u000c`.

## Model

| member | source | states |
|---|---|---|
| Json.Select | go-i3barjson.go:33-45 | The members `json.Marshal` writes for tagged fields: each field in declaration order, dropped when its tag says omitempty and its value is empty. What it computes is stated by `SelectLookupAt`, `SelectLookupAbsent` and `SelectKeepsOrder`. |
| Json.SelectLookupAt | go-i3barjson.go:33-45 | For a struct whose tag keys are distinct, each field's key is missing from the output exactly when the tag says omitempty and the value is "", 0 or false. Otherwise the key carries the field's value. |
| Json.SelectLookupDeclared | go-i3barjson.go:33-45 | The same for a struct declared with distinct keys, in order: the i-th declared key is missing exactly when its field is omitted, and otherwise carries the field's value. |
| Json.SelectLookupAbsent | go-i3barjson.go:33-45 | A key that no tag declares never appears in the output. |
| Json.SelectKeepsOrder | go-i3barjson.go:33-45 | The emitted keys appear in the fields' declaration order. |
| Json.EscapeChar | go-i3barjson.go:94 | Every character of an escape can stand inside a JSON string with HTML escaping on: no control character, no `<`, `>`, `&`, U+2028 or U+2029. A plain character other than `"` and `\` is kept as it is. |
| Json.EscapeCharDecodes | go-i3barjson.go:94 | Each escaped character reads back as itself: `"` and `\` get a backslash, `\n`, `\r`, `\t`, `\b` and `\f` their short escapes, other control characters, `<`, `>`, `&`, U+2028 and U+2029 a `\u` escape with their code. Nothing that follows is swallowed. |
| Json.Escape | go-i3barjson.go:94 | Every character of an escaped string body is safe, and a string that needs no escaping is unchanged. |
| Json.EscapeDecodes | go-i3barjson.go:94 | An escaped body reads back as the original string, so no `"` or `\` in it is left bare. |
| Json.QuoteDecodes | go-i3barjson.go:94 | A quoted string reads back as the original string: its first bare `"` is the closing one. |
| Json.NatText | go-i3barjson.go:94 | A natural number is written as a non-empty run of decimal digits with no leading zero. |
| Json.NatTextValue | go-i3barjson.go:94 | The digits written for a natural number denote that number. |
| Json.IntText | go-i3barjson.go:94 | An integer is written with a leading `-` exactly when it is negative, and with decimal digits after that. |
| Json.IntTextValue | go-i3barjson.go:94 | The text written for an integer denotes that integer, sign included. |
| Json.ObjectOneLine | go-i3barjson.go:123-127 | A compact JSON object never contains a newline, whatever its strings hold. |
| Json.ArrayOneLine | go-i3barjson.go:94 | An array of one-line elements is itself one line. |
| Json.Each | go-i3barjson.go:53 | Each element is rendered in turn, in order. |
| Stream.Put | go-i3barjson.go:89 | A write succeeds exactly when the writer's next answer is a full write, and then appends all of its text. Every write consumes one scripted answer. |
| Stream.PutKeepsPrefix | go-i3barjson.go:89 | A write, failed or not, only appends, and appends at most its own text. |
| Stream.PutWithoutFailure | go-i3barjson.go:89 | On a writer that never fails, a write appends its whole text and reports no error. |
| Stream.Writer.Write | go-i3barjson.go:89 | The writer's new contents and script, and the error returned, are those `Put` gives. |
| Stream.EncodeStep | go-i3barjson.go:94 | Once an error is remembered, `Encode` returns it and writes nothing. Otherwise the call succeeds exactly when the write does, the text is appended on success, and the returned error is the one remembered. |
| Stream.EncodeKeepsPrefix | go-i3barjson.go:94 | An `Encode` only appends, and appends at most the value's text. |
| Stream.ValueEncoder.constructor | go-i3barjson.go:104 | A new `json.Encoder` wraps the given writer and remembers no error. |
| Stream.ValueEncoder.Encode | go-i3barjson.go:94 | The writer's new state, the remembered error and the returned error are those `EncodeStep` gives for the value's JSON plus a newline. |
| Stream.Encodings | go-i3barjson.go:94 | The text for each value is its JSON followed by a newline, one per value, in order. |
| I3barProtocol.HeaderTags | go-i3barjson.go:20-25 | The `Header` fields with their tags, in declaration order. Their wire shape is stated by `HeaderWireShape`. |
| I3barProtocol.HeaderJson | go-i3barjson.go:123 | `json.Marshal(h)`: `null` for a nil header, otherwise the header object. Stated by `HeaderWireShape`, `HeaderRoundTrip` and `HeaderIsOneLine`. |
| I3barProtocol.HeaderLine | go-i3barjson.go:123-127 | The header JSON followed by the newline `fmt.Fprintln` adds, written in one call. Stated by `HeaderIsOneLine` and both `HeaderComesFirst` lemmas. |
| I3barProtocol.HeaderWireShape | go-i3barjson.go:20-25 | `version` is always sent. `stop_signal` and `cont_signal` are sent only when non-zero, and `click_events` only when true. Keys keep declaration order. go-i3bar.go:11-16 declares fields of the same types with the same tags, under other Go names. |
| I3barProtocol.HeaderRoundTrip | go-i3barjson.go:20-25 | Decoding the header's members gives the header back, so omitting empty fields loses nothing. |
| I3barProtocol.VersionOnlyHeader | go-i3barjson.go:21-24 | A header holding only a version is sent as the `version` member alone. |
| I3barProtocol.BlockKeysDistinct | go-i3barjson.go:33-45 | No two block fields share a JSON key; go-i3bar.go:28-40 declares the same keys in the same order. |
| I3barProtocol.BlockMemberAt | go-i3barjson.go:33-45 | For a struct declared with the block keys in order, as both revisions' `Block` is (go-i3bar.go:28-40 too), the i-th key is absent exactly when its tag omits the field's value, and otherwise carries it. |
| I3barProtocol.HeaderIsOneLine | go-i3barjson.go:123-130 | The header is written as exactly one line: its only newline is the last character. |
| I3barJson.BlockTags | go-i3barjson.go:33-45 | The `Block` fields with their tags, in declaration order, `min_width` a string. Stated by `BlockKeysDeclared` and `BlockWireShape`. |
| I3barJson.BlockWireShape | go-i3barjson.go:33-45 | `full_text` and `separator` are always sent. Every other key is sent only when its field is non-empty, non-zero or true, and then carries that field's value. |
| I3barJson.BlockRequiredMembers | go-i3barjson.go:34-42 | `full_text` and `separator` are always sent, with the block's values. |
| I3barJson.BlockStyleMembers | go-i3barjson.go:35-38 | `short_text`, `color`, `min_width` (a string here) and `align` are sent only when non-empty. |
| I3barJson.BlockNameMembers | go-i3barjson.go:39-44 | `name`, `instance` and `markup` are sent only when non-empty. |
| I3barJson.BlockFlagMembers | go-i3barjson.go:41-43 | `urgent` is sent only when true, and `separator_block_width` only when non-zero. |
| I3barJson.BlockKeysDeclared | go-i3barjson.go:33-45 | The block's tag keys are, in order, the eleven protocol keys. |
| I3barJson.BlockKeyOrderKept | go-i3barjson.go:33-45 | The keys a block sends appear in declaration order. |
| I3barJson.BlockRoundTrip | go-i3barjson.go:33-45 | Decoding a block's members gives the block back. |
| I3barJson.ElementJson | go-i3barjson.go:53 | A nil block pointer marshals to `null`, any other to the block's object. Stated by `LineIsOneLine` and `BlockWireShape`. |
| I3barJson.LineJson | go-i3barjson.go:94 | What `Encode` marshals for a status line: the array of its elements, in order. Stated by `LineIsOneLine` and `WireExample`. |
| I3barJson.LineIsOneLine | go-i3barjson.go:53 | A status line of block pointers, nil ones included, is written as one line. The newline `json.Encoder` adds is therefore the only one in each value. |
| I3barJson.Delimiter | go-i3barjson.go:84-87 | `[` before the first value and `,` before every later one. Stated by `StepCases`, `RunWithoutFailures` and `FramedIsOpenArray`. |
| I3barJson.ArrayStep | go-i3barjson.go:83-100 | One `jsonArrayEncoder.Encode` call as a function of the encoder's state. Stated case by case by `StepCases`, with `CountIsFlag`, `StepGrows` and `StepWithoutFailures`. |
| I3barJson.StepCases | go-i3barjson.go:83-100 | Each case of one `Encode` call. `count` becomes 1. A failed delimiter write returns its error, writes nothing more and leaves the remembered error alone. With an error remembered, only the delimiter is written and that error is returned. Otherwise the value follows the delimiter, and the call fails exactly when the value write does. |
| I3barJson.ArrayEncoder.constructor | go-i3barjson.go:103-105 | A new encoder has `count` 0, wraps the given writer and remembers no error. |
| I3barJson.ArrayEncoder.Encode | go-i3barjson.go:83-100 | The new `count`, writer state and remembered error, and the returned error, are those `ArrayStep` gives. |
| I3barJson.ArrayRun | go-i3barjson.go:139-149 | Each call of a run returns exactly one result. |
| I3barJson.CountIsFlag | go-i3barjson.go:84-88 | `count` stays within 0..1, and is 1 once any call has been made, whether or not that call's writes succeeded. |
| I3barJson.StepGrows | go-i3barjson.go:83-100 | One call only appends to the writer. |
| I3barJson.RunGrows | go-i3barjson.go:83-100 | A run of calls only appends. Nothing written earlier is taken back. |
| I3barJson.RunComposes | go-i3barjson.go:83-100 | Running calls on `xs` and then on `ys` is running them on `xs + ys`. |
| I3barJson.EarlierCallsStand | go-i3barjson.go:83-100 | Later calls leave what earlier calls wrote, and the errors those calls returned, unchanged. |
| I3barJson.StepWithoutFailures | go-i3barjson.go:83-100 | When both writes succeed, one call appends its delimiter and then the value's text. |
| I3barJson.RunWithoutFailures | go-i3barjson.go:83-105 | With no failing write, a fresh encoder leaves the writer holding `[` e1 `,` e2 ... `,` eN, with no `]`. `count` ends at 1 (0 if there were no calls), and no call reports an error. |
| I3barJson.RunOfSuccessfulCalls | go-i3barjson.go:83-105 | After calls on a fresh encoder that all returned nil, the writer holds exactly `[` e1 `,` e2 ... `,` eN, whatever later writes do, and no error is remembered. |
| I3barJson.FramedIsOpenArray | go-i3barjson.go:83-100 | That output is the JSON array of the elements with only its closing `]` missing. |
| I3barJson.RunAfterOpen | go-i3barjson.go:84-88 | Once the array is open, every call writes `,` and then its value. |
| I3barJson.FailedOpenIsNotRetried | go-i3barjson.go:84-92 | `count` advances before the `[` is written. If the first write fails, that call returns the error and `[` is never written again. The writer keeps nothing or the whole `[`. While no later write fails, every later value follows a `,` and every later call returns nil. |
| I3barJson.OpenBracketThenComma | go-i3barjson.go:84-92 | If that failed first write delivered its `[` and the next writes succeed, the second value follows `[,` on the wire, which is not JSON, and the second call returns nil. |
| I3barJson.StickyStep | go-i3barjson.go:89-97 | After a failed value write, a call whose `,` write succeeds writes only that `,` and returns the remembered error. |
| I3barJson.StickyValueError | go-i3barjson.go:89-97 | After a failed value write, while no later write fails, every later call writes only `,` and returns that same error. |
| I3barJson.SessionRun | go-i3barjson.go:112-149 | `Init` then the write loop: it succeeds exactly when the header write does. A failed header write makes `Init` return "error: couldn't write to Writer" in place of the writer's own error, and the writer holds only what that write delivered. On success there is one result per status line. |
| I3barJson.HeaderComesFirst | go-i3barjson.go:123-134 | The header line is written before anything else. If that write fails, the writer holds at most part of it and no status line is ever written. |
| I3barJson.SessionWithoutFailures | go-i3barjson.go:112-149 | With no failing write, the writer ends up holding the header line followed by the open array of the encoded status lines, and every call succeeds. |
| I3barJson.WireExample | go-i3barjson.go:112-149 | Two status lines appear on the wire as the header line, `[`, the first line's JSON, a newline, `,`, the second line's JSON and a newline. |
| I3barJson.Init | go-i3barjson.go:112-135 | A nil writer is refused with "Writer required" before anything else. Otherwise the header JSON and a newline are written in one call. A failed write gives "couldn't write to Writer". Success returns a fresh encoder with `count` 0 on that writer, which marshals status lines. |
| I3barJson.WriteLoop | go-i3barjson.go:139-149 | Status lines are encoded in order and the loop keeps going after an error. It returns one result per line only after every line is handled, and the encoder ends as `ArrayRun` says. |
| I3barJson.Session | go-i3barjson.go:112-149 | A nil writer gives "Writer required". Otherwise the writer and the outcome are those `SessionRun` gives. |
| I3bar.BlockTags | go-i3bar.go:28-40 | The `Block` fields with their tags, in declaration order, `min_width` an int. Stated by `BlockKeysDeclared` and `BlockWireShape`. |
| I3bar.BlockWireShape | go-i3bar.go:28-40 | `full_text` and `separator` are always sent. `min_width` (an int here) and `separator_block_width` are sent only when non-zero, `urgent` only when true, and the string fields only when non-empty. |
| I3bar.BlockRequiredMembers | go-i3bar.go:29-37 | `full_text` and `separator` are always sent. |
| I3bar.BlockNumberMembers | go-i3bar.go:32-38 | `min_width` and `separator_block_width` are sent only when non-zero, and `urgent` only when true. |
| I3bar.BlockStyleMembers | go-i3bar.go:30-33 | `short_text`, `color` and `align` are sent only when non-empty. |
| I3bar.BlockNameMembers | go-i3bar.go:34-39 | `name`, `instance` and `markup` are sent only when non-empty. |
| I3bar.BlockKeysDeclared | go-i3bar.go:28-40 | The block's tag keys are, in order, the eleven protocol keys. |
| I3bar.BlockKeyOrderKept | go-i3bar.go:28-40 | The keys a block sends appear in declaration order. |
| I3bar.BlockRoundTrip | go-i3bar.go:28-40 | Decoding a block's members gives the block back. |
| I3bar.BlockJson | go-i3bar.go:109 | A block marshals to its object. Stated by `BlockWireShape` and `BlockRoundTrip`. |
| I3bar.LineJson | go-i3bar.go:109 | What `Encode` marshals for a status line: the array of its blocks, in order. Stated by `LineIsOneLine` and `WireExample`. |
| I3bar.LineIsOneLine | go-i3bar.go:52 | A status line of blocks is written as one line. |
| I3bar.PlainRun | go-i3bar.go:106-113 | Each call of a run returns exactly one result. |
| I3bar.PlainRunWithoutFailures | go-i3bar.go:106-113 | With no failing write, the writer holds the encoded values one after another, with no `[`, no `,` and nothing between them, and no call reports an error. |
| I3bar.PlainRunOfSuccessfulCalls | go-i3bar.go:106-113 | After calls that all returned nil, the writer holds exactly their values one after another, whatever later writes do, and no error is remembered. |
| I3bar.PlainRunGrows | go-i3bar.go:106-113 | A run of calls only appends. Nothing written earlier is taken back. |
| I3bar.PlainRunAfterError | go-i3bar.go:107-112 | Once an error is remembered, nothing more is written and every call returns that error. |
| I3bar.PlainRunComposes | go-i3bar.go:106-113 | Running calls on `xs` and then on `ys` is running them on `xs + ys`. |
| I3bar.FirstFailureIsFinal | go-i3bar.go:107-112 | The first failing write ends the output for good. The writer keeps what that write delivered, and that call and every later one return its error. |
| I3bar.SessionRun | go-i3bar.go:81-116 | `Init` then the write loop: it succeeds exactly when the header write does. A failed header write makes `Init` return "error: couldn't write to Writer" in place of the writer's own error. On success there is one result per status line. |
| I3bar.HeaderComesFirst | go-i3bar.go:92-103 | The header line is written before anything else. If that write fails, the writer holds at most part of it and no status line is ever written. |
| I3bar.SessionWithoutFailures | go-i3bar.go:81-116 | With no failing write, the writer holds the header line and then each encoded status line, with nothing between them. |
| I3bar.WireExample | go-i3bar.go:81-116 | Two status lines appear on the wire as the header line followed by each line's JSON and a newline, with no array around them. |
| I3bar.Init | go-i3bar.go:81-104 | A nil writer is refused with "Writer required". Otherwise the header line is written in one call. A failed write gives "couldn't write to Writer". Success returns a fresh `json.Encoder` on that writer that remembers no error. |
| I3bar.WriteLoop | go-i3bar.go:106-116 | Status lines are encoded in order and the loop keeps going after an error. It returns one result per line, and the encoder ends as `PlainRun` says. |
| I3bar.Session | go-i3bar.go:81-116 | A nil writer gives "Writer required". Otherwise the writer and the outcome are those `SessionRun` gives. |

## Left out

- Goroutines and channels (go-i3barjson.go:131-133, go-i3bar.go:101-102): the status channel is a finite sequence, and the goroutine is a loop run to the end of it. Closing `q` is the loop returning.
- The `io.Reader` and click-event path and the `Click` type: the source leaves them unimplemented.
- The `String()` pretty-printers and `marshalIndent`: debugging helpers over `json.MarshalIndent`.
- `fmt.Printf` of errors in the write loop: each call's error is kept in the loop's result list. Output to stdout is not modelled.
- The header marshal failure ("couldn't parse Header"): `json.Marshal` cannot fail on a struct of ints and bools, so this branch is not modelled.
- A nil `StatusLine` slice: Go marshals it to `null` and an empty slice to `[]`. The model has only the empty sequence, which is written as `[]`.
- Integer width: Go's `int` is 64 bits, and the model's integers are unbounded. Values are only formatted, never computed with.
- Invalid UTF-8: Dafny strings hold Unicode scalar values, so Go's replacement of invalid bytes by U+FFFD does not arise.
- A writer that returns fewer bytes than asked without an error: the `io.Writer` contract forbids it. A failing write may keep any prefix of its input, counted in characters.
- UTF-8 bytes on the writer: the writer holds characters, not bytes. `encoding/json` writes non-ASCII text raw as UTF-8, so a failing Go write can keep a byte prefix that ends inside a multi-byte character. A partial write that splits a character is not modelled. The proved properties (append-only output, the remembered error, the header coming first) do not depend on where a failed write stops.
- JSON decoding: `DecodeHeader`, `DecodeBlock`, `Unescape`, `DigitsValue` and `IntValue` read the output back only to state the round trips. They are not a JSON parser. `Unescape` refuses a `\u` escape naming half of a surrogate pair, which the escaper never writes.
