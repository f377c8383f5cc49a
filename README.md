# rbx_xml property codec core, in Dafny

This project models two small parts of `rbx_xml`, the XML codec for Roblox
DOM properties, and proves properties of them.

- **Character-data emitter** (`rbx_xml/src/serializer_core.rs`, module
  `SerializerCore`). `write_characters_or_cdata` decides how a string goes
  out. If its first or last character is whitespace, it is written as a
  `CData` event. Otherwise, including for the empty string, it is written as
  a plain `Characters` event. `XmlEventWriter` wraps this rule around a
  reusable `character_buffer`. `write_tag_characters` and `write_tag_array`
  write start-element / text / end-element triples.
  - The writer is the class `XmlEventWriter` with the fields `events` (the
    xml-rs output, as events) and `characterBuffer`.
  - Whether the underlying xml-rs writer accepts an event is decided by a
    `Sink`: a function of the events written so far and the offered event.
    It gives either success or a `WriterError`, which covers I/O errors and
    xml-rs's own checks.
  - Each method's `ensures` ties its new state and result to a pure step
    function of the old state (`WriteStep`, `CharactersStep`,
    `TagCharactersStep`, `TagArrayStep`).
  - `Attempt` is a separate reference definition: write the planned events
    in order and stop at the first refusal. Lemmas prove that the tag
    writers behave as `Attempt` on their triples.
- **Type dispatch registry** (`rbx_xml/src/types/mod.rs`, module `Types`).
  `declare_rbx_types!` expands one list of entries (BinaryString, Bool,
  CFrame, String) into two matches.
  - `read_value_xml` dispatches on a tag name. An unknown tag is an
    `UnknownPropertyType` error.
  - `write_value_xml` dispatches on the `Variant` kind. An unregistered kind
    is an `UnsupportedPropertyType` error.
  - The per-type handlers (`XML_TAG_NAME`, `read_xml`, `write_xml`) are the
    fields of a `Handlers` value, so every fact holds whatever they do.
  - The entry list is `Entries`. First-match lookup in it is `FirstArm` /
    `ReadArm`. Both dispatch functions are proved to agree with it.
- `DomTypes` holds the `rbx_dom_weak` value types the dispatch needs: the
  `Variant` union, with the four registered kinds plus several kinds that
  have no handler, and `Variant::ty()`. `Wrappers` holds `Option` and
  `Result`.

`write_characters` returns through `?` at `serializer_core.rs:74`, before the
`clear()` at line 75. So a failed write leaves the formatted text in the
buffer, and the next `write_characters` emits that text in front of its own
(lemma `StaleTextAfterFailure`). No tag is read without also being written:
the protected-string arm that would do so is commented out
(`types/mod.rs:65-66`).

## Model

| member | source | states |
|---|---|---|
| `SerializerCore.FromWriterError` | rbx_xml/src/serializer_core.rs:27-34 | `Io(inner)` becomes `IoError(inner)`; every other writer error becomes `XmlError` of that same error; the conversion never produces `Message` |
| `SerializerCore.FromWriterErrorInjective` | rbx_xml/src/serializer_core.rs:27-34 | distinct writer errors convert to distinct `EncodeError`s |
| `SerializerCore.HasOuterWhitespace` | rbx_xml/src/serializer_core.rs:109-119 | the match on first/last char is true iff the string is non-empty and its first or last character is whitespace |
| `SerializerCore.OuterWhitespaceCases` | rbx_xml/src/serializer_core.rs:115-119 | the empty string has no outer whitespace; for a single character, that character decides alone |
| `SerializerCore.BoundaryDecides` | rbx_xml/src/serializer_core.rs:109-119 | two non-empty strings with the same first and last characters get the same event kind, whatever their interior or length |
| `SerializerCore.CharacterEvent` | rbx_xml/src/serializer_core.rs:121-125 | the chosen event is `Characters` or `CData`, carries the value verbatim, and is `CData` exactly when there is outer whitespace |
| `SerializerCore.CharacterEventExamples` | rbx_xml/src/serializer_core.rs:115-125 | `" a "`, `"\na\n"`, `" "`, `"a\t"` go out as CDATA; `"abc"`, `"a b"` and `""` go out as characters |
| `SerializerCore.Attempt` | rbx_xml/src/serializer_core.rs:94-96 | writing planned events in order and stopping at the first refusal: on success all are appended; on failure exactly the ones before the refused event are, and the error is the sink's verdict on that event; the sink accepted every event that was appended |
| `SerializerCore.WriteStep` | rbx_xml/src/serializer_core.rs:59-63 | one write is `Attempt` on a one-event plan, and it leaves the buffer alone |
| `SerializerCore.CharactersOrCDataStep` | rbx_xml/src/serializer_core.rs:108-128 | on success exactly one event, `CharacterEvent(value)`, is appended; on failure nothing is, and the sink's error is returned; the buffer is untouched |
| `SerializerCore.CharactersStep` | rbx_xml/src/serializer_core.rs:72-77 | emits what writing `buffer + text` as characters-or-CDATA emits; on success the buffer is empty, on failure it holds `buffer + text` |
| `SerializerCore.CharactersAsString` | rbx_xml/src/serializer_core.rs:66-77 | from an empty buffer, `write_characters` emits the same event and result as `write_string` on the value's text, and leaves the buffer empty on success |
| `SerializerCore.BufferReuseSeparatesValues` | rbx_xml/src/serializer_core.rs:70-77 | two successful `write_characters` calls from an empty buffer append two separate events, one per value, and leave the buffer empty |
| `SerializerCore.StaleTextAfterFailure` | rbx_xml/src/serializer_core.rs:73-75 | after a failed `write_characters`, the next one emits the stale text followed by its own |
| `SerializerCore.TagCharactersStep` | rbx_xml/src/serializer_core.rs:82-86 | on success exactly `[StartElement(tag), CharacterEvent(buffer + text), EndElement]` is appended and the buffer is empty; on failure fewer than three events are appended |
| `SerializerCore.TagCharactersIsAttempt` | rbx_xml/src/serializer_core.rs:82-86 | `write_tag_characters` behaves as `Attempt` on its triple: written in order, stopping at the first failure |
| `SerializerCore.TagTriples` | rbx_xml/src/serializer_core.rs:91-99 | the events planned for a tag array number `3 * |tags|` |
| `SerializerCore.TagTriplesAt` | rbx_xml/src/serializer_core.rs:94-96 | the i-th triple of the plan is the tag triple of `(tags[i], values[i])`, in index order |
| `SerializerCore.TagArrayStep` | rbx_xml/src/serializer_core.rs:91-99 | requires as many tags as values; on success `3 * |values|` events are appended and the buffer is empty (unchanged for an empty array) |
| `SerializerCore.TagArrayStopsAfterFailure` | rbx_xml/src/serializer_core.rs:94-96 | once a prefix of the array fails, the whole call returns that prefix's state and error: nothing later is written |
| `SerializerCore.TagArrayIsAttempt` | rbx_xml/src/serializer_core.rs:91-99 | from an empty buffer, `write_tag_array` is `Attempt` on all tag triples in index order |
| `SerializerCore.TagArraySuccess` | rbx_xml/src/serializer_core.rs:91-99 | from an empty buffer, success appends exactly the tag triples in index order and leaves the buffer empty |
| `SerializerCore.TagArrayFailure` | rbx_xml/src/serializer_core.rs:94-96 | from an empty buffer, failure leaves exactly the planned events before the refused one, the sink accepted each of those, and the error is the sink's verdict on that event, so the reported refusal is the first |
| `SerializerCore.XmlEventWriter.FromOutput` | rbx_xml/src/serializer_core.rs:45-56 | a new writer has no events and an empty buffer |
| `SerializerCore.XmlEventWriter.Write` | rbx_xml/src/serializer_core.rs:59-63 | the new state and result are `WriteStep` of the old state |
| `SerializerCore.XmlEventWriter.WriteCharactersOrCData` | rbx_xml/src/serializer_core.rs:108-128 | the new state and result are `CharactersOrCDataStep` of the old state; only `events` may change |
| `SerializerCore.XmlEventWriter.WriteString` | rbx_xml/src/serializer_core.rs:66-68 | the same as `WriteCharactersOrCData` on the value |
| `SerializerCore.XmlEventWriter.WriteCharacters` | rbx_xml/src/serializer_core.rs:72-78 | the new state and result are `CharactersStep`; on success one `CharacterEvent(oldBuffer + text)` is appended and the buffer is empty |
| `SerializerCore.XmlEventWriter.WriteTagCharacters` | rbx_xml/src/serializer_core.rs:82-86 | the new state and result are `TagCharactersStep`; on success start, text and end events are appended in that order |
| `SerializerCore.XmlEventWriter.WriteTagArray` | rbx_xml/src/serializer_core.rs:91-99 | requires `|values| == |tags|`; the new state and result are `TagArrayStep`; from an empty buffer the output is `Attempt` on the tag triples |
| `Types.Entries` | rbx_xml/src/types/mod.rs:104-108 | the entry list has the four registered kinds, in the invocation's order, each paired with its own handler's tag name |
| `Types.FirstArm` | rbx_xml/src/types/mod.rs:62-73 | returns the first entry whose tag equals the name, with no earlier entry having it, or none iff no entry has it |
| `Types.ReadArmCases` | rbx_xml/src/types/mod.rs:62-64 | the first-match lookup in the entry list tries the arms in order BinaryString, Bool, CFrame, String |
| `Types.ReadValueXml` | rbx_xml/src/types/mod.rs:55-75 | a tag with no arm gives `UnknownPropertyType(name)`, with exactly the input name, at the reader's position; the first matching arm wraps its handler's value in the matching variant, or passes the handler's error on unchanged; every `Ok` value's kind is the kind of the arm that took the tag |
| `Types.WriteValueXml` | rbx_xml/src/types/mod.rs:79-100 | an unregistered kind writes nothing and gives `UnsupportedPropertyType(value.ty())`; a registered kind returns its handler's `write_xml` emission for the inner value under the given property name |
| `Types.ReadKindIsRegistered` | rbx_xml/src/types/mod.rs:62-63 | every kind the read match produces has a write arm |
| `Types.TagNameRoundTrip` | rbx_xml/src/types/mod.rs:63 | with unique tag names, each registered kind is read under its own handler's tag name |
| `Types.ReadArmTagName` | rbx_xml/src/types/mod.rs:63 | for any handlers, a tag that reads a kind is a registered kind's own tag name |
| `Types.ReadWriteSymmetric` | rbx_xml/src/types/mod.rs:50-108 | with unique tag names, a kind is writable iff some tag name reads it |
| `Types.ShadowedArm` | rbx_xml/src/types/mod.rs:62-63 | reading is first-match: if Bool's tag repeats BinaryString's, no tag reads a Bool |
| `Types.ReadValueIsWritable` | rbx_xml/src/types/mod.rs:62-86 | every value `read_value_xml` returns has a registered kind, so `write_value_xml` dispatches it to a handler |
| `Types.DispatchIgnoresContext` | rbx_xml/src/types/mod.rs:55-100 | neither dispatch consults the threaded state, and the read does not consult the instance id or property name |

## Left out

- The xml-rs writer (`EventWriter`, `EmitterConfig`, indentation, escaping of markup characters, byte output) is a foreign library. Its output is the event sequence, and its failures are the `Sink` function.
- Partial output on failure: a write the sink refuses appends no event. Bytes an I/O error may leave half-written are not modelled.
- `Display` and `write!(...).unwrap()`: formatting is a total function parameter `toText`. A `Display` implementation that fails and makes `unwrap` panic is not modelled.
- `char::is_whitespace` is written out as the Unicode `White_Space` set. Only `CharacterEventExamples` depends on the set (space, tab and newline are in it; `a`, `b` and `c` are not).
- The `write_tag_array` length `assert_eq!` is a precondition (`requires |values| == |tags|`), not a modelled panic.
- XmlEventWriter methods: the generic `write` accepts any xml-rs event; the model's events are only the four kinds this core emits.
- SerializerCore.TagArrayIsAttempt: assumes an empty buffer on entry; with stale text in the buffer, the first triple carries it; only `TagArrayStep`'s definition covers that case, and no lemma states its events.
- SerializerCore.TagArraySuccess: assumes an empty buffer on entry, for the same reason.
- SerializerCore.TagArrayFailure: assumes an empty buffer on entry, for the same reason.
- `EncodeError::Message` and the hidden `__Nonexhaustive` variant are never built by this core; the `failure` derives are error formatting only.
- The per-type handlers (`binary_string`, `bool`, `cframe`, `strings` submodules) are not part of this model. They are arbitrary functions, so no value round-trip is claimed. CFrame components are kept as float bit patterns.
- Types.ReadValueXml: how `read_xml` advances the `XmlEventReader` is not modelled; the reader is a value the handler receives.
- Types.WriteValueXml: a handler's effect on the writer is the `Emission` it returns (events and result); it is not applied to an `XmlEventWriter` object, and a handler sees no writer state, so its emission cannot depend on the events already written or on an I/O failure of the writer.
- `crate::error`, `XmlEventReader::error` and `XmlEventWriter::error` are not part of this model. A `DecodeError` is its kind plus the reader position; an `EncodeError` is its kind. Kinds raised only by handlers are `Other`.
- The commented-out arms (protected strings, referents, shared strings, BrickColor and the commented-out types) have no executable behaviour. Their kinds that appear in `Variant` are unregistered.
- `Variant` holds only some of `rbx_dom_weak`'s kinds: the four registered ones and a handful of unregistered ones.
- Single-threaded use is assumed; the buffer is never shared.
