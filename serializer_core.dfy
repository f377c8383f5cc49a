/**
 * The XML writing core of rbx_xml: the rule that chooses between a plain
 * `Characters` event and a `CData` event for a piece of text, and the
 * `XmlEventWriter` that wraps an xml-rs event writer together with a reusable
 * character buffer.
 *
 * The xml-rs writer itself is not modelled. Its output is the sequence of
 * events written so far, and whether one more write fails (an I/O error or
 * one of xml-rs's own checks) is decided by a `Sink`: a function of the
 * events written so far and the event offered. A write that fails appends
 * nothing.
 */
module SerializerCore {
  import opened Wrappers

  // ---------------------------------------------------------------------
  // Errors
  // ---------------------------------------------------------------------

  /** An `std::io::Error`, kept opaque. */
  datatype IoFailure = IoFailure(description: string)

  /** The error type of the xml-rs event writer, `xml::writer::Error`. */
  datatype WriterError =
    | Io(inner: IoFailure)
    | DocumentStartAlreadyEmitted
    | LastElementNameNotAvailable
    | EndElementNameIsNotEqualToLastStartElementName
    | EndElementNameIsNotSpecified

  /** The error type of this module, `EncodeError`. */
  datatype EncodeError =
    | IoError(io: IoFailure)
    | XmlError(xml: WriterError)
    | Message(message: string)

  /**
   * The conversion `From<xml::writer::Error> for EncodeError`: an I/O error
   * is unwrapped into `IoError`, every other writer error is kept whole in
   * `XmlError`, and no conversion produces a `Message`.
   */
  function FromWriterError(error: WriterError): (r: EncodeError)
    ensures r.IoError? <==> error.Io?
    ensures error.Io? ==> r.io == error.inner
    ensures !error.Io? ==> r == XmlError(error)
    ensures !r.Message?
  {
    match error
    case Io(inner) => IoError(inner)
    case _ => XmlError(error)
  }

  /** The conversion loses nothing: distinct writer errors stay distinct. */
  lemma FromWriterErrorInjective(a: WriterError, b: WriterError)
    ensures FromWriterError(a) == FromWriterError(b) ==> a == b
  {
  }

  // ---------------------------------------------------------------------
  // Events and the characters-or-CDATA rule
  // ---------------------------------------------------------------------

  /**
   * The xml-rs writer events this core emits. `EndElement` carries no name:
   * `XmlEvent::end_element()` closes whichever element is open.
   */
  datatype XmlEvent =
    | StartElement(name: string)
    | EndElement
    | Characters(text: string)
    | CData(text: string)

  /**
   * Rust's `char::is_whitespace`: the characters with the Unicode
   * `White_Space` property.
   */
  predicate IsWhitespace(c: char)
  {
    || c == ' '
    || '\t' <= c <= '\r'
    || c == '\U{85}'
    || c == '\U{A0}'
    || c == '\U{1680}'
    || '\U{2000}' <= c <= '\U{200A}'
    || c == '\U{2028}'
    || c == '\U{2029}'
    || c == '\U{202F}'
    || c == '\U{205F}'
    || c == '\U{3000}'
  }

  /** `value.chars().next()`. */
  function FirstChar(value: string): (r: Option<char>)
  {
    if value == "" then None else Some(value[0])
  }

  /** `value.chars().next_back()`. */
  function LastChar(value: string): (r: Option<char>)
  {
    if value == "" then None else Some(value[|value| - 1])
  }

  /**
   * Whether `value` has whitespace at either end that a plain `Characters`
   * event would not preserve. Written as the source's match on the first and
   * last character; the ensures clause states the rule directly.
   */
  function HasOuterWhitespace(value: string): (b: bool)
    ensures b <==> value != "" && (IsWhitespace(value[0]) || IsWhitespace(value[|value| - 1]))
  {
    match (FirstChar(value), LastChar(value))
    case (Some(first), Some(last)) => IsWhitespace(first) || IsWhitespace(last)
    case (Some(c), None) => IsWhitespace(c)
    case (None, Some(c)) => IsWhitespace(c)
    case (None, None) => false
  }

  /**
   * The event `write_characters_or_cdata` emits for `value`: it carries
   * `value` verbatim, and it is `CData` exactly when `value` has outer
   * whitespace.
   */
  function CharacterEvent(value: string): (e: XmlEvent)
    ensures e.Characters? || e.CData?
    ensures e.text == value
    ensures e.CData? <==> HasOuterWhitespace(value)
  {
    if HasOuterWhitespace(value) then CData(value) else Characters(value)
  }

  /** The empty string has no outer whitespace; a one-character string has it iff that character is whitespace. */
  lemma OuterWhitespaceCases(value: string)
    ensures value == "" ==> !HasOuterWhitespace(value)
    ensures |value| == 1 ==> (HasOuterWhitespace(value) <==> IsWhitespace(value[0]))
  {
  }

  /**
   * The choice of event kind depends on the first and last characters only:
   * neither the interior nor the length of the string matters.
   */
  lemma BoundaryDecides(a: string, b: string)
    requires a != "" && b != ""
    requires a[0] == b[0] && a[|a| - 1] == b[|b| - 1]
    ensures CharacterEvent(a).CData? == CharacterEvent(b).CData?
  {
  }

  /** Strings with whitespace at an end go out as CDATA; others, interior whitespace or not, as characters. */
  lemma CharacterEventExamples()
    ensures CharacterEvent(" a ") == CData(" a ")
    ensures CharacterEvent("\na\n") == CData("\na\n")
    ensures CharacterEvent(" ") == CData(" ")
    ensures CharacterEvent("a\t") == CData("a\t")
    ensures CharacterEvent("abc") == Characters("abc")
    ensures CharacterEvent("a b") == Characters("a b")
    ensures CharacterEvent("") == Characters("")
  {
  }

  // ---------------------------------------------------------------------
  // The writer's behaviour, as functions of its state
  // ---------------------------------------------------------------------

  /**
   * The outcome of offering `event` to the underlying writer after `written`:
   * `None` when the write succeeds, otherwise the error it fails with.
   */
  type Sink = (seq<XmlEvent>, XmlEvent) -> Option<WriterError>

  /** The state of an `XmlEventWriter`: the events written and `character_buffer`. */
  datatype WriterState = WriterState(events: seq<XmlEvent>, buffer: string)

  /** A writer state after an operation, and the operation's result. */
  datatype After = After(state: WriterState, result: Result<(), WriterError>)

  /** The events written and the result, without the buffer. */
  datatype Emitted = Emitted(events: seq<XmlEvent>, result: Result<(), WriterError>)

  /**
   * Reference behaviour of a writer that stops at the first failure: write
   * the `planned` events in order after `history`, and stop at the first one
   * the sink refuses, returning its error. On success every planned event is
   * written; on failure exactly the events before the refused one are.
   */
  function Attempt(sink: Sink, history: seq<XmlEvent>, planned: seq<XmlEvent>): (r: Emitted)
    decreases |planned|
    ensures |history| <= |r.events| <= |history| + |planned|
    ensures r.events == (history + planned)[..|r.events|]
    ensures r.result.Ok? <==> |r.events| == |history| + |planned|
    ensures r.result.Err? ==> sink(r.events, (history + planned)[|r.events|]) == Some(r.result.error)
    ensures forall j :: |history| <= j < |r.events| ==> sink((history + planned)[..j], (history + planned)[j]).None?
  {
    if planned == [] then Emitted(history, Ok(()))
    else
      match sink(history, planned[0])
      case Some(error) => Emitted(history, Err(error))
      case None =>
        assert history + [planned[0]] + planned[1..] == history + planned;
        Attempt(sink, history + [planned[0]], planned[1..])
  }

  /** Attempting `p + q` is attempting `p`, then, if that succeeded, `q`. */
  lemma {:induction false} AttemptAppend(sink: Sink, history: seq<XmlEvent>, p: seq<XmlEvent>, q: seq<XmlEvent>)
    decreases |p|
    ensures Attempt(sink, history, p + q)
         == (var a := Attempt(sink, history, p);
             if a.result.Err? then a else Attempt(sink, a.events, q))
  {
    if p == [] {
      assert p + q == q;
    } else {
      assert (p + q)[0] == p[0];
      assert (p + q)[1..] == p[1..] + q;
      if sink(history, p[0]).None? {
        AttemptAppend(sink, history + [p[0]], p[1..], q);
      }
    }
  }

  /** `EventWriter::write`: one event, written or refused. */
  function WriteStep(sink: Sink, s: WriterState, event: XmlEvent): (a: After)
    ensures Emitted(a.state.events, a.result) == Attempt(sink, s.events, [event])
    ensures a.state.buffer == s.buffer
  {
    match sink(s.events, event)
    case None => After(s.(events := s.events + [event]), Ok(()))
    case Some(error) => After(s, Err(error))
  }

  /**
   * `write_characters_or_cdata` (and `write_string`, which calls it): on
   * success exactly one event is appended, carrying `value` verbatim and
   * chosen by `CharacterEvent`; on failure nothing is appended and the
   * sink's error is returned. The buffer is not touched.
   */
  function CharactersOrCDataStep(sink: Sink, s: WriterState, value: string): (a: After)
    ensures a.state.buffer == s.buffer
    ensures a.result.Ok? <==> sink(s.events, CharacterEvent(value)).None?
    ensures a.result.Ok? ==> a.state.events == s.events + [CharacterEvent(value)]
    ensures a.result.Err? ==> a.state.events == s.events && sink(s.events, CharacterEvent(value)) == Some(a.result.error)
  {
    WriteStep(sink, s, CharacterEvent(value))
  }

  /**
   * `write_characters`: the value's text is appended to the buffer, the
   * buffer's contents are written as characters or CDATA, and the buffer is
   * cleared only if that write succeeded. A failed write leaves the text in
   * the buffer.
   */
  function CharactersStep(sink: Sink, s: WriterState, text: string): (a: After)
    ensures Emitted(a.state.events, a.result)
         == Emitted(CharactersOrCDataStep(sink, s, s.buffer + text).state.events,
                    CharactersOrCDataStep(sink, s, s.buffer + text).result)
    ensures a.result.Ok? ==> a.state.buffer == ""
    ensures a.result.Err? ==> a.state.buffer == s.buffer + text
  {
    var filled := s.(buffer := s.buffer + text);
    var written := CharactersOrCDataStep(sink, filled, filled.buffer);
    if written.result.Err? then written
    else After(written.state.(buffer := ""), Ok(()))
  }

  /**
   * From an empty buffer, `write_characters` emits what `write_string`
   * emits for the value's text, and on success leaves the buffer empty.
   */
  lemma CharactersAsString(sink: Sink, s: WriterState, text: string)
    requires s.buffer == ""
    ensures CharactersStep(sink, s, text).state.events == CharactersOrCDataStep(sink, s, text).state.events
    ensures CharactersStep(sink, s, text).result == CharactersOrCDataStep(sink, s, text).result
    ensures CharactersStep(sink, s, text).result.Ok? ==> CharactersStep(sink, s, text).state.buffer == ""
  {
    assert s.buffer + text == text;
  }

  /**
   * Buffer reuse: after a successful `write_characters`, the next one emits
   * its own text only, so consecutive values come out as separate events.
   */
  lemma BufferReuseSeparatesValues(sink: Sink, s: WriterState, first: string, second: string)
    requires s.buffer == ""
    requires CharactersStep(sink, s, first).result.Ok?
    requires CharactersStep(sink, CharactersStep(sink, s, first).state, second).result.Ok?
    ensures CharactersStep(sink, CharactersStep(sink, s, first).state, second).state
         == WriterState(s.events + [CharacterEvent(first), CharacterEvent(second)], "")
  {
    assert s.buffer + first == first;
    assert "" + second == second;
  }

  /**
   * After a failed `write_characters` the text stays in the buffer, so the
   * next `write_characters` emits the stale text followed by its own.
   */
  lemma StaleTextAfterFailure(sink: Sink, s: WriterState, first: string, second: string)
    requires CharactersStep(sink, s, first).result.Err?
    requires CharactersStep(sink, CharactersStep(sink, s, first).state, second).result.Ok?
    ensures CharactersStep(sink, CharactersStep(sink, s, first).state, second).state
         == WriterState(s.events + [CharacterEvent(s.buffer + first + second)], "")
  {
  }

  /** The three events `write_tag_characters` writes for `tag` and `text`. */
  function TagTriple(tag: string, text: string): (r: seq<XmlEvent>)
  {
    [StartElement(tag), CharacterEvent(text), EndElement]
  }

  /**
   * `write_tag_characters`: a start element named `tag`, the text of the
   * value (after whatever the buffer held) as characters or CDATA, and an end
   * element. On success exactly these three events are appended and the
   * buffer is empty; on failure fewer than three are appended.
   */
  function TagCharactersStep(sink: Sink, s: WriterState, tag: string, text: string): (a: After)
    ensures a.result.Ok? ==> a.state == WriterState(s.events + TagTriple(tag, s.buffer + text), "")
    ensures a.result.Err? ==> |s.events| <= |a.state.events| < |s.events| + 3
  {
    var started := WriteStep(sink, s, StartElement(tag));
    if started.result.Err? then started
    else
      var filled := CharactersStep(sink, started.state, text);
      if filled.result.Err? then filled
      else WriteStep(sink, filled.state, EndElement)
  }

  /**
   * `write_tag_characters` writes its triple in order and stops at the first
   * refused event: it behaves as `Attempt` on that triple.
   */
  lemma TagCharactersIsAttempt(sink: Sink, s: WriterState, tag: string, text: string)
    ensures Emitted(TagCharactersStep(sink, s, tag, text).state.events, TagCharactersStep(sink, s, tag, text).result)
         == Attempt(sink, s.events, TagTriple(tag, s.buffer + text))
  {
  }

  /**
   * The events `write_tag_array` writes, in index order: the tag triple of
   * `(tags[i], toText(values[i]))` for each `i`.
   */
  function TagTriples<T>(tags: seq<string>, values: seq<T>, toText: T -> string): (r: seq<XmlEvent>)
    requires |tags| == |values|
    decreases |tags|
    ensures |r| == 3 * |tags|
  {
    if |tags| == 0 then []
    else
      TagTriples(tags[..|tags| - 1], values[..|values| - 1], toText)
      + TagTriple(tags[|tags| - 1], toText(values[|values| - 1]))
  }

  /** The `i`-th triple of `TagTriples` is the tag triple of `(tags[i], values[i])`. */
  lemma {:induction false} TagTriplesAt<T>(tags: seq<string>, values: seq<T>, toText: T -> string, i: nat)
    requires |tags| == |values|
    requires i < |tags|
    decreases |tags|
    ensures TagTriples(tags, values, toText)[3 * i..3 * i + 3] == TagTriple(tags[i], toText(values[i]))
  {
    var n := |tags| - 1;
    var front := TagTriples(tags[..n], values[..n], toText);
    var last := TagTriple(tags[n], toText(values[n]));
    assert TagTriples(tags, values, toText) == front + last;
    if i == n {
      assert (front + last)[3 * i..3 * i + 3] == last;
    } else {
      TagTriplesAt(tags[..n], values[..n], toText, i);
      assert (front + last)[3 * i..3 * i + 3] == front[3 * i..3 * i + 3];
    }
  }

  /**
   * `write_tag_array`: the tag triple of each `(tags[i], values[i])` in
   * index order, stopping at the first failure. Callers must pass as many
   * tags as values (the source asserts it).
   */
  function TagArrayStep<T>(sink: Sink, s: WriterState, tags: seq<string>, values: seq<T>, toText: T -> string): (a: After)
    requires |tags| == |values|
    decreases |tags|
    ensures a.result.Ok? ==> |a.state.events| == |s.events| + 3 * |tags|
    ensures a.result.Ok? ==> a.state.buffer == (if |tags| == 0 then s.buffer else "")
  {
    if |tags| == 0 then After(s, Ok(()))
    else
      var done := TagArrayStep(sink, s, tags[..|tags| - 1], values[..|values| - 1], toText);
      if done.result.Err? then done
      else TagCharactersStep(sink, done.state, tags[|tags| - 1], toText(values[|values| - 1]))
  }

  /** Once a prefix of the array has failed, the rest is never written. */
  lemma {:induction false} TagArrayStopsAfterFailure<T>(
    sink: Sink, s: WriterState, tags: seq<string>, values: seq<T>, toText: T -> string, k: nat)
    requires |tags| == |values|
    requires k <= |tags|
    requires TagArrayStep(sink, s, tags[..k], values[..k], toText).result.Err?
    decreases |tags|
    ensures TagArrayStep(sink, s, tags, values, toText) == TagArrayStep(sink, s, tags[..k], values[..k], toText)
  {
    if k == |tags| {
      assert tags[..k] == tags && values[..k] == values;
    } else {
      var n := |tags| - 1;
      assert tags[..n][..k] == tags[..k] && values[..n][..k] == values[..k];
      TagArrayStopsAfterFailure(sink, s, tags[..n], values[..n], toText, k);
    }
  }

  /**
   * From an empty buffer, `write_tag_array` behaves as `Attempt` on all the
   * tag triples in index order, and leaves the buffer empty on success.
   */
  lemma {:induction false} TagArrayIsAttempt<T>(sink: Sink, s: WriterState, tags: seq<string>, values: seq<T>, toText: T -> string)
    requires |tags| == |values|
    requires s.buffer == ""
    decreases |tags|
    ensures Emitted(TagArrayStep(sink, s, tags, values, toText).state.events, TagArrayStep(sink, s, tags, values, toText).result)
         == Attempt(sink, s.events, TagTriples(tags, values, toText))
    ensures TagArrayStep(sink, s, tags, values, toText).result.Ok? ==> TagArrayStep(sink, s, tags, values, toText).state.buffer == ""
  {
    if |tags| > 0 {
      var n := |tags| - 1;
      var text := toText(values[n]);
      var front := TagTriples(tags[..n], values[..n], toText);
      var last := TagTriple(tags[n], text);
      var done := TagArrayStep(sink, s, tags[..n], values[..n], toText);
      assert TagTriples(tags, values, toText) == front + last;
      TagArrayIsAttempt(sink, s, tags[..n], values[..n], toText);
      AttemptAppend(sink, s.events, front, last);
      if done.result.Ok? {
        TagCharactersIsAttempt(sink, done.state, tags[n], text);
        assert done.state.buffer + text == text;
      }
    }
  }

  /**
   * From an empty buffer, a successful `write_tag_array` appends exactly
   * `3 * |values|` events, the tag triples in index order, and leaves the
   * buffer empty.
   */
  lemma TagArraySuccess<T>(sink: Sink, s: WriterState, tags: seq<string>, values: seq<T>, toText: T -> string)
    requires |tags| == |values|
    requires s.buffer == ""
    requires TagArrayStep(sink, s, tags, values, toText).result.Ok?
    ensures TagArrayStep(sink, s, tags, values, toText).state
         == WriterState(s.events + TagTriples(tags, values, toText), "")
  {
    TagArrayIsAttempt(sink, s, tags, values, toText);
  }

  /**
   * From an empty buffer, a failed `write_tag_array` has written exactly the
   * planned events before the one the sink refused, and returns the sink's
   * error for that event: nothing after the failure is written.
   */
  lemma TagArrayFailure<T>(sink: Sink, s: WriterState, tags: seq<string>, values: seq<T>, toText: T -> string)
    requires |tags| == |values|
    requires s.buffer == ""
    requires TagArrayStep(sink, s, tags, values, toText).result.Err?
    ensures var planned := s.events + TagTriples(tags, values, toText);
            var a := TagArrayStep(sink, s, tags, values, toText);
            && |s.events| <= |a.state.events| < |planned|
            && a.state.events == planned[..|a.state.events|]
            && sink(a.state.events, planned[|a.state.events|]) == Some(a.result.error)
            && forall j :: |s.events| <= j < |a.state.events| ==> sink(planned[..j], planned[j]).None?
  {
    TagArrayIsAttempt(sink, s, tags, values, toText);
  }

  // ---------------------------------------------------------------------
  // The writer
  // ---------------------------------------------------------------------

  /**
   * `XmlEventWriter`: the underlying event writer, seen as the events it has
   * accepted and the sink that decides its next write, and the reusable
   * `character_buffer`.
   */
  class XmlEventWriter {
    var events: seq<XmlEvent>
    var characterBuffer: string
    const sink: Sink

    function State(): WriterState
      reads this
    {
      WriterState(events, characterBuffer)
    }

    /** `from_output`: a writer with no events yet and an empty buffer. */
    constructor FromOutput(sink: Sink)
      ensures this.sink == sink
      ensures State() == WriterState([], "")
    {
      this.sink := sink;
      events := [];
      characterBuffer := "";
    }

    /** `write`: offers one event to the underlying writer. */
    method Write(event: XmlEvent) returns (r: Result<(), WriterError>)
      modifies this`events
      ensures After(State(), r) == WriteStep(sink, old(State()), event)
    {
      match sink(events, event)
      case None =>
        events := events + [event];
        r := Ok(());
      case Some(error) =>
        r := Err(error);
    }

    /** `write_characters_or_cdata`, which works on the underlying writer only. */
    method WriteCharactersOrCData(value: string) returns (r: Result<(), WriterError>)
      modifies this`events
      ensures After(State(), r) == CharactersOrCDataStep(sink, old(State()), value)
    {
      var hasOuterWhitespace := HasOuterWhitespace(value);
      if hasOuterWhitespace {
        r := Write(CData(value));
      } else {
        r := Write(Characters(value));
      }
    }

    /** `write_string`: `value` as characters or CDATA. */
    method WriteString(value: string) returns (r: Result<(), WriterError>)
      modifies this`events
      ensures After(State(), r) == CharactersOrCDataStep(sink, old(State()), value)
    {
      r := WriteCharactersOrCData(value);
    }

    /**
     * `write_characters`: formats `value` into the buffer, writes the buffer
     * as characters or CDATA, and clears it if the write succeeded.
     */
    method WriteCharacters<T>(value: T, toText: T -> string) returns (r: Result<(), WriterError>)
      modifies this
      ensures After(State(), r) == CharactersStep(sink, old(State()), toText(value))
      ensures r.Ok? ==> events == old(events) + [CharacterEvent(old(characterBuffer) + toText(value))]
      ensures r.Ok? ==> characterBuffer == ""
    {
      characterBuffer := characterBuffer + toText(value);
      r := WriteCharactersOrCData(characterBuffer);
      if r.Err? {
        return;
      }
      characterBuffer := "";
    }

    /** `write_tag_characters`: `value` wrapped in an element named `tag`. */
    method WriteTagCharacters<T>(tag: string, value: T, toText: T -> string) returns (r: Result<(), WriterError>)
      modifies this
      ensures After(State(), r) == TagCharactersStep(sink, old(State()), tag, toText(value))
      ensures r.Ok? ==> events == old(events) + [StartElement(tag), CharacterEvent(old(characterBuffer) + toText(value)), EndElement]
    {
      r := Write(StartElement(tag));
      if r.Err? {
        return;
      }
      r := WriteCharacters(value, toText);
      if r.Err? {
        return;
      }
      r := Write(EndElement);
    }

    /**
     * `write_tag_array`: each `values[i]` wrapped in an element named
     * `tags[i]`, in index order, returning the first error.
     */
    method WriteTagArray<T>(values: seq<T>, tags: seq<string>, toText: T -> string) returns (r: Result<(), WriterError>)
      requires |values| == |tags|
      modifies this
      ensures After(State(), r) == TagArrayStep(sink, old(State()), tags, values, toText)
      ensures old(characterBuffer) == "" ==> Emitted(events, r) == Attempt(sink, old(events), TagTriples(tags, values, toText))
    {
      var index := 0;
      while index < |values|
        invariant 0 <= index <= |values|
        invariant After(State(), Ok(())) == TagArrayStep(sink, old(State()), tags[..index], values[..index], toText)
      {
        r := WriteTagCharacters(tags[index], values[index], toText);
        assert tags[..index + 1][..index] == tags[..index];
        assert values[..index + 1][..index] == values[..index];
        if r.Err? {
          TagArrayStopsAfterFailure(sink, old(State()), tags, values, toText, index + 1);
          if old(characterBuffer) == "" {
            TagArrayIsAttempt(sink, old(State()), tags, values, toText);
          }
          return;
        }
        index := index + 1;
      }
      assert tags[..index] == tags && values[..index] == values;
      r := Ok(());
      if old(characterBuffer) == "" {
        TagArrayIsAttempt(sink, old(State()), tags, values, toText);
      }
    }
  }
}
