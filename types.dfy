/**
 * The type registry of rbx_xml: the two dispatch functions that the
 * `declare_rbx_types!` macro generates from one list of entries
 * `(Variant kind, inner type)`, here BinaryString, Bool, CFrame and String.
 *
 * `read_value_xml` dispatches on the XML tag name of a property and
 * `write_value_xml` on the kind of a `Variant`. The per-type handlers (each
 * type's `XML_TAG_NAME`, `read_xml` and `write_xml`) live in submodules that
 * are not part of this model; they are the fields of a `Handlers` value, so
 * every fact below holds whatever the handlers do.
 */
module Types {
  import opened Wrappers
  import opened DomTypes
  import SerializerCore

  // ---------------------------------------------------------------------
  // The context the dispatch functions are called with
  // ---------------------------------------------------------------------

  /** A position in the XML input, for error reports. */
  datatype TextPosition = TextPosition(row: nat, column: nat)

  /** An `XmlEventReader`, seen only through the position it reports errors at. */
  datatype XmlEventReader = XmlEventReader(position: TextPosition)

  /** The state a document's parse threads through every call, opaque here. */
  datatype ParseState = ParseState

  /** The state a document's serialization threads through every call, opaque here. */
  datatype EmitState = EmitState

  /** The kinds of `DecodeError` this file raises; `Other` stands for the handlers' own kinds. */
  datatype DecodeErrorKind =
    | UnknownPropertyType(typeName: string)
    | Other(description: string)

  /** A `DecodeError`: its kind and the reader position it was raised at. */
  datatype DecodeError = DecodeError(kind: DecodeErrorKind, position: TextPosition)

  /** `reader.error(kind)`: an error of that kind at the reader's position. */
  function ReaderError(reader: XmlEventReader, kind: DecodeErrorKind): (e: DecodeError)
  {
    DecodeError(kind, reader.position)
  }

  /** The kinds of `EncodeError` this file raises; `Other` stands for the handlers' own kinds. */
  datatype EncodeErrorKind =
    | UnsupportedPropertyType(ty: VariantType)
    | Other(description: string)

  /** An `EncodeError`, raised by `writer.error(kind)`. */
  datatype EncodeError = EncodeError(kind: EncodeErrorKind)

  /** What a call writing to an `XmlEventWriter` did: the events it appended and its result. */
  datatype Emission = Emission(events: seq<SerializerCore.XmlEvent>, result: Result<(), EncodeError>)

  // ---------------------------------------------------------------------
  // The registry
  // ---------------------------------------------------------------------

  /**
   * An `XmlType` implementation for the inner type `T`: its tag name, how it
   * reads a value from the reader, and what writing a value under a property
   * name emits.
   */
  datatype XmlType<!T> = XmlType(
    tagName: string,
    readXml: XmlEventReader -> Result<T, DecodeError>,
    writeXml: (T, string) -> Emission)

  /** The handlers of the four entries of the `declare_rbx_types!` invocation. */
  datatype Handlers = Handlers(
    binaryStringType: XmlType<BinaryString>,
    boolType: XmlType<bool>,
    cframeType: XmlType<CFrame>,
    stringType: XmlType<string>)

  /** The registered kinds, in the order of the macro's entry list. */
  const RegisteredKinds: seq<VariantType> :=
    [VariantType.BinaryString, VariantType.Bool, VariantType.CFrame, VariantType.String]

  /** Whether a kind has an entry in the registry. */
  predicate IsRegistered(t: VariantType)
  {
    t in RegisteredKinds
  }

  /** The macro's entry list: each registered kind, in order, with its handler's tag name. */
  function Entries(h: Handlers): (r: seq<(VariantType, string)>)
    ensures |r| == |RegisteredKinds|
    ensures forall i :: 0 <= i < |r| ==> r[i].0 == RegisteredKinds[i]
    ensures r[0].1 == h.binaryStringType.tagName && r[1].1 == h.boolType.tagName
    ensures r[2].1 == h.cframeType.tagName && r[3].1 == h.stringType.tagName
  {
    [ (VariantType.BinaryString, h.binaryStringType.tagName),
      (VariantType.Bool, h.boolType.tagName),
      (VariantType.CFrame, h.cframeType.tagName),
      (VariantType.String, h.stringType.tagName) ]
  }

  /** No two entries share a tag name. */
  predicate UniqueTags(h: Handlers)
  {
    forall i, j :: 0 <= i < j < |Entries(h)| ==> Entries(h)[i].1 != Entries(h)[j].1
  }

  /**
   * The index of the first entry whose tag name is `tag`, as a `match` on
   * string patterns picks its first matching arm; `None` when no entry has it.
   */
  function FirstArm(entries: seq<(VariantType, string)>, tag: string): (r: Option<nat>)
    ensures r.Some? ==> r.value < |entries| && entries[r.value].1 == tag
    ensures r.Some? ==> forall j :: 0 <= j < r.value ==> entries[j].1 != tag
    ensures r.None? <==> forall j :: 0 <= j < |entries| ==> entries[j].1 != tag
  {
    if entries == [] then None
    else if entries[0].1 == tag then Some(0)
    else
      match FirstArm(entries[1..], tag)
      case None => None
      case Some(i) => Some(i + 1)
  }

  /** The kind whose arm of the read match takes `tag`, if any. */
  function ReadArm(h: Handlers, tag: string): (r: Option<VariantType>)
  {
    match FirstArm(Entries(h), tag)
    case None => None
    case Some(i) => Some(Entries(h)[i].0)
  }

  /** The tag name under which a registered kind is read. */
  function TagName(h: Handlers, t: VariantType): (tag: string)
    requires IsRegistered(t)
  {
    match t
    case BinaryString => h.binaryStringType.tagName
    case Bool => h.boolType.tagName
    case CFrame => h.cframeType.tagName
    case String => h.stringType.tagName
  }

  /** The read arms tried in order: the kind `ReadArm` picks is that of the first handler with the tag. */
  lemma ReadArmCases(h: Handlers, tag: string)
    ensures ReadArm(h, tag)
         == if tag == h.binaryStringType.tagName then Some(VariantType.BinaryString)
            else if tag == h.boolType.tagName then Some(VariantType.Bool)
            else if tag == h.cframeType.tagName then Some(VariantType.CFrame)
            else if tag == h.stringType.tagName then Some(VariantType.String)
            else None
  {
  }

  // ---------------------------------------------------------------------
  // The two dispatch functions
  // ---------------------------------------------------------------------

  /**
   * `Ok(Variant::X(read_xml(reader)?))`: a handler's value wrapped in its
   * variant, or the handler's error unchanged.
   */
  function Wrap<T>(read: Result<T, DecodeError>, variant: T -> Variant): (r: Result<Variant, DecodeError>)
    ensures read.Ok? ==> r == Ok(variant(read.value))
    ensures read.Err? ==> r == Err(read.error)
  {
    match read
    case Ok(value) => Ok(variant(value))
    case Err(error) => Err(error)
  }

  /**
   * `read_value_xml`: the first arm whose tag name equals `xmlTypeName`
   * reads the value with its handler and wraps it in its variant, passing
   * the handler's error on unchanged; any other tag name is an
   * `UnknownPropertyType` error carrying exactly that name, at the reader's
   * position. The state, instance id and property name are not consulted.
   */
  function ReadValueXml(
    h: Handlers, reader: XmlEventReader, state: ParseState,
    xmlTypeName: string, instanceId: Ref, propertyName: string): (r: Result<Variant, DecodeError>)
    ensures ReadArm(h, xmlTypeName).None?
        ==> r == Err(DecodeError(DecodeErrorKind.UnknownPropertyType(xmlTypeName), reader.position))
    ensures ReadArm(h, xmlTypeName) == Some(VariantType.BinaryString)
        ==> r == Wrap(h.binaryStringType.readXml(reader), v => Variant.BinaryString(v))
    ensures ReadArm(h, xmlTypeName) == Some(VariantType.Bool)
        ==> r == Wrap(h.boolType.readXml(reader), v => Variant.Bool(v))
    ensures ReadArm(h, xmlTypeName) == Some(VariantType.CFrame)
        ==> r == Wrap(h.cframeType.readXml(reader), v => Variant.CFrame(v))
    ensures ReadArm(h, xmlTypeName) == Some(VariantType.String)
        ==> r == Wrap(h.stringType.readXml(reader), v => Variant.String(v))
    ensures r.Ok? ==> ReadArm(h, xmlTypeName) == Some(r.value.Ty())
  {
    ReadArmCases(h, xmlTypeName);
    if xmlTypeName == h.binaryStringType.tagName then
      Wrap(h.binaryStringType.readXml(reader), v => Variant.BinaryString(v))
    else if xmlTypeName == h.boolType.tagName then
      Wrap(h.boolType.readXml(reader), v => Variant.Bool(v))
    else if xmlTypeName == h.cframeType.tagName then
      Wrap(h.cframeType.readXml(reader), v => Variant.CFrame(v))
    else if xmlTypeName == h.stringType.tagName then
      Wrap(h.stringType.readXml(reader), v => Variant.String(v))
    else
      Err(ReaderError(reader, DecodeErrorKind.UnknownPropertyType(xmlTypeName)))
  }

  /**
   * `write_value_xml`: a value of a registered kind is written by that
   * kind's handler under `xmlPropertyName`, whose emission is returned as it
   * is; a value of any other kind writes nothing and is an
   * `UnsupportedPropertyType` error carrying the value's kind.
   */
  function WriteValueXml(h: Handlers, state: EmitState, xmlPropertyName: string, value: Variant): (r: Emission)
    ensures !IsRegistered(value.Ty())
        ==> r == Emission([], Err(EncodeError(EncodeErrorKind.UnsupportedPropertyType(value.Ty()))))
    ensures value.BinaryString? ==> r == h.binaryStringType.writeXml(value.binaryString, xmlPropertyName)
    ensures value.Bool? ==> r == h.boolType.writeXml(value.boolean, xmlPropertyName)
    ensures value.CFrame? ==> r == h.cframeType.writeXml(value.cframe, xmlPropertyName)
    ensures value.String? ==> r == h.stringType.writeXml(value.text, xmlPropertyName)
  {
    match value
    case BinaryString(v) => h.binaryStringType.writeXml(v, xmlPropertyName)
    case Bool(v) => h.boolType.writeXml(v, xmlPropertyName)
    case CFrame(v) => h.cframeType.writeXml(v, xmlPropertyName)
    case String(v) => h.stringType.writeXml(v, xmlPropertyName)
    case _ => Emission([], Err(EncodeError(EncodeErrorKind.UnsupportedPropertyType(value.Ty()))))
  }

  // ---------------------------------------------------------------------
  // Properties of the registry
  // ---------------------------------------------------------------------

  /** Every kind the read match can produce has a write arm. */
  lemma ReadKindIsRegistered(h: Handlers, tag: string)
    ensures ReadArm(h, tag).Some? ==> IsRegistered(ReadArm(h, tag).value)
  {
  }

  /** With unique tag names, a registered kind is read back under its own tag name. */
  lemma TagNameRoundTrip(h: Handlers, t: VariantType)
    requires UniqueTags(h)
    requires IsRegistered(t)
    ensures ReadArm(h, TagName(h, t)) == Some(t)
  {
  }

  /** For any handlers, the tag a kind is read under is that kind's own tag name. */
  lemma ReadArmTagName(h: Handlers, tag: string, t: VariantType)
    requires ReadArm(h, tag) == Some(t)
    ensures IsRegistered(t) && TagName(h, t) == tag
  {
  }

  /**
   * Read/write symmetry: with unique tag names, a kind can be written
   * exactly when some tag name reads it.
   */
  lemma ReadWriteSymmetric(h: Handlers, t: VariantType)
    requires UniqueTags(h)
    ensures IsRegistered(t) <==> exists tag :: ReadArm(h, tag) == Some(t)
  {
    if IsRegistered(t) {
      TagNameRoundTrip(h, t);
    }
    forall tag | ReadArm(h, tag) == Some(t)
      ensures IsRegistered(t)
    {
      ReadKindIsRegistered(h, tag);
    }
  }

  /**
   * Without unique tag names the symmetry fails: when the Bool handler's
   * tag name repeats the BinaryString handler's, the earlier arm takes that
   * name and no tag name reads a Bool.
   */
  lemma ShadowedArm(h: Handlers, tag: string)
    requires h.boolType.tagName == h.binaryStringType.tagName
    ensures ReadArm(h, tag) != Some(VariantType.Bool)
  {
  }

  /** A value the read match accepts is one the write match dispatches to a handler. */
  lemma ReadValueIsWritable(
    h: Handlers, reader: XmlEventReader, state: ParseState,
    xmlTypeName: string, instanceId: Ref, propertyName: string)
    ensures var r := ReadValueXml(h, reader, state, xmlTypeName, instanceId, propertyName);
            r.Ok? ==> IsRegistered(r.value.Ty())
  {
  }

  /** Neither dispatch consults the threaded state, nor does the read consult the instance id or property name. */
  lemma DispatchIgnoresContext(
    h: Handlers, reader: XmlEventReader, read1: ParseState, read2: ParseState,
    xmlTypeName: string, id1: Ref, id2: Ref, name1: string, name2: string,
    emit1: EmitState, emit2: EmitState, xmlPropertyName: string, value: Variant)
    ensures ReadValueXml(h, reader, read1, xmlTypeName, id1, name1)
         == ReadValueXml(h, reader, read2, xmlTypeName, id2, name2)
    ensures WriteValueXml(h, emit1, xmlPropertyName, value) == WriteValueXml(h, emit2, xmlPropertyName, value)
  {
  }
}
