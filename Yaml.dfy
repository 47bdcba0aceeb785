/** The entities the type-resolution stage works on: runtime types, parse
    events with their source marks, objects, type descriptors, the scalar
    schema's answer and the stage's errors. */
module YamlModel {
  import opened Wrappers

  /** An abstraction of the runtime types the stage compares. `ObjectType` and
      `StringType` are `object` and `string`; the four container types are
      kept apart because the read path and the write path use different ones. */
  datatype Ty =
    | ObjectType
    | StringType
    | ValueType(name: string)       // structs and primitives: int, bool, ...
    | ClassType(name: string)       // any other class
    | InterfaceType(name: string)   // any other interface
    | IListOfObject                 // IList<object>
    | IDictionaryOfObject           // IDictionary<object, object>
    | ListOfObject                  // List<object>
    | DictionaryOfObject            // Dictionary<object, object>
  {
    /** The runtime's `Type.IsClass`: true for reference types that are not
        interfaces (`object` and `string` included), false for value types
        and interfaces. */
    predicate IsClass() {
      match this
      case ObjectType | StringType | ClassType(_) | ListOfObject | DictionaryOfObject => true
      case ValueType(_) | InterfaceType(_) | IListOfObject | IDictionaryOfObject => false
    }
  }

  /** A position in the source text. */
  datatype Mark = Mark(index: nat, line: nat, column: nat)

  /** The range of source text an event or an error covers. */
  datatype Span = Span(start: Mark, end: Mark)

  /** A parse event. The three node events carry an optional tag; any other
      event (stream or document start and end, sequence or mapping end, ...)
      is `OtherEvent`. */
  datatype Event =
    | Scalar(tag: Option<string>, text: string, start: Mark, end: Mark)
    | SequenceStart(tag: Option<string>, start: Mark, end: Mark)
    | MappingStart(tag: Option<string>, start: Mark, end: Mark)
    | OtherEvent(start: Mark, end: Mark)
  {
    function Location(): Span {
      Span(start, end)
    }

    /** A node event whose tag is neither null nor empty. */
    predicate HasTag() {
      !OtherEvent? && tag.Some? && tag.value != ""
    }
  }

  /** A non-null object: what matters to the stage is its runtime type; the
      payload stands for its contents. */
  datatype Obj = Obj(runtimeType: Ty, payload: nat)

  /** A type descriptor as the descriptor provider returns it: the type it
      describes and a handle standing for the rest of its metadata. */
  datatype TypeDescriptor = TypeDescriptor(ty: Ty, handle: nat)

  /** The answer of the scalar schema's TryParse: the boolean result and the
      value written to the out parameter (written on failure too). */
  datatype ParseResult = ParseResult(success: bool, value: Option<Obj>)

  datatype ErrorKind =
    | StreamExhausted                // no event to peek
    | UnexpectedEvent                // the peeked event is not a node
    | UnresolvableTag(tag: string)   // the tag maps to no type
    | NoTypeDerivable                // neither a type nor a value to take one from

  /** A YamlException: its kind and, when one is known, the source range. */
  datatype YamlError = YamlError(kind: ErrorKind, location: Option<Span>)
}
