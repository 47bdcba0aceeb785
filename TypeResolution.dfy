/** The type decisions of TypingSerializer as pure functions: on the read path,
    which type (if any) receives the next node and whether the scalar shortcut
    answers instead; on the write path, which descriptor the next stage gets.
    The tag registry, the scalar schema and the descriptor provider are
    parameters. */
module TypeResolution {
  import opened Wrappers
  import opened YamlModel

  /** What the read path decides once the node is accepted: the scalar
      shortcut returns `parsed` after consuming the event; otherwise the next
      stage is called with `value` and the descriptor of `ty`. */
  datatype ReadStep =
    | Shortcut(parsed: Option<Obj>)
    | Delegate(value: Option<Obj>, ty: Ty)

  /** The type of the caller's descriptor, absent when the descriptor is null. */
  function ExpectedType(descriptor: Option<TypeDescriptor>): Option<Ty> {
    if descriptor.Some? then Some(descriptor.value.ty) else None
  }

  /** The kinds of tag type that may replace a present expected type. */
  predicate TagOverrides(fromTag: Ty) {
    fromTag.IsClass() && fromTag != StringType
  }

  /** The container types the read path falls back to for untyped nodes. */
  predicate IsReadContainer(t: Ty) {
    t == IListOfObject || t == IDictionaryOfObject
  }

  /** The concrete container types the write path recognises. */
  predicate IsWriteContainer(t: Ty) {
    t == DictionaryOfObject || t == ListOfObject
  }

  /** The write path's substitution condition: a non-null Dictionary<object,
      object> or List<object> handed on under an object descriptor. */
  predicate SubstitutesOnWrite(value: Option<Obj>, expected: Option<TypeDescriptor>) {
    value.Some? && ExpectedType(expected) == Some(ObjectType) && IsWriteContainer(value.value.runtimeType)
  }

  /** Looks up the node's tag: no tag gives no type, a tag the registry does
      not know is an error at the node. */
  function TagType(node: Event, typeFromTag: string -> Option<Ty>): (r: Result<Option<Ty>, YamlError>)
    requires !node.OtherEvent?
    ensures r.Failure? <==> node.HasTag() && typeFromTag(node.tag.value).None?
    ensures r.Failure? ==> r.error == YamlError(UnresolvableTag(node.tag.value), Some(node.Location()))
    ensures r.Success? ==> (r.value.Some? <==> node.HasTag())
    ensures r.Success? && node.HasTag() ==> r.value == typeFromTag(node.tag.value)
  {
    if node.HasTag() then
      match typeFromTag(node.tag.value)
      case None => Failure(YamlError(UnresolvableTag(node.tag.value), Some(node.Location())))
      case Some(t) => Success(Some(t))
    else
      Success(None)
  }

  /** The precedence between the caller's expected type and the tag's type. */
  function Reconcile(expected: Option<Ty>, fromTag: Option<Ty>): (r: Option<Ty>)
    // Without an expected type the tag's type is adopted, whatever its kind.
    ensures expected.None? ==> r == fromTag
    // Without a tag the expected type stays.
    ensures fromTag.None? ==> r == expected
    // A class tag other than string wins over any expected type.
    ensures fromTag.Some? && TagOverrides(fromTag.value) ==> r == fromTag
    // Value types, string and interfaces never displace a present expected type.
    ensures expected.Some? && fromTag.Some? && !TagOverrides(fromTag.value) ==> r == expected
  {
    var t := if fromTag.Some? && expected != fromTag && TagOverrides(fromTag.value) then fromTag else expected;
    if t.None? then fromTag else t
  }

  /** The value the checks after the scalar shortcut see: for a scalar, the
      schema's out value replaces the caller's, whether or not it parsed. */
  function ValueAfterShortcut(node: Event, value: Option<Obj>, tryParse: (Event, Ty) -> ParseResult): Option<Obj> {
    if node.Scalar? then tryParse(node, ObjectType).value else value
  }

  /** Untyped sequences and mappings with no value load into IList<object>
      and IDictionary<object, object>. */
  function ContainerFallback(ty: Option<Ty>, value: Option<Obj>, node: Event): (r: Option<Ty>)
    ensures r != ty ==> value.None? && (ty.None? || ty == Some(ObjectType)) && r.Some? && IsReadContainer(r.value)
    ensures (ty.None? || ty == Some(ObjectType)) && value.None? && node.SequenceStart? ==> r == Some(IListOfObject)
    ensures (ty.None? || ty == Some(ObjectType)) && value.None? && node.MappingStart? ==> r == Some(IDictionaryOfObject)
    ensures !(node.SequenceStart? || node.MappingStart?) ==> r == ty
  {
    if (ty.None? || ty == Some(ObjectType)) && value.None? then
      if node.SequenceStart? then Some(IListOfObject)
      else if node.MappingStart? then Some(IDictionaryOfObject)
      else ty
    else
      ty
  }

  /** The read path's decision for the peeked event `peeked` (None when the
      reader has no event), the caller's `value` and its `expected` descriptor. */
  function ResolveRead(peeked: Option<Event>, value: Option<Obj>, expected: Option<TypeDescriptor>,
                       typeFromTag: string -> Option<Ty>, tryParse: (Event, Ty) -> ParseResult): (r: Result<ReadStep, YamlError>)
    // A missing event is the only failure without a position.
    ensures peeked.None? <==> r == Failure(YamlError(StreamExhausted, None))
    ensures peeked.Some? && r.Failure? ==> r.error.location == Some(peeked.value.Location())
    ensures peeked.Some? && peeked.value.OtherEvent? ==> r == Failure(YamlError(UnexpectedEvent, Some(peeked.value.Location())))
    // The shortcut answers only for a scalar the schema parses as object, with the schema's value.
    ensures r.Success? && r.value.Shortcut? <==>
              peeked.Some? && peeked.value.Scalar? && !r.Failure? && tryParse(peeked.value, ObjectType).success
    ensures r.Success? && r.value.Shortcut? ==> r.value.parsed == tryParse(peeked.value, ObjectType).value
    // Delegation passes on the value as the shortcut left it.
    ensures r.Success? && r.value.Delegate? ==> peeked.Some? && r.value.value == ValueAfterShortcut(peeked.value, value, tryParse)
  {
    if peeked.None? then
      Failure(YamlError(StreamExhausted, None))
    else
      var node := peeked.value;
      if node.OtherEvent? then
        Failure(YamlError(UnexpectedEvent, Some(node.Location())))
      else
        match TagType(node, typeFromTag)
        case Failure(e) => Failure(e)
        case Success(fromTag) =>
          var ty := Reconcile(ExpectedType(expected), fromTag);
          if node.Scalar? && tryParse(node, ObjectType).success then
            Success(Shortcut(tryParse(node, ObjectType).value))
          else
            var v := ValueAfterShortcut(node, value, tryParse);
            var ty' := ContainerFallback(ty, v, node);
            if ty'.None? && v.None? then
              Failure(YamlError(NoTypeDerivable, Some(node.Location())))
            else
              Success(Delegate(v, if ty'.Some? then ty'.value else v.value.runtimeType))
  }

  /** The descriptor the write path hands to the next stage. */
  function WriteDescriptor(value: Option<Obj>, expected: Option<TypeDescriptor>, find: Ty -> TypeDescriptor): (r: Option<TypeDescriptor>)
    // Replaced only for a non-null Dictionary<object, object> or List<object> expected as object ...
    ensures r != expected ==> SubstitutesOnWrite(value, expected)
    // ... and then always, by the descriptor of the value's own type.
    ensures SubstitutesOnWrite(value, expected) ==> r == Some(find(value.value.runtimeType))
    // A null descriptor passes through.
    ensures expected.None? ==> r.None?
  {
    var ty := ExpectedType(expected);
    if value.Some? && ty == Some(ObjectType) then
      var valueType := value.value.runtimeType;
      if valueType == DictionaryOfObject || valueType == ListOfObject then Some(find(valueType)) else expected
    else
      expected
  }

  // ---------------------------------------------------------------------------
  // Properties of the read path

  /** The event checks come before any tag lookup or parse: on a missing or
      non-node event the outcome does not depend on the registry or the schema. */
  lemma EventChecksPrecedeLookup(peeked: Option<Event>, value: Option<Obj>, expected: Option<TypeDescriptor>,
                                 typeFromTag1: string -> Option<Ty>, tryParse1: (Event, Ty) -> ParseResult,
                                 typeFromTag2: string -> Option<Ty>, tryParse2: (Event, Ty) -> ParseResult)
    requires peeked.None? || peeked.value.OtherEvent?
    ensures ResolveRead(peeked, value, expected, typeFromTag1, tryParse1).Failure?
    ensures ResolveRead(peeked, value, expected, typeFromTag1, tryParse1)
         == ResolveRead(peeked, value, expected, typeFromTag2, tryParse2)
  {
  }

  /** An unknown tag fails at the node before the shortcut is tried, so even a
      scalar the schema would parse fails. */
  lemma UnresolvableTagFailsFirst(node: Event, value: Option<Obj>, expected: Option<TypeDescriptor>,
                                  typeFromTag: string -> Option<Ty>, tryParse: (Event, Ty) -> ParseResult)
    requires node.HasTag() && typeFromTag(node.tag.value).None?
    ensures ResolveRead(Some(node), value, expected, typeFromTag, tryParse)
         == Failure(YamlError(UnresolvableTag(node.tag.value), Some(node.Location())))
  {
  }

  /** A tag naming a class other than string and object decides the type,
      whatever the caller expected and whatever value it passed. */
  lemma ClassTagDecidesType(node: Event, value: Option<Obj>, expected: Option<TypeDescriptor>,
                            typeFromTag: string -> Option<Ty>, tryParse: (Event, Ty) -> ParseResult, t: Ty)
    requires node.HasTag() && typeFromTag(node.tag.value) == Some(t)
    requires TagOverrides(t) && t != ObjectType
    requires !(node.Scalar? && tryParse(node, ObjectType).success)
    ensures ResolveRead(Some(node), value, expected, typeFromTag, tryParse)
         == Success(Delegate(ValueAfterShortcut(node, value, tryParse), t))
  {
  }

  /** An object type, from a tag or from the expected descriptor of an
      untagged node, reaches the descriptor lookup as object whenever the
      container fallback does not apply: for a scalar the shortcut does not
      answer, or for a sequence or mapping with a non-null value. */
  lemma ObjectTypeWithoutFallback(node: Event, value: Option<Obj>, expected: Option<TypeDescriptor>,
                                  typeFromTag: string -> Option<Ty>, tryParse: (Event, Ty) -> ParseResult)
    requires !node.OtherEvent?
    requires (node.HasTag() && typeFromTag(node.tag.value) == Some(ObjectType))
          || (!node.HasTag() && ExpectedType(expected) == Some(ObjectType))
    requires !(node.Scalar? && tryParse(node, ObjectType).success)
    requires node.Scalar? || ValueAfterShortcut(node, value, tryParse).Some?
    ensures ResolveRead(Some(node), value, expected, typeFromTag, tryParse)
         == Success(Delegate(ValueAfterShortcut(node, value, tryParse), ObjectType))
  {
  }

  /** A tag naming a value type, string or an interface never displaces a
      present expected type other than object. */
  lemma NonClassTagKeepsExpected(node: Event, value: Option<Obj>, d: TypeDescriptor,
                                 typeFromTag: string -> Option<Ty>, tryParse: (Event, Ty) -> ParseResult, t: Ty)
    requires node.HasTag() && typeFromTag(node.tag.value) == Some(t)
    requires !TagOverrides(t) && d.ty != ObjectType
    requires !(node.Scalar? && tryParse(node, ObjectType).success)
    ensures ResolveRead(Some(node), value, Some(d), typeFromTag, tryParse)
         == Success(Delegate(ValueAfterShortcut(node, value, tryParse), d.ty))
  {
  }

  /** Without an expected type the tag's type is used, whatever its kind
      (object aside, which an untyped container still refines). */
  lemma AbsentExpectedAdoptsTag(node: Event, value: Option<Obj>,
                                typeFromTag: string -> Option<Ty>, tryParse: (Event, Ty) -> ParseResult, t: Ty)
    requires node.HasTag() && typeFromTag(node.tag.value) == Some(t) && t != ObjectType
    requires !(node.Scalar? && tryParse(node, ObjectType).success)
    ensures ResolveRead(Some(node), value, None, typeFromTag, tryParse)
         == Success(Delegate(ValueAfterShortcut(node, value, tryParse), t))
  {
  }

  /** The scalar shortcut: a scalar whose tag resolves and that the schema
      parses as object yields the schema's value, whatever the expected type
      and the caller's value. */
  lemma ScalarShortcut(node: Event, value: Option<Obj>, expected: Option<TypeDescriptor>,
                       typeFromTag: string -> Option<Ty>, tryParse: (Event, Ty) -> ParseResult)
    requires node.Scalar? && tryParse(node, ObjectType).success
    requires !node.HasTag() || typeFromTag(node.tag.value).Some?
    ensures ResolveRead(Some(node), value, expected, typeFromTag, tryParse)
         == Success(Shortcut(tryParse(node, ObjectType).value))
  {
  }

  /** For a scalar the caller's value never matters: TryParse overwrites it
      whether or not it succeeds. */
  lemma ScalarIgnoresCallerValue(node: Event, value1: Option<Obj>, value2: Option<Obj>, expected: Option<TypeDescriptor>,
                                 typeFromTag: string -> Option<Ty>, tryParse: (Event, Ty) -> ParseResult)
    requires node.Scalar?
    ensures ResolveRead(Some(node), value1, expected, typeFromTag, tryParse)
         == ResolveRead(Some(node), value2, expected, typeFromTag, tryParse)
  {
  }

  /** An untagged sequence or mapping with no value and an absent or object
      expected type loads into IList<object> or IDictionary<object, object>. */
  lemma UntypedContainerFallback(node: Event, expected: Option<TypeDescriptor>,
                                 typeFromTag: string -> Option<Ty>, tryParse: (Event, Ty) -> ParseResult)
    requires (node.SequenceStart? || node.MappingStart?) && !node.HasTag()
    requires ExpectedType(expected).None? || ExpectedType(expected) == Some(ObjectType)
    ensures ResolveRead(Some(node), None, expected, typeFromTag, tryParse)
         == Success(Delegate(None, if node.SequenceStart? then IListOfObject else IDictionaryOfObject))
  {
  }

  /** NoTypeDerivable happens exactly for an untagged scalar with no expected
      type that the schema rejects with a null out value; sequences and
      mappings never reach it. */
  lemma NoTypeDerivableExactly(node: Event, value: Option<Obj>, expected: Option<TypeDescriptor>,
                               typeFromTag: string -> Option<Ty>, tryParse: (Event, Ty) -> ParseResult)
    ensures ResolveRead(Some(node), value, expected, typeFromTag, tryParse) == Failure(YamlError(NoTypeDerivable, Some(node.Location())))
        <==> node.Scalar? && !node.HasTag() && expected.None? && tryParse(node, ObjectType) == ParseResult(false, None)
  {
  }

  /** The common typed read: with no tag, a present expected type other than
      object is the delegated type, for any node kind and any value. */
  lemma ExpectedKeptWithoutTag(node: Event, value: Option<Obj>, d: TypeDescriptor,
                               typeFromTag: string -> Option<Ty>, tryParse: (Event, Ty) -> ParseResult)
    requires !node.OtherEvent? && !node.HasTag() && d.ty != ObjectType
    requires !(node.Scalar? && tryParse(node, ObjectType).success)
    ensures ResolveRead(Some(node), value, Some(d), typeFromTag, tryParse)
         == Success(Delegate(ValueAfterShortcut(node, value, tryParse), d.ty))
  {
  }

  /** An untagged scalar with no expected type that the schema rejects while
      writing a non-null out value takes that value's runtime type; the
      caller's value plays no part. */
  lemma ScalarRuntimeTypeFallback(node: Event, value: Option<Obj>, o: Obj,
                                  typeFromTag: string -> Option<Ty>, tryParse: (Event, Ty) -> ParseResult)
    requires node.Scalar? && !node.HasTag() && tryParse(node, ObjectType) == ParseResult(false, Some(o))
    ensures ResolveRead(Some(node), value, None, typeFromTag, tryParse) == Success(Delegate(Some(o), o.runtimeType))
  {
  }

  /** The fallback to the value's runtime type is reachable: an untagged
      sequence or mapping with no expected type and a non-null value takes the
      value's type, and such an input exists whatever the collaborators are. */
  lemma RuntimeTypeFallbackReachable(typeFromTag: string -> Option<Ty>, tryParse: (Event, Ty) -> ParseResult)
    ensures forall node: Event, o: Obj | (node.SequenceStart? || node.MappingStart?) && !node.HasTag() ::
              ResolveRead(Some(node), Some(o), None, typeFromTag, tryParse) == Success(Delegate(Some(o), o.runtimeType))
    ensures exists node: Event, o: Obj ::
              !node.Scalar? && o.runtimeType != ObjectType &&
              ResolveRead(Some(node), Some(o), None, typeFromTag, tryParse) == Success(Delegate(Some(o), o.runtimeType))
  {
    var m := Mark(0, 0, 0);
    var node := MappingStart(None, m, m);
    var o := Obj(ClassType("T"), 0);
    assert ResolveRead(Some(node), Some(o), None, typeFromTag, tryParse) == Success(Delegate(Some(o), o.runtimeType));
  }

  // ---------------------------------------------------------------------------
  // Read and write together

  /** Why the round trip needs an assumption about the next stage: the read
      fallback delegates with an interface type, and the write path keeps the
      object descriptor unless the object built for it is exactly a
      List<object> or Dictionary<object, object>. */
  lemma RoundTripNeedsConcreteContainer(node: Event, find: Ty -> TypeDescriptor,
                                        materialize: (Option<Obj>, TypeDescriptor) -> Option<Obj>,
                                        typeFromTag: string -> Option<Ty>, tryParse: (Event, Ty) -> ParseResult)
    requires (node.SequenceStart? || node.MappingStart?) && !node.HasTag()
    requires forall t :: find(t).ty == t
    ensures var read := ResolveRead(Some(node), None, Some(find(ObjectType)), typeFromTag, tryParse);
            && read.Success? && read.value.Delegate?
            && IsReadContainer(read.value.ty) && !IsWriteContainer(read.value.ty)
            && var built := materialize(None, find(read.value.ty));
               (WriteDescriptor(built, Some(find(ObjectType)), find) == Some(find(ObjectType)) <==>
                built.None? || !IsWriteContainer(built.value.runtimeType))
  {
  }

  /** Round trip of an untyped sequence or mapping, under two assumptions about
      code outside this stage: the provider describes the type it is asked for,
      and the next stage instantiates List<object> for IList<object> and
      Dictionary<object, object> for IDictionary<object, object>. Reading the
      node under an object descriptor delegates with the interface's
      descriptor, and writing the object built back under the object
      descriptor selects the concrete container's descriptor. */
  lemma UntypedContainerRoundTrip(node: Event, find: Ty -> TypeDescriptor,
                                  materialize: (Option<Obj>, TypeDescriptor) -> Option<Obj>,
                                  typeFromTag: string -> Option<Ty>, tryParse: (Event, Ty) -> ParseResult)
    requires (node.SequenceStart? || node.MappingStart?) && !node.HasTag()
    requires forall t :: find(t).ty == t
    requires materialize(None, find(IListOfObject)).Some?
    requires materialize(None, find(IListOfObject)).value.runtimeType == ListOfObject
    requires materialize(None, find(IDictionaryOfObject)).Some?
    requires materialize(None, find(IDictionaryOfObject)).value.runtimeType == DictionaryOfObject
    ensures var read := ResolveRead(Some(node), None, Some(find(ObjectType)), typeFromTag, tryParse);
            && read.Success? && read.value.Delegate?
            && var built := materialize(None, find(read.value.ty));
               WriteDescriptor(built, Some(find(ObjectType)), find)
                 == Some(find(if node.SequenceStart? then ListOfObject else DictionaryOfObject))
  {
  }
}
