# TypingSerializer: a Dafny model of YAML type resolution

This project models the typing link of the YamlDotNet (SharpYaml) serializer
chain, `TypingSerializer` in
`YamlDotNet/Serialization/Serializers/TypingSerializer.cs`.

On the read path (`ReadYaml`) it peeks at the next parse event and decides which
type receives the node:

- a missing event or a non-node event is an error;
- a non-empty tag must resolve to a type;
- the tag's type replaces the caller's expected type only if it is a class other
  than `string`, and it is adopted whenever no type was expected;
- a scalar that the schema parses as `object` is answered at once, consuming one event;
- untyped sequences and mappings fall back to `IList<object>` and
  `IDictionary<object, object>`;
- with no type left, the value's runtime type is used, or the read fails;
- otherwise the next stage is called with the descriptor of the chosen type.

On the write path (`WriteYaml`), a `Dictionary<object, object>` or
`List<object>` expected as `object` is handed on with the descriptor of its
own type.

Files:

- `Wrappers.dfy`: `Option` and `Result`, standing for null references and exceptions.
- `Yaml.dfy` (module `YamlModel`): runtime types (`Ty`, with `IsClass`), marks,
  parse events, objects, type descriptors, the schema's TryParse answer and the
  error kinds.
- `TypeResolution.dfy`: the decisions of both paths as pure functions
  (`ResolveRead`, `WriteDescriptor` and the steps they are built from), and the
  lemmas about them.
- `Serializers.dfy`: the state.
  - `EventReader`: an event sequence and a position.
  - `SerializerContext`: the tag registry, the schema's TryParse and the
    descriptor provider, held as function-valued constants.
  - `NextStage`: the next link, which logs its calls.
  - `TypingSerializer`: its `ReadYaml` and `WriteYaml` methods are proved against
    `ResolveRead` and `WriteDescriptor`.

Three behaviours of the code are easy to misread. The model keeps them as written:

- A tag that resolves to a class type does not always become the delegated type.
  - A scalar the schema parses is answered by the shortcut.
  - A tag resolving to `object` on a sequence or mapping with a null value still
    falls back to `IList<object>` or `IDictionary<object, object>`.
  - `ClassTagDecidesType` gives sufficient conditions for a class tag other than
    `object` to decide the type. `ObjectTypeWithoutFallback` covers a tag or an
    expected type of `object` when the fallback does not apply: the node is then
    delegated as `object`.
- `NoTypeDerivable` can only be raised for scalars.
  - It happens for an untagged scalar with no expected descriptor whose TryParse
    fails and writes null.
  - Sequences and mappings always fall back to a container type or to the value's
    type (`NoTypeDerivableExactly`).
- The read fallback and the write check use different container types (interfaces
  on read, concrete classes on write). The round trip of untyped data therefore
  holds only under an assumption about what the next stage instantiates
  (`UntypedContainerRoundTrip`).

## Model

| member | source | states |
|---|---|---|
| `TypeResolution.TagType` | YamlDotNet/Serialization/Serializers/TypingSerializer.cs:31-40 | fails exactly when the node has a non-empty tag that the registry maps to no type, with that tag text and the node's range; otherwise a type is present exactly when a tag is, and it is the registry's type |
| `TypeResolution.Reconcile` | YamlDotNet/Serialization/Serializers/TypingSerializer.cs:42-48 | with no expected type the tag's type is adopted, whatever its kind; with no tag the expected type stays; a class tag other than string always wins; a value-type, string or interface tag never displaces a present expected type |
| `TypeResolution.ContainerFallback` | YamlDotNet/Serialization/Serializers/TypingSerializer.cs:58-76 | the type changes only when it is absent or object and the value is null, and then only to a read container type; an untyped sequence becomes IList<object> and an untyped mapping IDictionary<object, object>; a scalar's type is never changed |
| `TypeResolution.ResolveRead` | YamlDotNet/Serialization/Serializers/TypingSerializer.cs:13-91 | a missing event is exactly the failure with no position; every other failure carries the peeked event's range; a non-node event fails as UnexpectedEvent; the shortcut answers exactly for an accepted scalar the schema parses as object, with the schema's value; delegation passes the value as the shortcut left it |
| `TypeResolution.WriteDescriptor` | YamlDotNet/Serialization/Serializers/TypingSerializer.cs:93-109 | the descriptor is replaced only for a non-null value whose runtime type is Dictionary<object, object> or List<object> under an object descriptor, and then always by the provider's descriptor of that runtime type; a null descriptor passes through |
| `TypeResolution.EventChecksPrecedeLookup` | YamlDotNet/Serialization/Serializers/TypingSerializer.cs:15-27 | on a missing or non-node event the read fails, and the outcome is the same for any tag registry and any schema, so neither is consulted first |
| `TypeResolution.UnresolvableTagFailsFirst` | YamlDotNet/Serialization/Serializers/TypingSerializer.cs:33-51 | a node with an unknown non-empty tag fails with UnresolvableTag, the tag text and the node's range, whatever the schema would parse, the expected type and the value |
| `TypeResolution.ClassTagDecidesType` | YamlDotNet/Serialization/Serializers/TypingSerializer.cs:42-90 | when the shortcut does not answer, a tag resolving to a class other than string and object makes that class the delegated type, for any expected descriptor and any value |
| `TypeResolution.ObjectTypeWithoutFallback` | YamlDotNet/Serialization/Serializers/TypingSerializer.cs:42-90 | a node whose tag resolves to object, or an untagged node expected as object, is delegated as object with the value as the shortcut left it. This holds when the shortcut does not answer and the fallback does not apply: a scalar, or a sequence or mapping with a non-null value |
| `TypeResolution.NonClassTagKeepsExpected` | YamlDotNet/Serialization/Serializers/TypingSerializer.cs:42-90 | when the shortcut does not answer, a tag resolving to a value type, string or an interface leaves a present non-object expected type as the delegated type |
| `TypeResolution.AbsentExpectedAdoptsTag` | YamlDotNet/Serialization/Serializers/TypingSerializer.cs:46-90 | with no expected descriptor, the tag's type (any kind except object) is the delegated type, value types and string included |
| `TypeResolution.ScalarShortcut` | YamlDotNet/Serialization/Serializers/TypingSerializer.cs:50-56 | a scalar with no tag or a known tag, which the schema parses as object, yields the schema's value, whatever the expected type and the caller's value |
| `TypeResolution.ScalarIgnoresCallerValue` | YamlDotNet/Serialization/Serializers/TypingSerializer.cs:51-86 | for a scalar the outcome is the same for any caller value, because TryParse overwrites it whether or not it succeeds |
| `TypeResolution.UntypedContainerFallback` | YamlDotNet/Serialization/Serializers/TypingSerializer.cs:64-76 | an untagged sequence or mapping with a null value and an absent or object expected type delegates with IList<object> or IDictionary<object, object> and a null value |
| `TypeResolution.NoTypeDerivableExactly` | YamlDotNet/Serialization/Serializers/TypingSerializer.cs:78-81 | the read fails with NoTypeDerivable at the node if and only if the node is an untagged scalar, no descriptor was expected, and TryParse fails with a null out value |
| `TypeResolution.ExpectedKeptWithoutTag` | YamlDotNet/Serialization/Serializers/TypingSerializer.cs:42-90 | when the shortcut does not answer, an untagged node of any kind with a present expected type other than object is delegated with that expected type and the value as the shortcut left it |
| `TypeResolution.ScalarRuntimeTypeFallback` | YamlDotNet/Serialization/Serializers/TypingSerializer.cs:51-86 | an untagged scalar with no expected descriptor, which TryParse rejects while writing a non-null out value, is delegated with that out value and its runtime type, whatever the caller's value |
| `TypeResolution.RuntimeTypeFallbackReachable` | YamlDotNet/Serialization/Serializers/TypingSerializer.cs:83-86 | an untagged sequence or mapping with no expected type and a non-null value is delegated with that value's runtime type, and such an input exists for any registry and schema |
| `TypeResolution.RoundTripNeedsConcreteContainer` | YamlDotNet/Serialization/Serializers/TypingSerializer.cs:64-104 | if the provider describes the type it is asked for, an untagged container read under an object descriptor is delegated with an interface container type, which the write check never recognises; writing back what the next stage built keeps the object descriptor if and only if that object is null or not exactly a List<object> or Dictionary<object, object> |
| `TypeResolution.UntypedContainerRoundTrip` | YamlDotNet/Serialization/Serializers/TypingSerializer.cs:58-108 | if the provider describes the type it is asked for and the next stage builds List<object> for IList<object> and Dictionary<object, object> for IDictionary<object, object>, then an untagged container read under an object descriptor is written back with its concrete container's descriptor |
| `Serializers.EventReader.MoveNext` | YamlDotNet/Serialization/Serializers/TypingSerializer.cs:54 | advances the position by exactly one when an event remains, and reports whether it did |
| `Serializers.SerializerContext.FindTypeDescriptor` | YamlDotNet/Serialization/Serializers/TypingSerializer.cs:88 | returns the provider's descriptor for the type and logs exactly one lookup of it |
| `Serializers.NextStage.ReadYaml` | YamlDotNet/Serialization/Serializers/TypingSerializer.cs:90 | logs one read call with the value, the descriptor and the reader position it was called at; returns what the next stage builds from them; may consume events but never moves the reader back |
| `Serializers.NextStage.WriteYaml` | YamlDotNet/Serialization/Serializers/TypingSerializer.cs:108 | logs one write call with the value and descriptor |
| `Serializers.TypingSerializer.ReadYaml` | YamlDotNet/Serialization/Serializers/TypingSerializer.cs:13-91 | follows `ResolveRead` on the peeked event. A failure consumes no event, looks nothing up and calls nothing. The shortcut consumes exactly one event, looks nothing up and calls nothing. Delegation looks up exactly the resolved type and calls the next stage once with that descriptor. That call sees the reader where the stage found it, so the stage consumes nothing itself before delegating. The stage returns the next stage's result unchanged |
| `Serializers.TypingSerializer.WriteYaml` | YamlDotNet/Serialization/Serializers/TypingSerializer.cs:93-109 | calls the next stage exactly once, with the descriptor `WriteDescriptor` chooses; it looks up a descriptor only when it substitutes one |

## Left out

- Exception messages (`DoFormat` and the message texts). An error is its kind, the tag text for an unresolvable tag, and an optional source range.
- The code of the tag registry (`TypeFromTag`), the scalar schema (`TryParse`) and the descriptor provider (`FindTypeDescriptor`). They are not part of this model and appear as arbitrary functions. The provider's per-type cache is therefore a pure function of the type.
- These collaborators are assumed not to fail. This covers the tag registry, the schema, the descriptor provider and the next stage's `ReadYaml` and `WriteYaml`. The source passes on any exception they throw. The model has no exception from them and no null descriptor from `FindTypeDescriptor`.
- `ChainedSerializer` and the next stage's reading and writing are not part of this model.
  - The next stage is a recorder of its calls, and its read answer is an arbitrary function of the value and the descriptor.
  - How many events it consumes is not modelled; it only never moves the reader back.
- .NET reflection (`IsClass`, `GetType`, generic type identity) is abstracted into the `Ty` datatype, its `IsClass` predicate and an object's runtime type. That runtime type is not constrained to be concrete, although `GetType` never returns an interface.
- The tokenizer and parser behind the context's reader. The reader is a fixed event sequence with a position. `MoveNext` advances it and, when the stage delegates, the next stage may advance it too.
- The value returned by `Parser.MoveNext` is ignored by the shortcut, as in the source.
- Whether untyped data round-trips without tags is claimed only under the stated assumptions about the provider and the next stage. Emission of tags is not modelled.
