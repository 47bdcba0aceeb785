/** The stateful side of TypingSerializer: the event reader whose position the
    scalar shortcut advances, the serializer context holding the collaborators,
    the next stage of the chain, and the serializer's two entry points proved
    against the decisions in TypeResolution. */
module Serializers {
  import opened Wrappers
  import opened YamlModel
  import opened TypeResolution

  /** The parser behind the context's reader, reduced to a sequence of events
      and the index of the current one. */
  class EventReader {
    const events: seq<Event>
    var pos: nat

    constructor (events: seq<Event>)
      ensures this.events == events && pos == 0
    {
      this.events := events;
      pos := 0;
    }

    /** The current event without consuming it; None once the events run out. */
    function Peek(): Option<Event>
      reads this
    {
      if pos < |events| then Some(events[pos]) else None
    }

    /** Moves to the next event; reports whether there was one to move past. */
    method MoveNext() returns (moved: bool)
      modifies this`pos
      ensures moved <==> old(pos) < |events|
      ensures pos == if moved then old(pos) + 1 else old(pos)
    {
      moved := pos < |events|;
      if moved {
        pos := pos + 1;
      }
    }
  }

  /** The serializer context: the reader, the tag registry, the scalar schema's
      TryParse and the descriptor provider. `lookups` logs the types the
      provider was asked for. */
  class SerializerContext {
    const reader: EventReader
    const typeFromTag: string -> Option<Ty>
    const tryParse: (Event, Ty) -> ParseResult
    const provider: Ty -> TypeDescriptor
    ghost var lookups: seq<Ty>

    constructor (reader: EventReader, typeFromTag: string -> Option<Ty>,
                 tryParse: (Event, Ty) -> ParseResult, provider: Ty -> TypeDescriptor)
      ensures this.reader == reader && this.typeFromTag == typeFromTag
      ensures this.tryParse == tryParse && this.provider == provider
      ensures lookups == []
    {
      this.reader := reader;
      this.typeFromTag := typeFromTag;
      this.tryParse := tryParse;
      this.provider := provider;
      lookups := [];
    }

    method FindTypeDescriptor(t: Ty) returns (descriptor: TypeDescriptor)
      modifies this`lookups
      ensures descriptor == provider(t)
      ensures lookups == old(lookups) + [t]
    {
      descriptor := provider(t);
      lookups := lookups + [t];
    }
  }

  /** The next link of the chain. Its reading and writing are not part of this
      model: it logs each call, with the reader position it was called at, and
      answers a read with `materialize`. It may consume events, never un-read
      them. */
  class NextStage {
    const materialize: (Option<Obj>, TypeDescriptor) -> Option<Obj>
    ghost var readCalls: seq<(Option<Obj>, TypeDescriptor, nat)>
    ghost var writeCalls: seq<(Option<Obj>, Option<TypeDescriptor>)>

    constructor (materialize: (Option<Obj>, TypeDescriptor) -> Option<Obj>)
      ensures this.materialize == materialize
      ensures readCalls == [] && writeCalls == []
    {
      this.materialize := materialize;
      readCalls, writeCalls := [], [];
    }

    method ReadYaml(reader: EventReader, value: Option<Obj>, descriptor: TypeDescriptor) returns (result: Option<Obj>)
      modifies this`readCalls, reader`pos
      ensures result == materialize(value, descriptor)
      ensures readCalls == old(readCalls) + [(value, descriptor, old(reader.pos))]
      ensures reader.pos >= old(reader.pos)
    {
      result := materialize(value, descriptor);
      readCalls := readCalls + [(value, descriptor, reader.pos)];
    }

    method WriteYaml(value: Option<Obj>, descriptor: Option<TypeDescriptor>)
      modifies this`writeCalls
      ensures writeCalls == old(writeCalls) + [(value, descriptor)]
    {
      writeCalls := writeCalls + [(value, descriptor)];
    }
  }

  /** The typing link of the serializer chain. */
  class TypingSerializer {
    const next: NextStage

    constructor (next: NextStage)
      ensures this.next == next
    {
      this.next := next;
    }

    /** Resolves the type for the next node and either answers with the
        schema's value, consuming that one event, or looks up the descriptor
        and returns what the next stage returns, calling it before consuming
        anything itself. A failure consumes nothing, looks nothing up and
        calls nothing. */
    method ReadYaml(context: SerializerContext, value: Option<Obj>, typeDescriptor: Option<TypeDescriptor>)
      returns (r: Result<Option<Obj>, YamlError>)
      modifies context.reader`pos, context`lookups, next`readCalls
      ensures var step := ResolveRead(old(context.reader.Peek()), value, typeDescriptor,
                                      context.typeFromTag, context.tryParse);
              match step
              case Failure(e) =>
                && r == Failure(e)
                && context.reader.pos == old(context.reader.pos)
                && context.lookups == old(context.lookups)
                && next.readCalls == old(next.readCalls)
              case Success(Shortcut(parsed)) =>
                && r == Success(parsed)
                && context.reader.pos == old(context.reader.pos) + 1
                && context.lookups == old(context.lookups)
                && next.readCalls == old(next.readCalls)
              case Success(Delegate(v, ty)) =>
                && r == Success(next.materialize(v, context.provider(ty)))
                && context.lookups == old(context.lookups) + [ty]
                && next.readCalls == old(next.readCalls) + [(v, context.provider(ty), old(context.reader.pos))]
                && context.reader.pos >= old(context.reader.pos)
    {
      var step := ResolveRead(context.reader.Peek(), value, typeDescriptor, context.typeFromTag, context.tryParse);
      match step
      case Failure(e) =>
        r := Failure(e);
      case Success(Shortcut(parsed)) =>
        var moved := context.reader.MoveNext();
        r := Success(parsed);
      case Success(Delegate(v, ty)) =>
        var descriptor := context.FindTypeDescriptor(ty);
        var result := next.ReadYaml(context.reader, v, descriptor);
        r := Success(result);
    }

    /** Hands the value to the next stage exactly once, with the descriptor of
        its concrete container type in place of an object descriptor. */
    method WriteYaml(context: SerializerContext, value: Option<Obj>, typeDescriptor: Option<TypeDescriptor>)
      modifies context`lookups, next`writeCalls
      ensures next.writeCalls == old(next.writeCalls) + [(value, WriteDescriptor(value, typeDescriptor, context.provider))]
      ensures context.lookups
           == old(context.lookups)
              + if SubstitutesOnWrite(value, typeDescriptor) then [value.value.runtimeType] else []
    {
      var descriptor := typeDescriptor;
      var ty := ExpectedType(typeDescriptor);
      if value.Some? && ty == Some(ObjectType) {
        var valueType := value.value.runtimeType;
        if valueType == DictionaryOfObject || valueType == ListOfObject {
          var found := context.FindTypeDescriptor(valueType);
          descriptor := Some(found);
        }
      }
      next.WriteYaml(value, descriptor);
    }
  }
}
