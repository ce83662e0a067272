/**
  Events: the base class Event (its private tag) and the three concrete event
  structs PlayerInputEvent, GameStateChangeEvent and EntityInteractionEvent.

  The class hierarchy becomes one datatype: `tag` is the private field that
  Event's protected constructor sets and getType returns, `payload` is the
  concrete struct with its public fields. A downcast from Event to a concrete
  struct becomes a `match` on the payload.
*/
module Events {
  import opened EventIdentity

  /** PlayerInputEvent::Action */
  datatype Action = Move | Jump | Attack

  /** GameStateChangeEvent::State */
  datatype State = Start | Pause | GameOver

  /** EntityInteractionEvent::InteractionType */
  datatype InteractionType = Collision | Pickup | Trigger

  /** The concrete event structs: the type arguments T of EventType<T>. */
  datatype Variant = PlayerInputKind | GameStateChangeKind | EntityInteractionKind

  /** The fields of each concrete struct. `dx` and `dy` are C++ floats; nothing here computes with them. */
  datatype Payload =
    | PlayerInput(action: Action, dx: real, dy: real, attackDirection: int)
    | GameStateChange(newState: State)
    | EntityInteraction(interaction: InteractionType, entityId1: int, entityId2: int)

  /**
    An event object. `tag` is private to Event and has no setter, and a
    datatype value never changes, so `e.tag` is what `e.getType()` returns
    for the whole life of `e`.
  */
  datatype Event = Event(tag: int, payload: Payload)

  /** The dynamic type of an event. */
  function VariantOf(p: Payload): Variant {
    match p
    case PlayerInput(_, _, _, _) => PlayerInputKind
    case GameStateChange(_) => GameStateChangeKind
    case EntityInteraction(_, _, _) => EntityInteractionKind
  }

  /** The tag of `e` is the one the allocator gave its struct: what every constructor establishes. */
  predicate WellTagged(e: Event, ids: map<Variant, int>) {
    VariantOf(e.payload) in ids && e.tag == ids[VariantOf(e.payload)]
  }

  /**
    `clone()`: a copy made by the struct's implicit copy constructor, field by
    field, tag included. The copy is an independent value, so a later change
    to the original cannot be seen through it.
  */
  function Clone(e: Event): (c: Event)
    ensures c == e
    ensures VariantOf(c.payload) == VariantOf(e.payload) && c.tag == e.tag
  {
    match e.payload
    case PlayerInput(a, dx, dy, dir) => Event(e.tag, PlayerInput(a, dx, dy, dir))
    case GameStateChange(s) => Event(e.tag, GameStateChange(s))
    case EntityInteraction(t, id1, id2) => Event(e.tag, EntityInteraction(t, id1, id2))
  }

  /**
    Among events built by the constructors below, the tag decides the struct:
    same tag if and only if same struct, because distinct structs receive
    distinct tags.
  */
  lemma TagDeterminesVariant(ids: map<Variant, int>, next: int, e1: Event, e2: Event)
    requires TagsValid(ids, next)
    requires WellTagged(e1, ids) && WellTagged(e2, ids)
    ensures e1.tag == e2.tag <==> VariantOf(e1.payload) == VariantOf(e2.payload)
  {
  }

  /**
    The common part of the three constructors: `Event(EventType<Self>::getId())`
    followed by the member initialisers.
  */
  method NewEvent(types: TypeIds<Variant>, p: Payload) returns (e: Event)
    requires types.Valid()
    modifies types
    ensures types.Valid()
    ensures e.payload == p && WellTagged(e, types.ids)
    ensures VariantOf(p) in old(types.ids) ==>
              e.tag == old(types.ids[VariantOf(p)]) && types.ids == old(types.ids) && types.nextId == old(types.nextId)
    ensures VariantOf(p) !in old(types.ids) ==>
              e.tag == old(types.nextId) && types.nextId == old(types.nextId) + 1 &&
              types.ids == old(types.ids)[VariantOf(p) := e.tag]
  {
    var tag := types.GetId(VariantOf(p));
    e := Event(tag, p);
  }

  /** A player-input event; unless given, the action is a move with no displacement and direction 0. */
  method NewPlayerInput(types: TypeIds<Variant>, action: Action := Move, dx: real := 0.0, dy: real := 0.0,
                        attackDirection: int := 0)
    returns (e: Event)
    requires types.Valid()
    modifies types
    ensures types.Valid()
    ensures e.payload == PlayerInput(action, dx, dy, attackDirection) && WellTagged(e, types.ids)
    ensures types.ids == old(types.ids)[PlayerInputKind := e.tag]
    ensures PlayerInputKind in old(types.ids) ==> e.tag == old(types.ids[PlayerInputKind]) && types.nextId == old(types.nextId)
    ensures PlayerInputKind !in old(types.ids) ==> e.tag == old(types.nextId) && types.nextId == e.tag + 1
  {
    e := NewEvent(types, PlayerInput(action, dx, dy, attackDirection));
  }

  /** A game-state-change event; unless given, the new state is the start state. */
  method NewGameStateChange(types: TypeIds<Variant>, state: State := Start) returns (e: Event)
    requires types.Valid()
    modifies types
    ensures types.Valid()
    ensures e.payload == GameStateChange(state) && WellTagged(e, types.ids)
    ensures types.ids == old(types.ids)[GameStateChangeKind := e.tag]
    ensures GameStateChangeKind in old(types.ids) ==> e.tag == old(types.ids[GameStateChangeKind]) && types.nextId == old(types.nextId)
    ensures GameStateChangeKind !in old(types.ids) ==> e.tag == old(types.nextId) && types.nextId == e.tag + 1
  {
    e := NewEvent(types, GameStateChange(state));
  }

  /** An entity-interaction event; unless given, a collision between two unset entities (-1 each). */
  method NewEntityInteraction(types: TypeIds<Variant>, t: InteractionType := Collision, id1: int := -1,
                              id2: int := -1)
    returns (e: Event)
    requires types.Valid()
    modifies types
    ensures types.Valid()
    ensures e.payload == EntityInteraction(t, id1, id2) && WellTagged(e, types.ids)
    ensures types.ids == old(types.ids)[EntityInteractionKind := e.tag]
    ensures EntityInteractionKind in old(types.ids) ==> e.tag == old(types.ids[EntityInteractionKind]) && types.nextId == old(types.nextId)
    ensures EntityInteractionKind !in old(types.ids) ==> e.tag == old(types.nextId) && types.nextId == e.tag + 1
  {
    e := NewEvent(types, EntityInteraction(t, id1, id2));
  }

  /** Constructing with no arguments gives the defaults written in the three constructor declarations. */
  method DefaultConstructed(types: TypeIds<Variant>) returns (input: Event, state: Event, interaction: Event)
    requires types.Valid()
    modifies types
    ensures types.Valid()
    ensures input.payload == PlayerInput(Move, 0.0, 0.0, 0)
    ensures state.payload == GameStateChange(Start)
    ensures interaction.payload == EntityInteraction(Collision, -1, -1)
    ensures WellTagged(input, types.ids) && WellTagged(state, types.ids) && WellTagged(interaction, types.ids)
    ensures input.tag != state.tag && state.tag != interaction.tag && input.tag != interaction.tag
  {
    input := NewPlayerInput(types);
    state := NewGameStateChange(types);
    interaction := NewEntityInteraction(types);
  }
}
