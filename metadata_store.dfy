/**
 * An in-memory metadata store: the part of the ML Metadata (MLMD) store that
 * context registration uses. Contexts are unique per (type name, context
 * name); ids come from counters; parent links are a set of
 * (parent id, child id) pairs. A concurrent writer is not a thread here: the
 * insert takes a `Race` that says what another writer did meanwhile.
 */
module Mlmd {
  import opened Wrappers

  /** MLMD property types a context property can have. */
  datatype ValueKind = IntKind | DoubleKind | StringKind | BoolKind

  /** A property value (an MLMD Value). */
  datatype Value =
    | IntValue(i: int)
    | DoubleValue(d: real)
    | StringValue(s: string)
    | BoolValue(b: bool)

  function KindOf(v: Value): ValueKind
  {
    match v
    case IntValue(_) => IntKind
    case DoubleValue(_) => DoubleKind
    case StringValue(_) => StringKind
    case BoolValue(_) => BoolKind
  }

  /** A context type: its name and its property schema (key to kind). */
  datatype ContextType = ContextType(id: int, name: string, properties: map<string, ValueKind>)

  /** A context record. Id 0 means "not yet assigned", as in the proto message. */
  datatype Context = Context(
    id: int,
    typeId: int,
    name: string,
    properties: map<string, Value>,
    customProperties: map<string, Value>)

  /** (type name, context name): the store's unique key for a context. */
  type ContextKey = (string, string)

  /** What a concurrent writer did between our lookup and our insert. */
  datatype Race =
    | NoRace                 // nobody else wrote the key
    | LostTo(rival: Context) // another writer inserted its own record for the key first
    | ConflictNotVisible     // the store reports the collision, but the winner's record cannot be read yet

  datatype PutContextOutcome = ContextInserted(id: int) | ContextAlreadyExists

  datatype PutParentOutcome = ParentInserted | ParentAlreadyExists

  /** The type that registering `t` yields: the stored one, or `t` under the next free id. */
  function RegisteredType(types: map<string, ContextType>, nextTypeId: int, t: ContextType): (r: ContextType)
    ensures t.name in types ==> r == types[t.name]
    ensures t.name !in types ==> r.id == nextTypeId && r.name == t.name && r.properties == t.properties
  {
    if t.name in types then types[t.name] else t.(id := nextTypeId)
  }

  /** Every entry of `before` is still there, unchanged, in `after`. */
  ghost predicate Grows<K, V>(before: map<K, V>, after: map<K, V>)
  {
    forall k :: k in before ==> k in after && after[k] == before[k]
  }

  class MetadataStore {
    var types: map<string, ContextType>
    var nextTypeId: int
    var contexts: map<ContextKey, Context>
    var nextContextId: int
    var parentContexts: set<(int, int)>

    /**
     * Types are stored under their own names; every context belongs to a stored
     * type and is stored under its own name; ids are positive, below the
     * counters, and distinct between types and between contexts.
     */
    ghost predicate Valid()
      reads this
    {
      && 1 <= nextTypeId
      && 1 <= nextContextId
      && (forall n :: n in types ==> types[n].name == n && 1 <= types[n].id < nextTypeId)
      && (forall n1, n2 :: n1 in types && n2 in types && n1 != n2 ==> types[n1].id != types[n2].id)
      && (forall k :: k in contexts ==>
            && k.0 in types
            && contexts[k].typeId == types[k.0].id
            && contexts[k].name == k.1
            && 1 <= contexts[k].id < nextContextId)
      && (forall k1, k2 :: k1 in contexts && k2 in contexts && k1 != k2 ==> contexts[k1].id != contexts[k2].id)
    }

    constructor ()
      ensures Valid()
      ensures types == map[] && contexts == map[] && parentContexts == {}
      ensures nextTypeId == 1 && nextContextId == 1
    {
      types := map[];
      nextTypeId := 1;
      contexts := map[];
      nextContextId := 1;
      parentContexts := {};
    }

    /** Registers a context type by name; an existing type is returned as stored. */
    method RegisterTypeIfNotExist(t: ContextType) returns (r: ContextType)
      requires Valid()
      modifies this
      ensures Valid()
      ensures r == RegisteredType(old(types), old(nextTypeId), t)
      ensures types == old(types)[t.name := r]
      ensures t.name in old(types) ==> nextTypeId == old(nextTypeId)
      ensures contexts == old(contexts) && nextContextId == old(nextContextId)
      ensures parentContexts == old(parentContexts)
    {
      if t.name in types {
        r := types[t.name];
      } else {
        r := t.(id := nextTypeId);
        types := types[t.name := r];
        nextTypeId := nextTypeId + 1;
      }
    }

    /** get_context_by_type_and_name. */
    method GetContextByTypeAndName(typeName: string, name: string) returns (r: Option<Context>)
      requires Valid()
      ensures r.Some? <==> (typeName, name) in contexts
      ensures r.Some? ==> r.value == contexts[(typeName, name)] && r.value.name == name
    {
      if (typeName, name) in contexts {
        r := Some(contexts[(typeName, name)]);
      } else {
        r := None;
      }
    }

    /**
     * put_contexts with one context: a taken key is AlreadyExists; otherwise
     * the outcome of the race decides whose record gets the key.
     */
    method PutContext(typeName: string, c: Context, race: Race) returns (r: PutContextOutcome)
      requires Valid()
      requires typeName in types && types[typeName].id == c.typeId
      modifies this
      ensures Valid()
      ensures (typeName, c.name) in old(contexts) ==>
        r == ContextAlreadyExists && contexts == old(contexts) && nextContextId == old(nextContextId)
      ensures (typeName, c.name) !in old(contexts) && race.NoRace? ==>
        && r == ContextInserted(old(nextContextId))
        && contexts == old(contexts)[(typeName, c.name) := c.(id := old(nextContextId))]
        && nextContextId == old(nextContextId) + 1
      ensures (typeName, c.name) !in old(contexts) && race.LostTo? ==>
        && r == ContextAlreadyExists
        && contexts == old(contexts)[(typeName, c.name) := race.rival.(id := old(nextContextId), typeId := c.typeId, name := c.name)]
        && nextContextId == old(nextContextId) + 1
      ensures (typeName, c.name) !in old(contexts) && race.ConflictNotVisible? ==>
        r == ContextAlreadyExists && contexts == old(contexts) && nextContextId == old(nextContextId)
      ensures types == old(types) && nextTypeId == old(nextTypeId) && parentContexts == old(parentContexts)
    {
      var key := (typeName, c.name);
      if key in contexts {
        r := ContextAlreadyExists;
      } else {
        match race
        case NoRace =>
          contexts := contexts[key := c.(id := nextContextId)];
          r := ContextInserted(nextContextId);
          nextContextId := nextContextId + 1;
        case LostTo(rival) =>
          contexts := contexts[key := rival.(id := nextContextId, typeId := c.typeId, name := c.name)];
          nextContextId := nextContextId + 1;
          r := ContextAlreadyExists;
        case ConflictNotVisible =>
          r := ContextAlreadyExists;
      }
    }

    /** put_parent_contexts with one edge: an existing edge is AlreadyExists. */
    method PutParentContext(parentId: int, childId: int) returns (r: PutParentOutcome)
      requires Valid()
      modifies this
      ensures Valid()
      ensures r == ParentAlreadyExists <==> (parentId, childId) in old(parentContexts)
      ensures parentContexts == old(parentContexts) + {(parentId, childId)}
      ensures types == old(types) && nextTypeId == old(nextTypeId)
      ensures contexts == old(contexts) && nextContextId == old(nextContextId)
    {
      if (parentId, childId) in parentContexts {
        r := ParentAlreadyExists;
      } else {
        parentContexts := parentContexts + {(parentId, childId)};
        r := ParentInserted;
      }
    }
  }
}
