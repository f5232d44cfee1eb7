/**
 * Context registration against the metadata store: build a context from a
 * context spec, register it if no context with its (type name, name) exists,
 * link it to its parent contexts, and register a node's contexts in batch.
 */
module ContextLib {
  import opened Wrappers
  import opened Sequences
  import opened Mlmd

  /** The context type names the batch registration treats specially. */
  const PipelineContextTypeName: string := "pipeline"
  const PipelineRunContextTypeName: string := "pipeline_run"

  /** A ContextSpec: the context type (name and schema), the name as a value, the properties. */
  datatype ContextSpec = ContextSpec(contextType: ContextType, name: Value, properties: map<string, Value>)

  /** The failures of registration, as values. */
  datatype Error =
    | PropertyTypeMismatch(key: string, actual: ValueKind, expected: ValueKind)  // the RuntimeError of the builder
    | NameNotString                          // the assertion that the context name is a string
    | ContextMissingAfterConflict(name: string)  // the assertion after put_contexts reported AlreadyExists

  /** The spec properties whose keys the schema declares. */
  function SchemaProperties(props: map<string, Value>, schema: map<string, ValueKind>): map<string, Value>
  {
    map k | k in props && k in schema :: props[k]
  }

  /** The spec properties whose keys the schema does not declare. */
  function CustomProperties(props: map<string, Value>, schema: map<string, ValueKind>): map<string, Value>
  {
    map k | k in props && k !in schema :: props[k]
  }

  /** Every declared key carries a value of the declared kind. */
  ghost predicate MatchesSchema(props: map<string, Value>, schema: map<string, ValueKind>)
  {
    forall k :: k in props && k in schema ==> KindOf(props[k]) == schema[k]
  }

  /**
   * The properties split without loss: declared keys go to `properties`,
   * the rest to `custom_properties`, nothing is in both, and together they
   * are the spec's properties; declared ones have the declared kind.
   */
  lemma PropertiesPartition(props: map<string, Value>, schema: map<string, ValueKind>)
    ensures SchemaProperties(props, schema).Keys == props.Keys * schema.Keys
    ensures CustomProperties(props, schema).Keys == props.Keys - schema.Keys
    ensures SchemaProperties(props, schema).Keys !! CustomProperties(props, schema).Keys
    ensures SchemaProperties(props, schema) + CustomProperties(props, schema) == props
    ensures MatchesSchema(props, schema) ==>
      forall k :: k in SchemaProperties(props, schema) ==> KindOf(SchemaProperties(props, schema)[k]) == schema[k]
  {
    var s, c := SchemaProperties(props, schema), CustomProperties(props, schema);
    assert s.Keys == props.Keys * schema.Keys;
    assert c.Keys == props.Keys - schema.Keys;
    assert (s + c).Keys == props.Keys;
  }

  /** The store key of a spec, when its name is a string. */
  function SpecKey(spec: ContextSpec): Option<ContextKey>
  {
    if spec.name.StringValue? then Some((spec.contextType.name, spec.name.s)) else None
  }

  /** What looking the spec up finds. A name that is not a string finds nothing. */
  function Lookup(contexts: map<ContextKey, Context>, spec: ContextSpec): Option<Context>
  {
    if SpecKey(spec).Some? && SpecKey(spec).value in contexts then Some(contexts[SpecKey(spec).value]) else None
  }

  /** The spec can be built against type `t`: a string name and schema-conforming properties. */
  ghost predicate Buildable(t: ContextType, spec: ContextSpec)
  {
    spec.name.StringValue? && MatchesSchema(spec.properties, t.properties)
  }

  /** The context built from `spec` for type `t`, before the store assigns an id. */
  function BuiltContext(t: ContextType, spec: ContextSpec): Context
    requires spec.name.StringValue?
  {
    Context(0, t.id, spec.name.s, SchemaProperties(spec.properties, t.properties),
            CustomProperties(spec.properties, t.properties))
  }

  /** The edges from each parent to the child. */
  function ParentEdges(parents: seq<Context>, childId: int): set<(int, int)>
  {
    set p | p in parents :: (p.id, childId)
  }

  lemma ParentEdgesSnoc(parents: seq<Context>, i: nat, childId: int)
    requires i < |parents|
    ensures ParentEdges(parents[..i + 1], childId) == ParentEdges(parents[..i], childId) + {(parents[i].id, childId)}
  {
    assert parents[..i + 1] == parents[..i] + [parents[i]];
  }

  /**
   * The loop of _generate_context_proto over the spec properties, after the
   * name check: declared keys must have the declared kind and go to
   * `properties`, undeclared keys go to `custom_properties`. The loop visits
   * the keys in an unspecified order, so a spec with several mismatched keys
   * may report any of them.
   */
  method BuildContext(contextType: ContextType, name: Value, properties: map<string, Value>)
    returns (r: Result<Context, Error>)
    ensures r.Success? <==> name.StringValue? && MatchesSchema(properties, contextType.properties)
    ensures r.Success? ==>
      r.value == Context(0, contextType.id, name.s,
                         SchemaProperties(properties, contextType.properties),
                         CustomProperties(properties, contextType.properties))
    ensures !name.StringValue? ==> r == Failure(NameNotString)
    ensures r.Failure? && name.StringValue? ==>
      && r.error.PropertyTypeMismatch?
      && r.error.key in properties && r.error.key in contextType.properties
      && r.error.actual == KindOf(properties[r.error.key])
      && r.error.expected == contextType.properties[r.error.key]
      && r.error.actual != r.error.expected
  {
    if !name.StringValue? {
      return Failure(NameNotString);
    }
    var schema := contextType.properties;
    var props: map<string, Value> := map[];
    var custom: map<string, Value> := map[];
    var remaining := properties.Keys;
    while remaining != {}
      invariant remaining <= properties.Keys
      invariant props == SchemaProperties(properties - remaining, schema)
      invariant custom == CustomProperties(properties - remaining, schema)
      invariant MatchesSchema(properties - remaining, schema)
      decreases remaining
    {
      var k :| k in remaining;
      var v := properties[k];
      ghost var done := properties - remaining;
      assert properties - (remaining - {k}) == done[k := v];
      if k in schema {
        if schema[k] == KindOf(v) {
          props := props[k := v];
        } else {
          return Failure(PropertyTypeMismatch(k, KindOf(v), schema[k]));
        }
      } else {
        custom := custom[k := v];
      }
      remaining := remaining - {k};
    }
    assert properties - remaining == properties;
    r := Success(Context(0, contextType.id, name.s, props, custom));
  }

  /**
   * _generate_context_proto: registers the spec's type (an existing type is
   * used as stored), then builds the context against that type's schema. The
   * type stays registered even when the build fails.
   */
  method GenerateContextProto(store: MetadataStore, spec: ContextSpec) returns (r: Result<Context, Error>)
    requires store.Valid()
    modifies store
    ensures store.Valid()
    ensures store.types == old(store.types)[spec.contextType.name := RegisteredType(old(store.types), old(store.nextTypeId), spec.contextType)]
    ensures r.Success? <==> Buildable(RegisteredType(old(store.types), old(store.nextTypeId), spec.contextType), spec)
    ensures r.Success? ==> r.value == BuiltContext(RegisteredType(old(store.types), old(store.nextTypeId), spec.contextType), spec)
    ensures !spec.name.StringValue? ==> r == Failure(NameNotString)
    ensures r.Failure? && spec.name.StringValue? ==> r.error.PropertyTypeMismatch?
    ensures store.contexts == old(store.contexts) && store.nextContextId == old(store.nextContextId)
    ensures store.parentContexts == old(store.parentContexts)
  {
    var t := store.RegisterTypeIfNotExist(spec.contextType);
    r := BuildContext(t, spec.name, spec.properties);
  }

  /**
   * put_parent_context_if_not_exists: afterwards the edge is in the store,
   * whether it was inserted now or already there (AlreadyExists is swallowed).
   */
  method PutParentContextIfNotExists(store: MetadataStore, parentId: int, childId: int)
    requires store.Valid()
    modifies store
    ensures store.Valid()
    ensures store.parentContexts == old(store.parentContexts) + {(parentId, childId)}
    ensures store.types == old(store.types) && store.nextTypeId == old(store.nextTypeId)
    ensures store.contexts == old(store.contexts) && store.nextContextId == old(store.nextContextId)
  {
    var outcome := store.PutParentContext(parentId, childId);
    // ParentAlreadyExists is not an error here: the edge is already in place.
  }

  /** Linking twice leaves the edge set as linking once did, and raises nothing. */
  method PutParentContextTwice(store: MetadataStore, parentId: int, childId: int)
    requires store.Valid()
    modifies store
    ensures store.Valid()
    ensures store.parentContexts == old(store.parentContexts) + {(parentId, childId)}
  {
    PutParentContextIfNotExists(store, parentId, childId);
    ghost var once := store.parentContexts;
    PutParentContextIfNotExists(store, parentId, childId);
    assert store.parentContexts == once;
  }

  /** The parent-linking loop: every parent is linked to the child, in order. */
  method LinkParents(store: MetadataStore, parents: seq<Context>, childId: int)
    requires store.Valid()
    modifies store
    ensures store.Valid()
    ensures store.parentContexts == old(store.parentContexts) + ParentEdges(parents, childId)
    ensures store.types == old(store.types) && store.nextTypeId == old(store.nextTypeId)
    ensures store.contexts == old(store.contexts) && store.nextContextId == old(store.nextContextId)
  {
    for i := 0 to |parents|
      invariant store.Valid()
      invariant store.parentContexts == old(store.parentContexts) + ParentEdges(parents[..i], childId)
      invariant store.types == old(store.types) && store.nextTypeId == old(store.nextTypeId)
      invariant store.contexts == old(store.contexts) && store.nextContextId == old(store.nextContextId)
    {
      ParentEdgesSnoc(parents, i, childId);
      PutParentContextIfNotExists(store, parents[i].id, childId);
    }
    assert parents[..|parents|] == parents;
  }

  /**
   * Put a built context; when the store reports AlreadyExists, read the
   * context back, which must then be there.
   */
  method PutOrReread(store: MetadataStore, typeName: string, context: Context, race: Race)
    returns (r: Result<Context, Error>)
    requires store.Valid()
    requires typeName in store.types && store.types[typeName].id == context.typeId
    requires (typeName, context.name) !in store.contexts
    modifies store
    ensures store.Valid()
    ensures store.types == old(store.types) && store.parentContexts == old(store.parentContexts)
    ensures race.NoRace? ==>
      && r == Success(context.(id := old(store.nextContextId)))
      && store.contexts == old(store.contexts)[(typeName, context.name) := r.value]
    ensures race.LostTo? ==>
      && r == Success(race.rival.(id := old(store.nextContextId), typeId := context.typeId, name := context.name))
      && store.contexts == old(store.contexts)[(typeName, context.name) := r.value]
    ensures race.ConflictNotVisible? ==>
      && r == Failure(ContextMissingAfterConflict(context.name))
      && store.contexts == old(store.contexts)
  {
    var outcome := store.PutContext(typeName, context, race);
    match outcome {
      case ContextInserted(id) =>
        r := Success(context.(id := id));
      case ContextAlreadyExists =>
        var reread := store.GetContextByTypeAndName(typeName, context.name);
        if reread.None? {
          return Failure(ContextMissingAfterConflict(context.name));
        }
        r := Success(reread.value);
    }
  }

  /**
   * The slow path of _register_context_if_not_exist, once the lookup found
   * nothing: build the context, put it (reading it back on AlreadyExists),
   * then link every parent to it, on the inserted and the read-back path
   * alike.
   */
  method RegisterNewContext(store: MetadataStore, spec: ContextSpec, parents: seq<Context>, race: Race)
    returns (r: Result<Context, Error>)
    requires store.Valid()
    requires Lookup(store.contexts, spec).None?
    modifies store
    ensures store.Valid()
    ensures store.types == old(store.types)[spec.contextType.name := RegisteredType(old(store.types), old(store.nextTypeId), spec.contextType)]
    // Not buildable: the build error, no context and no edge written.
    ensures !Buildable(RegisteredType(old(store.types), old(store.nextTypeId), spec.contextType), spec) ==>
      && r.Failure? && !r.error.ContextMissingAfterConflict?
      && (!spec.name.StringValue? ==> r.error == NameNotString)
      && store.contexts == old(store.contexts)
      && store.parentContexts == old(store.parentContexts)
    // Inserted: the built context under the id the store assigned.
    ensures Buildable(RegisteredType(old(store.types), old(store.nextTypeId), spec.contextType), spec) && race.NoRace? ==>
      && r == Success(BuiltContext(RegisteredType(old(store.types), old(store.nextTypeId), spec.contextType), spec)
                        .(id := old(store.nextContextId)))
      && store.contexts == old(store.contexts)[SpecKey(spec).value := r.value]
    // AlreadyExists, read back: the winner's record.
    ensures Buildable(RegisteredType(old(store.types), old(store.nextTypeId), spec.contextType), spec) && race.LostTo? ==>
      && r.Success?
      && r.value == race.rival.(id := old(store.nextContextId),
                                typeId := RegisteredType(old(store.types), old(store.nextTypeId), spec.contextType).id,
                                name := spec.name.s)
      && store.contexts == old(store.contexts)[SpecKey(spec).value := r.value]
    // AlreadyExists, but nothing to read back: the assertion fails, nothing linked.
    ensures Buildable(RegisteredType(old(store.types), old(store.nextTypeId), spec.contextType), spec) && race.ConflictNotVisible? ==>
      && r == Failure(ContextMissingAfterConflict(spec.name.s))
      && store.contexts == old(store.contexts)
    ensures r.Success? ==> store.parentContexts == old(store.parentContexts) + ParentEdges(parents, r.value.id)
    ensures r.Failure? ==> store.parentContexts == old(store.parentContexts)
  {
    var built := GenerateContextProto(store, spec);
    if built.Failure? {
      return Failure(built.error);
    }
    r := PutOrReread(store, spec.contextType.name, built.value, race);
    if r.Success? {
      LinkParents(store, parents, r.value.id);
    }
  }

  /**
   * A spec with a string name and no properties, put under a race whose
   * outcome can be read back: nothing in registration can fail for it.
   */
  predicate AlwaysRegisters(spec: ContextSpec, race: Race)
  {
    spec.name.StringValue? && spec.properties == map[] && !race.ConflictNotVisible?
  }

  /**
   * _register_context_if_not_exist. An existing context is returned as is,
   * with no insert and no linking; otherwise the slow path above runs.
   */
  method RegisterContextIfNotExist(store: MetadataStore, spec: ContextSpec, parents: seq<Context>, race: Race)
    returns (r: Result<Context, Error>)
    requires store.Valid()
    modifies store
    ensures store.Valid()
    // Found by the lookup: returned unchanged, nothing written.
    ensures Lookup(old(store.contexts), spec).Some? ==>
      && r == Success(Lookup(old(store.contexts), spec).value)
      && store.contexts == old(store.contexts)
      && store.types == old(store.types)
      && store.parentContexts == old(store.parentContexts)
    // Not found: the type is registered, and the context is built, put and linked.
    ensures Lookup(old(store.contexts), spec).None? ==>
      store.types == old(store.types)[spec.contextType.name := RegisteredType(old(store.types), old(store.nextTypeId), spec.contextType)]
    ensures Lookup(old(store.contexts), spec).None? && r.Success? ==> r.value.id == old(store.nextContextId)
    ensures Lookup(old(store.contexts), spec).None? && race.ConflictNotVisible? ==> r.Failure?
    ensures r.Failure? ==> Lookup(old(store.contexts), spec).None?
    ensures r.Failure? && !race.ConflictNotVisible? ==> !r.error.ContextMissingAfterConflict?
    ensures r.Failure? && race.ConflictNotVisible? && spec.name.StringValue? && spec.properties == map[] ==>
      r.error == ContextMissingAfterConflict(spec.name.s)
    ensures r.Success? ==> SpecKey(spec).Some? && SpecKey(spec).value in store.contexts
                           && store.contexts[SpecKey(spec).value] == r.value
    ensures r.Failure? ==> store.contexts == old(store.contexts) && store.parentContexts == old(store.parentContexts)
    ensures Grows(old(store.contexts), store.contexts)
    ensures forall key :: key in store.contexts && key !in old(store.contexts) ==> SpecKey(spec) == Some(key)
    ensures Lookup(old(store.contexts), spec).None? && r.Success? ==>
      store.parentContexts == old(store.parentContexts) + ParentEdges(parents, r.value.id)
    ensures AlwaysRegisters(spec, race) ==> r.Success?
    // Not found: it registers iff it builds and the insert's outcome can be read.
    ensures Lookup(old(store.contexts), spec).None? ==>
      (r.Success? <==> Buildable(RegisteredType(old(store.types), old(store.nextTypeId), spec.contextType), spec)
                       && !race.ConflictNotVisible?)
    ensures Lookup(old(store.contexts), spec).None? && race.NoRace? && r.Success? ==>
      r.value == BuiltContext(RegisteredType(old(store.types), old(store.nextTypeId), spec.contextType), spec)
                   .(id := old(store.nextContextId))
    ensures Grows(old(store.types), store.types)
  {
    if spec.name.StringValue? {
      var found := store.GetContextByTypeAndName(spec.contextType.name, spec.name.s);
      if found.Some? {
        return Success(found.value);
      }
    }
    r := RegisterNewContext(store, spec, parents, race);
  }

  /**
   * register_context_if_not_exists: registration from a type name and a
   * context name alone (an empty schema and no properties, so the build
   * cannot fail).
   */
  method RegisterContextIfNotExists(store: MetadataStore, contextTypeName: string, contextName: string,
                                    parents: seq<Context>, race: Race)
    returns (r: Result<Context, Error>)
    requires store.Valid()
    modifies store
    ensures store.Valid()
    ensures (contextTypeName, contextName) in old(store.contexts) ==>
      && r == Success(old(store.contexts)[(contextTypeName, contextName)])
      && store.contexts == old(store.contexts)
      && store.parentContexts == old(store.parentContexts)
    ensures (contextTypeName, contextName) !in old(store.contexts) ==>
      (r.Success? <==> !race.ConflictNotVisible?)
    ensures r.Failure? ==> r.error == ContextMissingAfterConflict(contextName)
    ensures r.Success? ==>
      && (contextTypeName, contextName) in store.contexts
      && store.contexts[(contextTypeName, contextName)] == r.value
      && r.value.name == contextName
    ensures (contextTypeName, contextName) !in old(store.contexts) && r.Success? ==>
      store.parentContexts == old(store.parentContexts) + ParentEdges(parents, r.value.id)
    ensures (contextTypeName, contextName) in old(store.contexts) ==> store.types == old(store.types)
    ensures (contextTypeName, contextName) !in old(store.contexts) ==>
      store.types == old(store.types)[contextTypeName :=
        RegisteredType(old(store.types), old(store.nextTypeId), ContextType(0, contextTypeName, map[]))]
    ensures r.Failure? ==> store.contexts == old(store.contexts) && store.parentContexts == old(store.parentContexts)
    ensures Grows(old(store.contexts), store.contexts)
    ensures forall key :: key in store.contexts && key !in old(store.contexts) ==> key == (contextTypeName, contextName)
  {
    var spec := ContextSpec(ContextType(0, contextTypeName, map[]), StringValue(contextName), map[]);
    assert SpecKey(spec) == Some((contextTypeName, contextName));
    assert forall t: ContextType :: Buildable(t, spec);
    r := RegisterContextIfNotExist(store, spec, parents, race);
  }

  /**
   * Registering the same spec twice: once the first call succeeds, the
   * second returns the same context whatever its race.
   */
  method RegisterTwice(store: MetadataStore, spec: ContextSpec, parents: seq<Context>, race1: Race, race2: Race)
    returns (first: Result<Context, Error>, second: Result<Context, Error>)
    requires store.Valid()
    modifies store
    ensures store.Valid()
    ensures first.Success? ==> second == first
  {
    first := RegisterContextIfNotExist(store, spec, parents, race1);
    ghost var contexts, edges := store.contexts, store.parentContexts;
    second := RegisterContextIfNotExist(store, spec, parents, race2);
    assert first.Success? ==> store.contexts == contexts && store.parentContexts == edges;
  }

  predicate IsPipelineSpec(spec: ContextSpec)
  {
    spec.contextType.name == PipelineContextTypeName
  }

  predicate IsOtherSpec(spec: ContextSpec)
  {
    !IsPipelineSpec(spec)
  }

  predicate IsPipelineRunSpec(spec: ContextSpec)
  {
    spec.contextType.name == PipelineRunContextTypeName
  }

  /** The order prepare_contexts returns contexts in: pipeline specs first, then the rest. */
  function OrderedSpecs(specs: seq<ContextSpec>): (r: seq<ContextSpec>)
    ensures |r| == |specs|
    ensures multiset(r) == multiset(specs)
  {
    OrderedSpecsPermutes(specs);
    Filter(specs, IsPipelineSpec) + Filter(specs, IsOtherSpec)
  }

  /** Every spec is either a pipeline spec or another spec, so the order keeps them all, once each. */
  lemma {:induction false} OrderedSpecsPermutes(specs: seq<ContextSpec>)
    ensures multiset(Filter(specs, IsPipelineSpec)) + multiset(Filter(specs, IsOtherSpec)) == multiset(specs)
    ensures |Filter(specs, IsPipelineSpec)| + |Filter(specs, IsOtherSpec)| == |specs|
    decreases |specs|
  {
    if specs != [] {
      OrderedSpecsPermutes(specs[1..]);
      assert specs == [specs[0]] + specs[1..];
    }
  }

  /** The context registered for `spec` is `c`. */
  ghost predicate RegisteredAs(contexts: map<ContextKey, Context>, spec: ContextSpec, c: Context)
  {
    SpecKey(spec).Some? && SpecKey(spec).value in contexts && contexts[SpecKey(spec).value] == c
  }

  /** The spec has a string name and no context under its key. */
  predicate AbsentFrom(contexts: map<ContextKey, Context>, spec: ContextSpec)
  {
    SpecKey(spec).Some? && SpecKey(spec).value !in contexts
  }

  /**
   * Edges from every pipeline context to every context registered for a
   * pipeline-run spec that had no context in `origin`.
   */
  function RunEdges(origin: map<ContextKey, Context>, pipelineContexts: seq<Context>, others: seq<ContextSpec>,
                    registered: seq<Context>): set<(int, int)>
  {
    set i, j | 0 <= i < |pipelineContexts| && 0 <= j < |registered| && j < |others| && IsPipelineRunSpec(others[j])
                && AbsentFrom(origin, others[j])
      :: (pipelineContexts[i].id, registered[j].id)
  }

  /**
   * One registration of the second loop adds only edges RunEdges allows:
   * none, or edges from the pipeline contexts to a pipeline-run context.
   */
  lemma RunEdgesStep(base: set<(int, int)>, edgesBefore: set<(int, int)>, edgesAfter: set<(int, int)>,
                     origin: map<ContextKey, Context>, pipelineContexts: seq<Context>,
                     done: seq<ContextSpec>, others: seq<Context>, spec: ContextSpec, c: Context)
    requires |done| == |others|
    requires edgesBefore <= base + RunEdges(origin, pipelineContexts, done, others)
    requires edgesAfter == edgesBefore
             || (AbsentFrom(origin, spec)
                 && edgesAfter == edgesBefore + ParentEdges(if IsPipelineRunSpec(spec) then pipelineContexts else [], c.id))
    ensures edgesAfter <= base + RunEdges(origin, pipelineContexts, done + [spec], others + [c])
  {
    var done', others' := done + [spec], others + [c];
    forall e | e in RunEdges(origin, pipelineContexts, done, others)
      ensures e in RunEdges(origin, pipelineContexts, done', others')
    {
      var i, j :| 0 <= i < |pipelineContexts| && 0 <= j < |others| && j < |done| && IsPipelineRunSpec(done[j])
                  && AbsentFrom(origin, done[j]) && e == (pipelineContexts[i].id, others[j].id);
      assert done'[j] == done[j] && others'[j] == others[j];
    }
    forall e | AbsentFrom(origin, spec) && e in ParentEdges(if IsPipelineRunSpec(spec) then pipelineContexts else [], c.id)
      ensures e in RunEdges(origin, pipelineContexts, done', others')
    {
      var p :| p in (if IsPipelineRunSpec(spec) then pipelineContexts else []) && e == (p.id, c.id);
      var i :| 0 <= i < |pipelineContexts| && pipelineContexts[i] == p;
      var j := |others|;
      assert done'[j] == spec && others'[j] == c;
    }
  }

  /**
   * An edge set that keeps OthersRegistered and adds to `base` only edges
   * RunEdges allows adds exactly those.
   */
  lemma RunEdgesLinked(contexts: map<ContextKey, Context>, base: set<(int, int)>, edges: set<(int, int)>,
                       origin: map<ContextKey, Context>, pipelineContexts: seq<Context>,
                       done: seq<ContextSpec>, others: seq<Context>)
    requires OthersRegistered(contexts, edges, origin, pipelineContexts, done, others)
    requires base <= edges <= base + RunEdges(origin, pipelineContexts, done, others)
    ensures edges == base + RunEdges(origin, pipelineContexts, done, others)
  {
    forall e | e in RunEdges(origin, pipelineContexts, done, others)
      ensures e in edges
    {
      var i, j :| 0 <= i < |pipelineContexts| && 0 <= j < |others| && j < |done| && IsPipelineRunSpec(done[j])
                  && AbsentFrom(origin, done[j]) && e == (pipelineContexts[i].id, others[j].id);
    }
  }

  /**
   * What the first loop of prepare_contexts keeps: `pipelineContexts` are
   * the contexts registered so far for the pipeline specs `done`, and every
   * context new since `origin` is under the pipeline type.
   */
  ghost predicate PipelinesRegistered(contexts: map<ContextKey, Context>, origin: map<ContextKey, Context>,
                                      done: seq<ContextSpec>, pipelineContexts: seq<Context>)
  {
    && |pipelineContexts| == |done|
    && OnlyPipelinesAdded(origin, contexts)
    && (forall i :: 0 <= i < |pipelineContexts| ==> RegisteredAs(contexts, done[i], pipelineContexts[i]))
  }

  /** Every context of `origin` is still there, and every new one is under the pipeline type. */
  ghost predicate OnlyPipelinesAdded(origin: map<ContextKey, Context>, contexts: map<ContextKey, Context>)
  {
    && Grows(origin, contexts)
    && (forall key :: key in contexts && key !in origin ==> key.0 == PipelineContextTypeName)
  }

  /** Every spec of the batch, under its race, always registers. */
  predicate AllAlwaysRegister(specs: seq<ContextSpec>, races: seq<Race>)
  {
    |races| == |specs| && forall k :: 0 <= k < |specs| ==> AlwaysRegisters(specs[k], races[k])
  }

  /** Registering pipeline spec `k` keeps PipelinesRegistered over the specs before it. */
  lemma PipelinesRegisteredStep(before: map<ContextKey, Context>, after: map<ContextKey, Context>,
                                origin: map<ContextKey, Context>, specs: seq<ContextSpec>, k: nat,
                                pipelineContexts: seq<Context>, c: Context)
    requires k < |specs| && IsPipelineSpec(specs[k])
    requires PipelinesRegistered(before, origin, Filter(specs[..k], IsPipelineSpec), pipelineContexts)
    requires Grows(before, after)
    requires forall key :: key in after && key !in before ==> SpecKey(specs[k]) == Some(key)
    requires RegisteredAs(after, specs[k], c)
    ensures PipelinesRegistered(after, origin, Filter(specs[..k + 1], IsPipelineSpec), pipelineContexts + [c])
  {
    FilterSnoc(specs, k, IsPipelineSpec);
    var done := Filter(specs[..k], IsPipelineSpec);
    var done', pipelineContexts' := done + [specs[k]], pipelineContexts + [c];
    forall i | 0 <= i < |pipelineContexts'|
      ensures RegisteredAs(after, done'[i], pipelineContexts'[i])
    {
      if i < |pipelineContexts| {
        assert RegisteredAs(before, done[i], pipelineContexts[i]);
      }
    }
  }

  /** Registering a pipeline spec adds contexts only under the pipeline type. */
  lemma OnlyPipelinesAddedStep(before: map<ContextKey, Context>, after: map<ContextKey, Context>,
                               origin: map<ContextKey, Context>, spec: ContextSpec)
    requires OnlyPipelinesAdded(origin, before)
    requires IsPipelineSpec(spec)
    requires Grows(before, after)
    requires forall key :: key in after && key !in before ==> SpecKey(spec) == Some(key)
    ensures OnlyPipelinesAdded(origin, after)
  {
  }

  /**
   * What the batch loops rely on from one registration: the store only
   * grows, and only under the spec's key; a success is stored under that
   * key; parents are linked exactly when the lookup found nothing.
   */
  method RegisterInBatch(store: MetadataStore, spec: ContextSpec, parents: seq<Context>, race: Race)
    returns (r: Result<Context, Error>)
    requires store.Valid()
    modifies store
    ensures store.Valid()
    ensures Grows(old(store.types), store.types)
    ensures forall n :: n in store.types && n !in old(store.types) ==> n == spec.contextType.name
    ensures Grows(old(store.contexts), store.contexts)
    ensures forall key :: key in store.contexts && key !in old(store.contexts) ==> SpecKey(spec) == Some(key)
    ensures AlwaysRegisters(spec, race) ==> r.Success?
    ensures r.Success? ==> RegisteredAs(store.contexts, spec, r.value)
    ensures Lookup(old(store.contexts), spec).Some? ==>
      r == Success(Lookup(old(store.contexts), spec).value) && store.parentContexts == old(store.parentContexts)
    ensures Lookup(old(store.contexts), spec).None? && r.Success? ==>
      store.parentContexts == old(store.parentContexts) + ParentEdges(parents, r.value.id)
    ensures r.Failure? ==> store.parentContexts == old(store.parentContexts)
    ensures parents == [] ==> store.parentContexts == old(store.parentContexts)
  {
    r := RegisterContextIfNotExist(store, spec, parents, race);
    assert ParentEdges([], 0) == {};
  }

  /** The store keys of the specs with a string name. */
  function SpecKeys(specs: seq<ContextSpec>): set<ContextKey>
  {
    set s | s in specs && s.name.StringValue? :: (s.contextType.name, s.name.s)
  }

  /** The context type names of the specs. */
  function TypeNames(specs: seq<ContextSpec>): set<string>
  {
    set s | s in specs :: s.contextType.name
  }

  /**
   * Types and contexts are kept, new types are only under type names of
   * `specs`, and new contexts are only under keys of `specs`.
   */
  ghost predicate BatchFrame(types0: map<string, ContextType>, types1: map<string, ContextType>,
                             contexts0: map<ContextKey, Context>, contexts1: map<ContextKey, Context>,
                             specs: seq<ContextSpec>)
  {
    && Grows(types0, types1)
    && (forall n :: n in types1 && n !in types0 ==> n in TypeNames(specs))
    && Grows(contexts0, contexts1)
    && (forall key :: key in contexts1 && key !in contexts0 ==> key in SpecKeys(specs))
  }

  lemma BatchFrameTrans(types0: map<string, ContextType>, types1: map<string, ContextType>, types2: map<string, ContextType>,
                        contexts0: map<ContextKey, Context>, contexts1: map<ContextKey, Context>,
                        contexts2: map<ContextKey, Context>, specs: seq<ContextSpec>)
    requires BatchFrame(types0, types1, contexts0, contexts1, specs)
    requires BatchFrame(types1, types2, contexts1, contexts2, specs)
    ensures BatchFrame(types0, types2, contexts0, contexts2, specs)
  {
  }

  /** One registration of spec `k` keeps the batch frame. */
  lemma BatchFrameStep(types0: map<string, ContextType>, types1: map<string, ContextType>, types2: map<string, ContextType>,
                       contexts0: map<ContextKey, Context>, contexts1: map<ContextKey, Context>,
                       contexts2: map<ContextKey, Context>, specs: seq<ContextSpec>, k: nat)
    requires k < |specs|
    requires BatchFrame(types0, types1, contexts0, contexts1, specs)
    requires Grows(types1, types2) && Grows(contexts1, contexts2)
    requires forall n :: n in types2 && n !in types1 ==> n == specs[k].contextType.name
    requires forall key :: key in contexts2 && key !in contexts1 ==> SpecKey(specs[k]) == Some(key)
    ensures BatchFrame(types0, types2, contexts0, contexts2, specs)
  {
    assert specs[k] in specs;
  }

  /**
   * One iteration of the first loop of prepare_contexts: spec `k` is
   * registered with no parents when it is a pipeline spec, skipped
   * otherwise.
   */
  method PipelineStep(store: MetadataStore, specs: seq<ContextSpec>, races: seq<Race>, k: nat,
                      ghost origin: map<ContextKey, Context>, pipelineContexts: seq<Context>)
    returns (r: Result<seq<Context>, Error>)
    requires store.Valid()
    requires |races| == |specs| && k < |specs|
    requires PipelinesRegistered(store.contexts, origin, Filter(specs[..k], IsPipelineSpec), pipelineContexts)
    modifies store
    ensures store.Valid()
    ensures store.parentContexts == old(store.parentContexts)
    ensures OnlyPipelinesAdded(origin, store.contexts)
    ensures AlwaysRegisters(specs[k], races[k]) ==> r.Success?
    ensures r.Success? ==> PipelinesRegistered(store.contexts, origin, Filter(specs[..k + 1], IsPipelineSpec), r.value)
    ensures BatchFrame(old(store.types), store.types, old(store.contexts), store.contexts, specs)
  {
    if !IsPipelineSpec(specs[k]) {
      FilterSnoc(specs, k, IsPipelineSpec);
      return Success(pipelineContexts);
    }
    var c := RegisterInBatch(store, specs[k], [], races[k]);
    BatchFrameStep(old(store.types), old(store.types), store.types, old(store.contexts), old(store.contexts), store.contexts, specs, k);
    OnlyPipelinesAddedStep(old(store.contexts), store.contexts, origin, specs[k]);
    if c.Failure? {
      return Failure(c.error);
    }
    PipelinesRegisteredStep(old(store.contexts), store.contexts, origin, specs, k, pipelineContexts, c.value);
    r := Success(pipelineContexts + [c.value]);
  }

  /**
   * The first loop of prepare_contexts: register the pipeline specs, in
   * order, with no parents. `races[k]` is what the store does if spec `k`
   * is put concurrently.
   */
  method RegisterPipelineContexts(store: MetadataStore, specs: seq<ContextSpec>, races: seq<Race>)
    returns (r: Result<seq<Context>, Error>)
    requires store.Valid()
    requires |races| == |specs|
    modifies store
    ensures store.Valid()
    ensures store.parentContexts == old(store.parentContexts)
    ensures OnlyPipelinesAdded(old(store.contexts), store.contexts)
    ensures AllAlwaysRegister(specs, races) ==> r.Success?
    ensures r.Success? ==> PipelinesRegistered(store.contexts, old(store.contexts), Filter(specs, IsPipelineSpec), r.value)
    ensures BatchFrame(old(store.types), store.types, old(store.contexts), store.contexts, specs)
  {
    var pipelineContexts: seq<Context> := [];
    for k := 0 to |specs|
      invariant store.Valid()
      invariant store.parentContexts == old(store.parentContexts)
      invariant PipelinesRegistered(store.contexts, old(store.contexts), Filter(specs[..k], IsPipelineSpec), pipelineContexts)
      invariant BatchFrame(old(store.types), store.types, old(store.contexts), store.contexts, specs)
    {
      ghost var types, contexts := store.types, store.contexts;
      var step := PipelineStep(store, specs, races, k, old(store.contexts), pipelineContexts);
      BatchFrameTrans(old(store.types), types, store.types, old(store.contexts), contexts, store.contexts, specs);
      if step.Failure? {
        return Failure(step.error);
      }
      pipelineContexts := step.value;
    }
    assert specs[..|specs|] == specs;
    r := Success(pipelineContexts);
  }

  /**
   * What the second loop of prepare_contexts keeps: `others` are the
   * contexts registered so far for the other specs `done`; every context
   * new since `origin` under the pipeline-run type belongs to one of them;
   * every pipeline-run context that was not in `origin` is linked to every
   * pipeline context.
   */
  ghost predicate OthersRegistered(contexts: map<ContextKey, Context>, edges: set<(int, int)>,
                                   origin: map<ContextKey, Context>, pipelineContexts: seq<Context>,
                                   done: seq<ContextSpec>, others: seq<Context>)
  {
    && |others| == |done|
    && Grows(origin, contexts)
    && (forall j :: 0 <= j < |others| ==> RegisteredAs(contexts, done[j], others[j]))
    && (forall key :: key in contexts && key !in origin && key.0 == PipelineRunContextTypeName ==>
          exists j :: 0 <= j < |others| && SpecKey(done[j]) == Some(key))
    && (forall i, j ::
          (0 <= i < |pipelineContexts| && 0 <= j < |others| && IsPipelineRunSpec(done[j]) && AbsentFrom(origin, done[j]))
          ==> (pipelineContexts[i].id, others[j].id) in edges)
  }

  /**
   * One step of the second loop keeps OthersRegistered. A pipeline-run spec
   * found by the lookup is not linked again, and needs not be: it is either
   * from before the batch, or registered (and linked) earlier in this batch.
   */
  lemma OthersRegisteredStep(before: map<ContextKey, Context>, after: map<ContextKey, Context>,
                             edgesBefore: set<(int, int)>, edgesAfter: set<(int, int)>,
                             origin: map<ContextKey, Context>, pipelineContexts: seq<Context>,
                             done: seq<ContextSpec>, others: seq<Context>, spec: ContextSpec, c: Context)
    requires OthersRegistered(before, edgesBefore, origin, pipelineContexts, done, others)
    requires Grows(before, after)
    requires forall key :: key in after && key !in before ==> SpecKey(spec) == Some(key)
    requires RegisteredAs(after, spec, c)
    requires Lookup(before, spec).Some? ==> c == Lookup(before, spec).value && edgesAfter == edgesBefore
    requires Lookup(before, spec).None? ==>
      edgesAfter == edgesBefore + ParentEdges(if IsPipelineRunSpec(spec) then pipelineContexts else [], c.id)
    ensures OthersRegistered(after, edgesAfter, origin, pipelineContexts, done + [spec], others + [c])
  {
    var done', others' := done + [spec], others + [c];
    assert edgesBefore <= edgesAfter;
    forall key | key in after && key !in origin && key.0 == PipelineRunContextTypeName
      ensures exists j :: 0 <= j < |others'| && SpecKey(done'[j]) == Some(key)
    {
      if key in before {
        var j :| 0 <= j < |others| && SpecKey(done[j]) == Some(key);
        assert done'[j] == done[j];
      } else {
        assert done'[|others|] == spec;
      }
    }
    forall i, j | 0 <= i < |pipelineContexts| && 0 <= j < |others'| && IsPipelineRunSpec(done'[j]) && AbsentFrom(origin, done'[j])
      ensures (pipelineContexts[i].id, others'[j].id) in edgesAfter
    {
      if j < |others| {
        assert done'[j] == done[j] && others'[j] == others[j];
      } else {
        assert done'[j] == spec && others'[j] == c;
        var key := SpecKey(spec).value;
        if key in before {
          assert key.0 == PipelineRunContextTypeName;
          var j0 :| 0 <= j0 < |others| && SpecKey(done[j0]) == Some(key);
          assert others[j0] == before[key] == c;
        } else {
          assert pipelineContexts[i] in pipelineContexts;
        }
      }
    }
  }

  /**
   * The invariant of the second loop of prepare_contexts after `k` specs:
   * OthersRegistered, only edges RunEdges allows added to `base`, and the
   * batch frame since `types0` and `contexts0`.
   */
  ghost predicate OthersLoop(contexts: map<ContextKey, Context>, edges: set<(int, int)>, types: map<string, ContextType>,
                             origin: map<ContextKey, Context>, base: set<(int, int)>,
                             types0: map<string, ContextType>, contexts0: map<ContextKey, Context>,
                             pipelineContexts: seq<Context>, specs: seq<ContextSpec>, k: nat, others: seq<Context>)
  {
    && k <= |specs|
    && OthersRegistered(contexts, edges, origin, pipelineContexts, Filter(specs[..k], IsOtherSpec), others)
    && base <= edges <= base + RunEdges(origin, pipelineContexts, Filter(specs[..k], IsOtherSpec), others)
    && BatchFrame(types0, types, contexts0, contexts, specs)
  }

  /**
   * One iteration of the second loop of prepare_contexts: spec `k` is
   * skipped when it is a pipeline spec; otherwise it is registered, with
   * every pipeline context as a parent when it is a pipeline-run spec and
   * with none otherwise.
   */
  method OtherStep(store: MetadataStore, specs: seq<ContextSpec>, races: seq<Race>, k: nat,
                   pipelineContexts: seq<Context>, ghost origin: map<ContextKey, Context>,
                   ghost base: set<(int, int)>, others: seq<Context>,
                   ghost types0: map<string, ContextType>, ghost contexts0: map<ContextKey, Context>)
    returns (r: Result<seq<Context>, Error>)
    requires store.Valid()
    requires |races| == |specs| && k < |specs|
    requires OthersLoop(store.contexts, store.parentContexts, store.types, origin, base, types0, contexts0,
                        pipelineContexts, specs, k, others)
    modifies store
    ensures store.Valid()
    ensures old(store.parentContexts) <= store.parentContexts
    ensures AlwaysRegisters(specs[k], races[k]) ==> r.Success?
    ensures r.Success? ==>
      OthersLoop(store.contexts, store.parentContexts, store.types, origin, base, types0, contexts0,
                 pipelineContexts, specs, k + 1, r.value)
    ensures BatchFrame(types0, store.types, contexts0, store.contexts, specs)
  {
    FilterSnoc(specs, k, IsOtherSpec);
    ghost var done := Filter(specs[..k], IsOtherSpec);
    if IsPipelineSpec(specs[k]) {
      assert Filter(specs[..k + 1], IsOtherSpec) == done;
      return Success(others);
    }
    assert Filter(specs[..k + 1], IsOtherSpec) == done + [specs[k]];
    var parents := if IsPipelineRunSpec(specs[k]) then pipelineContexts else [];
    ghost var types1, contexts1 := store.types, store.contexts;
    var c := RegisterInBatch(store, specs[k], parents, races[k]);
    BatchFrameStep(types0, types1, store.types, contexts0, contexts1, store.contexts, specs, k);
    if c.Failure? {
      return Failure(c.error);
    }
    OthersRegisteredStep(old(store.contexts), store.contexts, old(store.parentContexts), store.parentContexts,
                         origin, pipelineContexts, done, others, specs[k], c.value);
    assert Lookup(old(store.contexts), specs[k]).None? ==> AbsentFrom(origin, specs[k]);
    RunEdgesStep(base, old(store.parentContexts), store.parentContexts, origin, pipelineContexts, done, others,
                 specs[k], c.value);
    r := Success(others + [c.value]);
  }

  /**
   * The second loop of prepare_contexts: register every other spec, in
   * order. `origin` is the store's contexts before the batch began.
   */
  method RegisterOtherContexts(store: MetadataStore, specs: seq<ContextSpec>, races: seq<Race>,
                               pipelineContexts: seq<Context>, ghost origin: map<ContextKey, Context>)
    returns (r: Result<seq<Context>, Error>)
    requires store.Valid()
    requires |races| == |specs|
    requires OnlyPipelinesAdded(origin, store.contexts)
    modifies store
    ensures store.Valid()
    ensures old(store.parentContexts) <= store.parentContexts
    ensures AllAlwaysRegister(specs, races) ==> r.Success?
    ensures r.Success? ==> OthersRegistered(store.contexts, store.parentContexts, origin, pipelineContexts,
                                            Filter(specs, IsOtherSpec), r.value)
    ensures r.Success? ==>
      store.parentContexts == old(store.parentContexts) + RunEdges(origin, pipelineContexts, Filter(specs, IsOtherSpec), r.value)
    ensures BatchFrame(old(store.types), store.types, old(store.contexts), store.contexts, specs)
  {
    var others: seq<Context> := [];
    for k := 0 to |specs|
      invariant store.Valid()
      invariant OthersLoop(store.contexts, store.parentContexts, store.types, origin, old(store.parentContexts),
                           old(store.types), old(store.contexts), pipelineContexts, specs, k, others)
    {
      var step := OtherStep(store, specs, races, k, pipelineContexts, origin, old(store.parentContexts), others,
                            old(store.types), old(store.contexts));
      if step.Failure? {
        return Failure(step.error);
      }
      others := step.value;
    }
    assert specs[..|specs|] == specs;
    RunEdgesLinked(store.contexts, old(store.parentContexts), store.parentContexts, origin, pipelineContexts,
                   Filter(specs, IsOtherSpec), others);
    r := Success(others);
  }

  /**
   * prepare_contexts: the pipeline contexts first, then the others in spec
   * order. Every pipeline-run context newly registered in the batch is
   * linked to every pipeline context; one the lookup finds is not linked.
   * The first failure is returned and what was already written stays
   * written.
   */
  method PrepareContexts(store: MetadataStore, specs: seq<ContextSpec>, races: seq<Race>)
    returns (r: Result<seq<Context>, Error>)
    requires store.Valid()
    requires |races| == |specs|
    modifies store
    ensures store.Valid()
    ensures Grows(old(store.contexts), store.contexts)
    ensures old(store.parentContexts) <= store.parentContexts
    ensures BatchFrame(old(store.types), store.types, old(store.contexts), store.contexts, specs)
    ensures AllAlwaysRegister(specs, races) ==> r.Success?
    ensures r.Success? ==> |r.value| == |specs|
    ensures r.Success? ==>
      forall i :: 0 <= i < |specs| ==> RegisteredAs(store.contexts, OrderedSpecs(specs)[i], r.value[i])
    ensures r.Success? ==>
      var np := |Filter(specs, IsPipelineSpec)|;
      forall i, j ::
        (0 <= i < np <= j < |specs| && IsPipelineRunSpec(OrderedSpecs(specs)[j])
         && AbsentFrom(old(store.contexts), OrderedSpecs(specs)[j]))
        ==> (r.value[i].id, r.value[j].id) in store.parentContexts
    ensures r.Success? ==>
      var np := |Filter(specs, IsPipelineSpec)|;
      store.parentContexts
        == old(store.parentContexts) + RunEdges(old(store.contexts), r.value[..np], Filter(specs, IsOtherSpec), r.value[np..])
  {
    var pipeline := RegisterPipelineContexts(store, specs, races);
    if pipeline.Failure? {
      return Failure(pipeline.error);
    }
    ghost var afterPipeline, typesAfterPipeline := store.contexts, store.types;
    var others := RegisterOtherContexts(store, specs, races, pipeline.value, old(store.contexts));
    BatchFrameTrans(old(store.types), typesAfterPipeline, store.types, old(store.contexts), afterPipeline, store.contexts, specs);
    if others.Failure? {
      return Failure(others.error);
    }
    r := Success(pipeline.value + others.value);
    OrderedRegistered(afterPipeline, store.contexts, old(store.contexts), specs, pipeline.value, others.value);
    assert r.value[..|pipeline.value|] == pipeline.value;
    assert r.value[|pipeline.value|..] == others.value;
  }

  /**
   * The pipeline contexts followed by the other contexts are registered as
   * the specs in OrderedSpecs order.
   */
  lemma OrderedRegistered(afterPipeline: map<ContextKey, Context>, contexts: map<ContextKey, Context>,
                          origin: map<ContextKey, Context>, specs: seq<ContextSpec>,
                          pipelineContexts: seq<Context>, others: seq<Context>)
    requires PipelinesRegistered(afterPipeline, origin, Filter(specs, IsPipelineSpec), pipelineContexts)
    requires Grows(afterPipeline, contexts)
    requires |others| == |Filter(specs, IsOtherSpec)|
    requires forall j :: 0 <= j < |others| ==> RegisteredAs(contexts, Filter(specs, IsOtherSpec)[j], others[j])
    ensures |pipelineContexts + others| == |specs|
    ensures forall i :: 0 <= i < |specs| ==>
      RegisteredAs(contexts, OrderedSpecs(specs)[i], (pipelineContexts + others)[i])
  {
    OrderedSpecsPermutes(specs);
    var np, ordered, all := |pipelineContexts|, OrderedSpecs(specs), pipelineContexts + others;
    forall i | 0 <= i < |specs|
      ensures RegisteredAs(contexts, ordered[i], all[i])
    {
      if i < np {
        assert ordered[i] == Filter(specs, IsPipelineSpec)[i] && all[i] == pipelineContexts[i];
        assert RegisteredAs(afterPipeline, ordered[i], all[i]);
      } else {
        assert ordered[i] == Filter(specs, IsOtherSpec)[i - np] && all[i] == others[i - np];
      }
    }
  }

  /** A spec with no properties, under a type with an empty schema. */
  function PlainSpec(typeName: string, name: string): ContextSpec
  {
    ContextSpec(ContextType(0, typeName, map[]), StringValue(name), map[])
  }

  /** Pipeline "p1", pipeline-run "r1", another "o1". */
  function OrderingSpecs(): seq<ContextSpec>
  {
    [PlainSpec(PipelineContextTypeName, "p1"), PlainSpec(PipelineRunContextTypeName, "r1"), PlainSpec("other", "o1")]
  }

  lemma OrderingSpecsAlwaysRegister()
    ensures AllAlwaysRegister(OrderingSpecs(), [NoRace, NoRace, NoRace])
  {
  }

  lemma OrderingSpecsSplit()
    ensures Filter(OrderingSpecs(), IsPipelineSpec) == OrderingSpecs()[..1]
    ensures Filter(OrderingSpecs(), IsOtherSpec) == OrderingSpecs()[1..]
    ensures OrderedSpecs(OrderingSpecs()) == OrderingSpecs()
  {
    var specs := OrderingSpecs();
    var tail1, tail2 := specs[1..], specs[2..];
    assert tail1[1..] == tail2 && tail2[1..] == [];
    assert Filter(tail2, IsPipelineSpec) == [] && Filter(tail2, IsOtherSpec) == [specs[2]];
    assert Filter(tail1, IsPipelineSpec) == [] && Filter(tail1, IsOtherSpec) == [specs[1], specs[2]];
  }

  /** One pipeline context, then a pipeline-run and another context: RunEdges links only the run. */
  lemma OrderingRunEdges(registered: seq<Context>)
    requires |registered| == 3
    ensures RunEdges(map[], registered[..1], OrderingSpecs()[1..], registered[1..]) == {(registered[0].id, registered[1].id)}
  {
    var pipelines, rest := registered[..1], registered[1..];
    assert pipelines == [registered[0]] && rest == [registered[1], registered[2]];
    assert IsPipelineRunSpec(OrderingSpecs()[1..][0]) && !IsPipelineRunSpec(OrderingSpecs()[1..][1]);
  }

  /**
   * Batch order on an empty store: specs pipeline "p1", pipeline-run "r1"
   * and another "o1" come back as p1, r1, o1; r1 is linked to p1 and o1 to
   * nothing, so the only edge is p1 -> r1.
   */
  method BatchOrderingExample() returns (store: MetadataStore, r: Result<seq<Context>, Error>)
    ensures store.Valid()
    ensures r.Success? && |r.value| == 3
    ensures r.value[0].name == "p1" && r.value[1].name == "r1" && r.value[2].name == "o1"
    ensures store.parentContexts == {(r.value[0].id, r.value[1].id)}
  {
    store := new MetadataStore();
    OrderingSpecsSplit();
    OrderingSpecsAlwaysRegister();
    r := PrepareContexts(store, OrderingSpecs(), [NoRace, NoRace, NoRace]);
    OrderingRunEdges(r.value);
  }

  /** Pipelines "p1" and "p2", then pipeline-run "r1". */
  function TwoPipelineSpecs(): seq<ContextSpec>
  {
    [PlainSpec(PipelineContextTypeName, "p1"), PlainSpec(PipelineContextTypeName, "p2"),
     PlainSpec(PipelineRunContextTypeName, "r1")]
  }

  lemma TwoPipelineSpecsAlwaysRegister()
    ensures AllAlwaysRegister(TwoPipelineSpecs(), [NoRace, NoRace, NoRace])
  {
  }

  lemma TwoPipelineSpecsSplit()
    ensures Filter(TwoPipelineSpecs(), IsPipelineSpec) == TwoPipelineSpecs()[..2]
    ensures Filter(TwoPipelineSpecs(), IsOtherSpec) == TwoPipelineSpecs()[2..]
    ensures OrderedSpecs(TwoPipelineSpecs()) == TwoPipelineSpecs()
  {
    var specs := TwoPipelineSpecs();
    var tail1, tail2 := specs[1..], specs[2..];
    assert tail1[1..] == tail2 && tail2[1..] == [];
    assert Filter(tail2, IsPipelineSpec) == [] && Filter(tail2, IsOtherSpec) == [specs[2]];
    assert Filter(tail1, IsPipelineSpec) == [specs[1]] && Filter(tail1, IsOtherSpec) == [specs[2]];
  }

  /** Two pipeline contexts and one pipeline-run context: RunEdges links the run to both. */
  lemma TwoPipelineRunEdges(registered: seq<Context>)
    requires |registered| == 3
    ensures RunEdges(map[], registered[..2], TwoPipelineSpecs()[2..], registered[2..])
            == {(registered[0].id, registered[2].id), (registered[1].id, registered[2].id)}
  {
    var pipelines, runs := registered[..2], registered[2..];
    assert pipelines == [registered[0], registered[1]] && runs == [registered[2]];
    assert IsPipelineRunSpec(TwoPipelineSpecs()[2..][0]);
  }

  /** Two pipeline specs before one pipeline-run spec: the run context is linked to both. */
  method MultiplePipelinesExample() returns (store: MetadataStore, r: Result<seq<Context>, Error>)
    ensures store.Valid()
    ensures r.Success? && |r.value| == 3
    ensures r.value[0].name == "p1" && r.value[1].name == "p2" && r.value[2].name == "r1"
    ensures store.parentContexts == {(r.value[0].id, r.value[2].id), (r.value[1].id, r.value[2].id)}
  {
    store := new MetadataStore();
    TwoPipelineSpecsSplit();
    TwoPipelineSpecsAlwaysRegister();
    r := PrepareContexts(store, TwoPipelineSpecs(), [NoRace, NoRace, NoRace]);
    TwoPipelineRunEdges(r.value);
  }

  /**
   * Registering pipeline "my_pipeline" on an empty store inserts it with the
   * first id under a newly registered "pipeline" type; registering it again
   * returns the same context and inserts no type, context or edge.
   */
  method RegisterPipelineTwiceExample()
    returns (store: MetadataStore, first: Result<Context, Error>, second: Result<Context, Error>)
    ensures store.Valid()
    ensures first.Success? && first.value.id == 1 && first.value.name == "my_pipeline"
    ensures PipelineContextTypeName in store.types && first.value.typeId == store.types[PipelineContextTypeName].id
    ensures second == first
    ensures store.types.Keys == {PipelineContextTypeName}
    ensures store.contexts == map[(PipelineContextTypeName, "my_pipeline") := first.value]
    ensures store.parentContexts == {}
  {
    store := new MetadataStore();
    var spec := PlainSpec(PipelineContextTypeName, "my_pipeline");
    first := RegisterContextIfNotExist(store, spec, [], NoRace);
    second := RegisterContextIfNotExist(store, spec, [], NoRace);
  }
}
