# TFX context registration and resolver operators, in Dafny

This project models part of TFX (TensorFlow Extended) and proves properties of that model. There are four parts.

**Context registration against ML Metadata (MLMD)**, from `tfx/orchestration/portable/mlmd/context_lib.py`:
- Building a context record from a context spec. Declared properties must have the kind the type's schema declares. Undeclared ones become custom properties.
- Registering a context if none with its (type name, name) exists.
- Linking parent contexts idempotently.
- Registering a node's contexts in batch. Pipeline contexts come first. Every pipeline-run context newly registered in the batch becomes a child of every pipeline context. A pipeline-run context the lookup finds is returned without linking.

The metadata store is an in-memory class, `Mlmd.MetadataStore`. It holds:
- a map from type name to context type (each type carries a schema of `ValueKind`s);
- a map from (type name, context name) to context;
- id counters;
- a set of (parent id, child id) edges.

A concurrent writer is not modelled as a thread. The context insert (`PutContext`) takes a `Race` argument:
- `NoRace`: our insert wins.
- `LostTo(rival)`: another writer inserted its record first. The store reports AlreadyExists, and the re-read returns the rival's record.
- `ConflictNotVisible`: the store reports AlreadyExists, but the re-read finds nothing.

**Slicing resolver operators** (`artifact_list_slice_op.py`, `artifact_map_list_slice_op.py`): the first or last n artifacts, or artifact maps. They take `n` and `skip_if_insufficient`, and fail with InvalidArgument or SkipSignal.

**The filtering resolver operator** (`filter_artifacts_op.py`):
- The placeholder predicate is abstract. It is an encoded value `E` plus a function `resolve` that says what evaluating it against one artifact gives: a boolean, a non-boolean, or an evaluation error.
- The encoding step rejects a `predicate_fn` that does not build a Predicate.

**Dependency lists** (`tfx/dependencies.py`): `select_constraint`, which is driven by the `TFX_DEPENDENCY_SELECTOR` environment variable, and the package lists built from it. The environment variable is an `Option<string>` parameter.

Two points where the model follows the code closely:
- **Linking after AlreadyExists.** In `context_lib.py` lines 115-118, the parent-linking loop runs after the try/except. So parents are linked both when our insert succeeds and when the insert reports AlreadyExists and the re-read finds the winner's context. `ContextLib.RegisterNewContext` links on both paths. Only the fast path (lines 93-94) and a failure skip linking.
- **LastNArtifacts docstring.** The docstring of `LastNArtifacts` (line 52) says it returns `artifacts[:n]`. The code (line 67) returns `artifacts[-n:]`. The model follows the code.

## Model

| member | source | states |
|---|---|---|
| Mlmd.MetadataStore.RegisterTypeIfNotExist | tfx/orchestration/portable/mlmd/context_lib.py:52-53 | A type already stored under the name is returned as stored. Otherwise the type is stored under a fresh id. Contexts and edges are unchanged. |
| Mlmd.MetadataStore.GetContextByTypeAndName | tfx/orchestration/portable/mlmd/context_lib.py:91-92 | Returns a context exactly when the (type name, name) key is stored, and then the stored one, which carries that name. |
| Mlmd.MetadataStore.PutContext | tfx/orchestration/portable/mlmd/context_lib.py:101-108 | A taken key gives AlreadyExists with no write. Under no race, the context is stored under the next id and that id is returned. A lost race stores the rival's record and reports AlreadyExists. A conflict the store cannot show reports AlreadyExists and writes nothing. |
| Mlmd.MetadataStore.PutParentContext | tfx/orchestration/portable/mlmd/context_lib.py:228-230 | AlreadyExists is reported exactly when the edge was already present. Afterwards the edge set is the old set plus this edge. |
| ContextLib.PropertiesPartition | tfx/orchestration/portable/mlmd/context_lib.py:58-68 | Declared keys go to `properties` and undeclared keys to `custom_properties`. The two key sets are disjoint and together give back the spec's properties. Under a matching schema, every declared value has the declared kind. |
| ContextLib.BuildContext | tfx/orchestration/portable/mlmd/context_lib.py:54-68 | The build succeeds iff the name is a string and every declared key has the declared kind. On success the context carries the type's id, the name, the declared properties and the undeclared ones as custom properties. A non-string name fails the name assertion. Any other failure names a declared key whose kind differs from the schema. |
| ContextLib.GenerateContextProto | tfx/orchestration/portable/mlmd/context_lib.py:35-69 | The spec's type is registered first and stays registered even if the build fails. The result is the context built against the registered type's schema, or the build error. Contexts and edges are unchanged. |
| ContextLib.PutParentContextIfNotExists | tfx/orchestration/portable/mlmd/context_lib.py:214-232 | Afterwards the edge is in the edge set, whether it was inserted now or already there. Nothing else in the store changes. |
| ContextLib.PutParentContextTwice | tfx/orchestration/portable/mlmd/context_lib.py:228-232 | Linking the same pair twice leaves the same edge set as linking once. |
| ContextLib.LinkParents | tfx/orchestration/portable/mlmd/context_lib.py:115-118 | After the loop, the edge set is the old set plus one edge from each parent to the child. Nothing else changes. |
| ContextLib.PutOrReread | tfx/orchestration/portable/mlmd/context_lib.py:101-111 | Under no race: the built context with the id the store assigned, now stored under its key. Lost race: the rival's record as re-read. Conflict that cannot be re-read: the failed assertion, with no context written. |
| ContextLib.RegisterNewContext | tfx/orchestration/portable/mlmd/context_lib.py:96-119 | An unbuildable spec fails with its build error and writes no context and no edge. Otherwise the result follows the insert's race outcome. Every parent is linked to the result on both the inserted path and the AlreadyExists path. A failure links nothing. |
| ContextLib.RegisterContextIfNotExist | tfx/orchestration/portable/mlmd/context_lib.py:72-119 | A context the lookup finds is returned unchanged, with no type, context or edge written. Otherwise, on success, the context is stored under the spec's key with a fresh id and linked to every parent. When the lookup finds nothing, registration succeeds iff the spec builds against the registered type and the insert's outcome can be read; under no race the result is the built context (type id, name, properties, custom properties) under the fresh id. Failures write no context or edge. Types and contexts only grow, and a new context only under the spec's key. |
| ContextLib.RegisterContextIfNotExists | tfx/orchestration/portable/mlmd/context_lib.py:122-160 | Registration from a type name and a context name alone. An existing context is returned with no type, context or edge written. Otherwise it succeeds iff the race outcome is readable, and stores and links the context under that name. The only possible failure is the missing-after-conflict assertion, and it writes no context or edge. Existing contexts are kept, and a new one appears only under (type name, context name). When the lookup finds nothing, the type name is registered with an empty schema and every other type is kept. |
| ContextLib.RegisterTwice | tfx/orchestration/portable/mlmd/context_lib.py:91-94 | Once a registration succeeds, registering the same spec again returns the same context, whatever the second race. |
| ContextLib.OrderedSpecs | tfx/orchestration/portable/mlmd/context_lib.py:184-206 | The result order (pipeline specs first, then the rest, each in input order) is a permutation of the input specs. |
| ContextLib.RunEdgesStep | tfx/orchestration/portable/mlmd/context_lib.py:197-205 | Registering one more spec in the second loop adds to the allowed edge set only edges from pipeline contexts to a pipeline-run context, and only when that context was absent before the batch. |
| ContextLib.RunEdgesLinked | tfx/orchestration/portable/mlmd/context_lib.py:193-206 | When the second loop has linked every pipeline-run context absent before the batch to every pipeline context, and has added only such edges, the edge set is exactly the old set plus those edges. |
| ContextLib.PipelinesRegisteredStep | tfx/orchestration/portable/mlmd/context_lib.py:184-189 | One step of the first loop keeps the invariant: the i-th pipeline context registered is stored under the i-th pipeline spec's key, and only pipeline-type keys were added. |
| ContextLib.PipelineStep | tfx/orchestration/portable/mlmd/context_lib.py:184-189 | One iteration of the first loop registers a pipeline spec with no parents and skips any other. It adds no edge and keeps the first-loop invariant. |
| ContextLib.RegisterPipelineContexts | tfx/orchestration/portable/mlmd/context_lib.py:180-189 | Every pipeline spec is registered in input order with no parents. Only pipeline-type keys are added and no edge is written. |
| ContextLib.OthersRegisteredStep | tfx/orchestration/portable/mlmd/context_lib.py:193-206 | One step of the second loop keeps the invariant. Each registered context is stored under its spec's key. Every new pipeline-run context belongs to a registered spec and is linked to every pipeline context. |
| ContextLib.OtherStep | tfx/orchestration/portable/mlmd/context_lib.py:193-206 | One iteration of the second loop skips a pipeline spec. It registers a pipeline-run spec with every pipeline context as a parent, and any other spec with none. |
| ContextLib.RegisterOtherContexts | tfx/orchestration/portable/mlmd/context_lib.py:193-206 | Every non-pipeline spec is registered in input order. New pipeline-run contexts are children of every pipeline context, and no other edge is added. The new edge set is exactly the old set plus an edge from every pipeline context to every pipeline-run context that was absent before the batch. |
| ContextLib.PrepareContexts | tfx/orchestration/portable/mlmd/context_lib.py:163-211 | On success, returns one context per spec, in the order pipeline specs first and then the rest, each stored under its spec's key. Every newly registered pipeline-run context is linked to every pipeline context. The new edge set is exactly the old set plus those edges, so a pipeline-run context the lookup finds gets no new edge. Whether it succeeds or fails, types and contexts only grow, new types appear only under the specs' type names, and new contexts appear only under the keys of the given specs. Specs with a string name and no properties, under readable races, make the batch succeed. |
| ContextLib.OrderingRunEdges | tfx/orchestration/portable/mlmd/context_lib.py:193-200 | For pipeline, pipeline-run, other: the only allowed edge runs from the pipeline context to the run context. |
| ContextLib.BatchOrderingExample | tfx/orchestration/portable/mlmd/context_lib.py:163-211 | On an empty store, specs p1 (pipeline), r1 (pipeline run) and o1 (other) come back as p1, r1, o1. The only edge is p1 to r1. |
| ContextLib.TwoPipelineRunEdges | tfx/orchestration/portable/mlmd/context_lib.py:193-200 | With two pipeline contexts, the run context may be linked to both of them, and to nothing else. |
| ContextLib.MultiplePipelinesExample | tfx/orchestration/portable/mlmd/context_lib.py:184-206 | Pipelines p1 and p2 and the pipeline run r1 give contexts p1, p2, r1, with r1 linked to both pipelines. |
| ContextLib.RegisterPipelineTwiceExample | tfx/orchestration/portable/mlmd/context_lib.py:72-119 | Registering pipeline "my_pipeline" on an empty store yields id 1 under the new "pipeline" type. Registering it again returns the same context. Only one type and one context exist, and there are no edges. |
| Sequences.Filter | tfx/dsl/input_resolution/ops/filter_artifacts_op.py:119-120 | The result is no longer than the input, and every element satisfies the predicate. |
| Sequences.FilterIsSubsequence | tfx/dsl/input_resolution/ops/filter_artifacts_op.py:119-120 | The filtered list keeps input order: it is a subsequence of the input. |
| Sequences.FilterMultiset | tfx/dsl/input_resolution/ops/filter_artifacts_op.py:119-120 | Each accepted element occurs as often as in the input, and each rejected element does not occur. |
| Sequences.FilterConcat | tfx/dsl/input_resolution/ops/filter_artifacts_op.py:119-120 | Filtering a concatenation is the concatenation of the filtered parts. |
| Sequences.FilterCongruent | tfx/dsl/input_resolution/ops/filter_artifacts_op.py:119-120 | Predicates that agree on every element of the list filter it the same way. |
| Sequences.SliceBound | tfx/dsl/input_resolution/ops/artifact_list_slice_op.py:43 | Python's normalisation of a slice bound: a negative bound counts from the end, and the bound is clamped to the list. |
| Sequences.PrefixSlice | tfx/dsl/input_resolution/ops/artifact_list_slice_op.py:43 | `s[:n]` is the first min(n, len) elements. |
| Sequences.SuffixSlice | tfx/dsl/input_resolution/ops/artifact_list_slice_op.py:67 | For n >= 1, `s[-n:]` is the last min(n, len) elements. |
| Sequences.NegativeZeroSliceIsWhole | tfx/dsl/input_resolution/ops/artifact_list_slice_op.py:36-37 | `s[-0:]` is the whole list, which is why n < 1 must be rejected before slicing. |
| FilterArtifactsOp.EncodePredicate | tfx/dsl/input_resolution/ops/filter_artifacts_op.py:30-40 | Encoding succeeds iff `predicate_fn` built a Predicate, and then gives that expression. Anything else is a TypeError. |
| FilterArtifactsOp.EvaluatePredicate | tfx/dsl/input_resolution/ops/filter_artifacts_op.py:43-67 | The decoded predicate gives the boolean when evaluation yields one. A non-boolean is FailedPreconditionError. An evaluation error is InputResolutionError with its message. |
| FilterArtifactsOp.DecodePredicateOutcomes | tfx/dsl/input_resolution/ops/filter_artifacts_op.py:43-67 | The closure `_decode_predicate` returns, applied to any artifact: the boolean when evaluation yields one, FailedPreconditionError for a non-boolean, InputResolutionError with the evaluation's message when evaluation fails. |
| FilterArtifactsOp.KeepWhere | tfx/dsl/input_resolution/ops/filter_artifacts_op.py:119-120 | The comprehension succeeds iff every artifact's evaluation succeeds, and then keeps exactly the accepted ones. Otherwise the error is that of the first failing artifact, every earlier one having succeeded. |
| FilterArtifactsOp.Apply | tfx/dsl/input_resolution/ops/filter_artifacts_op.py:113-120 | An empty list gives an empty list. Otherwise the result succeeds iff every artifact resolves to a boolean, and then it is the input filtered by the predicate. A failure is the error of the first artifact that does not resolve to a boolean. |
| FilterArtifactsOp.ApplyKeepsExactlyAccepted | tfx/dsl/input_resolution/ops/filter_artifacts_op.py:119-120 | A successful result is an order-preserving subsequence of the input, no longer than it. It holds only accepted artifacts and every accepted one, each as often as in the input. |
| FilterArtifactsOp.EmptyInputNeverEvaluates | tfx/dsl/input_resolution/ops/filter_artifacts_op.py:116-117 | An empty input gives an empty output whatever the predicate would do. |
| FilterArtifactsOp.SatisfiesSpanBelow | tfx/dsl/input_resolution/ops/filter_artifacts_op_test.py:66-73 | The predicate `span < bound` accepts exactly the artifacts whose span is below the bound. |
| FilterArtifactsOp.GridBelowCount | tfx/dsl/input_resolution/ops/filter_artifacts_op_test.py:61-73 | Filtering spans 0..spans-1 × versions 0..2 by span < bound keeps 3·min(spans, bound) artifacts. |
| FilterArtifactsOp.GridBelow | tfx/dsl/input_resolution/ops/filter_artifacts_op_test.py:61-73 | On that grid the operator succeeds, keeps 3·min(spans, bound) artifacts, and each has span < bound. |
| FilterArtifactsOp.SpanBelowFiveExample | tfx/dsl/input_resolution/ops/filter_artifacts_op_test.py:59-73 | 30 artifacts filtered by span < 5 give 15, all with span < 5. |
| ArtifactListSliceOp.FirstNArtifacts | tfx/dsl/input_resolution/ops/artifact_list_slice_op.py:33-43 | n < 1 is InvalidArgument, checked before sufficiency. With skipping on, a list shorter than n is SkipSignal. Otherwise the result is the first min(n, len) artifacts: the whole list when it is shorter, and exactly n when it is long enough. |
| ArtifactListSliceOp.LastNArtifacts | tfx/dsl/input_resolution/ops/artifact_list_slice_op.py:57-67 | Same guards as FirstNArtifacts. The result is the last min(n, len) artifacts: the whole list when it is shorter, and exactly n when it is long enough. |
| ArtifactListSliceOp.FirstAndLastSplit | tfx/dsl/input_resolution/ops/artifact_list_slice_op.py:43-67 | For 1 <= n < len, the first n and the last len - n artifacts put together give the list back. |
| ArtifactListSliceOp.FirstAndLastAgreeOnShortInput | tfx/dsl/input_resolution/ops/artifact_list_slice_op.py:43-67 | Without skipping, both operators return a list of at most n artifacts whole. |
| ArtifactMapListSliceOp.FirstArtifactMapOrSkip | tfx/dsl/input_resolution/ops/artifact_map_list_slice_op.py:30-35 | SkipSignal iff the list is empty; otherwise the first map. |
| ArtifactMapListSliceOp.LastArtifactMapOrSkip | tfx/dsl/input_resolution/ops/artifact_map_list_slice_op.py:46-51 | SkipSignal iff the list is empty; otherwise the last map. |
| ArtifactMapListSliceOp.FirstNArtifactMaps | tfx/dsl/input_resolution/ops/artifact_map_list_slice_op.py:64-73 | n < 1 is InvalidArgument. With skipping on, fewer than n maps is SkipSignal. Otherwise the result is the prefix of length min(n, len), exactly n long when the list is long enough. |
| ArtifactMapListSliceOp.LastNArtifactMaps | tfx/dsl/input_resolution/ops/artifact_map_list_slice_op.py:86-95 | Same guards. The result is the suffix of length min(n, len), exactly n long when the list is long enough. |
| ArtifactMapListSliceOp.FirstOrSkipIsFirstOne | tfx/dsl/input_resolution/ops/artifact_map_list_slice_op.py:30-73 | FirstArtifactMapOrSkip agrees with FirstNArtifactMaps for n = 1 with skipping on: both skip on an empty list, and otherwise give the same map. |
| ArtifactMapListSliceOp.LastOrSkipIsLastOne | tfx/dsl/input_resolution/ops/artifact_map_list_slice_op.py:46-95 | LastArtifactMapOrSkip agrees with LastNArtifactMaps for n = 1 with skipping on. |
| Dependencies.SelectConstraint | tfx/dependencies.py:39-49 | UNCONSTRAINED gives the empty string. NIGHTLY with a nightly constraint gives it, and GIT_MASTER with a git-master constraint gives that. Every other case gives the default: an unset or unknown selector, or an alternative that is missing. |
| Dependencies.SelectConstraintPicksOffered | tfx/dependencies.py:39-49 | The constraint chosen is always the empty one or one of those offered. |
| Dependencies.SelectConstraintIgnoresOthers | tfx/dependencies.py:39-49 | The constraint depends only on the alternative the selector names: UNCONSTRAINED ignores all three arguments, NIGHTLY with a nightly constraint ignores the default and git-master ones, GIT_MASTER with a git-master constraint ignores the default and nightly ones. |
| Dependencies.MakePipelineSdkRequiredInstallPackages | tfx/dependencies.py:52-73 | Ten packages, the second being ml-metadata with the constraint the selector picks. |
| Dependencies.MakeRequiredInstallPackages | tfx/dependencies.py:76-121 | The pipeline SDK list is a prefix, followed by eighteen more packages. |
| Dependencies.SelectorOnlyChangesConstraints | tfx/dependencies.py:76-121 | Any two selectors give lists of the same length that agree at every position except the six selector-driven entries. |
| Dependencies.MakeExtraPackagesAirflow | tfx/dependencies.py:124-128 | One package: the Airflow requirement. |
| Dependencies.MakeExtraPackagesKfp | tfx/dependencies.py:131-136 | Two packages: the KFP SDK and the KFP pipeline spec. |
| Dependencies.MakeExtraPackagesTest | tfx/dependencies.py:139-145 | The Airflow list, then the KFP list, then `pytest>=5,<7`. |

## Left out

- Locks and lock-guarded atomic store operations (`mlmd_state.py`): they are about concurrency. The race between registrants is modelled as the `Race` argument of the insert.
- The python execution binary (`python_execution_lib.py`, `entrypoint.py`): flag parsing, proto deserialisation, loading a class by path, and file writes. Its one decision (lines 74-87) runs the driver when the MLMD connection-config flag is set and the executor otherwise. Both branches call code that is not part of this model, so the choice is left out with the I/O around it.
- The canned resolver functions: they only delegate to operators that are not part of this model.
- `manager_node.py`: dispatch over classes that are not part of this model.
- Placeholder encoding and evaluation (`encode_with_keys`, `resolve_placeholder_expression`): abstracted as the encoded value `E` and the `resolve` function.
- Value decoding and kind detection in `data_types_utils`: it is not part of this model. A property value is one of four kinds: int, double, string or bool. Struct and proto values are not modelled.
- Logging, telemetry and `time.time()`: they have no effect on results.
- Exception message texts are not modelled, except the message an InputResolutionError carries. Only the kind of each error is modelled.
- Store failures other than AlreadyExists (connection, permission and so on) are not modelled: the store always answers.
- `constants.py` is not part of this model. The pipeline and pipeline-run context type names are taken to be "pipeline" and "pipeline_run".
- `common_utils.register_type_if_not_exist` is not part of this model. It is modelled as returning the stored type when the name is taken, with no schema evolution or check, and otherwise storing the given schema under a fresh id.
- ContextLib.RegisterContextIfNotExist: a lookup with a name that is not a string is modelled as finding nothing, so registration goes on to the build, which fails the name assertion. In the source, that lookup would be passed the non-string value.
- ContextLib.BuildContext: when several declared properties have the wrong kind, the model reports one of them, without saying which. The source reports the first in the proto map's iteration order.
- ContextLib.RegisterContextIfNotExist: its own contract leaves the result under a lost race implicit. ContextLib.RegisterNewContext states it in full.
- ContextLib.PrepareContexts: when one spec fails part-way through, contexts and edges written for earlier specs stay written. For that case only the frame is stated: types, contexts and edges only grow, new types only under the specs' type names, and new contexts only under the specs' keys. Success is guaranteed only for specs with a string name and no properties under readable races, because a later spec's build runs against a type an earlier spec of the batch may have registered.
- ContextLib.RegisterTwice: it states that the second result equals the first. That the second call writes nothing follows from the fast-path clauses of ContextLib.RegisterContextIfNotExist.
- Dependencies: `make_extra_packages_docker_image`, `tfjs`, `tflite_support`, `tfdf`, `flax` and `examples` are fixed lists of literals. `make_extra_packages_tf_ranking` lists `tensorflow-ranking` with a fixed constraint and `struct2tensor` with a constraint the selector chooses (lines 175-183). `make_extra_packages_all` joins the other extra lists together (lines 229-238), so it depends on the selector through that entry. None of these is modelled. Of the extra lists, only the Airflow, KFP and test lists are modelled.
- Dependencies.MakeExtraPackagesAirflow, Dependencies.MakeExtraPackagesKfp: their contracts state the number of entries; the version strings themselves are copied as data.
- Dependencies.MakeRequiredInstallPackages: the version strings of packages without a selector are copied as data. Its contract states the structure and which entries the selector changes, not each literal.
- Real threads, processes and read-after-write visibility delays are not modelled as such. They appear only through the three `Race` outcomes of an insert.
