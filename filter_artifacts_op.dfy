/**
 * FilterArtifacts: keeps the artifacts of an ARTIFACT_LIST that satisfy a
 * placeholder predicate. Placeholder encoding and evaluation are abstract:
 * `E` is the encoded PlaceholderExpression, and `resolve` says what
 * evaluating it against one artifact produces.
 */
module FilterArtifactsOp {
  import opened Wrappers
  import opened Sequences
  import opened ResolverExceptions

  /** What `predicate_fn` returns when applied to an artifact placeholder. */
  datatype Traced<E> =
    | PredicateExpression(expression: E)  // a placeholder.Predicate, encoded
    | OtherPlaceholder                    // a placeholder that is not a Predicate, e.g. `a.property('span')`
    | PlainValue                          // not a placeholder at all, e.g. `True`

  /** What evaluating the encoded predicate against one artifact produces. */
  datatype Resolution =
    | BoolValue(b: bool)
    | NonBoolValue
    | EvaluationFailed(message: string)   // placeholder evaluation raised ValueError

  /** _encode_predicate: only a Predicate can be encoded; anything else is a TypeError. */
  function EncodePredicate<E>(traced: Traced<E>): (r: Result<E, ResolverError>)
    ensures r.Success? <==> traced.PredicateExpression?
    ensures r.Success? ==> r.value == traced.expression
    ensures r.Failure? ==> r.error == TypeError
  {
    match traced
    case PredicateExpression(e) => Success(e)
    case _ => Failure(TypeError)
  }

  /** The error the decoded predicate raises for a resolution that is not a boolean. */
  function ResolutionError(res: Resolution): ResolverError
    requires !res.BoolValue?
  {
    match res
    case NonBoolValue => FailedPreconditionError
    case EvaluationFailed(m) => InputResolutionError(m)
  }

  /** The closure returned by _decode_predicate, applied to one artifact. */
  function EvaluatePredicate<E, A>(encoded: E, resolve: (E, A) -> Resolution, artifact: A): (r: Result<bool, ResolverError>)
    ensures r.Success? <==> resolve(encoded, artifact).BoolValue?
    ensures r.Success? ==> r.value == resolve(encoded, artifact).b
    ensures resolve(encoded, artifact).NonBoolValue? ==> r == Failure(FailedPreconditionError)
    ensures resolve(encoded, artifact).EvaluationFailed?
            ==> r == Failure(InputResolutionError(resolve(encoded, artifact).message))
  {
    var res := resolve(encoded, artifact);
    if res.BoolValue? then Success(res.b) else Failure(ResolutionError(res))
  }

  /** _decode_predicate: the predicate as a function from artifact to outcome. */
  function DecodePredicate<E, A>(encoded: E, resolve: (E, A) -> Resolution): A -> Result<bool, ResolverError>
  {
    a => EvaluatePredicate(encoded, resolve, a)
  }

  /**
   * The decoded predicate, applied to any artifact: the boolean when the
   * evaluation yields one, FailedPreconditionError for a non-boolean,
   * InputResolutionError with the message when evaluation fails.
   */
  lemma DecodePredicateOutcomes<E, A>(encoded: E, resolve: (E, A) -> Resolution, a: A)
    ensures DecodePredicate(encoded, resolve)(a).Success? <==> resolve(encoded, a).BoolValue?
    ensures DecodePredicate(encoded, resolve)(a).Success? ==>
      DecodePredicate(encoded, resolve)(a).value == resolve(encoded, a).b
    ensures resolve(encoded, a).NonBoolValue? ==> DecodePredicate(encoded, resolve)(a) == Failure(FailedPreconditionError)
    ensures resolve(encoded, a).EvaluationFailed? ==>
      DecodePredicate(encoded, resolve)(a) == Failure(InputResolutionError(resolve(encoded, a).message))
  {
  }

  /** The artifacts the predicate accepts: it evaluates to the boolean true. */
  function Accepts<A>(decoded: A -> Result<bool, ResolverError>): A -> bool
  {
    a => decoded(a) == Success(true)
  }

  /** The meaning of the encoded predicate: it resolves to the boolean true. */
  function Satisfies<E, A>(encoded: E, resolve: (E, A) -> Resolution): A -> bool
  {
    a => resolve(encoded, a) == BoolValue(true)
  }

  /**
   * `[a for a in artifacts if decoded(a)]`: evaluated left to right, the
   * first raised error ends the comprehension.
   */
  function KeepWhere<A(==)>(artifacts: seq<A>, decoded: A -> Result<bool, ResolverError>): (r: Result<seq<A>, ResolverError>)
    ensures r.Success? <==> forall i :: 0 <= i < |artifacts| ==> decoded(artifacts[i]).Success?
    ensures r.Success? ==> r.value == Filter(artifacts, Accepts(decoded))
    ensures r.Failure? ==> exists i :: 0 <= i < |artifacts| && decoded(artifacts[i]) == Failure(r.error)
                                      && forall j :: 0 <= j < i ==> decoded(artifacts[j]).Success?
    decreases |artifacts|
  {
    if artifacts == [] then Success([])
    else
      match decoded(artifacts[0])
      case Failure(e) => Failure(e)
      case Success(keep) =>
        var rest := KeepWhere(artifacts[1..], decoded);
        if rest.Failure? then
          assert forall i :: 1 <= i < |artifacts| ==> artifacts[i] == artifacts[1..][i - 1];
          Failure(rest.error)
        else
          assert forall i :: 1 <= i < |artifacts| ==> artifacts[i] == artifacts[1..][i - 1];
          Success(if keep then [artifacts[0]] + rest.value else rest.value)
  }

  /**
   * FilterArtifactsInternal.apply: an empty list is returned as is, without
   * decoding or evaluating the predicate; otherwise the list is filtered.
   */
  function Apply<E, A(==)>(artifacts: seq<A>, encoded: E, resolve: (E, A) -> Resolution): (r: Result<seq<A>, ResolverError>)
    ensures artifacts == [] ==> r == Success([])
    ensures r.Success? <==> forall i :: 0 <= i < |artifacts| ==> resolve(encoded, artifacts[i]).BoolValue?
    ensures r.Success? ==> r.value == Filter(artifacts, Satisfies(encoded, resolve))
    ensures r.Failure? ==> exists i :: 0 <= i < |artifacts| && !resolve(encoded, artifacts[i]).BoolValue?
                                      && r.error == ResolutionError(resolve(encoded, artifacts[i]))
                                      && forall j :: 0 <= j < i ==> resolve(encoded, artifacts[j]).BoolValue?
  {
    if artifacts == [] then Success([])
    else
      var decoded := DecodePredicate(encoded, resolve);
      var r := KeepWhere(artifacts, decoded);
      if r.Success? then
        FilterCongruent(artifacts, Accepts(decoded), Satisfies(encoded, resolve));
        r
      else
        r
  }

  /**
   * Whatever the predicate, a successful result holds only artifacts it
   * accepts, in input order, every accepted one, and is no longer than the input.
   */
  lemma ApplyKeepsExactlyAccepted<E, A>(artifacts: seq<A>, encoded: E, resolve: (E, A) -> Resolution)
    requires Apply(artifacts, encoded, resolve).Success?
    ensures var out := Apply(artifacts, encoded, resolve).value;
      && |out| <= |artifacts|
      && IsSubsequence(out, artifacts)
      && (forall a :: a in out ==> resolve(encoded, a) == BoolValue(true))
      && (forall a :: a in artifacts && resolve(encoded, a) == BoolValue(true) ==> a in out)
      && (forall a :: a in artifacts ==> multiset(out)[a] == if resolve(encoded, a) == BoolValue(true) then multiset(artifacts)[a] else 0)
  {
    FilterMultiset(artifacts, Satisfies(encoded, resolve));
    FilterIsSubsequence(artifacts, Satisfies(encoded, resolve));
  }

  /** The artifact used by the operator's test: a span and a version. */
  datatype DummyArtifact = DummyArtifact(span: int, version: int)

  /** Spans 0 .. spans - 1, each with versions 0, 1 and 2, span by span. */
  function Grid(spans: nat): (g: seq<DummyArtifact>)
    ensures |g| == 3 * spans
  {
    if spans == 0 then [] else Grid(spans - 1) + Row(spans - 1)
  }

  function Row(span: int): seq<DummyArtifact>
  {
    [DummyArtifact(span, 0), DummyArtifact(span, 1), DummyArtifact(span, 2)]
  }

  /** The encoded predicate `a.property('span') < bound`, with the bound as its encoding. */
  function SpanBelow(bound: int, a: DummyArtifact): Resolution
  {
    BoolValue(a.span < bound)
  }

  lemma SatisfiesSpanBelow(bound: int, a: DummyArtifact)
    ensures Satisfies(bound, SpanBelow)(a) <==> a.span < bound
  {
    var resolve: (int, DummyArtifact) -> Resolution := SpanBelow;
    assert resolve(bound, a) == BoolValue(a.span < bound);
    assert Satisfies(bound, resolve)(a) == (resolve(bound, a) == BoolValue(true));
  }

  lemma {:induction false} GridBelowCount(spans: nat, bound: int)
    requires 0 <= bound
    ensures |Filter(Grid(spans), Satisfies(bound, SpanBelow))| == 3 * Min(spans, bound)
  {
    if spans > 0 {
      GridBelowCount(spans - 1, bound);
      FilterConcat(Grid(spans - 1), Row(spans - 1), Satisfies(bound, SpanBelow));
      var row := Row(spans - 1);
      var keep := Satisfies(bound, SpanBelow);
      forall a | a in row ensures keep(a) == (spans - 1 < bound) {
        assert a.span == spans - 1;
        SatisfiesSpanBelow(bound, a);
      }
      if spans - 1 < bound {
        FilterKeepsAll(row, keep);
      } else {
        FilterKeepsNone(row, keep);
      }
    }
  }

  /** Filtering the grid by span < bound keeps three artifacts per span below the bound. */
  lemma GridBelow(spans: nat, bound: int)
    requires 0 <= bound
    ensures Apply(Grid(spans), bound, SpanBelow).Success?
    ensures |Apply(Grid(spans), bound, SpanBelow).value| == 3 * Min(spans, bound)
    ensures forall a :: a in Apply(Grid(spans), bound, SpanBelow).value ==> a.span < bound
  {
    var g := Grid(spans);
    var resolve: (int, DummyArtifact) -> Resolution := SpanBelow;
    assert forall i :: 0 <= i < |g| ==> resolve(bound, g[i]).BoolValue?;
    GridBelowCount(spans, bound);
    var r := Apply(g, bound, SpanBelow);
    assert r.Success?;
    forall a | a in r.value ensures a.span < bound {
      SatisfiesSpanBelow(bound, a);
    }
  }

  /** The test's worked example: 30 artifacts filtered by span < 5 give 15, all with span < 5. */
  lemma SpanBelowFiveExample()
    ensures Apply(Grid(10), 5, SpanBelow).Success?
    ensures |Apply(Grid(10), 5, SpanBelow).value| == 15
    ensures forall a :: a in Apply(Grid(10), 5, SpanBelow).value ==> a.span < 5
  {
    GridBelow(10, 5);
  }

  /** An empty list is filtered to nothing whatever the predicate would do. */
  lemma EmptyInputNeverEvaluates<E, A>(encoded: E, resolve: (E, A) -> Resolution)
    ensures Apply([], encoded, resolve) == Success([])
  {
  }
}
