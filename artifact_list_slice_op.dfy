/**
 * FirstNArtifacts and LastNArtifacts: slicing resolver operators over an
 * ARTIFACT_LIST. The operator properties `n` and `skip_if_insufficient` are
 * read-only configuration and become parameters.
 */
module ArtifactListSliceOp {
  import opened Wrappers
  import opened Sequences
  import opened ResolverExceptions

  /** FirstNArtifacts.apply: `artifacts[:n]` after the two guards. */
  function FirstNArtifacts<A>(artifacts: seq<A>, n: int, skipIfInsufficient: bool): (r: Result<seq<A>, ResolverError>)
    ensures n < 1 ==> r == Failure(InvalidArgument)
    ensures n >= 1 && skipIfInsufficient && |artifacts| < n ==> r == Failure(SkipSignal)
    ensures r.Success? <==> n >= 1 && !(skipIfInsufficient && |artifacts| < n)
    ensures r.Success? ==> r.value == artifacts[..Min(n, |artifacts|)]
    ensures r.Success? && |artifacts| < n ==> r.value == artifacts
    ensures 1 <= n <= |artifacts| ==> r.Success? && |r.value| == n
  {
    if n < 1 then Failure(InvalidArgument)
    else if skipIfInsufficient && |artifacts| < n then Failure(SkipSignal)
    else
      PrefixSlice(artifacts, n);
      Success(PySlice(artifacts, None, Some(n)))
  }

  /** LastNArtifacts.apply: `artifacts[-n:]` after the two guards. */
  function LastNArtifacts<A>(artifacts: seq<A>, n: int, skipIfInsufficient: bool): (r: Result<seq<A>, ResolverError>)
    ensures n < 1 ==> r == Failure(InvalidArgument)
    ensures n >= 1 && skipIfInsufficient && |artifacts| < n ==> r == Failure(SkipSignal)
    ensures r.Success? <==> n >= 1 && !(skipIfInsufficient && |artifacts| < n)
    ensures r.Success? ==> r.value == artifacts[|artifacts| - Min(n, |artifacts|)..]
    ensures r.Success? && |artifacts| < n ==> r.value == artifacts
    ensures 1 <= n <= |artifacts| ==> r.Success? && |r.value| == n
  {
    if n < 1 then Failure(InvalidArgument)
    else if skipIfInsufficient && |artifacts| < n then Failure(SkipSignal)
    else
      SuffixSlice(artifacts, n);
      Success(PySlice(artifacts, Some(-n), None))
  }

  /**
   * The two operators split a long enough list: its first n and its last
   * |artifacts| - n elements put back together give the list.
   */
  lemma FirstAndLastSplit<A>(artifacts: seq<A>, n: int, skipIfInsufficient: bool)
    requires 1 <= n < |artifacts|
    ensures FirstNArtifacts(artifacts, n, skipIfInsufficient).Success?
    ensures LastNArtifacts(artifacts, |artifacts| - n, skipIfInsufficient).Success?
    ensures FirstNArtifacts(artifacts, n, skipIfInsufficient).value
            + LastNArtifacts(artifacts, |artifacts| - n, skipIfInsufficient).value == artifacts
  {
    assert artifacts[..n] + artifacts[n..] == artifacts;
  }

  /** On a list no longer than n, without skipping, both operators return the whole list. */
  lemma FirstAndLastAgreeOnShortInput<A>(artifacts: seq<A>, n: int)
    requires n >= 1 && |artifacts| <= n
    ensures FirstNArtifacts(artifacts, n, false) == LastNArtifacts(artifacts, n, false) == Success(artifacts)
  {
  }
}
