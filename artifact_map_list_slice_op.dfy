/**
 * Slicing resolver operators over an ARTIFACT_MULTIMAP_LIST: a list of
 * artifact multimaps (input key to list of artifacts).
 */
module ArtifactMapListSliceOp {
  import opened Wrappers
  import opened Sequences
  import opened ResolverExceptions

  type ArtifactMultiMap<A> = map<string, seq<A>>

  /** FirstArtifactMapOrSkip.apply: `artifact_map_list[0]`, or SkipSignal on an empty list. */
  function FirstArtifactMapOrSkip<A>(artifactMapList: seq<ArtifactMultiMap<A>>): (r: Result<ArtifactMultiMap<A>, ResolverError>)
    ensures artifactMapList == [] <==> r == Failure(SkipSignal)
    ensures r.Success? ==> r.value == artifactMapList[0]
  {
    if |artifactMapList| == 0 then Failure(SkipSignal)
    else Success(PyIndex(artifactMapList, 0))
  }

  /** LastArtifactMapOrSkip.apply: `artifact_map_list[-1]`, or SkipSignal on an empty list. */
  function LastArtifactMapOrSkip<A>(artifactMapList: seq<ArtifactMultiMap<A>>): (r: Result<ArtifactMultiMap<A>, ResolverError>)
    ensures artifactMapList == [] <==> r == Failure(SkipSignal)
    ensures r.Success? ==> r.value == artifactMapList[|artifactMapList| - 1]
  {
    if |artifactMapList| == 0 then Failure(SkipSignal)
    else Success(PyIndex(artifactMapList, -1))
  }

  /** FirstNArtifactMaps.apply: `artifact_map_list[:n]` after the two guards. */
  function FirstNArtifactMaps<A>(artifactMapList: seq<ArtifactMultiMap<A>>, n: int, skipIfInsufficient: bool)
    : (r: Result<seq<ArtifactMultiMap<A>>, ResolverError>)
    ensures n < 1 ==> r == Failure(InvalidArgument)
    ensures n >= 1 && skipIfInsufficient && |artifactMapList| < n ==> r == Failure(SkipSignal)
    ensures r.Success? <==> n >= 1 && !(skipIfInsufficient && |artifactMapList| < n)
    ensures r.Success? ==> r.value == artifactMapList[..Min(n, |artifactMapList|)]
    ensures 1 <= n <= |artifactMapList| ==> r.Success? && |r.value| == n
  {
    if n < 1 then Failure(InvalidArgument)
    else if skipIfInsufficient && |artifactMapList| < n then Failure(SkipSignal)
    else
      PrefixSlice(artifactMapList, n);
      Success(PySlice(artifactMapList, None, Some(n)))
  }

  /** LastNArtifactMaps.apply: `artifact_map_list[-n:]` after the two guards. */
  function LastNArtifactMaps<A>(artifactMapList: seq<ArtifactMultiMap<A>>, n: int, skipIfInsufficient: bool)
    : (r: Result<seq<ArtifactMultiMap<A>>, ResolverError>)
    ensures n < 1 ==> r == Failure(InvalidArgument)
    ensures n >= 1 && skipIfInsufficient && |artifactMapList| < n ==> r == Failure(SkipSignal)
    ensures r.Success? <==> n >= 1 && !(skipIfInsufficient && |artifactMapList| < n)
    ensures r.Success? ==> r.value == artifactMapList[|artifactMapList| - Min(n, |artifactMapList|)..]
    ensures 1 <= n <= |artifactMapList| ==> r.Success? && |r.value| == n
  {
    if n < 1 then Failure(InvalidArgument)
    else if skipIfInsufficient && |artifactMapList| < n then Failure(SkipSignal)
    else
      SuffixSlice(artifactMapList, n);
      Success(PySlice(artifactMapList, Some(-n), None))
  }

  /** FirstArtifactMapOrSkip is FirstNArtifactMaps with n = 1 and skipping on, unwrapped. */
  lemma FirstOrSkipIsFirstOne<A>(artifactMapList: seq<ArtifactMultiMap<A>>)
    ensures FirstArtifactMapOrSkip(artifactMapList).Failure?
        <==> FirstNArtifactMaps(artifactMapList, 1, true) == Failure(SkipSignal)
    ensures FirstArtifactMapOrSkip(artifactMapList).Success?
        ==> FirstNArtifactMaps(artifactMapList, 1, true) == Success([FirstArtifactMapOrSkip(artifactMapList).value])
  {
    if artifactMapList != [] {
      assert artifactMapList[..1] == [artifactMapList[0]];
    }
  }

  /** LastArtifactMapOrSkip is LastNArtifactMaps with n = 1 and skipping on, unwrapped. */
  lemma LastOrSkipIsLastOne<A>(artifactMapList: seq<ArtifactMultiMap<A>>)
    ensures LastArtifactMapOrSkip(artifactMapList).Failure?
        <==> LastNArtifactMaps(artifactMapList, 1, true) == Failure(SkipSignal)
    ensures LastArtifactMapOrSkip(artifactMapList).Success?
        ==> LastNArtifactMaps(artifactMapList, 1, true) == Success([LastArtifactMapOrSkip(artifactMapList).value])
  {
    if artifactMapList != [] {
      var k := |artifactMapList| - 1;
      assert artifactMapList[k..] == [artifactMapList[k]];
    }
  }
}
