/** The templated MultiThreaderBase::ParallelizeImageRegion: it hands an
    ImageRegion<VDimension> to the non-templated overload as a dimension and
    flat index/size arrays, and for every chunk that overload produces it
    rebuilds an ImageRegion, dimension by dimension, for the caller's functor. */
module RegionAdapter {

  /** IndexValueType is a signed 64-bit integer, SizeValueType an unsigned one. */
  type IndexValueType = x: int | -0x8000_0000_0000_0000 <= x < 0x8000_0000_0000_0000
  type SizeValueType = x: int | 0 <= x < 0x1_0000_0000_0000_0000

  /** An axis-aligned region: the start index and the extent along each
      dimension. ImageRegion has value semantics: it is copied, and the
      adapter builds a fresh one per chunk. */
  datatype ImageRegion = ImageRegion(index: seq<IndexValueType>, size: seq<SizeValueType>)
  {
    predicate HasDimension(dimension: nat) {
      |index| == dimension && |size| == dimension
    }

    /** The region with index `v` along dimension `d`, all else unchanged. */
    function SetIndex(d: nat, v: IndexValueType): ImageRegion
      requires d < |index|
    {
      this.(index := index[d := v])
    }

    /** The region with extent `v` along dimension `d`, all else unchanged. */
    function SetSize(d: nat, v: SizeValueType): ImageRegion
      requires d < |size|
    {
      this.(size := size[d := v])
    }
  }

  /** A default-constructed ImageRegion<dimension>: index and size all zero. */
  function DefaultRegion(dimension: nat): (r: ImageRegion)
    ensures r.HasDimension(dimension)
    ensures forall d :: 0 <= d < dimension ==> r.index[d] == 0 && r.size[d] == 0
  {
    ImageRegion(seq(dimension, _ => 0), seq(dimension, _ => 0))
  }

  /** What the templated overload passes on: the dimension VDimension and the
      region's own index and size arrays. */
  datatype RegionArguments = RegionArguments(dimension: nat, index: seq<IndexValueType>, size: seq<SizeValueType>)
  {
    /** The index and size arrays hold one entry per dimension. */
    predicate HasArrays() {
      |index| == dimension && |size| == dimension
    }
  }

  function ToRegionArguments(region: ImageRegion): (a: RegionArguments)
    requires region.HasDimension(|region.index|)
  {
    RegionArguments(|region.index|, region.index, region.size)
  }

  /** The region the functor receives for a chunk given as flat arrays: a
      default region whose index and size are set for d = 0 .. dimension-1.
      It carries exactly the chunk's index and size in every dimension. */
  method RebuildRegion(dimension: nat, index: seq<IndexValueType>, size: seq<SizeValueType>) returns (region: ImageRegion)
    requires dimension <= |index| && dimension <= |size|
    ensures region.HasDimension(dimension)
    ensures forall d :: 0 <= d < dimension ==> region.index[d] == index[d] && region.size[d] == size[d]
    ensures region == ImageRegion(index[..dimension], size[..dimension])
  {
    region := DefaultRegion(dimension);
    for d := 0 to dimension
      invariant region.HasDimension(dimension)
      invariant forall j :: 0 <= j < d ==> region.index[j] == index[j] && region.size[j] == size[j]
    {
      region := region.SetIndex(d, index[d]);
      region := region.SetSize(d, size[d]);
    }
    assert region.index == index[..dimension];
    assert region.size == size[..dimension];
  }

  /** The adapter. `forwarded` is what the non-templated overload receives:
      VDimension and the requested region's own index and size arrays. The
      chunk plan that overload produces is the parameter `chunks` (how it
      splits is not modelled); `calls` lists the regions the functor receives,
      one per chunk, in chunk order. Each received region is exactly its
      chunk, so a chunk that is the whole request hands the functor the
      requested region itself. */
  method ParallelizeImageRegion(requestedRegion: ImageRegion, chunks: seq<RegionArguments>)
    returns (forwarded: RegionArguments, calls: seq<ImageRegion>)
    requires requestedRegion.HasDimension(|requestedRegion.index|)
    requires forall k :: 0 <= k < |chunks| ==>
      chunks[k].dimension == |requestedRegion.index| && chunks[k].HasArrays()
    ensures forwarded.HasArrays() && forwarded.dimension == |requestedRegion.index|
    ensures forwarded.index == requestedRegion.index && forwarded.size == requestedRegion.size
    ensures |calls| == |chunks|
    ensures forall k :: 0 <= k < |chunks| ==>
      calls[k].HasDimension(|requestedRegion.index|)
      && calls[k].index == chunks[k].index && calls[k].size == chunks[k].size
    ensures forall k :: 0 <= k < |chunks| && chunks[k] == ToRegionArguments(requestedRegion) ==>
      calls[k] == requestedRegion
  {
    forwarded := ToRegionArguments(requestedRegion);
    var dimension := forwarded.dimension;
    calls := [];
    for k := 0 to |chunks|
      invariant |calls| == k
      invariant forall j :: 0 <= j < k ==> calls[j] == ImageRegion(chunks[j].index, chunks[j].size)
    {
      var region := RebuildRegion(dimension, chunks[k].index, chunks[k].size);
      assert chunks[k].index[..dimension] == chunks[k].index && chunks[k].size[..dimension] == chunks[k].size;
      calls := calls + [region];
    }
  }
}
