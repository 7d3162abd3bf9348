/** `_extract_corresponding_reference` (`analysis/pxrd.py`): the reference
    measurement a PXRD file is compared with. */
module PxrdReference {
  import opened Wrappers
  import opened Seqs
  import opened PxrdCollector

  predicate SameSource(file: PxrdFile, f: PxrdFile) { f.xraySource == file.xraySource }

  predicate SameShape(file: PxrdFile, f: PxrdFile) { f.sampleHolderShape == file.sampleHolderShape }

  function SourceOf(file: PxrdFile): PxrdFile -> bool { f => SameSource(file, f) }

  function ShapeOf(file: PxrdFile): PxrdFile -> bool { f => SameShape(file, f) }

  /** Keep the elements meeting `p`, unless none does. */
  function NarrowIfAny(p: PxrdFile -> bool, refs: seq<PxrdFile>): (r: seq<PxrdFile>)
    ensures |r| == 0 <==> |refs| == 0
    ensures forall i :: 0 <= i < |r| ==> r[i] in refs
    ensures (exists i :: 0 <= i < |refs| && p(refs[i])) ==> r == Filter(p, refs)
    ensures (forall i :: 0 <= i < |refs| ==> !p(refs[i])) ==> r == refs
  {
    var filtered := Filter(p, refs);
    FilterHead(p, refs);
    if |filtered| > 0 then filtered else refs
  }

  /** The references measured with the same X-ray source, if there are
      any, then of those the ones with the same sample holder shape, if
      there are any; the first one left. */
  function ExtractCorrespondingReference(file: PxrdFile, refs: seq<PxrdFile>): (r: Option<PxrdFile>)
    ensures r.None? <==> |refs| == 0
    ensures r.Some? ==> r.value in refs
    ensures r.Some? && (exists i :: 0 <= i < |refs| && SameSource(file, refs[i])) ==> SameSource(file, r.value)
  {
    var bySource := NarrowIfAny(SourceOf(file), refs);
    var byShape := NarrowIfAny(ShapeOf(file), bySource);
    if |byShape| == 0 then None else Some(byShape[0])
  }

  /** When some reference agrees on both source and shape, the result is
      the first reference that does. */
  lemma ReferenceBothMatch(file: PxrdFile, refs: seq<PxrdFile>, k: nat)
    requires k < |refs| && SameSource(file, refs[k]) && SameShape(file, refs[k])
    ensures ExtractCorrespondingReference(file, refs)
            == First(Both(SourceOf(file), ShapeOf(file)), refs)
  {
    var p := SourceOf(file);
    var q := ShapeOf(file);
    FilterHead(p, refs);
    FilterFilter(p, q, refs);
    FilterHead(Both(p, q), refs);
    assert Both(p, q)(refs[k]);
  }

  /** Without a reference of the same source, the shape alone decides:
      the first reference of the same shape, if any, else the first
      reference. */
  lemma ReferenceNoSource(file: PxrdFile, refs: seq<PxrdFile>)
    requires |refs| > 0 && forall i :: 0 <= i < |refs| ==> !SameSource(file, refs[i])
    ensures var shaped := First(ShapeOf(file), refs);
            ExtractCorrespondingReference(file, refs) == if shaped.Some? then shaped else Some(refs[0])
  {
    FilterHead(ShapeOf(file), refs);
  }

  /** With references of the same source but none of them of the same
      shape, the result is the first reference of the same source. */
  lemma ReferenceSourceOnly(file: PxrdFile, refs: seq<PxrdFile>, k: nat)
    requires k < |refs| && SameSource(file, refs[k])
    requires forall i :: 0 <= i < |refs| && SameSource(file, refs[i]) ==> !SameShape(file, refs[i])
    ensures ExtractCorrespondingReference(file, refs) == First(SourceOf(file), refs)
  {
    var p := SourceOf(file);
    FilterHead(p, refs);
    var bySource := Filter(p, refs);
    assert forall i :: 0 <= i < |bySource| ==> !SameShape(file, bySource[i]);
  }
}
