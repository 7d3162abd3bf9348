/** PXRD measurement files (`pxrd_collector.py`): the metadata a file name
    of the form `PXRD_<experiment id>_<X-ray source>_<shape>[-<diameter>][_<other>].xyd`
    carries, and the selection of the files of one experiment. */
module PxrdCollector {
  import opened Wrappers
  import opened Strings
  import opened Seqs

  /** A `PXRDFile` after construction.  Its fields are written once by the
      constructor, so the object is modelled as a value. */
  datatype PxrdFile = PxrdFile(
    path: string,
    experimentId: string,
    xraySource: string,
    sampleHolderShape: string,
    sampleHolderDiameter: Option<string>,
    otherMetadata: Option<string>)

  /** The base name without `.xyd`, split at every `_`. */
  function FileNameParts(path: string): (parts: seq<string>)
    ensures |parts| > 0
  {
    Split(ReplaceAll(BaseName(path), ".xyd", ""), "_")
  }

  /** `PXRDFile(path)`: the experiment id is the second part, the X-ray
      source the third with every `a` read as `α`, and the fourth part
      holds the sample holder shape and, after a `-`, its diameter; a fifth
      part is other metadata.  Fewer than four parts is an `IndexError`. */
  function ParseFileName(path: string): (r: Result<PxrdFile>)
    ensures r.Err? <==> |FileNameParts(path)| < 4
    ensures r.Err? ==> r.error == IndexError
    ensures r.Ok? ==> r.value.path == path && r.value.experimentId == FileNameParts(path)[1]
    ensures r.Ok? ==> 'a' !in r.value.xraySource && !Contains(r.value.sampleHolderShape, "-")
    ensures r.Ok? ==> (r.value.sampleHolderDiameter.Some? <==> Contains(FileNameParts(path)[3], "-"))
    ensures r.Ok? ==> (r.value.otherMetadata.Some? <==> |FileNameParts(path)| > 4)
  {
    var parts := FileNameParts(path);
    if |parts| < 4 then Err(IndexError)
    else
      var holder := Split(parts[3], "-");
      SplitFirst(parts[3], "-");
      ReplaceCharGone(parts[2], 'a', 'α');
      Ok(PxrdFile(
        path,
        parts[1],
        ReplaceAll(parts[2], "a", "α"),
        holder[0],
        if Contains(parts[3], "-") then Some(holder[1]) else None,
        if |parts| > 4 then Some(parts[4]) else None))
  }

  /** The sample holder piece of a file name. */
  function HolderPiece(shape: string, diameter: Option<string>): string
  {
    if diameter.Some? then shape + "-" + diameter.value else shape
  }

  /** The underscore-separated pieces of the name under which the metadata
      is stored: the X-ray source is spelt with `a` for `α`. */
  function NameParts(kind: string, f: PxrdFile): (parts: seq<string>)
    ensures |parts| == 4 + (if f.otherMetadata.Some? then 1 else 0)
  {
    [kind, f.experimentId, ReplaceAll(f.xraySource, "α", "a"), HolderPiece(f.sampleHolderShape, f.sampleHolderDiameter)]
    + (if f.otherMetadata.Some? then [f.otherMetadata.value] else [])
  }

  function FileName(kind: string, f: PxrdFile): string
  {
    Join(NameParts(kind, f), "_") + ".xyd"
  }

  /** A piece of a file name: none of the separators of the format occurs
      in it. */
  predicate Plain(s: string)
  {
    '_' !in s && '.' !in s && '/' !in s
  }

  /** The metadata a file name can carry without ambiguity. */
  predicate Storable(kind: string, f: PxrdFile)
  {
    && Plain(kind) && Plain(f.experimentId) && Plain(f.xraySource) && Plain(f.sampleHolderShape)
    && (f.sampleHolderDiameter.Some? ==> Plain(f.sampleHolderDiameter.value) && '-' !in f.sampleHolderDiameter.value)
    && (f.otherMetadata.Some? ==> Plain(f.otherMetadata.value))
    && '-' !in f.sampleHolderShape && 'a' !in f.xraySource
  }

  lemma NamePartsPlain(kind: string, f: PxrdFile)
    requires Storable(kind, f)
    ensures var parts := NameParts(kind, f);
            forall i :: 0 <= i < |parts| ==> Plain(parts[i])
  {
    PlainReplaced(f.xraySource);
  }

  /** The base name of a stored file, without `.xyd`, is the joined pieces. */
  lemma StoredName(dir: string, kind: string, f: PxrdFile)
    requires Storable(kind, f)
    ensures ReplaceAll(BaseName(dir + "/" + FileName(kind, f)), ".xyd", "") == Join(NameParts(kind, f), "_")
  {
    var parts := NameParts(kind, f);
    NamePartsPlain(kind, f);
    JoinAvoids(parts, '_', '.');
    JoinAvoids(parts, '_', '/');
    BaseNameAfterDir(dir, FileName(kind, f));
    ReplaceSuffix(Join(parts, "_"), ".xyd");
  }

  /** Parsing recovers the metadata of a file stored under its own name in
      any directory, when the pieces hold no separator, the shape and
      diameter no `-`, and the X-ray source no plain `a`. */
  lemma FileNameRoundTrip(dir: string, kind: string, f: PxrdFile)
    requires f.path == dir + "/" + FileName(kind, f)
    requires Storable(kind, f)
    ensures ParseFileName(f.path) == Ok(f)
  {
    var parts := NameParts(kind, f);
    StoredName(dir, kind, f);
    NamePartsPlain(kind, f);
    SplitOfJoin(parts, '_');
    assert FileNameParts(f.path) == parts;
    ReplaceCharBack(f.xraySource, 'α', 'a');
    HolderParts(f.sampleHolderShape, f.sampleHolderDiameter);
  }

  /** Splitting the sample holder piece gives back shape and diameter. */
  lemma HolderParts(shape: string, diameter: Option<string>)
    requires '-' !in shape && (diameter.Some? ==> '-' !in diameter.value)
    ensures var holder := HolderPiece(shape, diameter);
            Split(holder, "-")[0] == shape
            && (Contains(holder, "-") <==> diameter.Some?)
            && (diameter.Some? ==> |Split(holder, "-")| > 1 && Split(holder, "-")[1] == diameter.value)
  {
    if diameter.Some? {
      var holder := shape + "-" + diameter.value;
      assert holder == shape + ['-'] + diameter.value;
      SplitCons(shape, '-', diameter.value);
      SplitNone(diameter.value, '-');
      assert OccursAt(holder, "-", |shape|);
      ContainsSpec(holder, "-");
    } else {
      SplitNone(shape, '-');
      SplitFirst(shape, "-");
    }
  }

  lemma PlainReplaced(s: string)
    requires Plain(s)
    ensures Plain(ReplaceAll(s, "α", "a"))
    decreases |s|
  {
    if |s| > 0 {
      PlainReplaced(s[1..]);
    }
  }

  /** A character in none of the parts and other than the separator is not
      in the joined string. */
  lemma {:induction false} JoinAvoids(parts: seq<string>, sep: char, c: char)
    requires c != sep && forall i :: 0 <= i < |parts| ==> c !in parts[i]
    ensures c !in Join(parts, [sep])
  {
    if |parts| > 1 {
      JoinAvoids(parts[1..], sep, c);
    }
  }

  /** `filter_pxrd_files`: the files of the experiment in their order, or
      `None` when there are none. */
  function FilterPxrdFiles(experimentId: string, files: seq<PxrdFile>): (r: Option<seq<PxrdFile>>)
    ensures r.None? <==> forall i :: 0 <= i < |files| ==> files[i].experimentId != experimentId
    ensures r.Some? ==> r.value == Filter((f: PxrdFile) => f.experimentId == experimentId, files)
                        && |r.value| > 0
  {
    var filtered := Filter((f: PxrdFile) => f.experimentId == experimentId, files);
    FilterHead((f: PxrdFile) => f.experimentId == experimentId, files);
    if |filtered| > 0 then Some(filtered) else None
  }

  /** The files of several experiments, filtered for one of them, are the
      files of that experiment from each batch in batch order. */
  lemma FilterPxrdFilesAppend(experimentId: string, xs: seq<PxrdFile>, ys: seq<PxrdFile>)
    requires FilterPxrdFiles(experimentId, xs).Some? && FilterPxrdFiles(experimentId, ys).Some?
    ensures FilterPxrdFiles(experimentId, xs + ys)
            == Some(FilterPxrdFiles(experimentId, xs).value + FilterPxrdFiles(experimentId, ys).value)
  {
    FilterAppend((f: PxrdFile) => f.experimentId == experimentId, xs, ys);
  }

  /** Every kept file belongs to the experiment, and every file of the
      experiment is kept. */
  lemma FilterPxrdFilesMembers(experimentId: string, files: seq<PxrdFile>, f: PxrdFile)
    requires FilterPxrdFiles(experimentId, files).Some?
    ensures f in FilterPxrdFiles(experimentId, files).value <==> f in files && f.experimentId == experimentId
  {
  }
}
