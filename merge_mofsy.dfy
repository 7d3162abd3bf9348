/** `merge_mofsy_procecure_and_characterization` (`merge_mofsy.py`): every
    synthesis that has a description and a characterization with the same
    description becomes its dict with a `Characterization` key added; the
    others are skipped, and the order of the syntheses is kept. */
module MergeMofsy {
  import opened Wrappers
  import opened Json
  import opened Seqs
  import opened ProcedureSchema
  import C = CharacterizationSchema

  /** A product characterization as the merge reads it: the description of
      its metadata, if any, and its characterization. */
  datatype DescribedEntry = DescribedEntry(description: Option<string>, characterization: C.CharacterizationClass)

  /** `proc_id`: the description of a synthesis, `None` when empty. */
  function ProcId(p: SynthesisElement): (r: Option<string>)
    ensures r.Some? <==> p.metadata.description != ""
    ensures r.Some? ==> r.value == p.metadata.description
  {
    if |p.metadata.description| > 0 then Some(p.metadata.description) else None
  }

  /** `char_id`: the description of a characterization, `None` when it is
      missing or empty. */
  function CharId(c: DescribedEntry): (r: Option<string>)
    ensures r.Some? <==> c.description.Some? && c.description.value != ""
    ensures r.Some? ==> c.description == r
  {
    if c.description.Some? && |c.description.value| > 0 then c.description else None
  }

  function MatchesId(id: string): DescribedEntry -> bool
  {
    (c: DescribedEntry) => CharId(c) == Some(id)
  }

  /** The characterization the inner loop stops at for synthesis `p`, or
      `None` when `p` has no description or nothing matches. */
  function CharFor(chars: seq<DescribedEntry>, p: SynthesisElement): (r: Option<DescribedEntry>)
    ensures r.Some? ==> ProcId(p).Some? && r.value in chars && r.value.description == Some(p.metadata.description)
    ensures ProcId(p).Some? && r.None? ==> forall j :: 0 <= j < |chars| ==> chars[j].description != Some(p.metadata.description)
  {
    match ProcId(p)
    case None => None
    case Some(id) => First(MatchesId(id), chars)
  }

  /** `proc.to_dict()` with `Characterization` set to the matching
      characterization's dict. */
  function MergedEntry(p: SynthesisElement, c: DescribedEntry): (r: Json)
    ensures r.Obj? && r.fields.Keys == ElementToJson(p).fields.Keys + {"Characterization"}
    ensures r.fields["Characterization"] == C.ClassToJson(c.characterization)
    ensures forall k :: k in ElementToJson(p).fields && k != "Characterization" ==> r.fields[k] == ElementToJson(p).fields[k]
  {
    Obj(ElementToJson(p).fields["Characterization" := C.ClassToJson(c.characterization)])
  }

  /** What synthesis `p` adds to the result: one entry or none. */
  function MergedOne(chars: seq<DescribedEntry>, p: SynthesisElement): (r: seq<Json>)
    ensures |r| == if CharFor(chars, p).Some? then 1 else 0
  {
    match CharFor(chars, p)
    case None => []
    case Some(c) => [MergedEntry(p, c)]
  }

  function MergedOneOf(chars: seq<DescribedEntry>): SynthesisElement -> seq<Json>
  {
    (p: SynthesisElement) => MergedOne(chars, p)
  }

  /** The list the merge returns for the syntheses `xs`. */
  function Merged(xs: seq<SynthesisElement>, chars: seq<DescribedEntry>): seq<Json>
  {
    Concat(MergedOneOf(chars), xs)
  }

  // ---------------------------------------------------------------------
  // Properties

  /** The merge keeps, in order, exactly the syntheses that have a
      description and a matching characterization, each merged with the
      characterization it matched; so it is never longer than the input
      and every entry carries `Characterization`. */
  lemma MergedFiltered(xs: seq<SynthesisElement>, chars: seq<DescribedEntry>)
    ensures var kept := Filter(Yields(MergedOneOf(chars)), xs);
            var r := Merged(xs, chars);
            |r| == |kept| <= |xs|
            && (forall i :: 0 <= i < |kept| ==> CharFor(chars, kept[i]).Some? && r[i] == MergedEntry(kept[i], CharFor(chars, kept[i]).value))
            && (forall i :: 0 <= i < |xs| ==> (xs[i] in kept <==> CharFor(chars, xs[i]).Some?))
  {
    ConcatSingles(MergedOneOf(chars), xs);
  }

  /** A synthesis without description adds nothing. */
  lemma UndescribedSkipped(xs: seq<SynthesisElement>, p: SynthesisElement, chars: seq<DescribedEntry>)
    requires p.metadata.description == ""
    ensures Merged(xs + [p], chars) == Merged(xs, chars)
  {
    assert (xs + [p])[..|xs|] == xs;
  }

  /** A characterization whose description is missing or empty matches no
      synthesis. */
  lemma UndescribedNeverMatches(chars: seq<DescribedEntry>, p: SynthesisElement)
    requires CharFor(chars, p).Some?
    ensures CharFor(chars, p).value.description.Some? && CharFor(chars, p).value.description.value != ""
  {
  }

  /** Of several characterizations with the synthesis's description, the
      first one is merged. */
  lemma FirstMatchUsed(chars: seq<DescribedEntry>, p: SynthesisElement)
    requires CharFor(chars, p).Some?
    ensures exists j :: 0 <= j < |chars| && chars[j] == CharFor(chars, p).value
                        && forall k :: 0 <= k < j ==> chars[k].description != Some(p.metadata.description)
  {
    FirstIndex(MatchesId(p.metadata.description), chars);
  }

  /** The `Characterization` of a merged entry reads back as the
      characterization it was merged with. */
  lemma CharacterizationReadsBack(p: SynthesisElement, c: DescribedEntry)
    ensures C.ClassFromJson(MergedEntry(p, c).fields["Characterization"]) == Ok(c.characterization)
  {
    C.ClassRoundTrip(c.characterization);
  }

  // ---------------------------------------------------------------------
  // The merge as written

  /** The merge over the generated characterization entries, which have no
      `metadata` attribute: the inner loop reads `char.metadata` on the first
      entry it meets, so the first described synthesis that reaches a non-empty
      entry list raises `AttributeError`; nothing is ever merged. */
  function MergeAsWritten(xs: seq<SynthesisElement>, entries: seq<C.CharacterizationEntry>): (r: Result<seq<Json>>)
    ensures r.Err? <==> |entries| > 0 && exists i :: 0 <= i < |xs| && ProcId(xs[i]).Some?
    ensures r.Err? ==> r.error == AttributeError("metadata")
    ensures r.Ok? ==> r.value == []
  {
    if |xs| == 0 then Ok([])
    else if ProcId(xs[0]).Some? && |entries| > 0 then Err(AttributeError("metadata"))
    else
      var rest := MergeAsWritten(xs[1..], entries);
      assert forall i :: 1 <= i < |xs| ==> xs[i] == xs[1..][i - 1];
      rest
  }

  /** One described synthesis and one entry with its characterization: the
      merge as written raises, where the merge over described entries
      returns the synthesis merged with that characterization. */
  lemma AsWrittenMergeFails(p: SynthesisElement, e: C.CharacterizationEntry)
    requires p.metadata.description != ""
    ensures MergeAsWritten([p], [e]) == Err(AttributeError("metadata"))
    ensures Merged([p], [DescribedEntry(Some(p.metadata.description), e.characterization)])
            == [MergedEntry(p, DescribedEntry(Some(p.metadata.description), e.characterization))]
  {
    var d := DescribedEntry(Some(p.metadata.description), e.characterization);
    assert CharFor([d], p) == Some(d) by { FirstAt(MatchesId(p.metadata.description), [d], 0); }
    assert MergedOne([d], p) == [MergedEntry(p, d)];
    assert [p][..0] == [];
    assert Merged([p], [d]) == Merged([], [d]) + MergedOneOf([d])(p);
  }

  // ---------------------------------------------------------------------
  // The loops

  /** `merge_mofsy_procecure_and_characterization(procedure, characterization)`. */
  method MergeProcedureAndCharacterization(procedure: SynthesisProcedure, characterization: seq<DescribedEntry>)
    returns (result: seq<Json>)
    ensures result == Merged(procedure.synthesis, characterization)
  {
    var xs := procedure.synthesis;
    result := [];
    for i := 0 to |xs|
      invariant result == Merged(xs[..i], characterization)
    {
      ConcatStep(MergedOneOf(characterization), xs, i);
      var proc := xs[i];
      var procId := ProcId(proc);
      if procId.None? {
        continue;
      }
      var matching := FindCharacterization(characterization, procId.value);
      if matching.Some? {
        var procDict := ElementToJson(proc).fields;
        procDict := procDict["Characterization" := C.ClassToJson(matching.value.characterization)];
        result := result + [Obj(procDict)];
      }
    }
    assert xs[..|xs|] == xs;
  }

  /** The inner loop: the first characterization whose id is `procId`. */
  method FindCharacterization(characterization: seq<DescribedEntry>, procId: string) returns (matching: Option<DescribedEntry>)
    ensures matching == First(MatchesId(procId), characterization)
  {
    matching := None;
    var j := 0;
    while j < |characterization|
      invariant 0 <= j <= |characterization|
      invariant forall k :: 0 <= k < j ==> !MatchesId(procId)(characterization[k])
    {
      var charId := CharId(characterization[j]);
      if charId == Some(procId) {
        FirstAt(MatchesId(procId), characterization, j);
        matching := Some(characterization[j]);
        return;
      }
      j := j + 1;
    }
  }
}
