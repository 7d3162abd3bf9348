/** Read access to MOFSY documents (`formatting/mofsy_api.py`): the
    synthesis, characterization and parameter entry of an experiment id,
    the reagents of a synthesis by name or role, and the product of a
    synthesis with its mass and its PXRD files. */
module MofsyApi {
  import opened Wrappers
  import opened Seqs
  import opened ProcedureSchema
  import opened PxrdCollector
  import C = CharacterizationSchema

  // ---------------------------------------------------------------------
  // Lookup by experiment id

  function DescribedAs(id: string): SynthesisElement -> bool
  {
    (s: SynthesisElement) => s.metadata.description == id
  }

  /** `get_synthesis_by_experiment_id`: the first synthesis whose
      description is `id`, or `None`. */
  function SynthesisById(procedure: SynthesisProcedure, id: string): (r: Option<SynthesisElement>)
    ensures r.Some? ==> r.value in procedure.synthesis && r.value.metadata.description == id
    ensures r.None? <==> forall i :: 0 <= i < |procedure.synthesis| ==> procedure.synthesis[i].metadata.description != id
  {
    First(DescribedAs(id), procedure.synthesis)
  }

  function MeasuredFor(id: string): C.CharacterizationEntry -> bool
  {
    (e: C.CharacterizationEntry) => e.experimentId == id
  }

  /** `get_characterization_by_experiment_id`: the first entry with
      experiment id `id`, or `None`. */
  function CharacterizationById(characterization: C.Characterization, id: string): (r: Option<C.CharacterizationEntry>)
    ensures r.Some? ==> r.value in characterization.productCharacterization && r.value.experimentId == id
    ensures r.None? <==> forall i :: 0 <= i < |characterization.productCharacterization| ==>
                           characterization.productCharacterization[i].experimentId != id
  {
    First(MeasuredFor(id), characterization.productCharacterization)
  }

  /** The synthesis found is the first with that description: every
      synthesis before it has another one. */
  lemma SynthesisByIdFirst(procedure: SynthesisProcedure, id: string)
    requires SynthesisById(procedure, id).Some?
    ensures var xs := procedure.synthesis;
            exists i :: 0 <= i < |xs| && xs[i] == SynthesisById(procedure, id).value
                        && forall j :: 0 <= j < i ==> xs[j].metadata.description != id
  {
    FirstIndex(DescribedAs(id), procedure.synthesis);
  }

  /** The entry found is the first with that experiment id. */
  lemma CharacterizationByIdFirst(characterization: C.Characterization, id: string)
    requires CharacterizationById(characterization, id).Some?
    ensures var xs := characterization.productCharacterization;
            exists i :: 0 <= i < |xs| && xs[i] == CharacterizationById(characterization, id).value
                        && forall j :: 0 <= j < i ==> xs[j].experimentId != id
  {
    FirstIndex(MeasuredFor(id), characterization.productCharacterization);
  }

  /** `get_params_by_experiment_id`: `params.get(experiment_id, None)`. */
  function ParamsById<P>(params: map<string, P>, id: string): (r: Option<P>)
    ensures r.Some? <==> id in params
    ensures r.Some? ==> r.value == params[id]
  {
    if id in params then Some(params[id]) else None
  }

  // ---------------------------------------------------------------------
  // Reagents

  function NamedAs(name: string): ReagentElement -> bool
  {
    (r: ReagentElement) => r.name == Some(name)
  }

  /** `find_reagent_by_name`: the first reagent with that name; a reagent
      without a name never matches. */
  function ReagentByName(s: SynthesisElement, name: string): (r: Option<ReagentElement>)
    ensures r.Some? ==> r.value in s.reagents.reagent && r.value.name == Some(name)
    ensures r.None? <==> forall i :: 0 <= i < |s.reagents.reagent| ==> s.reagents.reagent[i].name != Some(name)
  {
    First(NamedAs(name), s.reagents.reagent)
  }

  function HasRole(role: Role): ReagentElement -> bool
  {
    (r: ReagentElement) => r.role == Some(role)
  }

  /** Roles are compared by their string value, which tells roles apart. */
  lemma RoleValueInjective(a: Role, b: Role)
    ensures RoleValue(a) == RoleValue(b) <==> a == b
  {
    RoleRoundTrip(a);
    RoleRoundTrip(b);
  }

  /** The loop of `find_reagents_by_role` over `xs`: reagents whose role
      has the value of `role`, in order; a reagent without a role raises
      `AttributeError` on `.value`. */
  function ReagentsWithRole(xs: seq<ReagentElement>, role: Role): (r: Result<seq<ReagentElement>>)
    ensures r.Ok? <==> forall i :: 0 <= i < |xs| ==> xs[i].role.Some?
    ensures r.Err? ==> r.error == AttributeError("value")
    ensures r.Ok? ==> r.value == Filter(HasRole(role), xs)
  {
    if |xs| == 0 then Ok([])
    else if xs[0].role.None? then Err(AttributeError("value"))
    else
      var rest :- ReagentsWithRole(xs[1..], role);
      RoleValueInjective(xs[0].role.value, role);
      Ok(if RoleValue(xs[0].role.value) == RoleValue(role) then [xs[0]] + rest else rest)
  }

  /** `find_reagents_by_role(synthesis, role)`. */
  function ReagentsByRole(s: SynthesisElement, role: Role): (r: Result<seq<ReagentElement>>)
    ensures r.Ok? ==> forall i :: 0 <= i < |r.value| ==> r.value[i] in s.reagents.reagent && r.value[i].role == Some(role)
    ensures r.Ok? ==> forall i :: 0 <= i < |s.reagents.reagent| && s.reagents.reagent[i].role == Some(role) ==>
                        s.reagents.reagent[i] in r.value
  {
    ReagentsWithRole(s.reagents.reagent, role)
  }

  /** Reagents of two lists are found list by list, in order. */
  lemma ReagentsWithRoleAppend(xs: seq<ReagentElement>, ys: seq<ReagentElement>, role: Role)
    requires ReagentsWithRole(xs, role).Ok? && ReagentsWithRole(ys, role).Ok?
    ensures ReagentsWithRole(xs + ys, role) == Ok(ReagentsWithRole(xs, role).value + ReagentsWithRole(ys, role).value)
  {
    FilterAppend(HasRole(role), xs, ys);
    assert forall i :: 0 <= i < |xs + ys| ==> (xs + ys)[i].role.Some? by {
      forall i | 0 <= i < |xs + ys|
        ensures (xs + ys)[i].role.Some?
      {
        if i >= |xs| {
          assert (xs + ys)[i] == ys[i - |xs|];
        }
      }
    }
  }

  // ---------------------------------------------------------------------
  // The product

  /** A product: its name, its mass and its PXRD files. */
  datatype Product = Product(name: string, mass: Option<C.Quantity>, pxrdFiles: seq<PxrdFile>)

  /** `synthesis.metadata.product`, or "unknown" when it is `None` or
      empty. */
  function ProductName(s: SynthesisElement): (r: string)
    ensures r == "unknown" || Some(r) == s.metadata.product
    ensures s.metadata.product.None? || s.metadata.product == Some("") ==> r == "unknown"
  {
    if s.metadata.product.Some? && |s.metadata.product.value| > 0 then s.metadata.product.value else "unknown"
  }

  /** `find_product_mass`: the weight of the first weighing.  A weighing
      always has a weight, which as an object is truthy, so the filter of
      the source keeps every weighing. */
  function ProductMass(e: C.CharacterizationEntry): (r: Option<C.Quantity>)
    ensures r.None? <==> |e.characterization.weight| == 0
    ensures r.Some? ==> r.value == e.characterization.weight[0].weight
  {
    if |e.characterization.weight| > 0 then Some(e.characterization.weight[0].weight) else None
  }

  /** A PXRD entry is read as a file when its path is not empty and the
      characterization has an experiment id; the X-ray source and the
      sample holder are objects and always truthy. */
  function Listed(e: C.CharacterizationEntry): C.Pxrd -> bool
  {
    (p: C.Pxrd) => |p.relativeFilePath| > 0 && |e.experimentId| > 0
  }

  function ParsePxrd(p: C.Pxrd): (r: Result<PxrdFile>)
    ensures r.Ok? <==> |FileNameParts(p.relativeFilePath)| >= 4
    ensures r.Ok? ==> r.value.path == p.relativeFilePath
  {
    ParseFileName(p.relativeFilePath)
  }

  /** `find_corresponding_pxrd_files`: every listed entry becomes a
      `PXRDFile`, whose construction raises `IndexError` on a file name of
      fewer than four parts; without an experiment id there are none. */
  function PxrdFiles(e: C.CharacterizationEntry): (r: Result<seq<PxrdFile>>)
    ensures var listed := Filter(Listed(e), e.characterization.pxrd);
            r.Ok? ==> |r.value| == |listed|
                      && forall i :: 0 <= i < |listed| ==> r.value[i].path == listed[i].relativeFilePath
    ensures e.experimentId == "" ==> r == Ok([])
  {
    MapResult(ParsePxrd, Filter(Listed(e), e.characterization.pxrd))
  }

  /** A path `PXRDFile` can parse: at least four parts. */
  predicate HasFourParts(p: C.Pxrd)
  {
    |FileNameParts(p.relativeFilePath)| >= 4
  }

  predicate AllHaveFourParts(ps: seq<C.Pxrd>)
  {
    forall i :: 0 <= i < |ps| ==> HasFourParts(ps[i])
  }

  /** The files are read without exception exactly when every listed path
      has at least four parts. */
  lemma PxrdFilesOk(e: C.CharacterizationEntry)
    ensures PxrdFiles(e).Ok? <==> AllHaveFourParts(Filter(Listed(e), e.characterization.pxrd))
  {
    var listed := Filter(Listed(e), e.characterization.pxrd);
    assert PxrdFiles(e) == MapResult(ParsePxrd, listed);
    ParsedIff(listed);
  }

  lemma ParsedIff(ps: seq<C.Pxrd>)
    ensures MapResult(ParsePxrd, ps).Ok? <==> AllHaveFourParts(ps)
  {
    if MapResult(ParsePxrd, ps).Ok? {
      ParsedHaveFourParts(ps);
    } else {
      var i := FailedHasFewerParts(ps);
    }
  }

  lemma ParsedHaveFourParts(ps: seq<C.Pxrd>)
    requires MapResult(ParsePxrd, ps).Ok?
    ensures forall i :: 0 <= i < |ps| ==> HasFourParts(ps[i])
  {
    forall i | 0 <= i < |ps|
      ensures HasFourParts(ps[i])
    {
      assert ParsePxrd(ps[i]).Ok?;
    }
  }

  lemma FailedHasFewerParts(ps: seq<C.Pxrd>) returns (i: nat)
    requires MapResult(ParsePxrd, ps).Err?
    ensures i < |ps| && !HasFourParts(ps[i])
  {
    MapResultFirstError(ParsePxrd, ps);
    i :| 0 <= i < |ps| && ParsePxrd(ps[i]) == Err(MapResult(ParsePxrd, ps).error);
  }

  /** `find_product(synthesis, product_characterization)`: the constructed
      product; the source's `None` result never occurs, and an exception
      of the PXRD files propagates. */
  function FindProduct(s: SynthesisElement, e: C.CharacterizationEntry): (r: Result<Product>)
    ensures r.Ok? <==> PxrdFiles(e).Ok?
    ensures r.Ok? ==> r.value == Product(ProductName(s), ProductMass(e), PxrdFiles(e).value)
  {
    var files :- PxrdFiles(e);
    Ok(Product(ProductName(s), ProductMass(e), files))
  }
}
