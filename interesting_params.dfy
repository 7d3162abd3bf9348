/** `extract_interesting_params_for_mocof_1`
    (`fairsynthesis_data_model/extract_interesting_params.py`): for every
    synthesis of a MOCOF-1 procedure, a flat table of the parameters a
    study of the series looks at (monomers, water, acid, additives, up to
    three solvents, vessel, degassing, temperature and duration, workup),
    keyed by the experiment's description.

    The searches `next((... for ... if ...), none_default)` fall back on
    the string "none", which is truthy, so as written a failed search goes
    on to read an attribute of that string and raises `AttributeError`;
    the `else` branches beside them are reached only with the fallback
    `None` used for water and the other additives.  The slot loop for
    solvents without a known InChI has no `break`, so the first such
    solvent takes every free slot among 1 and 2.  `Variant` selects the
    code as written or as evidently intended (fallback `None`, one slot
    per solvent). */
module InterestingParams {
  import opened Wrappers
  import opened Strings
  import opened Seqs
  import opened ProcedureSchema
  import opened ParamTable


  datatype Variant = AsWritten | Intended

  /** The outcome of `next(gen, none_default)` followed by an attribute
      read: a match is the match; no match yields, as written, the truthy
      string "none", whose `attribute` does not exist, and as intended
      `None`, which the `if` skips. */
  function Pick<T>(v: Variant, found: Option<T>, attribute: string): (r: Result<Option<T>>)
    ensures r.Ok? ==> r.value == found
    ensures r.Err? <==> found.None? && v == AsWritten
  {
    if found.Some? then Ok(found)
    else if v == AsWritten then Err(AttributeError(attribute))
    else Ok(None)
  }

  // ---------------------------------------------------------------------
  // Step searches

  datatype Part = Prep | Reaction | Workup

  /** `synthesis.procedure.<part>.step`: a procedure or a section that is
      not an object has no such attribute. */
  function StepsOf(procedure: Loose<ProcedureSections>, part: Part): Result<seq<Loose<StepEntry>>>
  {
    if !procedure.LObj? then
      Err(AttributeError(match part case Prep => "prep" case Reaction => "reaction" case Workup => "workup"))
    else
      var section := match part
        case Prep => procedure.obj.prep
        case Reaction => procedure.obj.reaction
        case Workup => procedure.obj.workup;
      if section.LObj? then Ok(section.obj.step) else Err(AttributeError("step"))
  }

  /** The generator over the steps, consumed up to its first match: a step
      that is not an object, met before the match, has no `attribute`. */
  function FindStep(p: StepEntry -> bool, steps: seq<Loose<StepEntry>>, attribute: string): (r: Result<Option<StepEntry>>)
    ensures r.Ok? && r.value.Some? ==> p(r.value.value) && LObj(r.value.value) in steps
    decreases |steps|
  {
    if |steps| == 0 then Ok(None)
    else if !steps[0].LObj? then Err(AttributeError(attribute))
    else if p(steps[0].obj) then Ok(Some(steps[0].obj))
    else FindStep(p, steps[1..], attribute)
  }

  /** Over steps that are all objects the search succeeds, and finds a
      step exactly when one satisfies `p`. */
  lemma {:induction false} FindStepObjects(p: StepEntry -> bool, steps: seq<Loose<StepEntry>>, attribute: string)
    requires forall i :: 0 <= i < |steps| ==> steps[i].LObj?
    ensures FindStep(p, steps, attribute).Ok?
    ensures FindStep(p, steps, attribute).value.Some? <==> exists i :: 0 <= i < |steps| && p(steps[i].obj)
    decreases |steps|
  {
    if |steps| > 0 && !p(steps[0].obj) {
      FindStepObjects(p, steps[1..], attribute);
      if exists i :: 0 <= i < |steps| && p(steps[i].obj) {
        var i :| 0 <= i < |steps| && p(steps[i].obj);
        assert steps[1..][i - 1] == steps[i];
      }
    }
  }

  function FindIn(procedure: Loose<ProcedureSections>, part: Part, p: StepEntry -> bool, attribute: string): Result<Option<StepEntry>>
  {
    var steps :- StepsOf(procedure, part);
    FindStep(p, steps, attribute)
  }

  function ReagentIs(name: Option<string>): StepEntry -> bool { (st: StepEntry) => st.reagent == name }

  function TypeIs(t: XmlType): StepEntry -> bool { (st: StepEntry) => st.xmlType == t }

  function WashWith(solvents: set<Solvent>): StepEntry -> bool
  {
    (st: StepEntry) => st.xmlType == WashSolid && st.solvent.Some? && st.solvent.value in solvents
  }

  /** `add_step.amount and add_step.amount.unit == unit`. */
  predicate InUnit(st: StepEntry, unit: AmountUnit)
  {
    st.amount.Some? && st.amount.value.unit == Some(unit)
  }

  /** The amount in µmol of the reagent called `name`: the amount of its
      first prep step when that is in micromoles, else -1.0. */
  function UmolAmount(v: Variant, procedure: Loose<ProcedureSections>, name: Option<string>): (r: Result<real>)
    ensures r.Ok? ==> r.value == -1.0 || exists st :: InUnit(st, Micromole) && st.reagent == name && r.value == st.amount.value.value
  {
    var found :- FindIn(procedure, Prep, ReagentIs(name), "reagent");
    var step :- Pick(v, found, "amount");
    Ok(if step.Some? && InUnit(step.value, Micromole) then step.value.amount.value.value else -1.0)
  }

  // ---------------------------------------------------------------------
  // Reagent searches and InChI pieces

  const WaterInchi := "InChI=1S/H2O/h1H2"

  predicate Truthy(s: Option<string>) { s.Some? && |s.value| > 0 }

  predicate IsAminoporphyrin(r: ReagentElement) { Truthy(r.inchi) && Contains(r.inchi.value, "Co") }

  predicate IsAldehyde(r: ReagentElement)
  {
    r.role == Some(Substrate) && (!Truthy(r.inchi) || !Contains(r.inchi.value, "Co"))
  }

  predicate IsWater(r: ReagentElement) { r.inchi == Some(WaterInchi) }

  predicate IsAcid(r: ReagentElement) { r.role == Some(Acid) }

  predicate IsOtherAdditive(r: ReagentElement)
  {
    (r.role == Some(Catalyst) || r.role == Some(Reagent)) && r.inchi != Some(WaterInchi)
  }

  predicate IsSolvent(r: ReagentElement) { r.role == Some(SolventRole) }

  /** `inchi.split('/')[1]`. */
  function SecondPiece(inchi: Option<string>): (r: Result<string>)
    ensures inchi.None? ==> r == Err(AttributeError("split"))
    ensures inchi.Some? ==> (r.Ok? <==> Contains(inchi.value, "/"))
  {
    if inchi.None? then Err(AttributeError("split"))
    else
      var pieces := Split(inchi.value, "/");
      SplitFirst(inchi.value, "/");
      if |pieces| > 1 then Ok(pieces[1]) else Err(IndexError)
  }

  /** The sum-formula layer of a standard InChI, any other text as is. */
  function Structure(inchi: Option<string>): (r: Result<string>)
    ensures inchi.Some? && !StartsWith(inchi.value, "InChI=1S/") ==> r == Ok(inchi.value)
    ensures inchi.None? ==> r.Err?
  {
    if inchi.None? then Err(AttributeError("startswith"))
    else if StartsWith(inchi.value, "InChI=1S/") then SecondPiece(inchi)
    else Ok(inchi.value)
  }

  // ---------------------------------------------------------------------
  // The parameter groups

  /** The first reagent whose InChI contains "Co". */
  function AminoGroup(v: Variant, s: SynthesisElement): Result<Monomer>
  {
    var found :- Pick(v, First(IsAminoporphyrin, s.reagents.reagent), "inchi");
    if found.None? then Ok(Monomer("unknown", -1.0))
    else
      var structure :- Structure(found.value.inchi);
      var amount :- UmolAmount(v, s.procedure, found.value.name);
      Ok(Monomer(structure, amount))
  }

  /** The first substrate whose InChI lacks "Co"; its structure is the
      second piece of its InChI, without the check of the prefix. */
  function AldehydeGroup(v: Variant, s: SynthesisElement): Result<Monomer>
  {
    var found :- Pick(v, First(IsAldehyde, s.reagents.reagent), "inchi");
    if found.None? then Ok(Monomer("unknown", -1.0))
    else
      var structure :- SecondPiece(found.value.inchi);
      var amount :- UmolAmount(v, s.procedure, found.value.name);
      Ok(Monomer(structure, amount))
  }

  /** The water amount: 0.0 without a water reagent (this search falls
      back on `None`). */
  function WaterGroup(v: Variant, s: SynthesisElement): Result<real>
  {
    var found := First(IsWater, s.reagents.reagent);
    if found.None? then Ok(0.0) else UmolAmount(v, s.procedure, found.value.name)
  }

  /** Name and pKa (in DMSO) of the known acids, by sum formula. */
  const AcidTable: map<string, (string, real)> := map[
    "C6H4N2O5" := ("2,4-Dinitrophenol", 5.1),
    "C7H6O2" := ("Benzoic acid", 11.0),
    "C6H5BrO" := ("m-Bromophenol", 15.0),
    "C7H5NO" := ("p-Cyanophenol", 13.2),
    "C5H10O2" := ("Pivalic acid", 13.0),
    "C6HF5O" := ("Pentafluorophenol", 5.55),
    "unknown" := ("unknown", 31.4),
    "C2HF3O2" := ("Trifluoroacetic acid", 3.45),
    "C7H4N2O6" := ("Dinitrobenzoic acid", 7.0),
    "C6H4ClNO3" := ("4-Chloro-2-nitrophenol", 8.0),
    "C6H5NO3" := ("p-Nitrophenol", 10.8),
    "C7H5NO4" := ("p-Nitrobenzoic acid", 9.1),
    "C2H4O2" := ("Acetic acid", 12.6),
    "3CHF3O3S.Sc" := ("Scandium triflate", 20.0)]

  /** `get_acid_name_and_pKa`: the table entry, or ("unknown", -100.0). */
  function AcidOf(structure: string): (r: (string, real))
    ensures structure in AcidTable ==> r == AcidTable[structure]
    ensures structure !in AcidTable ==> r == ("unknown", -100.0)
  {
    if structure in AcidTable then AcidTable[structure] else ("unknown", -100.0)
  }

  function AcidGroup(v: Variant, s: SynthesisElement): Result<AcidInfo>
  {
    var found :- Pick(v, First(IsAcid, s.reagents.reagent), "inchi");
    if found.None? then Ok(AcidInfo("unknown", 31.4, -1.0))
    else
      var structure :- Structure(found.value.inchi);
      var acid := AcidOf(structure);
      var amount :- UmolAmount(v, s.procedure, found.value.name);
      Ok(AcidInfo(acid.0, acid.1, amount))
  }

  /** The first catalyst or reagent that is not water, or "none" (this
      search falls back on `None`). */
  function OtherAdditive(s: SynthesisElement): Result<string>
  {
    var found := First(IsOtherAdditive, s.reagents.reagent);
    if found.None? then Ok("none") else Structure(found.value.inchi)
  }

  // ---------------------------------------------------------------------
  // Solvent slots

  /** Every key of `p` belongs to a solvent slot. */
  predicate SlotsOnly(p: Params) { forall k :: k in p ==> k.SolventName? || k.SolventVolume? }

  const DioxaneInchi := "InChI=1S/C4H8O2/c1-2-6-4-3-5-1/h1-4H2"

  /** Slot and name of the known solvents, by InChI. */
  const SolventTable: map<string, (Slot, string)> := map[
    DioxaneInchi := (1, "1,4-dioxane"),
    "InChI=1S/C6H5NO2/c8-7(9)6-4-2-1-3-5-6/h1-5H" := (2, "nitrobenzene"),
    "InChI=1S/C6H4Cl2/c7-5-3-1-2-4-6(5)8/h1-4H" := (2, "o-dichlorobenzene"),
    "InChI=1S/C9H12/c1-7-4-8(2)6-9(3)5-7/h4-6H,1-3H3" := (2, "mesitylene"),
    "InChI=1S/C6H4N2O4/c9-7(10)5-2-1-3-6(4-5)8(11)12/h1-4H" := (3, "m-dinitrobenzene")]

  /** The InChI of a solvent after the repair of dioxane recorded with
      the text "None" as its InChI. */
  function SolventInchi(r: ReagentElement): (i: Option<string>)
    ensures r.inchi == Some("None") && r.name == Some("C4H8O2") ==> i.Some? && i.value in SolventTable && SolventTable[i.value] == (1, "1,4-dioxane")
    ensures !(r.inchi == Some("None") && r.name == Some("C4H8O2")) ==> i == r.inchi
  {
    if r.inchi == Some("None") && r.name == Some("C4H8O2") then Some(DioxaneInchi) else r.inchi
  }

  function NameParam(name: Option<string>): Param { if name.Some? then PStr(name.value) else PNull }

  /** `slot`'s name is `name`; its volume is that of the first prep step
      adding `name`, when that is in microlitres. */
  function Assigned(v: Variant, procedure: Loose<ProcedureSections>, p: Params, n: Slot, slotName: Param, name: Option<string>): (r: Result<Params>)
    ensures r.Ok? ==> SolventName(n) in r.value && r.value[SolventName(n)] == slotName
    ensures r.Ok? ==> forall k :: k in r.value && k != SolventName(n) && k != SolventVolume(n) ==> k in p && r.value[k] == p[k]
    ensures r.Ok? ==> forall k :: k in p && k != SolventName(n) && k != SolventVolume(n) ==> k in r.value
  {
    var named := p[SolventName(n) := slotName];
    var found :- FindIn(procedure, Prep, ReagentIs(name), "reagent");
    var step :- Pick(v, found, "amount");
    Ok(if step.Some? && InUnit(step.value, Microlitre) then named[SolventVolume(n) := PNum(step.value.amount.value.value)] else named)
  }

  /** Solvents seen so far: the slots filled from the table, and the names
      of solvents the table does not know, in order. */
  datatype SolventState = SolventState(params: Params, others: seq<Option<string>>)

  function SolventStep(v: Variant, procedure: Loose<ProcedureSections>, st: SolventState, r: ReagentElement): Result<SolventState>
  {
    var inchi := SolventInchi(r);
    if inchi.Some? && inchi.value in SolventTable then
      var entry := SolventTable[inchi.value];
      var p :- Assigned(v, procedure, st.params, entry.0, PStr(entry.1), r.name);
      Ok(SolventState(p, st.others))
    else Ok(SolventState(st.params, st.others + [r.name]))
  }

  function SolventStepWith(v: Variant, procedure: Loose<ProcedureSections>): (SolventState, ReagentElement) -> Result<SolventState>
  {
    (st, r) => SolventStep(v, procedure, st, r)
  }

  /** Slot `n` for `name` if it is still free. */
  function IntoFree(v: Variant, procedure: Loose<ProcedureSections>, p: Params, n: Slot, name: Option<string>): (r: Result<Params>)
    ensures SolventName(n) in p ==> r == Ok(p)
  {
    if SolventName(n) in p then Ok(p) else Assigned(v, procedure, p, n, NameParam(name), name)
  }

  /** One solvent the table does not know.  As written every free slot
      among 1 and 2 receives it; as intended only the first free one. */
  function PlaceOther(v: Variant, procedure: Loose<ProcedureSections>, p: Params, name: Option<string>): Result<Params>
  {
    if v == AsWritten then
      var p1 :- IntoFree(v, procedure, p, 1, name);
      IntoFree(v, procedure, p1, 2, name)
    else if SolventName(1) !in p then IntoFree(v, procedure, p, 1, name)
    else IntoFree(v, procedure, p, 2, name)
  }

  function PlaceOtherWith(v: Variant, procedure: Loose<ProcedureSections>): (Params, Option<string>) -> Result<Params>
  {
    (p, name) => PlaceOther(v, procedure, p, name)
  }

  function FillSlot(p: Params, n: Slot): (r: Params)
    ensures SolventName(n) in r
    ensures SolventName(n) !in p ==> r[SolventName(n)] == PStr("none") && SolventVolume(n) in r && r[SolventVolume(n)] == PNum(0.0)
    ensures SolventName(n) in p ==> r == p
  {
    if SolventName(n) in p then p else p[SolventName(n) := PStr("none")][SolventVolume(n) := PNum(0.0)]
  }

  /** Filling a slot keeps every other entry and adds only that slot's
      entries. */
  lemma FillSlotFrame(p: Params, n: Slot)
    ensures forall k :: k in p && k != SolventVolume(n) ==> k in FillSlot(p, n) && FillSlot(p, n)[k] == p[k]
    ensures forall k :: k in FillSlot(p, n) ==> k in p || k == SolventName(n) || k == SolventVolume(n)
  {
  }

  /** The closing loop: a slot without a name gets "none" and 0.0. */
  function FilledSlots(p: Params): (r: Params)
  {
    FillSlot(FillSlot(FillSlot(p, 1), 2), 3)
  }

  /** The loop over the solvent reagents. */
  function KnownSolvents(v: Variant, s: SynthesisElement): Result<SolventState>
  {
    FoldResult(SolventStepWith(v, s.procedure), SolventState(map[], []), Filter(IsSolvent, s.reagents.reagent))
  }

  /** The loop over the solvents the table does not know. */
  function PlacedOthers(v: Variant, procedure: Loose<ProcedureSections>, st: SolventState): Result<Params>
  {
    FoldResult(PlaceOtherWith(v, procedure), st.params, st.others)
  }

  function SolventParams(v: Variant, s: SynthesisElement): Result<Params>
  {
    var known :- KnownSolvents(v, s);
    var placed :- PlacedOthers(v, s.procedure, known);
    Ok(FilledSlots(placed))
  }

  // ---------------------------------------------------------------------
  // Vessel, degassing, heating, workup

  predicate HasType(c: ComponentElement) { Truthy(c.kind) }

  /** The type of the first component that has one, when the synthesis
      lists components. */
  function VesselGroup(v: Variant, s: SynthesisElement): Result<Option<string>>
  {
    if s.hardware.Some? && s.hardware.value.component.Some? && |s.hardware.value.component.value| > 0 then
      var c :- Pick(v, First(HasType, s.hardware.value.component.value), "type");
      Ok(if c.Some? then Some(c.value.kind.value) else None)
    else Ok(None)
  }

  function DegassingGroup(s: SynthesisElement): Result<bool>
  {
    var found :- FindIn(s.procedure, Prep, TypeIs(EvacuateAndRefill), "xml_type");
    Ok(found.Some?)
  }

  /** Temperature and duration of the first reaction HeatChill step; each
      must be in degrees Celsius and hours. */
  function HeatingGroup(v: Variant, s: SynthesisElement): Result<Heating>
  {
    var found :- FindIn(s.procedure, Reaction, TypeIs(HeatChill), "xml_type");
    var step :- Pick(v, found, "temp");
    if step.None? then Ok(Heating(None, None))
    else
      var st := step.value;
      if st.temp.Some? && st.temp.value.unit != Some(TempCelsius) then Err(AssertionError)
      else if st.time.Some? && st.time.value.unit != Some(Hour) then Err(AssertionError)
      else
        Ok(Heating(if st.temp.Some? then Some(st.temp.value.value) else None,
                   if st.time.Some? then Some(st.time.value.value) else None))
  }

  /** Methanol in the scCO2 activation is looked for only once an
      activation was found. */
  function WorkupGroup(s: SynthesisElement): (r: Result<WorkupFlags>)
    ensures r.Ok? && r.value.meohInScCO2 ==> r.value.withScCO2
  {
    var nacl :- FindIn(s.procedure, Workup, WashWith({NaClAq}), "xml_type");
    var scco2 :- FindIn(s.procedure, Workup, WashWith({ScCO2, MeOHScCO2}), "xml_type");
    var meoh :- if scco2.Some? then FindIn(s.procedure, Workup, WashWith({MeOHScCO2}), "xml_type") else Ok(None);
    var dry :- FindIn(s.procedure, Workup, TypeIs(Dry), "xml_type");
    Ok(WorkupFlags(nacl.Some?, scco2.Some?, meoh.Some?, dry.Some?))
  }

  // ---------------------------------------------------------------------
  // One experiment, all experiments

  /** What each group's computation gives, exception or value. */
  datatype Outcomes = Outcomes(
    amino: Result<Monomer>, aldehyde: Result<Monomer>, water: Result<real>, acid: Result<AcidInfo>,
    other: Result<string>, solvents: Result<Params>, vessel: Result<Option<string>>,
    degassing: Result<bool>, heating: Result<Heating>, workup: Result<WorkupFlags>)

  function OutcomesOf(v: Variant, s: SynthesisElement): Outcomes
  {
    Outcomes(AminoGroup(v, s), AldehydeGroup(v, s), WaterGroup(v, s), AcidGroup(v, s), OtherAdditive(s),
             SolventParams(v, s), VesselGroup(v, s), DegassingGroup(s), HeatingGroup(v, s), WorkupGroup(s))
  }

  /** The groups in order: the first that raises stops the extraction. */
  function Combined(o: Outcomes): Result<Groups>
  {
    var amino :- o.amino;
    var aldehyde :- o.aldehyde;
    var water :- o.water;
    var acid :- o.acid;
    var other :- o.other;
    var solvents :- o.solvents;
    var vessel :- o.vessel;
    var degassing :- o.degassing;
    var heating :- o.heating;
    var workup :- o.workup;
    Ok(Groups(amino, aldehyde, water, acid, other, solvents, vessel, degassing, heating, workup))
  }

  function GroupsOf(v: Variant, s: SynthesisElement): Result<Groups>
  {
    Combined(OutcomesOf(v, s))
  }

  /** The `params` dict of one synthesis. */
  function ExperimentParams(v: Variant, s: SynthesisElement): Result<Params>
  {
    var g :- GroupsOf(v, s);
    Ok(Table(g))
  }

  function ExperimentId(s: SynthesisElement): string
  {
    if |s.metadata.description| > 0 then s.metadata.description else "unknown"
  }

  function ParamsOf(v: Variant): SynthesisElement -> Result<Params>
  {
    (s: SynthesisElement) => ExperimentParams(v, s)
  }

  /** `extract_interesting_params_for_mocof_1(procedure, characterization)`;
      the characterization is not read. */
  function Extracted(v: Variant, procedure: SynthesisProcedure): Result<map<string, Params>>
  {
    FoldResult(KeyedStep(ParamsOf(v), ExperimentId), map[], procedure.synthesis)
  }

  // ---------------------------------------------------------------------
  // Properties

  /** The solvent searches only write solvent slots. */
  lemma {:induction false} KnownSolventsSlotsOnly(v: Variant, procedure: Loose<ProcedureSections>, xs: seq<ReagentElement>)
    ensures var r := FoldResult(SolventStepWith(v, procedure), SolventState(map[], []), xs);
            r.Ok? ==> SlotsOnly(r.value.params)
  {
    if |xs| > 0 {
      KnownSolventsSlotsOnly(v, procedure, xs[..|xs| - 1]);
    }
  }

  lemma {:induction false} OthersSlotsOnly(v: Variant, procedure: Loose<ProcedureSections>, p: Params, xs: seq<Option<string>>)
    requires SlotsOnly(p)
    ensures var r := FoldResult(PlaceOtherWith(v, procedure), p, xs);
            r.Ok? ==> SlotsOnly(r.value)
  {
    if |xs| > 0 {
      OthersSlotsOnly(v, procedure, p, xs[..|xs| - 1]);
      var prev := FoldResult(PlaceOtherWith(v, procedure), p, xs[..|xs| - 1]);
      if prev.Ok? {
        PlaceOtherSlotsOnly(v, procedure, prev.value, xs[|xs| - 1]);
      }
    }
  }

  /** Placing one unknown solvent adds only slot entries. */
  lemma PlaceOtherSlotsOnly(v: Variant, procedure: Loose<ProcedureSections>, p: Params, name: Option<string>)
    requires SlotsOnly(p)
    ensures var r := PlaceOther(v, procedure, p, name);
            r.Ok? ==> SlotsOnly(r.value)
  {
    IntoFreeSlotsOnly(v, procedure, p, 1, name);
    IntoFreeSlotsOnly(v, procedure, p, 2, name);
    var p1 := IntoFree(v, procedure, p, 1, name);
    if p1.Ok? {
      IntoFreeSlotsOnly(v, procedure, p1.value, 2, name);
    }
  }

  lemma IntoFreeSlotsOnly(v: Variant, procedure: Loose<ProcedureSections>, p: Params, n: Slot, name: Option<string>)
    requires SlotsOnly(p)
    ensures var r := IntoFree(v, procedure, p, n, name);
            r.Ok? ==> SlotsOnly(r.value)
  {
  }

  /** The solvent group holds solvent slots only, and names all three. */
  lemma SolventParamsSpec(v: Variant, s: SynthesisElement)
    requires SolventParams(v, s).Ok?
    ensures SlotsOnly(SolventParams(v, s).value)
    ensures forall n: Slot :: SolventName(n) in SolventParams(v, s).value
  {
    var known := KnownSolvents(v, s);
    KnownSolventsSlotsOnly(v, s.procedure, Filter(IsSolvent, s.reagents.reagent));
    OthersSlotsOnly(v, s.procedure, known.value.params, known.value.others);
    FilledSlotsOnly(PlacedOthers(v, s.procedure, known.value).value);
  }

  lemma FilledSlotsOnly(p: Params)
    requires SlotsOnly(p)
    ensures SlotsOnly(FilledSlots(p))
    ensures forall n: Slot :: SolventName(n) in FilledSlots(p)
  {
  }

  /** The closing loop names every slot, gives a slot without a name
      "none" and 0.0, and keeps every slot that has one. */
  lemma FilledSlotsSpec(p: Params, n: Slot)
    ensures FilledAt(p, FilledSlots(p), n)
  {
    var p1 := FillSlot(p, 1);
    var p2 := FillSlot(p1, 2);
    var p3 := FillSlot(p2, 3);
    if n == 1 {
      FillSlotOwn(p, 1);
      FillOtherSlot(p1, 2, 1);
      FillOtherSlot(p2, 3, 1);
      KeepFilled(p, p1, p2, 1);
      KeepFilled(p, p2, p3, 1);
    } else if n == 2 {
      FillOtherSlot(p, 1, 2);
      FillSlotOwn(p1, 2);
      ShiftFilled(p, p1, p2, 2);
      FillOtherSlot(p2, 3, 2);
      KeepFilled(p, p2, p3, 2);
    } else {
      FillOtherSlot(p, 1, 3);
      FillOtherSlot(p1, 2, 3);
      FillSlotOwn(p2, 3);
      ShiftFilled(p1, p2, p3, 3);
      ShiftFilled(p, p1, p3, 3);
    }
  }

  /** Slot `n` of `r` is slot `n` of `p` filled: named, "none" with 0.0
      when `p` has no name there, and otherwise as in `p`. */
  predicate FilledAt(p: Params, r: Params, n: Slot)
  {
    SolventName(n) in r
    && (SolventName(n) !in p ==> r[SolventName(n)] == PStr("none") && SolventVolume(n) in r && r[SolventVolume(n)] == PNum(0.0))
    && (SolventName(n) in p ==> r[SolventName(n)] == p[SolventName(n)])
    && (SolventName(n) in p && SolventVolume(n) in p ==> SolventVolume(n) in r && r[SolventVolume(n)] == p[SolventVolume(n)])
    && (SolventName(n) in p && SolventVolume(n) !in p ==> SolventVolume(n) !in r)
  }

  lemma FillSlotOwn(p: Params, n: Slot)
    ensures FilledAt(p, FillSlot(p, n), n)
  {
  }

  lemma KeepFilled(p: Params, q: Params, r: Params, n: Slot)
    requires FilledAt(p, q, n) && SameSlot(q, r, n)
    ensures FilledAt(p, r, n)
  {
  }

  lemma ShiftFilled(p: Params, q: Params, r: Params, n: Slot)
    requires SameSlot(p, q, n) && FilledAt(q, r, n)
    ensures FilledAt(p, r, n)
  {
  }

  /** `p` and `q` agree on the name and volume entries of slot `n`. */
  predicate SameSlot(p: Params, q: Params, n: Slot)
  {
    (SolventName(n) in p <==> SolventName(n) in q)
    && (SolventName(n) in p ==> p[SolventName(n)] == q[SolventName(n)])
    && (SolventVolume(n) in p <==> SolventVolume(n) in q)
    && (SolventVolume(n) in p ==> p[SolventVolume(n)] == q[SolventVolume(n)])
  }

  /** Filling slot `m` leaves every other slot as it was. */
  lemma FillOtherSlot(p: Params, m: Slot, n: Slot)
    requires m != n
    ensures SameSlot(p, FillSlot(p, m), n)
  {
  }

  /** A successful extraction's table is built from the groups. */
  lemma TableOfGroups(v: Variant, s: SynthesisElement)
    requires ExperimentParams(v, s).Ok?
    ensures GroupsOf(v, s).Ok? && ExperimentParams(v, s).value == Table(GroupsOf(v, s).value)
  {
  }

  lemma CombinedSpec(o: Outcomes)
    requires Combined(o).Ok?
    ensures var g := Combined(o).value;
            o.amino == Ok(g.amino) && o.aldehyde == Ok(g.aldehyde) && o.water == Ok(g.water)
            && o.acid == Ok(g.acid) && o.other == Ok(g.other) && o.solvents == Ok(g.solvents)
            && o.vessel == Ok(g.vessel) && o.degassing == Ok(g.degassing)
            && o.heating == Ok(g.heating) && o.workup == Ok(g.workup)
  {
  }

  /** The table's entries, one per group value. */
  lemma GroupsOfSpec(v: Variant, s: SynthesisElement)
    requires GroupsOf(v, s).Ok?
    ensures var g := GroupsOf(v, s).value;
            AminoGroup(v, s) == Ok(g.amino) && AldehydeGroup(v, s) == Ok(g.aldehyde)
            && WaterGroup(v, s) == Ok(g.water) && AcidGroup(v, s) == Ok(g.acid)
            && SolventParams(v, s) == Ok(g.solvents) && DegassingGroup(s) == Ok(g.degassing)
            && WorkupGroup(s) == Ok(g.workup)
  {
    CombinedSpec(OutcomesOf(v, s));
  }

  /** Solvent slots 1 to 3 are always named in an experiment's table. */
  lemma SolventSlotsNamed(v: Variant, s: SynthesisElement, n: Slot)
    requires ExperimentParams(v, s).Ok?
    ensures SolventName(n) in ExperimentParams(v, s).value
  {
    TableOfGroups(v, s);
    GroupsOfSpec(v, s);
    TableSlots(GroupsOf(v, s).value);
    SolventParamsSpec(v, s);
  }

  /** Without a water reagent the water amount is 0.0. */
  lemma WaterAbsent(v: Variant, s: SynthesisElement)
    requires ExperimentParams(v, s).Ok?
    requires forall r :: r in s.reagents.reagent ==> !IsWater(r)
    ensures var t := ExperimentParams(v, s).value;
            WaterAmount in t && t[WaterAmount] == PNum(0.0)
  {
    TableOfGroups(v, s);
    GroupsOfSpec(v, s);
    TableMonomers(GroupsOf(v, s).value);
  }

  /** A water reagent whose first prep step has no amount in micromoles
      gives -1.0. */
  lemma WaterNotInMicromoles(v: Variant, s: SynthesisElement, w: ReagentElement, st: StepEntry)
    requires ExperimentParams(v, s).Ok?
    requires First(IsWater, s.reagents.reagent) == Some(w)
    requires FindIn(s.procedure, Prep, ReagentIs(w.name), "reagent") == Ok(Some(st)) && !InUnit(st, Micromole)
    ensures var t := ExperimentParams(v, s).value;
            WaterAmount in t && t[WaterAmount] == PNum(-1.0)
  {
    TableOfGroups(v, s);
    GroupsOfSpec(v, s);
    TableMonomers(GroupsOf(v, s).value);
  }

  /** As written, a reagent found without any prep step adding it makes
      the extraction fail; as intended its amount is -1.0. */
  lemma MissingStepAmount(procedure: Loose<ProcedureSections>, name: Option<string>)
    requires StepsOf(procedure, Prep).Ok?
    requires forall i :: 0 <= i < |StepsOf(procedure, Prep).value| ==> StepsOf(procedure, Prep).value[i].LObj?
    requires forall i :: 0 <= i < |StepsOf(procedure, Prep).value| ==> StepsOf(procedure, Prep).value[i].obj.reagent != name
    ensures UmolAmount(AsWritten, procedure, name) == Err(AttributeError("amount"))
    ensures UmolAmount(Intended, procedure, name) == Ok(-1.0)
  {
    FindStepObjects(ReagentIs(name), StepsOf(procedure, Prep).value, "reagent");
  }

  /** The acid's name and pKa come from the table by its sum formula, and
      a formula the table does not list gives ("unknown", -100.0). */
  lemma AcidLookup(v: Variant, s: SynthesisElement, a: ReagentElement, structure: string)
    requires ExperimentParams(v, s).Ok?
    requires First(IsAcid, s.reagents.reagent) == Some(a) && Structure(a.inchi) == Ok(structure)
    ensures var t := ExperimentParams(v, s).value;
            AcidName in t && AcidPka in t
            && (structure !in AcidTable ==> t[AcidName] == PStr("unknown") && t[AcidPka] == PNum(-100.0))
            && (structure in AcidTable ==> t[AcidName] == PStr(AcidTable[structure].0) && t[AcidPka] == PNum(AcidTable[structure].1))
  {
    TableOfGroups(v, s);
    GroupsOfSpec(v, s);
    TableAcid(GroupsOf(v, s).value);
  }

  /** As intended, no acid reagent gives "unknown", pKa 31.4 and -1.0; as
      written the search's truthy fallback makes the extraction fail. */
  lemma NoAcid(s: SynthesisElement)
    requires forall r :: r in s.reagents.reagent ==> !IsAcid(r)
    ensures AcidGroup(AsWritten, s) == Err(AttributeError("inchi"))
    ensures AcidGroup(Intended, s) == Ok(AcidInfo("unknown", 31.4, -1.0))
  {
  }

  /** Over workup steps that are all objects: NaCl workup, scCO2
      activation, methanol in it and drying say whether such a step
      exists. */
  lemma WorkupMeaning(s: SynthesisElement)
    requires var w := StepsOf(s.procedure, Workup);
             w.Ok? && forall i :: 0 <= i < |w.value| ==> w.value[i].LObj?
    ensures WorkupGroup(s).Ok?
    ensures var f := WorkupGroup(s).value;
            var w := StepsOf(s.procedure, Workup).value;
            (f.withNaCl <==> exists i :: 0 <= i < |w| && WashWith({NaClAq})(w[i].obj))
            && (f.withScCO2 <==> exists i :: 0 <= i < |w| && WashWith({ScCO2, MeOHScCO2})(w[i].obj))
            && (f.meohInScCO2 <==> exists i :: 0 <= i < |w| && WashWith({MeOHScCO2})(w[i].obj))
            && (f.underVacuum <==> exists i :: 0 <= i < |w| && w[i].obj.xmlType == Dry)
  {
    var w := StepsOf(s.procedure, Workup).value;
    FindStepObjects(WashWith({NaClAq}), w, "xml_type");
    FindStepObjects(WashWith({ScCO2, MeOHScCO2}), w, "xml_type");
    FindStepObjects(WashWith({MeOHScCO2}), w, "xml_type");
    FindStepObjects(TypeIs(Dry), w, "xml_type");
  }

  /** In the table, methanol in the scCO2 activation is never true
      without the activation. */
  lemma MeOHNeedsScCO2(v: Variant, s: SynthesisElement)
    requires ExperimentParams(v, s).Ok?
    ensures var t := ExperimentParams(v, s).value;
            MeOHInScCO2 in t && ActivationWithScCO2 in t
            && (t[MeOHInScCO2] == PBool(true) ==> t[ActivationWithScCO2] == PBool(true))
  {
    TableOfGroups(v, s);
    GroupsOfSpec(v, s);
    TableBrineActivation(GroupsOf(v, s).value);
    TableMethanolVacuum(GroupsOf(v, s).value);
  }

  /** Over prep steps that are all objects, degassing says whether one of
      them is an EvacuateAndRefill step. */
  lemma DegassingMeaning(v: Variant, s: SynthesisElement)
    requires ExperimentParams(v, s).Ok?
    requires var p := StepsOf(s.procedure, Prep);
             p.Ok? && forall i :: 0 <= i < |p.value| ==> p.value[i].LObj?
    ensures var p := StepsOf(s.procedure, Prep).value;
            var t := ExperimentParams(v, s).value;
            Degassing in t && t[Degassing] == PBool(exists i :: 0 <= i < |p| && p[i].obj.xmlType == EvacuateAndRefill)
  {
    TableOfGroups(v, s);
    GroupsOfSpec(v, s);
    TableAdditivesDegassing(GroupsOf(v, s).value);
    FindStepObjects(TypeIs(EvacuateAndRefill), StepsOf(s.procedure, Prep).value, "xml_type");
  }

  // ---------------------------------------------------------------------
  // The two defects of the source, and their corrections

  /** As written, a synthesis without a reagent whose InChI contains "Co"
      is not reported as "unknown": the fallback "none" has no `inchi`. */
  lemma AsWrittenNoAminoporphyrinFails(s: SynthesisElement)
    requires forall r :: r in s.reagents.reagent ==> !IsAminoporphyrin(r)
    ensures ExperimentParams(AsWritten, s) == Err(AttributeError("inchi"))
  {
  }

  /** As intended, it is reported as type "unknown" with amount -1.0. */
  lemma IntendedNoAminoporphyrinUnknown(s: SynthesisElement)
    requires ExperimentParams(Intended, s).Ok?
    requires forall r :: r in s.reagents.reagent ==> !IsAminoporphyrin(r)
    ensures var t := ExperimentParams(Intended, s).value;
            AminoporphyrinType in t && t[AminoporphyrinType] == PStr("unknown")
            && AminoporphyrinAmount in t && t[AminoporphyrinAmount] == PNum(-1.0)
  {
    TableOfGroups(Intended, s);
    GroupsOfSpec(Intended, s);
    TableMonomers(GroupsOf(Intended, s).value);
  }

  /** Once slots 1 and 2 are named, a further unknown solvent changes
      nothing. */
  lemma {:induction false} OthersNoRoom(v: Variant, procedure: Loose<ProcedureSections>, p: Params, xs: seq<Option<string>>)
    requires SolventName(1) in p && SolventName(2) in p
    ensures FoldResult(PlaceOtherWith(v, procedure), p, xs) == Ok(p)
  {
    if |xs| > 0 {
      OthersNoRoom(v, procedure, p, xs[..|xs| - 1]);
    }
  }

  /** As written, the first unknown solvent takes both slot 1 and slot 2
      and any later one is dropped. */
  lemma AsWrittenFirstOtherTakesBoth(procedure: Loose<ProcedureSections>, a: Option<string>, rest: seq<Option<string>>, st: StepEntry)
    requires FindIn(procedure, Prep, ReagentIs(a), "reagent") == Ok(Some(st))
    ensures var r := FoldResult(PlaceOtherWith(AsWritten, procedure), map[], [a] + rest);
            r.Ok? && SolventName(1) in r.value && SolventName(2) in r.value
            && r.value[SolventName(1)] == NameParam(a) && r.value[SolventName(2)] == NameParam(a)
  {
    var one := PlaceOther(AsWritten, procedure, map[], a);
    assert FoldResult(PlaceOtherWith(AsWritten, procedure), map[], [a]) == one by {
      assert [a][..0] == [];
    }
    FoldAfter(PlaceOtherWith(AsWritten, procedure), map[], [a], rest);
    OthersNoRoom(AsWritten, procedure, one.value, rest);
  }

  /** Folding over `xs + ys` is folding over `ys` from the result of
      `xs`. */
  lemma {:induction false} FoldAfter<S, A>(step: (S, A) -> Result<S>, init: S, xs: seq<A>, ys: seq<A>)
    requires FoldResult(step, init, xs).Ok?
    ensures FoldResult(step, init, xs + ys) == FoldResult(step, FoldResult(step, init, xs).value, ys)
    decreases |ys|
  {
    if |ys| == 0 {
      assert xs + ys == xs;
    } else {
      assert (xs + ys)[..|xs + ys| - 1] == xs + ys[..|ys| - 1];
      FoldAfter(step, init, xs, ys[..|ys| - 1]);
    }
  }

  /** As intended, two unknown solvents take slots 1 and 2 in order. */
  lemma IntendedOthersOnePerSlot(procedure: Loose<ProcedureSections>, a: Option<string>, b: Option<string>)
    requires StepsOf(procedure, Prep).Ok?
    requires forall i :: 0 <= i < |StepsOf(procedure, Prep).value| ==> StepsOf(procedure, Prep).value[i].LObj?
    ensures var r := FoldResult(PlaceOtherWith(Intended, procedure), map[], [a, b]);
            r.Ok? && SolventName(1) in r.value && SolventName(2) in r.value
            && r.value[SolventName(1)] == NameParam(a) && r.value[SolventName(2)] == NameParam(b)
  {
    FindStepObjects(ReagentIs(a), StepsOf(procedure, Prep).value, "reagent");
    FindStepObjects(ReagentIs(b), StepsOf(procedure, Prep).value, "reagent");
    var one := PlaceOther(Intended, procedure, map[], a);
    assert [a, b][..1] == [a];
    assert FoldResult(PlaceOtherWith(Intended, procedure), map[], [a]) == one by {
      assert [a][..0] == [];
    }
    assert SolventName(1) in one.value && SolventName(2) !in one.value;
  }

  // ---------------------------------------------------------------------
  // All experiments

  /** The table has an entry per experiment id, holding the parameters
      of the last synthesis with that id. */
  lemma ExtractedEntries(v: Variant, procedure: SynthesisProcedure)
    requires Extracted(v, procedure).Ok?
    ensures var r := Extracted(v, procedure).value;
            var xs := procedure.synthesis;
            (forall id :: id in r ==> exists i :: 0 <= i < |xs| && ExperimentId(xs[i]) == id)
            && forall i :: 0 <= i < |xs| && (forall j :: i < j < |xs| ==> ExperimentId(xs[j]) != ExperimentId(xs[i])) ==>
                 ExperimentId(xs[i]) in r && ExperimentParams(v, xs[i]) == Ok(r[ExperimentId(xs[i])])
  {
    KeyedFoldEntries(ParamsOf(v), ExperimentId, procedure.synthesis);
  }


  // ---------------------------------------------------------------------
  // The loops

  /** The loop over the solvent reagents. */
  method KnownSolventsLoop(v: Variant, s: SynthesisElement) returns (r: Result<SolventState>)
    ensures r == KnownSolvents(v, s)
  {
    var solvents := Filter(IsSolvent, s.reagents.reagent);
    var st := SolventState(map[], []);
    for i := 0 to |solvents|
      invariant FoldResult(SolventStepWith(v, s.procedure), SolventState(map[], []), solvents[..i]) == Ok(st)
    {
      FoldResultNext(SolventStepWith(v, s.procedure), SolventState(map[], []), solvents, i, st);
      var next := SolventStep(v, s.procedure, st, solvents[i]);
      if next.Err? {
        FoldResultPrefixError(SolventStepWith(v, s.procedure), SolventState(map[], []), solvents, i + 1);
        return Err(next.error);
      }
      st := next.value;
    }
    assert solvents[..|solvents|] == solvents;
    return Ok(st);
  }

  /** The loop over the solvents the table does not know. */
  method OthersLoop(v: Variant, procedure: Loose<ProcedureSections>, st: SolventState) returns (r: Result<Params>)
    ensures r == PlacedOthers(v, procedure, st)
  {
    var p := st.params;
    for i := 0 to |st.others|
      invariant FoldResult(PlaceOtherWith(v, procedure), st.params, st.others[..i]) == Ok(p)
    {
      assert st.others[..i + 1][..i] == st.others[..i];
      var next := PlaceOther(v, procedure, p, st.others[i]);
      if next.Err? {
        FoldResultPrefixError(PlaceOtherWith(v, procedure), st.params, st.others, i + 1);
        return Err(next.error);
      }
      p := next.value;
    }
    assert st.others[..|st.others|] == st.others;
    return Ok(p);
  }

  /** The closing loop over slots 1 to 3. */
  method FillLoop(p: Params) returns (filled: Params)
    ensures filled == FilledSlots(p)
  {
    filled := p;
    for n := 1 to 4
      invariant filled == if n == 1 then p else if n == 2 then FillSlot(p, 1)
                          else if n == 3 then FillSlot(FillSlot(p, 1), 2) else FilledSlots(p)
    {
      if SolventName(n) !in filled {
        filled := filled[SolventName(n) := PStr("none")];
        filled := filled[SolventVolume(n) := PNum(0.0)];
      }
    }
  }

  /** The solvent part of the loop body. */
  method SolventSlots(v: Variant, s: SynthesisElement) returns (r: Result<Params>)
    ensures r == SolventParams(v, s)
  {
    var known :- KnownSolventsLoop(v, s);
    var placed :- OthersLoop(v, s.procedure, known);
    var filled := FillLoop(placed);
    return Ok(filled);
  }

  /** The loop body for one synthesis. */
  method ExperimentParamsOf(v: Variant, s: SynthesisElement) returns (r: Result<Params>)
    ensures r == ExperimentParams(v, s)
  {
    var amino :- AminoGroup(v, s);
    var aldehyde :- AldehydeGroup(v, s);
    var water :- WaterGroup(v, s);
    var acid :- AcidGroup(v, s);
    var other :- OtherAdditive(s);
    var solvents :- SolventSlots(v, s);
    var vessel :- VesselGroup(v, s);
    var degassing :- DegassingGroup(s);
    var heating :- HeatingGroup(v, s);
    var workup :- WorkupGroup(s);
    var g := Groups(amino, aldehyde, water, acid, other, solvents, vessel, degassing, heating, workup);
    return Ok(Table(g));
  }

  /** `extract_interesting_params_for_mocof_1`: the loop over the
      syntheses, a later synthesis overwriting an earlier one with the
      same id. */
  method ExtractInterestingParams(v: Variant, procedure: SynthesisProcedure) returns (r: Result<map<string, Params>>)
    ensures r == Extracted(v, procedure)
  {
    var xs := procedure.synthesis;
    var table: map<string, Params> := map[];
    for i := 0 to |xs|
      invariant FoldResult(KeyedStep(ParamsOf(v), ExperimentId), map[], xs[..i]) == Ok(table)
    {
      var p := ExperimentParamsOf(v, xs[i]);
      KeyedFoldStep(ParamsOf(v), ExperimentId, xs, i, table);
      if p.Err? {
        FoldResultPrefixError(KeyedStep(ParamsOf(v), ExperimentId), map[], xs, i + 1);
        return Err(p.error);
      }
      table := table[ExperimentId(xs[i]) := p.value];
    }
    assert xs[..|xs|] == xs;
    return Ok(table);
  }

}
