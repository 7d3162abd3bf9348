/** The conversion of a cleaned Sciformation ELN experiment into a MOFSY
    synthesis (`sciformation2mofsy.py`): its experiment id, the procedure
    sections built step by step, and the reagent list. */
module ElnToMofsy {
  import opened Wrappers
  import opened Strings
  import opened Seqs
  import opened Roles
  import opened ProcedureSchema

  // ---------------------------------------------------------------------
  // The cleaned ELN records

  datatype Vessel = MicrowaveVial | SchlenkBomb

  function VesselValue(v: Vessel): string
  {
    match v
    case MicrowaveVial => "microwave vial"
    case SchlenkBomb => "Schlenk bomb"
  }

  /** The one degassing gas the cleaned schema knows. */
  datatype Degassing = DegassingAr

  /** The fields of a reaction component the conversion reads; the amount is
      in mol and the volume in mL. */
  datatype Component = Component(
    amount: Option<real>,
    casNr: Option<string>,
    moleculeName: string,
    rxnRole: RxnRole,
    volume: Option<real>)

  /** The fields of an experiment the conversion reads.  Duration and
      temperature enter already formatted (see `ConstructProcedure`). */
  datatype Experiment = Experiment(
    code: Option<string>,
    nrInLabJournal: int,
    degassing: Option<Degassing>,
    evaporate: Option<bool>,
    components: seq<Component>,
    rinse: Option<seq<string>>,
    vessel: Option<Vessel>,
    waitAfterRinse: Option<int>,
    washSolid: Option<string>)

  // ---------------------------------------------------------------------
  // Experiment id

  /** `experiment.code if experiment.code else default_code`. */
  function CodeOrDefault(code: Option<string>, defaultCode: string): (c: string)
    ensures code.Some? && code.value != "" ==> c == code.value
    ensures code.None? || code.value == "" ==> c == defaultCode
  {
    if code.Some? && code.value != "" then code.value else defaultCode
  }

  /** The code, a hyphen and the lab journal number padded with zeros to
      three characters. */
  function ExperimentId(code: Option<string>, nr: int, defaultCode: string): (id: string)
    ensures StartsWith(id, CodeOrDefault(code, defaultCode) + "-")
    ensures |id| >= |CodeOrDefault(code, defaultCode)| + 4
  {
    CodeOrDefault(code, defaultCode) + "-" + ZFill(IntToString(nr), 3)
  }

  /** For a journal number that is not negative, what follows the hyphen is
      at least three digits that spell the number. */
  lemma ExperimentIdDigits(code: Option<string>, nr: nat, defaultCode: string)
    ensures var prefix := CodeOrDefault(code, defaultCode) + "-";
            var id := ExperimentId(code, nr, defaultCode);
            var digits := id[|prefix|..];
            id == prefix + digits && |digits| >= 3
            && (forall i :: 0 <= i < |digits| ==> IsDigit(digits[i]))
            && DigitsValue(digits) == nr
  {
    ZFillNat(nr, 3);
    var prefix := CodeOrDefault(code, defaultCode) + "-";
    assert ExperimentId(code, nr, defaultCode)[|prefix|..] == ZFill(NatToString(nr), 3);
  }

  /** Two experiments with the same code and different journal numbers get
      different ids. */
  lemma ExperimentIdInjective(code: Option<string>, m: nat, n: nat, defaultCode: string)
    requires ExperimentId(code, m, defaultCode) == ExperimentId(code, n, defaultCode)
    ensures m == n
  {
    ExperimentIdDigits(code, m, defaultCode);
    ExperimentIdDigits(code, n, defaultCode);
  }

  // ---------------------------------------------------------------------
  // Amounts

  /** `format_amount_mole`: mol as µmol, and −1 µmol for a missing amount. */
  function FormatAmountMole(amount: Option<real>): (q: Quantity)
    ensures q.unit == Some(Micromole)
    ensures amount.None? ==> q.value == -1.0
    ensures amount.Some? ==> q.value / 1000000.0 == amount.value
    ensures q.value > 0.0 <==> amount.Some? && amount.value > 0.0
  {
    if amount.None? then Quantity(Some(Micromole), -1.0)
    else Quantity(Some(Micromole), amount.value * 1000000.0)
  }

  /** `format_amount_volume`: mL as µL, and −1 µL for a missing volume. */
  function FormatAmountVolume(volume: Option<real>): (q: Quantity)
    ensures q.unit == Some(Microlitre)
    ensures volume.None? ==> q.value == -1.0
    ensures volume.Some? ==> q.value / 1000.0 == volume.value
    ensures q.value > 0.0 <==> volume.Some? && volume.value > 0.0
  {
    if volume.None? then Quantity(Some(Microlitre), -1.0)
    else Quantity(Some(Microlitre), volume.value * 1000.0)
  }

  /** The amount an Add step carries: the volume for a solvent, the amount
      of substance for every other component. */
  function ComponentAmount(c: Component): (q: Quantity)
    ensures q.unit == Some(if c.rxnRole == RxnSolvent then Microlitre else Micromole)
    ensures q.value > 0.0 <==> if c.rxnRole == RxnSolvent then c.volume.Some? && c.volume.value > 0.0
                                else c.amount.Some? && c.amount.value > 0.0
  {
    if c.rxnRole == RxnSolvent then FormatAmountVolume(c.volume) else FormatAmountMole(c.amount)
  }

  /** The components that are added in the preparation: not the product,
      and with a positive amount. */
  predicate Added(c: Component)
  {
    c.rxnRole != RxnProduct && ComponentAmount(c).value > 0.0
  }

  // ---------------------------------------------------------------------
  // Steps

  function AddStep(c: Component, vessel: string): StepEntry
  {
    StepEntry(None, Some(vessel), Add, Some(ComponentAmount(c)), Some(c.moleculeName), None, None, None, None, None)
  }

  function EvacuateStep(vessel: string): StepEntry
  {
    StepEntry(None, Some(vessel), EvacuateAndRefill, None, None, None, None, Some(Ar), None, None)
  }

  function HeatChillStep(vessel: string, temp: Temperature, time: Time): StepEntry
  {
    StepEntry(None, Some(vessel), HeatChill, None, None, Some(temp), Some(time), None, None, None)
  }

  function WashStep(vessel: string, solvent: Solvent): StepEntry
  {
    StepEntry(None, Some(vessel), WashSolid, None, None, None, None, None, Some(solvent), None)
  }

  function WaitStep(vessel: string, time: Time): StepEntry
  {
    StepEntry(None, Some(vessel), Wait, None, None, None, Some(time), None, None, None)
  }

  function DryStep(vessel: string): StepEntry
  {
    StepEntry(None, Some(vessel), Dry, None, None, None, None, None, None, None)
  }

  /** One Add step per added component, in component order. */
  function AddSteps(cs: seq<Component>, vessel: string): seq<StepEntry>
  {
    var added := Filter(Added, cs);
    seq(|added|, k requires 0 <= k < |added| => AddStep(added[k], vessel))
  }

  /** One more component adds at most its own step at the end. */
  lemma AddStepsSnoc(cs: seq<Component>, c: Component, vessel: string)
    ensures AddSteps(cs + [c], vessel) == AddSteps(cs, vessel) + (if Added(c) then [AddStep(c, vessel)] else [])
  {
    FilterAppend(Added, cs, [c]);
    assert Filter(Added, [c]) == if Added(c) then [c] else [] by {
      assert [c][1..] == [];
    }
  }

  /** One WashSolid step per rinse solvent, in list order; the first name
      that is not a `Solvent` is a `ValueError`. */
  function RinseSteps(items: seq<string>, vessel: string): (r: Result<seq<StepEntry>>)
    ensures r.Err? <==> exists i :: 0 <= i < |items| && SolventOf(items[i]).None?
    ensures r.Err? ==> r.error == ValueError("not a valid enumeration value")
    ensures r.Ok? ==> |r.value| == |items|
                      && forall i :: 0 <= i < |items| ==> r.value[i] == WashStep(vessel, SolventOf(items[i]).value)
  {
    if |items| == 0 then Ok([])
    else
      var init := items[..|items| - 1];
      var steps :- RinseSteps(init, vessel);
      var solvent := SolventOf(items[|items| - 1]);
      if solvent.None? then Err(ValueError("not a valid enumeration value"))
      else Ok(steps + [WashStep(vessel, solvent.value)])
  }

  function RinseItems(e: Experiment): seq<string>
  {
    if e.rinse.Some? then e.rinse.value else []
  }

  function WaitSteps(e: Experiment, vessel: string, waitTime: Time): seq<StepEntry>
  {
    if e.waitAfterRinse.Some? && e.waitAfterRinse.value != 0 then [WaitStep(vessel, waitTime)] else []
  }

  /** The final WashSolid step, if a wash solvent is named. */
  function WashSteps(e: Experiment, vessel: string): Result<seq<StepEntry>>
  {
    if e.washSolid.Some? && e.washSolid.value != "" then
      var solvent := SolventOf(e.washSolid.value);
      if solvent.None? then Err(ValueError("not a valid enumeration value"))
      else Ok([WashStep(vessel, solvent.value)])
    else Ok([])
  }

  function DrySteps(e: Experiment, vessel: string): seq<StepEntry>
  {
    if e.evaporate == Some(true) then [DryStep(vessel)] else []
  }

  // ---------------------------------------------------------------------
  // Procedure

  /** The three step lists of a procedure. */
  datatype Plan = Plan(prep: seq<StepEntry>, reaction: seq<StepEntry>, workup: seq<StepEntry>)

  function ToSections(p: Plan): ProcedureSections
  {
    ProcedureSections(SectionOf(p.prep), SectionOf(p.reaction), SectionOf(p.workup))
  }

  /** The preparation: Add steps, then EvacuateAndRefill if degassed. */
  function PrepOf(e: Experiment, vessel: string): seq<StepEntry>
  {
    AddSteps(e.components, vessel) + (if e.degassing.Some? then [EvacuateStep(vessel)] else [])
  }

  /** The workup: rinse washes, the optional Wait, the optional final wash
      and the optional Dry. */
  function WorkupOf(e: Experiment, vessel: string, waitTime: Time): Result<seq<StepEntry>>
  {
    var rinse :- RinseSteps(RinseItems(e), vessel);
    var wash :- WashSteps(e, vessel);
    Ok(rinse + WaitSteps(e, vessel, waitTime) + wash + DrySteps(e, vessel))
  }

  /** The procedure of an experiment: the preparation, one HeatChill and the
      workup.  A missing vessel is an `AttributeError`. */
  function PlanOf(e: Experiment, temp: Temperature, time: Time, waitTime: Time): Result<Plan>
  {
    if e.vessel.None? then Err(AttributeError("value"))
    else
      var vessel := VesselValue(e.vessel.value);
      var workup :- WorkupOf(e, vessel, waitTime);
      Ok(Plan(PrepOf(e, vessel), [HeatChillStep(vessel, temp, time)], workup))
  }

  function ProcedureOf(e: Experiment, temp: Temperature, time: Time, waitTime: Time): Result<ProcedureSections>
  {
    var plan :- PlanOf(e, temp, time, waitTime);
    Ok(ToSections(plan))
  }

  /** The preparation loop of `construct_procedure`. */
  method BuildPrep(e: Experiment, vessel: string) returns (prep: seq<StepEntry>)
    ensures prep == PrepOf(e, vessel)
  {
    var cs := e.components;
    prep := [];
    for i := 0 to |cs|
      invariant prep == AddSteps(cs[..i], vessel)
    {
      var amount := FormatAmountMole(cs[i].amount);
      if cs[i].rxnRole == RxnSolvent {
        amount := FormatAmountVolume(cs[i].volume);
      }
      if cs[i].rxnRole != RxnProduct && amount.value > 0.0 {
        prep := prep + [StepEntry(None, Some(vessel), Add, Some(amount), Some(cs[i].moleculeName), None, None, None, None, None)];
      }
      AddStepsSnoc(cs[..i], cs[i], vessel);
      assert cs[..i + 1] == cs[..i] + [cs[i]];
    }
    assert cs[..|cs|] == cs;
    if e.degassing.Some? {
      prep := prep + [EvacuateStep(vessel)];
    }
  }

  /** The rinse loop of `construct_procedure`. */
  method BuildRinse(items: seq<string>, vessel: string) returns (r: Result<seq<StepEntry>>)
    ensures r == RinseSteps(items, vessel)
  {
    var workup: seq<StepEntry> := [];
    for i := 0 to |items|
      invariant RinseSteps(items[..i], vessel) == Ok(workup)
    {
      var solvent := SolventOf(items[i]);
      assert items[..i + 1][..i] == items[..i];
      if solvent.None? {
        return Err(ValueError("not a valid enumeration value"));
      }
      workup := workup + [WashStep(vessel, solvent.value)];
    }
    assert items[..|items|] == items;
    return Ok(workup);
  }

  /** The workup part of `construct_procedure`. */
  method BuildWorkup(e: Experiment, vessel: string, waitTime: Time) returns (r: Result<seq<StepEntry>>)
    ensures r == WorkupOf(e, vessel, waitTime)
  {
    var rinse := BuildRinse(RinseItems(e), vessel);
    if rinse.Err? {
      return rinse;
    }
    var workup := rinse.value;
    if e.waitAfterRinse.Some? && e.waitAfterRinse.value != 0 {
      workup := workup + [WaitStep(vessel, waitTime)];
    }
    assert workup == rinse.value + WaitSteps(e, vessel, waitTime);
    if e.washSolid.Some? && e.washSolid.value != "" {
      var solvent := SolventOf(e.washSolid.value);
      if solvent.None? {
        return Err(ValueError("not a valid enumeration value"));
      }
      workup := workup + [WashStep(vessel, solvent.value)];
    }
    assert workup == rinse.value + WaitSteps(e, vessel, waitTime) + WashSteps(e, vessel).value;
    if e.evaporate == Some(true) {
      workup := workup + [DryStep(vessel)];
    }
    assert workup == rinse.value + WaitSteps(e, vessel, waitTime) + WashSteps(e, vessel).value + DrySteps(e, vessel);
    assert RinseSteps(RinseItems(e), vessel) == rinse;
    assert WashSteps(e, vessel).Ok?;
    return Ok(workup);
  }

  /** `construct_procedure`.  The reaction temperature and time and the
      wait time are the values `format_temperature` and `format_time` give
      for the experiment. */
  method ConstructProcedure(e: Experiment, temp: Temperature, time: Time, waitTime: Time)
    returns (r: Result<ProcedureSections>)
    ensures r == ProcedureOf(e, temp, time, waitTime)
  {
    if e.vessel.None? {
      return Err(AttributeError("value"));
    }
    var vessel := VesselValue(e.vessel.value);
    var prep := BuildPrep(e, vessel);
    var reaction := [HeatChillStep(vessel, temp, time)];
    var workup := BuildWorkup(e, vessel, waitTime);
    if workup.Err? {
      return Err(workup.error);
    }
    return Ok(ToSections(Plan(prep, reaction, workup.value)));
  }

  /** The preparation: an Add step for exactly the added components, in
      their order and with their amount, then EvacuateAndRefill with argon
      if and only if the experiment is degassed. */
  lemma PrepSteps(e: Experiment, temp: Temperature, time: Time, waitTime: Time)
    requires PlanOf(e, temp, time, waitTime).Ok?
    ensures var prep := PlanOf(e, temp, time, waitTime).value.prep;
            var added := Filter(Added, e.components);
            |prep| == |added| + (if e.degassing.Some? then 1 else 0)
            && (forall k :: 0 <= k < |added| ==>
                  prep[k].xmlType == Add && prep[k].reagent == Some(added[k].moleculeName)
                  && prep[k].amount == Some(ComponentAmount(added[k])))
            && (e.degassing.Some? ==> prep[|prep| - 1] == EvacuateStep(VesselValue(e.vessel.value)))
            && ((exists k :: 0 <= k < |prep| && prep[k].xmlType == EvacuateAndRefill) <==> e.degassing.Some?)
  {
    var vessel := VesselValue(e.vessel.value);
    var prep := PlanOf(e, temp, time, waitTime).value.prep;
    var adds := AddSteps(e.components, vessel);
    assert prep[..|adds|] == adds;
    if e.degassing.Some? {
      assert prep[|prep| - 1].xmlType == EvacuateAndRefill;
    }
  }

  /** A component is added exactly when it is not the product and its
      amount is positive; a missing amount or volume gives no step. */
  lemma AddedSpec(c: Component)
    ensures Added(c) <==> c.rxnRole != RxnProduct
                          && if c.rxnRole == RxnSolvent then c.volume.Some? && c.volume.value > 0.0
                             else c.amount.Some? && c.amount.value > 0.0
    ensures c.rxnRole == RxnSolvent && c.volume.None? ==> !Added(c)
    ensures c.rxnRole != RxnSolvent && c.amount.None? ==> !Added(c)
  {
  }

  /** The reaction section is a single HeatChill step. */
  lemma ReactionSingleHeatChill(e: Experiment, temp: Temperature, time: Time, waitTime: Time)
    requires PlanOf(e, temp, time, waitTime).Ok?
    ensures var reaction := PlanOf(e, temp, time, waitTime).value.reaction;
            |reaction| == 1 && reaction[0].xmlType == HeatChill
            && reaction[0].temp == Some(temp) && reaction[0].time == Some(time)
  {
  }

  /** The workup: one WashSolid per rinse solvent in list order, then Wait
      if a wait is set, then WashSolid if a wash solvent is named, then Dry
      if the product is evaporated, which is then the last step. */
  lemma WorkupOrder(e: Experiment, temp: Temperature, time: Time, waitTime: Time)
    requires PlanOf(e, temp, time, waitTime).Ok?
    ensures var workup := PlanOf(e, temp, time, waitTime).value.workup;
            var items := RinseItems(e);
            var vessel := VesselValue(e.vessel.value);
            var waits := e.waitAfterRinse.Some? && e.waitAfterRinse.value != 0;
            var washes := e.washSolid.Some? && e.washSolid.value != "";
            var dries := e.evaporate == Some(true);
            |workup| == |items| + (if waits then 1 else 0) + (if washes then 1 else 0) + (if dries then 1 else 0)
            && (forall i :: 0 <= i < |items| ==> workup[i] == WashStep(vessel, SolventOf(items[i]).value))
            && (waits ==> workup[|items|] == WaitStep(vessel, waitTime))
            && (washes ==> workup[|items| + (if waits then 1 else 0)].xmlType == WashSolid
                           && workup[|items| + (if waits then 1 else 0)].solvent == SolventOf(e.washSolid.value))
            && (dries ==> workup[|workup| - 1] == DryStep(vessel))
  {
    var vessel := VesselValue(e.vessel.value);
    var items := RinseItems(e);
    var rinse := RinseSteps(items, vessel).value;
    var workup := PlanOf(e, temp, time, waitTime).value.workup;
    assert workup == WorkupOf(e, vessel, waitTime).value;
    assert workup == rinse + WaitSteps(e, vessel, waitTime) + WashSteps(e, vessel).value + DrySteps(e, vessel);
  }

  /** A rinse or wash solvent that is not a `Solvent` makes the conversion
      fail with a `ValueError` once the vessel is known. */
  lemma InvalidSolventFails(e: Experiment, temp: Temperature, time: Time, waitTime: Time)
    requires e.vessel.Some?
    requires (exists i :: 0 <= i < |RinseItems(e)| && SolventOf(RinseItems(e)[i]).None?)
             || (e.washSolid.Some? && e.washSolid.value != "" && SolventOf(e.washSolid.value).None?)
    ensures PlanOf(e, temp, time, waitTime).Err?
    ensures PlanOf(e, temp, time, waitTime).error.ValueError?
  {
  }

  // ---------------------------------------------------------------------
  // Reagents

  predicate NotProduct(c: Component) { c.rxnRole != RxnProduct }

  /** The reagent entry of a component; the InChI is what `get_inchi`
      found for it. */
  function ReagentOf(c: Component, inchi: Option<string>): ReagentElement
  {
    ReagentElement(c.casNr, None, Some(c.moleculeName), inchi, Some(c.moleculeName), None, RxnRoleToXdlRole(c.rxnRole))
  }

  /** The reagent entries of the components that are not the product, in
      component order. */
  function Reagents(cs: seq<Component>, inchiOf: Component -> Option<string>): (r: seq<ReagentElement>)
  {
    var kept := Filter(NotProduct, cs);
    seq(|kept|, k requires 0 <= k < |kept| => ReagentOf(kept[k], inchiOf(kept[k])))
  }

  lemma ReagentsSnoc(cs: seq<Component>, c: Component, inchiOf: Component -> Option<string>)
    ensures Reagents(cs + [c], inchiOf)
            == Reagents(cs, inchiOf) + (if NotProduct(c) then [ReagentOf(c, inchiOf(c))] else [])
  {
    FilterAppend(NotProduct, cs, [c]);
    assert Filter(NotProduct, [c]) == if NotProduct(c) then [c] else [] by {
      assert [c][1..] == [];
    }
  }

  /** `construct_reagents`.  `inchiOf` is `get_inchi`, which may query
      PubChem. */
  method ConstructReagents(cs: seq<Component>, inchiOf: Component -> Option<string>)
    returns (reagents: seq<ReagentElement>)
    ensures reagents == Reagents(cs, inchiOf)
  {
    reagents := [];
    for i := 0 to |cs|
      invariant reagents == Reagents(cs[..i], inchiOf)
    {
      var c := cs[i];
      var role := RxnRoleToXdlRole(c.rxnRole);
      var inchi := inchiOf(c);
      if c.rxnRole != RxnProduct {
        reagents := reagents + [ReagentElement(c.casNr, None, Some(c.moleculeName), inchi, Some(c.moleculeName), None, role)];
      }
      ReagentsSnoc(cs[..i], c, inchiOf);
      assert cs[..i + 1] == cs[..i] + [c];
    }
    assert cs[..|cs|] == cs;
  }

  /** Every reagent has a role, its name and id are the component's name,
      and the entries follow the components that are not the product. */
  lemma ReagentsSpec(cs: seq<Component>, inchiOf: Component -> Option<string>)
    ensures var r := Reagents(cs, inchiOf);
            var kept := Filter(NotProduct, cs);
            |r| == |kept| && |r| <= |cs|
            && (forall k :: 0 <= k < |r| ==>
                  r[k].role.Some? && r[k].name == r[k].id == Some(kept[k].moleculeName)
                  && r[k].cas == kept[k].casNr && r[k].inchi == inchiOf(kept[k]))
            && (forall i :: 0 <= i < |cs| && cs[i].rxnRole != RxnProduct ==> cs[i] in kept)
  {
    var kept := Filter(NotProduct, cs);
    forall k | 0 <= k < |kept| ensures RxnRoleToXdlRole(kept[k].rxnRole).Some? {
      assert NotProduct(kept[k]);
    }
  }

  /** Without a product every component becomes a reagent. */
  lemma ReagentsNoProduct(cs: seq<Component>, inchiOf: Component -> Option<string>)
    requires forall i :: 0 <= i < |cs| ==> cs[i].rxnRole != RxnProduct
    ensures |Reagents(cs, inchiOf)| == |cs|
  {
    FilterAll(NotProduct, cs);
  }
}
