/** The fields the MOFSY to MPIF exporter (`scripts/mofsy2mpif/src/mofsy2mpif.ts`)
    derives from one synthesis: the product amount, the reaction
    conditions, the substrates and solvents, the vessel, the reaction
    atmosphere and the X-ray source of the first PXRD pattern. */
module MpifFields {
  import opened Wrappers
  import opened Strings
  import opened Seqs
  import opened MpifSteps

  // ---------------------------------------------------------------------
  // Product amount

  /** An amount with its unit, both possibly absent. */
  datatype Amount = Amount(value: Option<real>, unit: Option<string>)

  /** The unit shortening as written: "milliliter" is not a spelling of
      the characterization schema's units, whose volume unit is
      "millilitre". */
  function ShortUnitAsWritten(u: Option<string>): (r: Option<string>)
    ensures u != Some("gram") && u != Some("milligram") && u != Some("milliliter") ==> r == u
  {
    if u == Some("gram") then Some("g")
    else if u == Some("milligram") then Some("mg")
    else if u == Some("milliliter") then Some("mL")
    else u
  }

  /** As written, a weight in millilitres keeps its long unit. */
  lemma AsWrittenMillilitreKept()
    ensures ShortUnitAsWritten(Some("millilitre")) == Some("millilitre")
  {
  }

  /** The unit shortening with the schema's spelling "millilitre" also
      mapped to "mL". */
  function ShortUnit(u: Option<string>): (r: Option<string>)
    ensures u != Some("gram") && u != Some("milligram") && u != Some("milliliter") && u != Some("millilitre") ==> r == u
  {
    if u == Some("gram") then Some("g")
    else if u == Some("milligram") then Some("mg")
    else if u == Some("milliliter") || u == Some("millilitre") then Some("mL")
    else u
  }

  /** Grams, milligrams and millilitres get their symbols, and a shortened
      unit stays as it is. */
  lemma ShortUnitSymbols(u: Option<string>)
    ensures ShortUnit(Some("gram")) == Some("g") && ShortUnit(Some("milligram")) == Some("mg")
    ensures ShortUnit(Some("millilitre")) == Some("mL")
    ensures ShortUnit(ShortUnit(u)) == ShortUnit(u)
  {
  }

  /** `productAmount` and `productAmountUnit`: the last weighing, with its
      unit shortened as the exporter writes it, or else the amount of the
      parameter file. */
  function ProductAmount(weights: seq<Quantity>, default: Amount): (r: Amount)
    ensures |weights| == 0 ==> r == default
    ensures |weights| > 0 ==> r.value == weights[|weights| - 1].value
    ensures |weights| > 0 ==> r.unit == ShortUnitAsWritten(weights[|weights| - 1].unit)
  {
    if |weights| > 0 then
      var last := weights[|weights| - 1];
      Amount(last.value, ShortUnitAsWritten(last.unit))
    else default
  }

  /** A product whose last weighing is in grams or milligrams gets the
      symbol; one in millilitres, as the schema spells it, keeps
      "millilitre". */
  lemma ProductAmountUnits(weights: seq<Quantity>, default: Amount)
    requires |weights| > 0
    ensures weights[|weights| - 1].unit == Some("gram") ==> ProductAmount(weights, default).unit == Some("g")
    ensures weights[|weights| - 1].unit == Some("milligram") ==> ProductAmount(weights, default).unit == Some("mg")
    ensures weights[|weights| - 1].unit == Some("millilitre") ==> ProductAmount(weights, default).unit == Some("millilitre")
  {
  }

  // ---------------------------------------------------------------------
  // Reaction conditions

  /** `reactionTimeUnit`: "h" for hours, "days" for days, "" otherwise. */
  function TimeUnit(u: Option<string>): (r: string)
    ensures r == "h" <==> u == Some("hour")
    ensures r == "days" <==> u == Some("day")
    ensures r == "" <==> u != Some("hour") && u != Some("day")
  {
    if u == Some("hour") then "h" else if u == Some("day") then "days" else ""
  }

  /** Temperature, time, time unit and note of the reaction. */
  datatype Conditions = Conditions(temperature: real, time: real, timeUnit: string, note: string)

  /** A value of the quantity, if both are given. */
  function Given(q: Option<Quantity>): Option<real>
  {
    if q.Some? then q.value.value else None
  }

  /** The conditions taken from the first HeatChill step: -1 for what is
      not given, and the step's comment appended to the parameter file's
      note (`reactionNote || ''`). */
  function ReactionConditions(p: Sections, reactionNote: Option<string>): (r: Conditions)
    ensures var base := if reactionNote.Some? then reactionNote.value else "";
            var heat := FindStepByType(p, HeatChill);
            StartsWith(r.note, base)
            && (heat.None? ==> r == Conditions(-1.0, -1.0, "", base))
            && (heat.Some? ==> r.temperature == (if Given(heat.value.temp).Some? then Given(heat.value.temp).value else -1.0))
            && (heat.Some? ==> r.time == (if Given(heat.value.time).Some? then Given(heat.value.time).value else -1.0))
            && (r.timeUnit != "" ==> heat.Some? && Given(heat.value.time).Some?
                                     && r.timeUnit == TimeUnit(heat.value.time.value.unit))
  {
    var base := if reactionNote.Some? then reactionNote.value else "";
    match FindStepByType(p, HeatChill)
    case None => Conditions(-1.0, -1.0, "", base)
    case Some(h) =>
      var temperature := if Given(h.temp).Some? then Given(h.temp).value else -1.0;
      var time := if Given(h.time).Some? then Given(h.time).value else -1.0;
      var unit := if Given(h.time).Some? then TimeUnit(h.time.value.unit) else "";
      var note := if h.comment.Some? && h.comment.value != "" then base + h.comment.value else base;
      assert StartsWith(note, base) by {
        assert note[..|base|] == base;
      }
      Conditions(temperature, time, unit, note)
  }

  /** Without a HeatChill step in any section the conditions are the
      defaults. */
  lemma NoHeatStepDefaults(p: Sections, reactionNote: Option<string>)
    requires forall i :: 0 <= i < |p.reaction + p.prep + p.workup| ==> (p.reaction + p.prep + p.workup)[i].xmlType != HeatChill
    ensures ReactionConditions(p, reactionNote) == Conditions(-1.0, -1.0, "", if reactionNote.Some? then reactionNote.value else "")
  {
    assert forall i :: 0 <= i < |p.reaction + p.prep + p.workup| ==> !OfType(HeatChill)((p.reaction + p.prep + p.workup)[i]);
  }

  // ---------------------------------------------------------------------
  // Substrates and solvents

  /** A reagent of the synthesis with the attributes the exporter reads;
      `role` is the role's string value. */
  datatype Reagent = Reagent(id: Option<string>, name: Option<string>, cas: Option<string>, role: Option<string>)

  /** A substrate or solvent of the MPIF data. */
  datatype Listed = Listed(id: string, name: string, casNumber: Option<string>, amount: Option<real>, amountUnit: string)

  /** The entry of a reagent whose step is `step`. */
  function ListedEntry(r: Reagent, step: Step): Listed
  {
    Listed(if r.id.Some? && r.id.value != "" then r.id.value else "unknown_id",
           if r.name.Some? && r.name.value != "" then r.name.value else "unknown_name",
           r.cas,
           Given(step.amount),
           if step.amount.Some? && step.amount.value.unit.Some? then step.amount.value.unit.value else "")
  }

  /** What one reagent adds to the list of `role`: its entry when it has
      that role and some step uses it. */
  function ListedAs(p: Sections, role: string): Reagent -> seq<Listed>
  {
    (r: Reagent) =>
      if r.role == Some(role) then
        match FindStepByReagent(p, r.id)
        case None => []
        case Some(step) => [ListedEntry(r, step)]
      else []
  }

  /** The `substrates` or `solvents` list for `reagents`. */
  function ListedReagents(p: Sections, reagents: seq<Reagent>, role: string): seq<Listed>
  {
    Concat(ListedAs(p, role), reagents)
  }

  /** The loop over the reagents: a reagent no step uses is skipped, and
      substrates and solvents are pushed to their lists. */
  method CollectReagents(p: Sections, reagents: seq<Reagent>) returns (substrates: seq<Listed>, solvents: seq<Listed>)
    ensures substrates == ListedReagents(p, reagents, "substrate")
    ensures solvents == ListedReagents(p, reagents, "solvent")
  {
    substrates, solvents := [], [];
    for i := 0 to |reagents|
      invariant substrates == ListedReagents(p, reagents[..i], "substrate")
      invariant solvents == ListedReagents(p, reagents[..i], "solvent")
    {
      ConcatStep(ListedAs(p, "substrate"), reagents, i);
      ConcatStep(ListedAs(p, "solvent"), reagents, i);
      var reagent := reagents[i];
      var step := FindStepByReagent(p, reagent.id);
      if step.None? {
        continue;
      }
      if reagent.role == Some("substrate") {
        substrates := substrates + [ListedEntry(reagent, step.value)];
      } else if reagent.role == Some("solvent") {
        solvents := solvents + [ListedEntry(reagent, step.value)];
      }
    }
    assert reagents[..|reagents|] == reagents;
  }

  /** The list of a role holds, in reagent order, one entry for each
      reagent of that role that some step uses, and nothing else. */
  lemma ListedReagentsFiltered(p: Sections, reagents: seq<Reagent>, role: string)
    ensures var kept := Filter(Yields(ListedAs(p, role)), reagents);
            var r := ListedReagents(p, reagents, role);
            |r| == |kept| <= |reagents|
            && (forall i :: 0 <= i < |kept| ==>
                  (kept[i].role == Some(role) && FindStepByReagent(p, kept[i].id).Some?
                   && r[i] == ListedEntry(kept[i], FindStepByReagent(p, kept[i].id).value)))
            && (forall i :: 0 <= i < |reagents| ==>
                  (reagents[i] in kept <==> reagents[i].role == Some(role) && FindStepByReagent(p, reagents[i].id).Some?))
  {
    ConcatSingles(ListedAs(p, role), reagents);
  }

  // ---------------------------------------------------------------------
  // Vessel

  /** A hardware component: its id and `_type`. */
  datatype Component = Component(id: string, componentType: Option<string>)

  /** `Hardware` with its optional `Component` list. */
  datatype Hardware = Hardware(component: Option<seq<Component>>)

  /** The vessel of the MPIF data. */
  datatype Vessel = Vessel(id: string, material: string, vesselType: string, note: Option<string>)

  function MaterialMessage(t: string): string { "Vessel material not recognized: " + t }
  function TypeMessage(t: string): string { "Vessel type not recognized: " + t }

  predicate MaterialKnown(lower: string)
  {
    Contains(lower, "glass") || Contains(lower, "microwave") || Contains(lower, "teflon") || Contains(lower, "schlenk bomb")
  }

  predicate TypeKnown(lower: string)
  {
    Contains(lower, "vial") || Contains(lower, "autoclave") || Contains(lower, "schlenk bomb")
  }

  /** The material and the note of a vessel of type `t`, checked in the
      order glass, microwave, teflon, schlenk bomb. */
  function VesselMaterial(t: string): (r: Result<(string, Option<string>)>)
    ensures r.Err? <==> !MaterialKnown(LowerString(t))
    ensures r.Err? ==> r.error == ThrownError(MaterialMessage(t))
    ensures r.Ok? ==> r.value.0 in {"Glass", "", "Teflon"}
    ensures r.Ok? ==> (r.value.1.Some? <==> r.value.0 == "") && (r.value.1.Some? ==> r.value.1.value == t)
    ensures var lower := LowerString(t);
            r.Ok? ==> (r.value.0 == "" <==> !Contains(lower, "glass") && Contains(lower, "microwave"))
                      && (r.value.0 == "Teflon" <==> !Contains(lower, "glass") && !Contains(lower, "microwave") && Contains(lower, "teflon"))
  {
    var lower := LowerString(t);
    if Contains(lower, "glass") then Ok(("Glass", None))
    else if Contains(lower, "microwave") then Ok(("", Some(t)))
    else if Contains(lower, "teflon") then Ok(("Teflon", None))
    else if Contains(lower, "schlenk bomb") then Ok(("Glass", None))
    else Err(ThrownError(MaterialMessage(t)))
  }

  /** The kind of a vessel of type `t`, checked in the order vial,
      autoclave, schlenk bomb. */
  function VesselKind(t: string): (r: Result<string>)
    ensures r.Err? <==> !TypeKnown(LowerString(t))
    ensures r.Err? ==> r.error == ThrownError(TypeMessage(t))
    ensures r.Ok? ==> r.value in {"Vial", "Autoclave", "Flask"}
  {
    var lower := LowerString(t);
    if Contains(lower, "vial") then Ok("Vial")
    else if Contains(lower, "autoclave") then Ok("Autoclave")
    else if Contains(lower, "schlenk bomb") then Ok("Flask")
    else Err(ThrownError(TypeMessage(t)))
  }

  /** The vessel: the first hardware component, classified by its type
      when it has one.  A missing `Hardware` or `Component`, or an empty
      component list, fails with a `TypeError` on the property the source
      reads next. */
  function ClassifyVessel(hardware: Option<Hardware>): (r: Result<Vessel>)
    ensures hardware.None? ==> r == Err(TypeError("Component"))
    ensures hardware.Some? && hardware.value.component.None? ==> r == Err(TypeError("0"))
    ensures hardware.Some? && hardware.value.component == Some([]) ==> r == Err(TypeError("_id"))
    ensures r.Ok? ==> r.value.id == hardware.value.component.value[0].id
    ensures r.Ok? ==> (r.value.material == "unknown" <==> r.value.vesselType == "")
    ensures r.Ok? ==> r.value.material in {"Glass", "", "Teflon", "unknown"} && r.value.vesselType in {"Vial", "Autoclave", "Flask", ""}
  {
    if hardware.None? then Err(TypeError("Component"))
    else if hardware.value.component.None? then Err(TypeError("0"))
    else if |hardware.value.component.value| == 0 then Err(TypeError("_id"))
    else
      var c := hardware.value.component.value[0];
      if c.componentType.Some? && c.componentType.value != "" then
        var t := c.componentType.value;
        var material :- VesselMaterial(t);
        var kind :- VesselKind(t);
        Ok(Vessel(c.id, material.0, kind, material.1))
      else Ok(Vessel(c.id, "unknown", "", None))
  }

  /** A typed vessel is rejected exactly when its type names no known
      material or no known kind, the material being checked first. */
  lemma ClassifyVesselErrors(c: Component, rest: seq<Component>)
    requires c.componentType.Some? && c.componentType.value != ""
    ensures var t := c.componentType.value;
            var r := ClassifyVessel(Some(Hardware(Some([c] + rest))));
            (r.Err? <==> !MaterialKnown(LowerString(t)) || !TypeKnown(LowerString(t)))
            && (r.Err? ==> r.error == if !MaterialKnown(LowerString(t)) then ThrownError(MaterialMessage(t)) else ThrownError(TypeMessage(t)))
  {
  }

  /** The classification ignores the case of the vessel type; only the
      error message and the note keep the type as written. */
  lemma VesselIgnoresCase(c: Component, d: Component)
    requires c.componentType.Some? && d.componentType.Some?
    requires LowerString(c.componentType.value) == LowerString(d.componentType.value)
    ensures VesselKind(c.componentType.value).Ok? == VesselKind(d.componentType.value).Ok?
    ensures VesselKind(c.componentType.value).Ok? ==> VesselKind(c.componentType.value).value == VesselKind(d.componentType.value).value
    ensures VesselMaterial(c.componentType.value).Ok? == VesselMaterial(d.componentType.value).Ok?
    ensures VesselMaterial(c.componentType.value).Ok? ==> VesselMaterial(c.componentType.value).value.0 == VesselMaterial(d.componentType.value).value.0
  {
  }

  // ---------------------------------------------------------------------
  // Atmosphere and X-ray source

  /** `reactionAtmosphere`: vacuum when some section has an
      EvacuateAndRefill step, air otherwise. */
  function ReactionAtmosphere(p: Sections): (r: string)
    ensures r == "vacuum" <==> exists i :: 0 <= i < |p.reaction + p.prep + p.workup| && (p.reaction + p.prep + p.workup)[i].xmlType == EvacuateAndRefill
    ensures r == "vacuum" || r == "air"
  {
    var found := FindStepByType(p, EvacuateAndRefill);
    assert found.Some? <==> exists i :: 0 <= i < |p.reaction + p.prep + p.workup| && OfType(EvacuateAndRefill)((p.reaction + p.prep + p.workup)[i]);
    if found.Some? then "vacuum" else "air"
  }

  /** `s.charAt(0).toUpperCase() + s.slice(1).toLowerCase()`. */
  function Capitalized(s: string): (r: string)
    ensures |r| == |s|
    ensures |s| > 0 ==> r[0] == Upper(s[0]) && forall i :: 1 <= i < |s| ==> r[i] == Lower(s[i])
  {
    if |s| == 0 then "" else [Upper(s[0])] + LowerString(s[1..])
  }

  /** The atmosphere of the reaction step: the parameter file's, or else
      the derived one, capitalised. */
  function ReactionStepAtmosphere(p: Sections, configured: Option<string>): (r: string)
    ensures configured.Some? && configured.value != "" ==> r == configured.value
    ensures configured.None? || configured == Some("") ==> (r == "Vacuum" || r == "Air")
    ensures configured.None? || configured == Some("") ==> (r == "Vacuum" <==> ReactionAtmosphere(p) == "vacuum")
  {
    if configured.Some? && configured.value != "" then configured.value
    else
      var a := ReactionAtmosphere(p);
      CapitalizedAtmospheres();
      Capitalized(a)
  }

  lemma CapitalizedAtmospheres()
    ensures Capitalized("vacuum") == "Vacuum" && Capitalized("air") == "Air"
  {
    assert Capitalized("vacuum") == "Vacuum";
    assert Capitalized("air") == "Air";
  }

  /** The `source` of the PXRD data: cobalt and copper Kα1 by their
      symbol, every other source "other". */
  function PxrdSource(xRaySource: string): (r: string)
    ensures r == "Co" <==> xRaySource == "Co Kα1"
    ensures r == "Cu" <==> xRaySource == "Cu Kα1"
    ensures r == "other" <==> xRaySource != "Co Kα1" && xRaySource != "Cu Kα1"
  {
    if xRaySource == "Co Kα1" then "Co" else if xRaySource == "Cu Kα1" then "Cu" else "other"
  }
}
