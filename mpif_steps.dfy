/** The procedure side of the MOFSY to MPIF exporter
    (`scripts/mofsy2mpif/src/mofsy2mpif.ts`): the search for the step that
    uses a reagent or has a type, and the sentences that describe the steps
    of a section.

    JavaScript prints numbers with its own formatting; the model takes that
    formatting as the parameter `show`. */
module MpifSteps {
  import opened Wrappers
  import opened Strings
  import opened Seqs

  /** The `$xml_type` of a step. */
  datatype XmlType = Add | Dry | EvacuateAndRefill | Evaporate | HeatChill | Sonicate | Wait | WashSolid

  /** A quantity of a step; both parts may be `undefined`. */
  datatype Quantity = Quantity(unit: Option<string>, value: Option<real>)

  /** A step of a procedure section with the attributes the exporter reads. */
  datatype Step = Step(xmlType: XmlType, amount: Option<Quantity>, reagent: Option<string>, solvent: Option<string>,
                       temp: Option<Quantity>, time: Option<Quantity>, comment: Option<string>)

  /** The `Step` lists of the `Prep`, `Reaction` and `Workup` sections. */
  datatype Sections = Sections(prep: seq<Step>, reaction: seq<Step>, workup: seq<Step>)

  // ---------------------------------------------------------------------
  // Step search

  /** `_reagent` or `_solvent` is the id; JavaScript's `===` makes an
      `undefined` id match a step without that attribute. */
  function UsesReagent(id: Option<string>): Step -> bool
  {
    (s: Step) => s.reagent == id || s.solvent == id
  }

  /** `findStepByReagent`: the first matching step of `Prep`, then of
      `Reaction`, then of `Workup`. */
  function FindStepByReagent(p: Sections, id: Option<string>): (r: Option<Step>)
    ensures r == First(UsesReagent(id), p.prep + p.reaction + p.workup)
    ensures r.Some? ==> r.value.reagent == id || r.value.solvent == id
  {
    FirstAppend(UsesReagent(id), p.prep + p.reaction, p.workup);
    FirstAppend(UsesReagent(id), p.prep, p.reaction);
    var inPrep := First(UsesReagent(id), p.prep);
    if inPrep.Some? then inPrep
    else
      var inReaction := First(UsesReagent(id), p.reaction);
      if inReaction.Some? then inReaction else First(UsesReagent(id), p.workup)
  }

  function OfType(t: XmlType): Step -> bool
  {
    (s: Step) => s.xmlType == t
  }

  /** `findStepByType`: the first step of that type in `Reaction`, then in
      `Prep`, then in `Workup`. */
  function FindStepByType(p: Sections, t: XmlType): (r: Option<Step>)
    ensures r == First(OfType(t), p.reaction + p.prep + p.workup)
    ensures r.Some? ==> r.value.xmlType == t
  {
    FirstAppend(OfType(t), p.reaction + p.prep, p.workup);
    FirstAppend(OfType(t), p.reaction, p.prep);
    var inReaction := First(OfType(t), p.reaction);
    if inReaction.Some? then inReaction
    else
      var inPrep := First(OfType(t), p.prep);
      if inPrep.Some? then inPrep else First(OfType(t), p.workup)
  }

  /** A step is found exactly when some section has one, and it comes from
      the first section, in search order, that has one. */
  lemma FindStepByReagentSections(p: Sections, id: Option<string>)
    ensures var r := FindStepByReagent(p, id);
            (r.None? <==> (forall i :: 0 <= i < |p.prep| ==> !UsesReagent(id)(p.prep[i]))
                          && (forall i :: 0 <= i < |p.reaction| ==> !UsesReagent(id)(p.reaction[i]))
                          && (forall i :: 0 <= i < |p.workup| ==> !UsesReagent(id)(p.workup[i])))
            && ((exists i :: 0 <= i < |p.prep| && UsesReagent(id)(p.prep[i])) ==> r.Some? && r.value in p.prep)
  {
    var all := p.prep + p.reaction + p.workup;
    assert forall i :: 0 <= i < |p.prep| ==> all[i] == p.prep[i];
    assert forall i :: 0 <= i < |p.reaction| ==> all[|p.prep| + i] == p.reaction[i];
    assert forall i :: 0 <= i < |p.workup| ==> all[|p.prep| + |p.reaction| + i] == p.workup[i];
  }

  /** The type search looks at `Reaction` before `Prep`: a reaction step of
      that type wins over any preparation step. */
  lemma FindStepByTypeReactionFirst(p: Sections, t: XmlType, i: nat)
    requires i < |p.reaction| && p.reaction[i].xmlType == t
    ensures FindStepByType(p, t).Some? && FindStepByType(p, t).value in p.reaction
  {
    assert OfType(t)(p.reaction[i]);
  }

  // ---------------------------------------------------------------------
  // Sentences

  /** A number in a template literal; `undefined` prints as such. */
  function Shown(show: real -> string, v: Option<real>): string
  {
    if v.Some? then show(v.value) else "undefined"
  }

  /** `${q ? q.Value : ''}`. */
  function ValueText(show: real -> string, q: Option<Quantity>): string
  {
    if q.Some? then Shown(show, q.value.value) else ""
  }

  /** `${q ? q.Unit : ''}`. */
  function UnitText(q: Option<Quantity>): string
  {
    if q.Some? then (if q.value.unit.Some? then q.value.unit.value else "undefined") else ""
  }

  /** `${step._reagent || step._solvent}`. */
  function ReagentText(s: Step): string
  {
    if s.reagent.Some? && s.reagent.value != "" then s.reagent.value
    else if s.solvent.Some? then s.solvent.value
    else "undefined"
  }

  /** `step._temp && step._temp.Value && step._temp.Value > 25`. */
  predicate AboveRoomTemperature(s: Step)
  {
    s.temp.Some? && s.temp.value.value.Some? && s.temp.value.value.value > 25.0
  }

  /** `step._time && step._time.Value`: a time that is given and not 0. */
  predicate HasTime(s: Step)
  {
    s.time.Some? && s.time.value.value.Some? && s.time.value.value.value != 0.0
  }

  /** " for <value> <unit>" of the step's time. */
  function ForTime(show: real -> string, s: Step): string
  {
    " for " + ValueText(show, s.time) + " " + UnitText(s.time)
  }

  /** The sentence the `switch` of `stringifySteps` appends for one step;
      every sentence ends in ". ". */
  function StepText(show: real -> string, s: Step): (r: string)
    ensures EndsWith(r, ". ")
  {
    var body := match s.xmlType
      case Add => "Add " + ValueText(show, s.amount) + " " + UnitText(s.amount) + " of " + ReagentText(s)
      case HeatChill =>
        (if AboveRoomTemperature(s) then "Heat" else "Chill")
        + " to " + ValueText(show, s.temp) + " " + UnitText(s.temp) + ForTime(show, s)
      case Dry => if HasTime(s) then "Dry" + ForTime(show, s) else "Dry"
      case EvacuateAndRefill => "Degas the reaction mixture"
      case Wait => "Wait" + ForTime(show, s)
      case Evaporate => "Evaporate solvent"
      case Sonicate => "Sonicate" + ForTime(show, s)
      case WashSolid =>
        "Wash solid with " + (if s.solvent.Some? then s.solvent.value else "")
        + (if s.amount.Some? then " " + Shown(show, s.amount.value.value) else "")
        + (if s.amount.Some? then " " + UnitText(s.amount) else "");
    assert (body + ". ")[|body + ". "| - 2..] == ". ";
    body + ". "
  }

  function StepTextOf(show: real -> string): Step -> string
  {
    (s: Step) => StepText(show, s)
  }

  /** The text `stringifySteps` returns for `steps`. */
  function StepsText(show: real -> string, steps: seq<Step>): string
  {
    Concat(StepTextOf(show), steps)
  }

  /** `stringifySteps(steps)`: one sentence per step, appended in order. */
  method StringifySteps(show: real -> string, steps: seq<Step>) returns (result: string)
    ensures result == StepsText(show, steps)
  {
    result := "";
    for i := 0 to |steps|
      invariant result == StepsText(show, steps[..i])
    {
      ConcatStep(StepTextOf(show), steps, i);
      result := result + StepText(show, steps[i]);
    }
    assert steps[..|steps|] == steps;
  }

  // ---------------------------------------------------------------------
  // Properties of the sentences

  lemma PrefixStarts(a: string, b: string)
    ensures StartsWith(a + b, a)
  {
    assert (a + b)[..|a|] == a;
  }

  /** A text that differs from `a` at position `i` does not start with
      `a`. */
  lemma DiffersAt(t: string, a: string, i: nat)
    requires i < |a| && i < |t| && t[i] != a[i]
    ensures !StartsWith(t, a)
  {
    if |a| <= |t| {
      assert t[..|a|][i] == t[i];
    }
  }

  /** A HeatChill step reads "Heat" exactly when its temperature is given
      and above 25, and "Chill" otherwise. */
  lemma HeatChillVerb(show: real -> string, s: Step)
    requires s.xmlType == HeatChill
    ensures StartsWith(StepText(show, s), "Heat ") <==> AboveRoomTemperature(s)
    ensures StartsWith(StepText(show, s), "Chill ") <==> !AboveRoomTemperature(s)
  {
    var t := StepText(show, s);
    if AboveRoomTemperature(s) {
      PrefixStarts("Heat ", t[5..]);
      DiffersAt(t, "Chill ", 0);
    } else {
      PrefixStarts("Chill ", t[6..]);
      DiffersAt(t, "Heat ", 0);
    }
  }

  /** A Dry step without a time, or with time 0, is the sentence "Dry. ". */
  lemma DryWithoutTime(show: real -> string, s: Step)
    requires s.xmlType == Dry
    ensures StepText(show, s) == "Dry. " <==> !HasTime(s)
  {
    if HasTime(s) {
      assert |StepText(show, s)| > 5;
    }
  }

  /** The text of a list of steps is the texts of its parts, in order. */
  lemma StepsTextAppend(show: real -> string, xs: seq<Step>, ys: seq<Step>)
    ensures StepsText(show, xs + ys) == StepsText(show, xs) + StepsText(show, ys)
  {
    ConcatAppend(StepTextOf(show), xs, ys);
  }
}
