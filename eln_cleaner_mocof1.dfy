/** The MOCOF-1 specific cleaning of Sciformation ELN records
    (`use_case_specific/sciformation_cleaner_mocof1.py`).  Keywords in the
    realization text set the vessel, the degassing gas, the rinse solvents,
    a waiting time, the final solid wash and evaporation; the DO component
    gets its InChI corrected; reagent and solvent roles are refined to acid
    or catalyst by sum formula.  The source updates the record dicts in
    place; here every step maps a record to its new value. */
module ElnCleanerMocof1 {
  import opened Wrappers
  import opened Json
  import opened Strings
  import opened Seqs
  import opened ProcedureSchema
  import ElnCleaner

  /** One ELN record, a JSON object. */
  type Item = map<string, Json>

  /** What indexing a value that is not a dict with a string raises. */
  const NotSubscriptable := TypeError("indices must be integers")

  /** The two maps agree on `key`: both lack it or both map it to the same
      value. */
  predicate SameAt(a: Item, b: Item, key: string)
  {
    (key in a <==> key in b) && (key in a ==> a[key] == b[key])
  }

  /** The two maps agree on every key except `key`. */
  ghost predicate AgreeExcept(a: Item, b: Item, key: string)
  {
    forall k :: k != key ==> (k in a <==> k in b) && (k in a ==> a[k] == b[k])
  }

  // ---------------------------------------------------------------------
  // The realization text

  /** `text.split(...)`: only a string has `split`. */
  function TextOf(v: Json): Result<string>
  {
    if v.Str? then Ok(v.s) else Err(AttributeError("split"))
  }

  /** The part of the realization text the keywords are looked for in:
      everything before the first "XRD", stripped. */
  function Examined(t: string): string
  {
    Strip(Split(t, "XRD")[0])
  }

  /** `any(x in low for x in keys)`. */
  predicate MentionsAny(low: string, keys: seq<string>)
  {
    exists i :: 0 <= i < |keys| && Contains(low, keys[i])
  }

  const MicrowaveKeys: seq<string> := ["microwave vial"]
  const SchlenkKeys: seq<string> := ["pressure tube", "j. young tube", "schlenk bomb"]
  const DegassingKeys: seq<string> := ["fpt", "ar replace"]
  const SoakKeys: seq<string> := ["soxhlet", "open to air"]
  const ScCO2Keys: seq<string> := ["supercritical co2", "scco<sub>2</sub>", "scco2"]
  const MeOHFillKeys: seq<string> := ["samples under fillers", "meoh filled up"]

  /** The second piece of the case-sensitive split at "scCO", or "" when
      the text has none. */
  function AfterScCO(text: string): string
  {
    var parts := Split(text, "scCO");
    if |parts| > 1 then parts[1] else ""
  }

  predicate Evaporates(text: string)
  {
    Contains(LowerString(AfterScCO(text)), "vacuum")
  }

  /** What the keyword tests find in the examined text. */
  datatype Cues = Cues(
    microwaveVial: bool, schlenk: bool, degassing: bool, soak: bool,
    scCO2: bool, meohFill: bool, vacuum: bool)

  /** The keyword tests, all but the vacuum one on the lower-cased text. */
  function CuesOf(text: string): Cues
  {
    Cues(
      MentionsAny(LowerString(text), MicrowaveKeys), MentionsAny(LowerString(text), SchlenkKeys),
      MentionsAny(LowerString(text), DegassingKeys), MentionsAny(LowerString(text), SoakKeys),
      MentionsAny(LowerString(text), ScCO2Keys), MentionsAny(LowerString(text), MeOHFillKeys),
      Evaporates(text))
  }

  /** The reaction vessel the cues name. */
  function VesselOf(k: Cues): Result<string>
  {
    if k.microwaveVial then Ok("microwave vial")
    else if k.schlenk then Ok("Schlenk bomb")
    else Err(ValueError("Unknown reaction vessel"))
  }

  // ---------------------------------------------------------------------
  // Rinse solvents

  /** A rinse solvent: the lower-case key looked for in the text and in
      the component names, and the name recorded in `rinse`. */
  datatype RinseSolvent = RinseSolvent(key: string, recorded: string)

  /** The solvents as written: `solvent.lower()` records the key itself. */
  const RinseAsWritten: seq<RinseSolvent> := [
    RinseSolvent("acetone", "acetone"), RinseSolvent("et3n", "et3n"),
    RinseSolvent("mecn", "mecn"), RinseSolvent("nacl aq", "nacl aq"),
    RinseSolvent("dmf", "dmf"), RinseSolvent("chcl3", "chcl3"),
    RinseSolvent("meoh", "meoh"), RinseSolvent("etoh", "etoh")]

  /** The same keys, recording the `Solvent` spelling the procedure
      converter accepts. */
  const RinseIntended: seq<RinseSolvent> := [
    RinseSolvent("acetone", "acetone"), RinseSolvent("et3n", "Et3N"),
    RinseSolvent("mecn", "MeCN"), RinseSolvent("nacl aq", "NaCl aq"),
    RinseSolvent("dmf", "DMF"), RinseSolvent("chcl3", "CHCl3"),
    RinseSolvent("meoh", "MeOH"), RinseSolvent("etoh", "EtOH")]

  /** Of the recorded names as written only "acetone" is a `Solvent`
      value, so a record rinsed with any other solvent cannot be converted
      to a procedure. */
  lemma AsWrittenRinseRejected()
    ensures SolventOf(RinseAsWritten[0].recorded).Some?
    ensures forall i :: 1 <= i < |RinseAsWritten| ==> SolventOf(RinseAsWritten[i].recorded).None?
  {
    forall i | 1 <= i < |RinseAsWritten|
      ensures SolventOf(RinseAsWritten[i].recorded).None?
    {
      AsWrittenRejectedAt(i);
    }
  }

  lemma AsWrittenRejectedAt(i: nat)
    requires 1 <= i < |RinseAsWritten|
    ensures SolventOf(RinseAsWritten[i].recorded).None?
  {
    var r := RinseAsWritten[i].recorded;
    assert r == ["et3n", "mecn", "nacl aq", "dmf", "chcl3", "meoh", "etoh"][i - 1];
    assert SolventOf("et3n").None? && SolventOf("mecn").None? && SolventOf("nacl aq").None?;
    assert SolventOf("dmf").None? && SolventOf("chcl3").None? && SolventOf("meoh").None?;
    assert SolventOf("etoh").None?;
  }

  /** The intended table looks for the same keys in the same order and
      records only `Solvent` values. */
  lemma IntendedRinseAccepted()
    ensures |RinseIntended| == |RinseAsWritten|
    ensures forall i :: 0 <= i < |RinseIntended| ==> RinseIntended[i].key == RinseAsWritten[i].key
    ensures forall i :: 0 <= i < |RinseIntended| ==> SolventOf(RinseIntended[i].recorded).Some?
  {
    assert SolventOf(RinseIntended[0].recorded).Some?;
    assert SolventOf(RinseIntended[1].recorded).Some?;
    assert SolventOf(RinseIntended[2].recorded).Some?;
    assert SolventOf(RinseIntended[3].recorded).Some?;
    assert SolventOf(RinseIntended[4].recorded).Some?;
    assert SolventOf(RinseIntended[5].recorded).Some?;
    assert SolventOf(RinseIntended[6].recorded).Some?;
    assert SolventOf(RinseIntended[7].recorded).Some?;
  }

  /** `item['reactionComponents']` as `for component in ...` visits it. */
  function ComponentsOf(item: Item): Result<seq<Json>>
  {
    var v :- Index(item, "reactionComponents");
    ElnCleaner.Elements(v, NotSubscriptable)
  }

  /** `component['moleculeName'].lower()`. */
  function NameOf(c: Json): Result<string>
  {
    if !c.Obj? then Err(NotSubscriptable)
    else
      var n :- Index(c.fields, "moleculeName");
      if n.Str? then Ok(LowerString(n.s)) else Err(AttributeError("lower"))
  }

  /** `any(key in name for component in comps)`: stops at the first
      match, so components after it are not looked at. */
  function AnyNameContains(key: string, comps: seq<Json>): Result<bool>
    decreases |comps|
  {
    if |comps| == 0 then Ok(false)
    else
      var name :- NameOf(comps[0]);
      if Contains(name, key) then Ok(true) else AnyNameContains(key, comps[1..])
  }

  /** `rinse` as the record holds it, an absent list being empty. */
  function RinseList(m: Item): seq<Json>
  {
    if "rinse" in m && m["rinse"].Arr? then m["rinse"].items else []
  }

  /** `item.setdefault('rinse', []).append(name)`. */
  function AppendRinse(m: Item, name: string): Result<Item>
  {
    if "rinse" in m && !m["rinse"].Arr? then Err(AttributeError("append"))
    else Ok(m["rinse" := Arr(RinseList(m) + [Str(name)])])
  }

  /** One pass of the rinse loop. */
  function RinseStep(low: string, m: Item, s: RinseSolvent): Result<Item>
  {
    if !Contains(low, s.key) then Ok(m)
    else
      var comps :- ComponentsOf(m);
      var named :- AnyNameContains(s.key, comps);
      if named then Ok(m) else AppendRinse(m, s.recorded)
  }

  function RinseStepWith(low: string): (Item, RinseSolvent) -> Result<Item>
  {
    (m, s) => RinseStep(low, m, s)
  }

  /** The rinse loop over the solvent table. */
  function Rinsed(table: seq<RinseSolvent>, low: string, m: Item): Result<Item>
  {
    FoldResult(RinseStepWith(low), m, table)
  }

  /** A solvent is rinsed with when the text names it and no component's
      name contains it. */
  predicate Wanted(low: string, names: seq<string>, s: RinseSolvent)
  {
    Contains(low, s.key) && forall j :: 0 <= j < |names| ==> !Contains(names[j], s.key)
  }

  function WantedBy(low: string, names: seq<string>): RinseSolvent -> bool
  {
    s => Wanted(low, names, s)
  }

  /** The recorded names as JSON strings. */
  function RecordedNames(ss: seq<RinseSolvent>): (r: seq<Json>)
    ensures |r| == |ss| && forall i :: 0 <= i < |ss| ==> r[i] == Str(ss[i].recorded)
  {
    seq(|ss|, i requires 0 <= i < |ss| => Str(ss[i].recorded))
  }

  /** The record with `ss` appended to its rinse list; untouched when `ss`
      is empty. */
  function WithRinse(m: Item, ss: seq<RinseSolvent>): Item
  {
    if |ss| == 0 then m else m["rinse" := Arr(RinseList(m) + RecordedNames(ss))]
  }

  /** With well-formed components, `any` is an existential over their
      names. */
  lemma {:induction false} AnyNameContainsSpec(key: string, comps: seq<Json>, names: seq<string>)
    requires |names| == |comps| && forall i :: 0 <= i < |comps| ==> NameOf(comps[i]) == Ok(names[i])
    ensures AnyNameContains(key, comps) == Ok(exists j :: 0 <= j < |names| && Contains(names[j], key))
    decreases |comps|
  {
    if |comps| > 0 {
      AnyNameContainsSpec(key, comps[1..], names[1..]);
      if !Contains(names[0], key) {
        assert (exists j :: 0 <= j < |names| && Contains(names[j], key))
               == (exists j :: 0 <= j < |names[1..]| && Contains(names[1..][j], key)) by {
          if exists j :: 0 <= j < |names| && Contains(names[j], key) {
            var j :| 0 <= j < |names| && Contains(names[j], key);
            assert names[1..][j - 1] == names[j];
          }
        }
      }
    }
  }

  /** The rinse loop appends, in table order, exactly the wanted solvents:
      those the text names and no component name contains. */
  /** The condition on the record's components the rinse lemmas assume:
      they are a list of dicts whose lower-cased names are `names`. */
  predicate NamedComponents(m: Item, names: seq<string>)
  {
    ComponentsOf(m).Ok? && |names| == |ComponentsOf(m).value|
    && (forall i :: 0 <= i < |names| ==> NameOf(ComponentsOf(m).value[i]) == Ok(names[i]))
    && ("rinse" in m ==> m["rinse"].Arr?)
  }

  /** One pass of the rinse loop appends the solvent exactly when it is
      wanted. */
  lemma RinseStepSpec(low: string, m: Item, names: seq<string>, done: seq<RinseSolvent>, s: RinseSolvent)
    requires NamedComponents(m, names)
    ensures RinseStep(low, WithRinse(m, done), s)
            == Ok(WithRinse(m, done + if Wanted(low, names, s) then [s] else []))
  {
    var before := WithRinse(m, done);
    assert ComponentsOf(before) == ComponentsOf(m);
    AnyNameContainsSpec(s.key, ComponentsOf(m).value, names);
    if Wanted(low, names, s) {
      var x := Arr(RinseList(m) + RecordedNames(done + [s]));
      assert RinseList(before) + [Str(s.recorded)] == RinseList(m) + RecordedNames(done + [s]);
      assert before["rinse" := x] == m["rinse" := x];
    } else {
      assert done + [] == done;
      if Contains(low, s.key) {
        var j :| 0 <= j < |names| && Contains(names[j], s.key);
      }
    }
  }

  /** The rinse loop appends, in table order, exactly the wanted solvents:
      those the text names and no component name contains. */
  lemma {:induction false} RinsedSpec(table: seq<RinseSolvent>, low: string, m: Item, names: seq<string>)
    requires NamedComponents(m, names)
    ensures Rinsed(table, low, m) == Ok(WithRinse(m, Filter(WantedBy(low, names), table)))
    decreases |table|
  {
    if |table| > 0 {
      var init := table[..|table| - 1];
      var s := table[|table| - 1];
      assert table == init + [s];
      RinsedSpec(init, low, m, names);
      FilterAppend(WantedBy(low, names), init, [s]);
      assert Filter(WantedBy(low, names), [s]) == if Wanted(low, names, s) then [s] else [];
      RinseStepSpec(low, m, names, Filter(WantedBy(low, names), init), s);
    }
  }

  /** The components are read only for a solvent the text names: without
      one the rinse loop leaves the record alone, whatever it holds. */
  lemma {:induction false} RinsedUnnamed(table: seq<RinseSolvent>, low: string, m: Item)
    requires forall i :: 0 <= i < |table| ==> !Contains(low, table[i].key)
    ensures Rinsed(table, low, m) == Ok(m)
    decreases |table|
  {
    if |table| > 0 {
      RinsedUnnamed(table[..|table| - 1], low, m);
    }
  }

  /** The rinse loop changes nothing but `rinse`. */
  lemma {:induction false} RinsedFrame(table: seq<RinseSolvent>, low: string, m: Item)
    requires Rinsed(table, low, m).Ok?
    ensures AgreeExcept(Rinsed(table, low, m).value, m, "rinse")
    decreases |table|
  {
    if |table| > 0 {
      var init := table[..|table| - 1];
      RinsedFrame(init, low, m);
    }
  }

  // ---------------------------------------------------------------------
  // process_realization_text

  /** The record with its vessel and degassing set. */
  function Prepared(item: Item, k: Cues, vessel: string): Item
  {
    var withVessel := item["vessel" := Str(vessel)];
    if k.degassing then withVessel["degassing" := Str("Ar")] else withVessel
  }

  /** The waiting time, final wash and evaporation set after rinsing. */
  function Finished(m: Item, k: Cues): Item
  {
    var waited := if k.soak then m["wait_after_rinse" := Int(24)]["wait_after_rinse_unit" := Str("h")] else m;
    var washed := if k.scCO2 then waited["wash_solid" := Str("scCO2")] else waited;
    var filled := if k.meohFill then washed["wash_solid" := Str("MeOH+scCO2")] else washed;
    if k.vacuum then filled["evaporate" := Bool(true)] else filled
  }

  /** Everything the examined text says about the record, `low` being the
      text lower-cased and `k` its cues. */
  function AnnotatedBy(table: seq<RinseSolvent>, item: Item, low: string, k: Cues): Result<Item>
  {
    var vessel :- VesselOf(k);
    var rinsed :- Rinsed(table, low, Prepared(item, k, vessel));
    Ok(Finished(rinsed, k))
  }

  function Annotated(table: seq<RinseSolvent>, item: Item, text: string): Result<Item>
  {
    AnnotatedBy(table, item, LowerString(text), CuesOf(text))
  }

  /** One iteration of `process_realization_text`: records without a
      realization text are left alone. */
  function ProcessedItem(table: seq<RinseSolvent>, item: Item): Result<Item>
  {
    if "realizationText" !in item then Ok(item)
    else
      var t :- TextOf(item["realizationText"]);
      Annotated(table, item, Examined(t))
  }

  function ProcessedItemWith(table: seq<RinseSolvent>): Item -> Result<Item>
  {
    item => ProcessedItem(table, item)
  }

  /** Whatever follows the first "XRD" of the realization text is never
      looked at. */
  lemma OnlyBeforeXrd(table: seq<RinseSolvent>, item: Item, t: string, u: string)
    requires !Contains(t, "XRD")
    ensures var full := item["realizationText" := Str(t + "XRD" + u)];
            ProcessedItem(table, full) == Annotated(table, full, Strip(t))
  {
    XrdUnbordered();
    SplitBeforeFirst(t, "XRD", u);
    assert Examined(t + "XRD" + u) == Strip(t);
  }

  lemma XrdUnbordered()
    ensures Unbordered("XRD")
  {
    var sep := "XRD";
    assert sep[1..] == "RD" && sep[..2] == "XR";
    assert sep[2..] == "D" && sep[..1] == "X";
  }

  /** A text naming neither vessel raises. */
  lemma AnnotatedVesselUnknown(table: seq<RinseSolvent>, item: Item, low: string, k: Cues)
    requires !k.microwaveVial && !k.schlenk
    ensures AnnotatedBy(table, item, low, k) == Err(ValueError("Unknown reaction vessel"))
  {
  }

  /** The vessel: "microwave vial" wins over the Schlenk keywords. */
  lemma AnnotatedVessel(table: seq<RinseSolvent>, item: Item, low: string, k: Cues)
    requires AnnotatedBy(table, item, low, k).Ok?
    ensures k.microwaveVial || k.schlenk
    ensures "vessel" in AnnotatedBy(table, item, low, k).value
            && AnnotatedBy(table, item, low, k).value["vessel"]
               == Str(if k.microwaveVial then "microwave vial" else "Schlenk bomb")
  {
    RinsedFrame(table, low, Prepared(item, k, VesselOf(k).value));
  }

  /** Degassing is set to "Ar" exactly when "fpt" or "ar replace" occurs;
      otherwise it stays as it was. */
  lemma AnnotatedDegassing(table: seq<RinseSolvent>, item: Item, low: string, k: Cues)
    requires AnnotatedBy(table, item, low, k).Ok?
    ensures k.degassing ==>
              "degassing" in AnnotatedBy(table, item, low, k).value
              && AnnotatedBy(table, item, low, k).value["degassing"] == Str("Ar")
    ensures !k.degassing ==> SameAt(AnnotatedBy(table, item, low, k).value, item, "degassing")
  {
    RinsedFrame(table, low, Prepared(item, k, VesselOf(k).value));
  }

  /** A soxhlet or "open to air" text adds a 24 h wait after rinsing;
      otherwise the wait fields stay as they were. */
  lemma AnnotatedWait(table: seq<RinseSolvent>, item: Item, low: string, k: Cues)
    requires AnnotatedBy(table, item, low, k).Ok?
    ensures var r := AnnotatedBy(table, item, low, k).value;
            k.soak ==>
              "wait_after_rinse" in r && r["wait_after_rinse"] == Int(24)
              && "wait_after_rinse_unit" in r && r["wait_after_rinse_unit"] == Str("h")
    ensures var r := AnnotatedBy(table, item, low, k).value;
            !k.soak ==> SameAt(r, item, "wait_after_rinse") && SameAt(r, item, "wait_after_rinse_unit")
  {
    RinsedFrame(table, low, Prepared(item, k, VesselOf(k).value));
  }

  /** The final wash: "MeOH+scCO2" whenever the methanol keywords occur,
      whether or not scCO2 is named, else "scCO2" when it is named. */
  lemma AnnotatedWash(table: seq<RinseSolvent>, item: Item, low: string, k: Cues)
    requires AnnotatedBy(table, item, low, k).Ok?
    ensures var r := AnnotatedBy(table, item, low, k).value;
            k.meohFill ==> "wash_solid" in r && r["wash_solid"] == Str("MeOH+scCO2")
    ensures var r := AnnotatedBy(table, item, low, k).value;
            !k.meohFill && k.scCO2 ==> "wash_solid" in r && r["wash_solid"] == Str("scCO2")
    ensures var r := AnnotatedBy(table, item, low, k).value;
            !k.meohFill && !k.scCO2 ==> SameAt(r, item, "wash_solid")
  {
    RinsedFrame(table, low, Prepared(item, k, VesselOf(k).value));
  }

  /** `evaporate` is set when the vacuum test holds and otherwise stays as
      it was. */
  lemma AnnotatedEvaporate(table: seq<RinseSolvent>, item: Item, low: string, k: Cues)
    requires AnnotatedBy(table, item, low, k).Ok?
    ensures k.vacuum ==>
              "evaporate" in AnnotatedBy(table, item, low, k).value
              && AnnotatedBy(table, item, low, k).value["evaporate"] == Bool(true)
    ensures !k.vacuum ==> SameAt(AnnotatedBy(table, item, low, k).value, item, "evaporate")
  {
    RinsedFrame(table, low, Prepared(item, k, VesselOf(k).value));
  }

  /** The vacuum test spelled out: "vacuum", in any case, occurs in the
      piece between the first "scCO" and the next one. */
  lemma EvaporatesMeaning(text: string)
    ensures Evaporates(text) <==>
            exists k :: FirstOccurrence(text, "scCO", k)
                        && Contains(LowerString(Split(text[k + 4..], "scCO")[0]), "vacuum")
  {
    var parts := Split(text, "scCO");
    if |parts| > 1 {
      SplitRest(text, "scCO");
      var k0 := |parts[0]|;
      assert parts[1] == Split(text[k0 + 4..], "scCO")[0];
      forall k | FirstOccurrence(text, "scCO", k)
        ensures k == k0
      {
        assert !(k < k0) && !(k0 < k);
      }
    } else {
      SplitFirst(text, "scCO");
      ContainsSpec(text, "scCO");
      assert !StartsWith(LowerString(""), "vacuum");
    }
  }

  /** With well-formed components and no rinse list yet, the rinse list of
      a processed record holds the wanted solvents in table order. */
  lemma AnnotatedRinse(table: seq<RinseSolvent>, item: Item, low: string, k: Cues, names: seq<string>)
    requires AnnotatedBy(table, item, low, k).Ok?
    requires NamedComponents(item, names) && "rinse" !in item
    ensures var wanted := Filter(WantedBy(low, names), table);
            var r := AnnotatedBy(table, item, low, k).value;
            ("rinse" in r <==> |wanted| > 0)
            && (|wanted| > 0 ==> r["rinse"] == Arr(RecordedNames(wanted)))
  {
    var m := Prepared(item, k, VesselOf(k).value);
    assert ComponentsOf(m) == ComponentsOf(item);
    assert NamedComponents(m, names);
    RinsedSpec(table, low, m, names);
    assert RinseList(m) == [];
  }

  // ---------------------------------------------------------------------
  // Components: fix_inchi_code_for_do and use_more_detailed_reagent_roles

  /** `for component in item['reactionComponents']: update(component)`,
      writing the updated components back into the list. */
  function WithComponents(f: Json -> Result<Json>, item: Item): Result<Item>
  {
    var v :- Index(item, "reactionComponents");
    var comps :- ElnCleaner.Elements(v, NotSubscriptable);
    var updated :- MapResult(f, comps);
    Ok(if v.Arr? then item["reactionComponents" := Arr(updated)] else item)
  }

  function WithComponentsOf(f: Json -> Result<Json>): Item -> Result<Item>
  {
    item => WithComponents(f, item)
  }

  /** Only the component list changes, each component by `f`. */
  lemma WithComponentsSpec(f: Json -> Result<Json>, item: Item)
    requires WithComponents(f, item).Ok?
    ensures AgreeExcept(WithComponents(f, item).value, item, "reactionComponents")
    ensures item["reactionComponents"].Arr? ==>
              var comps := item["reactionComponents"].items;
              var out := WithComponents(f, item).value["reactionComponents"];
              out.Arr? && |out.items| == |comps|
              && forall i :: 0 <= i < |comps| ==> f(comps[i]) == Ok(out.items[i])
    ensures !item["reactionComponents"].Arr? ==> WithComponents(f, item).value == item
  {
  }

  const DoInchi := "InChI=1S/C4H8O2/c1-2-6-4-3-5-1/h1-4H2"

  /** The InChI fix for one component named exactly "DO". */
  function FixedInchi(c: Json): Result<Json>
  {
    if !c.Obj? then Err(NotSubscriptable)
    else
      var name :- Index(c.fields, "moleculeName");
      Ok(if name == Str("DO") then Obj(c.fields["inchi" := Str(DoInchi)]) else c)
  }

  /** Components named "DO" get the corrected InChI and no other field
      changes; other components are untouched; fixing twice changes
      nothing more. */
  lemma FixedInchiSpec(c: Json)
    requires FixedInchi(c).Ok?
    ensures c.Obj? && "moleculeName" in c.fields
    ensures c.fields["moleculeName"] == Str("DO") ==>
              var r := FixedInchi(c).value;
              r.Obj? && r.fields["inchi"] == Str(DoInchi) && AgreeExcept(r.fields, c.fields, "inchi")
    ensures c.fields["moleculeName"] != Str("DO") ==> FixedInchi(c).value == c
    ensures FixedInchi(FixedInchi(c).value) == FixedInchi(c)
  {
    if c.fields["moleculeName"] == Str("DO") {
      var r := FixedInchi(c).value;
      assert r.fields["inchi" := Str(DoInchi)] == r.fields;
    }
  }

  const AcidFormulas: seq<string> := [
    "C2H4O2", "C5H10O2", "C7H6O2", "3CHF3O3S.Sc", "C6H5NO3", "C6H4N2O5",
    "C6H5BrO", "C6H4ClNO3", "C7H5NO", "C7H4N2O6", "C6HF5O", "C2HF3O2"]

  const CatalystFormulas: seq<string> := ["H2O", "C6H6BrN", "C6H6N2O2", "C4H9N"]

  predicate Refinable(role: Json)
  {
    role == Str("reagent") || role == Str("solvent")
  }

  /** The role refinement for one component. */
  function DetailedRole(c: Json): Result<Json>
  {
    if !c.Obj? then Err(NotSubscriptable)
    else
      var role :- Index(c.fields, "rxnRole");
      if !Refinable(role) then Ok(c)
      else
        var formula :- Index(c.fields, "empFormula");
        if formula.Str? && formula.s in AcidFormulas then Ok(Obj(c.fields["rxnRole" := Str("acid")]))
        else if formula.Str? && formula.s in CatalystFormulas then Ok(Obj(c.fields["rxnRole" := Str("catalyst")]))
        else Ok(c)
  }

  /** Only a reagent or solvent changes role, to "acid" for an acid
      formula and otherwise to "catalyst" for a catalyst formula; no other
      field changes.  Only reagents and solvents need a formula. */
  lemma DetailedRoleSpec(c: Json)
    ensures DetailedRole(c).Ok? <==>
            c.Obj? && "rxnRole" in c.fields && (Refinable(c.fields["rxnRole"]) ==> "empFormula" in c.fields)
    ensures DetailedRole(c).Ok? ==>
              var r := DetailedRole(c).value;
              var f := Get(c.fields, "empFormula");
              r.Obj? && AgreeExcept(r.fields, c.fields, "rxnRole") && "rxnRole" in r.fields
              && r.fields["rxnRole"]
                 == if !Refinable(c.fields["rxnRole"]) then c.fields["rxnRole"]
                    else if f.Str? && f.s in AcidFormulas then Str("acid")
                    else if f.Str? && f.s in CatalystFormulas then Str("catalyst")
                    else c.fields["rxnRole"]
  {
  }

  /** A refined role is not refined again. */
  lemma DetailedRoleIdempotent(c: Json)
    requires DetailedRole(c).Ok?
    ensures DetailedRole(DetailedRole(c).value) == DetailedRole(c)
  {
    var r := DetailedRole(c).value;
    if Refinable(c.fields["rxnRole"]) && r != c {
      assert !Refinable(r.fields["rxnRole"]);
    }
  }

  // ---------------------------------------------------------------------
  // process_data_use_case_specific

  /** The three passes in order: the realization text, the DO InChI fix
      and the role refinement. */
  function ProcessedData(table: seq<RinseSolvent>, data: seq<Item>): Result<seq<Item>>
  {
    var texts :- MapResult(ProcessedItemWith(table), data);
    var fixed :- MapResult(WithComponentsOf(FixedInchi), texts);
    MapResult(WithComponentsOf(DetailedRole), fixed)
  }

  // ---------------------------------------------------------------------
  // The loops

  /** The rinse loop of `process_realization_text`. */
  method RinseLoop(table: seq<RinseSolvent>, low: string, m0: Item) returns (r: Result<Item>)
    ensures r == Rinsed(table, low, m0)
  {
    var m := m0;
    for i := 0 to |table|
      invariant FoldResult(RinseStepWith(low), m0, table[..i]) == Ok(m)
    {
      assert table[..i + 1][..i] == table[..i];
      var next := RinseStep(low, m, table[i]);
      if next.Err? {
        FoldResultPrefixError(RinseStepWith(low), m0, table, i + 1);
        return Err(next.error);
      }
      m := next.value;
    }
    assert table[..|table|] == table;
    return Ok(m);
  }

  /** The body of the `process_realization_text` loop for one record. */
  method ProcessItem(table: seq<RinseSolvent>, item: Item) returns (r: Result<Item>)
    ensures r == ProcessedItem(table, item)
  {
    if "realizationText" !in item {
      return Ok(item);
    }
    var t := TextOf(item["realizationText"]);
    if t.Err? {
      return Err(t.error);
    }
    var text := Examined(t.value);
    r := Annotate(table, item, LowerString(text), CuesOf(text));
  }

  /** The keyword steps of the loop body, given the lower-cased text `low`
      and what the keyword tests found in it. */
  method Annotate(table: seq<RinseSolvent>, item: Item, low: string, k: Cues) returns (r: Result<Item>)
    ensures r == AnnotatedBy(table, item, low, k)
  {
    var vessel := VesselOf(k);
    if vessel.Err? {
      return Err(vessel.error);
    }
    var m := item["vessel" := Str(vessel.value)];
    if k.degassing {
      m := m["degassing" := Str("Ar")];
    }
    assert m == Prepared(item, k, vessel.value);
    var rinsed := RinseLoop(table, low, m);
    if rinsed.Err? {
      return Err(rinsed.error);
    }
    m := rinsed.value;
    if k.soak {
      m := m["wait_after_rinse" := Int(24)];
      m := m["wait_after_rinse_unit" := Str("h")];
    }
    if k.scCO2 {
      m := m["wash_solid" := Str("scCO2")];
    }
    if k.meohFill {
      m := m["wash_solid" := Str("MeOH+scCO2")];
    }
    if k.vacuum {
      m := m["evaporate" := Bool(true)];
    }
    assert m == Finished(rinsed.value, k);
    return Ok(m);
  }

  /** `process_realization_text`: every record in turn, stopping at the
      first exception. */
  method ProcessRealizationText(table: seq<RinseSolvent>, data: seq<Item>) returns (r: Result<seq<Item>>)
    ensures r == MapResult(ProcessedItemWith(table), data)
  {
    var out: seq<Item> := [];
    for i := 0 to |data|
      invariant MapResult(ProcessedItemWith(table), data[..i]) == Ok(out)
    {
      assert data[..i + 1][..i] == data[..i];
      var x := ProcessItem(table, data[i]);
      if x.Err? {
        MapResultPrefixError(ProcessedItemWith(table), data, i + 1);
        return Err(x.error);
      }
      out := out + [x.value];
    }
    assert data[..|data|] == data;
    return Ok(out);
  }

  /** The inner loop over one record's components. */
  method UpdateComponents(f: Json -> Result<Json>, item: Item) returns (r: Result<Item>)
    ensures r == WithComponents(f, item)
  {
    var v := Index(item, "reactionComponents");
    if v.Err? {
      return Err(v.error);
    }
    var comps := ElnCleaner.Elements(v.value, NotSubscriptable);
    if comps.Err? {
      return Err(comps.error);
    }
    var updated := MapEach(f, comps.value);
    if updated.Err? {
      return Err(updated.error);
    }
    if v.value.Arr? {
      return Ok(item["reactionComponents" := Arr(updated.value)]);
    }
    return Ok(item);
  }

  /** The nested loops of `fix_inchi_code_for_do` and
      `use_more_detailed_reagent_roles`: every component of every record. */
  method ForEachComponent(f: Json -> Result<Json>, data: seq<Item>) returns (r: Result<seq<Item>>)
    ensures r == MapResult(WithComponentsOf(f), data)
  {
    var out: seq<Item> := [];
    for i := 0 to |data|
      invariant MapResult(WithComponentsOf(f), data[..i]) == Ok(out)
    {
      assert data[..i + 1][..i] == data[..i];
      var x := UpdateComponents(f, data[i]);
      if x.Err? {
        MapResultPrefixError(WithComponentsOf(f), data, i + 1);
        return Err(x.error);
      }
      out := out + [x.value];
    }
    assert data[..|data|] == data;
    return Ok(out);
  }

  /** `process_data_use_case_specific`. */
  method ProcessDataUseCaseSpecific(table: seq<RinseSolvent>, data: seq<Item>) returns (r: Result<seq<Item>>)
    ensures r == ProcessedData(table, data)
  {
    var texts := ProcessRealizationText(table, data);
    if texts.Err? {
      return Err(texts.error);
    }
    var fixed := ForEachComponent(FixedInchi, texts.value);
    if fixed.Err? {
      return Err(fixed.error);
    }
    r := ForEachComponent(DetailedRole, fixed.value);
  }
}
