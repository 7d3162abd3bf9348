/** The conversion of the MIL spreadsheet export into MOFSY
    (`mil2mofsy.py`): the unit-string normalisation of its `format_*`
    helpers, and the converter loop that builds one synthesis and one
    characterization entry per experiment. */
module MilToMofsy {
  import opened Wrappers
  import opened Strings
  import opened ProcedureSchema
  import Ch = CharacterizationSchema
  import opened Seqs
  import opened PxrdCollector

  // ---------------------------------------------------------------------
  // Unit strings

  /** The temperature units the converter accepts. */
  const CelsiusUnits: seq<string> := ["C", "°C", "deg C"]

  /** `format_temperature`: a unit other than Celsius is a `ValueError`;
      `RT` reads as 25, and `evaluate` is sympy's value of the text. */
  function FormatTemperature(temp: string, unit: string, evaluate: string -> real): (r: Result<Temperature>)
    ensures r.Ok? <==> unit in CelsiusUnits
    ensures r.Ok? ==> r.value.unit == Some(TempCelsius) && r.value.value == evaluate(ReplaceAll(temp, "RT", "25"))
    ensures r.Err? ==> r.error.ValueError?
  {
    if unit !in CelsiusUnits then
      Err(ValueError("Only Celsius is supported as temperature unit in converter, but got " + unit))
    else Ok(Temperature(Some(TempCelsius), evaluate(ReplaceAll(temp, "RT", "25"))))
  }

  /** The mass unit strings and the unit each stands for. */
  const MassAliases: seq<(string, AmountUnit)> := [("mg", Milligram), ("mmol", Millimole)]

  /** `format_mass`: a missing value or unit is −1 without a unit. */
  function FormatMass(mass: Option<real>, unit: Option<string>): Result<Quantity>
  {
    if mass.None? || unit.None? then Ok(Quantity(None, -1.0))
    else if unit.value == "mg" then Ok(Quantity(Some(Milligram), mass.value))
    else if unit.value == "mmol" then Ok(Quantity(Some(Millimole), mass.value))
    else Err(ValueError("Only mg is supported as mass unit in converter, but got " + unit.value))
  }

  /** A mass with a unit string is converted exactly when the string is in
      the alias table, and then to the unit the table gives; a missing
      value or unit gives the −1 placeholder. */
  lemma FormatMassTable(mass: Option<real>, unit: Option<string>)
    ensures mass.None? || unit.None? ==> FormatMass(mass, unit) == Ok(Quantity(None, -1.0))
    ensures mass.Some? && unit.Some? ==>
              (FormatMass(mass, unit).Ok? <==> exists i :: 0 <= i < |MassAliases| && MassAliases[i].0 == unit.value)
    ensures forall i :: 0 <= i < |MassAliases| && mass.Some? && unit == Some(MassAliases[i].0) ==>
              FormatMass(mass, unit) == Ok(Quantity(Some(MassAliases[i].1), mass.value))
  {
    if mass.Some? && unit.Some? && FormatMass(mass, unit).Ok? {
      assert MassAliases[if unit.value == "mg" then 0 else 1].0 == unit.value;
    }
  }

  /** The volume unit strings, in lower case, and the unit each stands for. */
  const VolumeAliases: seq<(string, AmountUnit)> := [
    ("ml", Millilitre),
    ("l", Litre), ("lt", Litre), ("liter", Litre), ("litre", Litre),
    ("µl", Microlitre), ("ul", Microlitre), ("microliter", Microlitre), ("microlitre", Microlitre), ("μl", Microlitre)]

  /** `format_amount_volume`: the unit is compared in lower case; a missing
      amount is −1 without a unit. */
  function FormatAmountVolume(amount: Option<real>, unit: string): Result<Quantity>
  {
    if amount.None? then Ok(Quantity(None, -1.0))
    else if LowerString(unit) == "ml" then Ok(Quantity(Some(Millilitre), amount.value))
    else if LowerString(unit) in ["l", "lt", "liter", "litre"] then Ok(Quantity(Some(Litre), amount.value))
    else if LowerString(unit) in ["µl", "ul", "microliter", "microlitre", "μl"] then Ok(Quantity(Some(Microlitre), amount.value))
    else Err(ValueError(unit + " is not supported as volume unit in converter"))
  }

  /** A volume is converted exactly when the lower-cased unit is in the
      alias table, and then keeps its value with the unit the table gives. */
  lemma FormatAmountVolumeTable(x: real, unit: string)
    ensures FormatAmountVolume(Some(x), unit).Ok?
            <==> exists i :: 0 <= i < |VolumeAliases| && VolumeAliases[i].0 == LowerString(unit)
    ensures forall i :: 0 <= i < |VolumeAliases| && VolumeAliases[i].0 == LowerString(unit) ==>
              FormatAmountVolume(Some(x), unit) == Ok(Quantity(Some(VolumeAliases[i].1), x))
    ensures FormatAmountVolume(Some(x), unit).Err? ==> FormatAmountVolume(Some(x), unit).error.ValueError?
  {
    var u := LowerString(unit);
    if FormatAmountVolume(Some(x), unit).Ok? {
      var i := if u == "ml" then 0 else if u == "l" then 1 else if u == "lt" then 2 else if u == "liter" then 3
               else if u == "litre" then 4 else if u == "µl" then 5 else if u == "ul" then 6
               else if u == "microliter" then 7 else if u == "microlitre" then 8 else 9;
      assert VolumeAliases[i].0 == u;
    }
  }

  /** Units that agree in lower case convert alike: `mL`, `ML` and `ml`. */
  lemma FormatAmountVolumeCaseInsensitive(amount: Option<real>, s: string, t: string)
    requires LowerString(s) == LowerString(t)
    ensures FormatAmountVolume(amount, s).Ok? <==> FormatAmountVolume(amount, t).Ok?
    ensures FormatAmountVolume(amount, s).Ok? ==> FormatAmountVolume(amount, s) == FormatAmountVolume(amount, t)
  {
  }

  /** Upper-casing a unit does not change how it converts. */
  lemma UpperStringLower(s: string)
    ensures LowerString(UpperString(s)) == LowerString(s)
  {
    forall i | 0 <= i < |s| ensures LowerString(UpperString(s))[i] == LowerString(s)[i] {
      CaseRoundTrip(s[i]);
    }
  }

  /** The time unit strings and the unit each stands for. */
  const TimeAliases: seq<(string, AmountUnit)> := [
    ("h", Hour), ("hour", Hour), ("hours", Hour),
    ("min", Minute), ("mins", Minute), ("minute", Minute), ("minutes", Minute),
    ("s", Second), ("sec", Second), ("secs", Second), ("second", Second), ("seconds", Second),
    ("d", Day), ("day", Day), ("days", Day)]

  /** `format_time`: a missing value or unit is −1 without a unit. */
  function FormatTime(time: Option<real>, unit: Option<string>): Result<Time>
  {
    if time.None? || unit.None? then Ok(Time(-1.0, None))
    else if unit.value in ["h", "hour", "hours"] then Ok(Time(time.value, Some(Hour)))
    else if unit.value in ["min", "mins", "minute", "minutes"] then Ok(Time(time.value, Some(Minute)))
    else if unit.value in ["s", "sec", "secs", "second", "seconds"] then Ok(Time(time.value, Some(Second)))
    else if unit.value in ["d", "day", "days"] then Ok(Time(time.value, Some(Day)))
    else Err(ValueError("Unknown time unit in " + unit.value))
  }

  /** Every unit of the alias table converts a time, keeping its value,
      to the unit the table gives. */
  lemma FormatTimeAlias(x: real, i: nat)
    requires i < |TimeAliases|
    ensures FormatTime(Some(x), Some(TimeAliases[i].0)) == Ok(Time(x, Some(TimeAliases[i].1)))
  {
  }

  /** A unit outside the alias table is a `ValueError`. */
  lemma FormatTimeUnknown(x: real, unit: string)
    requires forall i :: 0 <= i < |TimeAliases| ==> TimeAliases[i].0 != unit
    ensures FormatTime(Some(x), Some(unit)).Err? && FormatTime(Some(x), Some(unit)).error.ValueError?
  {
    assert TimeAliases[0].0 != unit && TimeAliases[1].0 != unit && TimeAliases[2].0 != unit && TimeAliases[3].0 != unit && TimeAliases[4].0 != unit && TimeAliases[5].0 != unit && TimeAliases[6].0 != unit && TimeAliases[7].0 != unit && TimeAliases[8].0 != unit && TimeAliases[9].0 != unit && TimeAliases[10].0 != unit && TimeAliases[11].0 != unit && TimeAliases[12].0 != unit && TimeAliases[13].0 != unit && TimeAliases[14].0 != unit;
  }

  // ---------------------------------------------------------------------
  // Lengths

  /** `float(s)`; `parseFloat` is Python's reading of a decimal literal. */
  function FloatOf(s: string, parseFloat: string -> Option<real>): (r: Result<real>)
    ensures r.Ok? <==> parseFloat(s).Some?
    ensures r.Ok? ==> r.value == parseFloat(s).value
  {
    if parseFloat(s).None? then Err(ValueError("could not convert string to float: " + s))
    else Ok(parseFloat(s).value)
  }

  /** How many millimetres one of a length unit is. */
  function MillimetresPer(u: Ch.Unit): real
  {
    match u
    case Millimeter => 1.0
    case Centimeter => 10.0
    case Meter => 1000.0
    case _ => 0.0
  }

  /** The length a characterization quantity states, in millimetres. */
  function Millimetres(q: Ch.Quantity): real
  {
    q.value * MillimetresPer(q.unit)
  }

  /** `format_length` as the source writes it: a centimetre or metre value
      is multiplied into millimetres but keeps the unit it was given in. */
  function FormatLengthAsWritten(length: string, parseFloat: string -> Option<real>): (r: Result<Ch.Quantity>)
    ensures r.Ok? ==> EndsWith(length, "m")
    ensures !EndsWith(length, "m") ==> r.Err? && r.error.ValueError?
    ensures r.Ok? && EndsWith(length, "cm") ==> r.value.unit == Ch.Centimeter
    ensures r.Ok? && !EndsWith(length, "mm") && !EndsWith(length, "cm") ==> r.value.unit == Ch.Meter
  {
    if EndsWith(length, "mm") then
      var x :- FloatOf(length[..|length| - 2], parseFloat);
      Ok(Ch.Quantity(Ch.Millimeter, x))
    else if EndsWith(length, "cm") then
      var x :- FloatOf(length[..|length| - 2], parseFloat);
      Ok(Ch.Quantity(Ch.Centimeter, x * 10.0))
    else if EndsWith(length, "m") then
      var x :- FloatOf(length[..|length| - 1], parseFloat);
      Ok(Ch.Quantity(Ch.Meter, x * 1000.0))
    else Err(ValueError("Unknown length unit in " + length))
  }

  /** As written, `1cm` is stated as 10 centimetres, that is, 100 mm. */
  lemma FormatLengthAsWrittenScalesTwice(parseFloat: string -> Option<real>)
    requires parseFloat("1") == Some(1.0)
    ensures FormatLengthAsWritten("1cm", parseFloat) == Ok(Ch.Quantity(Ch.Centimeter, 10.0))
    ensures Millimetres(FormatLengthAsWritten("1cm", parseFloat).value) == 100.0
  {
    assert EndsWith("1cm", "cm") && !EndsWith("1cm", "mm");
    assert "1cm"[..1] == "1";
  }

  /** `format_length` with the unit the scaled value is in: millimetres.
      `mm` is checked before `m`, so a millimetre length is not read as
      metres; anything else is a `ValueError`. */
  function FormatLength(length: string, parseFloat: string -> Option<real>): (r: Result<Ch.Quantity>)
    ensures r.Ok? ==> r.value.unit == Ch.Millimeter && EndsWith(length, "m")
    ensures !EndsWith(length, "m") ==> r.Err? && r.error.ValueError?
  {
    if EndsWith(length, "mm") then
      var x :- FloatOf(length[..|length| - 2], parseFloat);
      Ok(Ch.Quantity(Ch.Millimeter, x))
    else if EndsWith(length, "cm") then
      var x :- FloatOf(length[..|length| - 2], parseFloat);
      Ok(Ch.Quantity(Ch.Millimeter, x * 10.0))
    else if EndsWith(length, "m") then
      var x :- FloatOf(length[..|length| - 1], parseFloat);
      Ok(Ch.Quantity(Ch.Millimeter, x * 1000.0))
    else Err(ValueError("Unknown length unit in " + length))
  }

  /** The length units a diameter may carry, with their size in mm. */
  function SuffixMillimetres(suffix: string): real
  {
    if suffix == "mm" then 1.0 else if suffix == "cm" then 10.0 else 1000.0
  }

  /** A number followed by `mm`, `cm` or `m` is converted to the length it
      denotes, in millimetres.  The number must not end in `m` or `c`, or
      the unit would be read differently. */
  lemma FormatLengthMeaning(number: string, suffix: string, x: real, parseFloat: string -> Option<real>)
    requires suffix == "mm" || suffix == "cm" || suffix == "m"
    requires parseFloat(number) == Some(x)
    requires |number| > 0 && number[|number| - 1] != 'm' && number[|number| - 1] != 'c'
    ensures FormatLength(number + suffix, parseFloat).Ok?
    ensures Millimetres(FormatLength(number + suffix, parseFloat).value) == x * SuffixMillimetres(suffix)
  {
    var s := number + suffix;
    assert s[..|number|] == number;
    if suffix == "m" {
      assert s[|s| - 2..] == [number[|number| - 1], 'm'];
      assert s[..|s| - 1] == number;
    } else {
      assert s[|s| - 2..] == suffix;
      assert s[..|s| - 2] == number;
    }
  }

  // ---------------------------------------------------------------------
  // PXRD entries

  /** The enum member names of `XRaySource`. */
  function XRaySourceName(x: Ch.XRaySource): string
  {
    match x
    case CoKAlpha1 => "CO_KΑ1"
    case CuKAlpha1 => "CU_KΑ1"
  }

  /** `XRaySource[name]`: a name that is no member is a `KeyError`. */
  function XRaySourceByName(name: string): (r: Result<Ch.XRaySource>)
    ensures r.Ok? ==> XRaySourceName(r.value) == name
    ensures r.Err? <==> forall x: Ch.XRaySource :: XRaySourceName(x) != name
  {
    if name == "CO_KΑ1" then Ok(Ch.CoKAlpha1)
    else if name == "CU_KΑ1" then Ok(Ch.CuKAlpha1)
    else Err(KeyError(name))
  }

  /** The member for a source as a file name gives it: spaces and hyphens
      become underscores, then everything is upper case. */
  function XRaySourceOfFile(source: string): Result<Ch.XRaySource>
  {
    XRaySourceByName(UpperString(ReplaceAll(ReplaceAll(source, " ", "_"), "-", "_")))
  }

  /** What the lookup makes of one character of a source. */
  function SourceChar(c: char): char
  {
    Upper(if c == ' ' || c == '-' then '_' else c)
  }

  /** A source selects a member exactly when, character by character, it
      spells the member's name up to case and with a space or a hyphen
      for each underscore. */
  lemma XRaySourceOfFileChars(source: string, x: Ch.XRaySource)
    ensures XRaySourceOfFile(source) == Ok(x)
            <==> |source| == |XRaySourceName(x)| && forall i :: 0 <= i < |source| ==> SourceChar(source[i]) == XRaySourceName(x)[i]
  {
    var spaced := ReplaceAll(source, " ", "_");
    var name := UpperString(ReplaceAll(spaced, "-", "_"));
    ReplaceCharAt(source, ' ', '_');
    ReplaceCharAt(spaced, '-', '_');
    assert |name| == |source| && forall i :: 0 <= i < |source| ==> name[i] == SourceChar(source[i]);
    if |source| == |XRaySourceName(x)| && forall i :: 0 <= i < |source| ==> SourceChar(source[i]) == XRaySourceName(x)[i] {
      assert name == XRaySourceName(x);
    }
  }

  /** The characterization record of one PXRD file; a file without a
      diameter fails as `None.endswith` does.  The diameter is formatted as
      the source writes it, so a centimetre or metre diameter is scaled
      twice (see `FormatLengthAsWrittenScalesTwice`). */
  function PxrdEntry(f: PxrdFile, parseFloat: string -> Option<real>): (r: Result<Ch.Pxrd>)
    ensures r.Ok? ==> r.value.relativeFilePath == f.path && r.value.otherMetadata == f.otherMetadata
    ensures r.Ok? ==> f.sampleHolderDiameter.Some?
                      && Some(r.value.sampleHolder.kind) == Ch.SampleHolderTypeOf(f.sampleHolderShape)
                      && FormatLengthAsWritten(f.sampleHolderDiameter.value, parseFloat) == Ok(r.value.sampleHolder.diameter)
                      && XRaySourceOfFile(f.xraySource) == Ok(r.value.xRaySource)
  {
    var source :- XRaySourceOfFile(f.xraySource);
    if f.sampleHolderDiameter.None? then Err(AttributeError("endswith"))
    else
      var diameter :- FormatLengthAsWritten(f.sampleHolderDiameter.value, parseFloat);
      var kind := Ch.SampleHolderTypeOf(f.sampleHolderShape);
      if kind.None? then Err(ValueError("not a valid enumeration value"))
      else Ok(Ch.Pxrd(f.otherMetadata, f.path, Ch.SampleHolder(diameter, kind.value), source))
  }

  /** A file with an `1cm` diameter and a known source and shape is recorded
      with a diameter of 10 centimetres, as the source computes it. */
  lemma PxrdEntryCentimetreDiameter(f: PxrdFile, parseFloat: string -> Option<real>)
    requires f.sampleHolderDiameter == Some("1cm") && parseFloat("1") == Some(1.0)
    requires XRaySourceOfFile(f.xraySource).Ok? && Ch.SampleHolderTypeOf(f.sampleHolderShape).Some?
    ensures PxrdEntry(f, parseFloat).Ok?
    ensures PxrdEntry(f, parseFloat).value.sampleHolder.diameter == Ch.Quantity(Ch.Centimeter, 10.0)
  {
    FormatLengthAsWrittenScalesTwice(parseFloat);
  }

  /** `PxrdEntry` with the way numbers are read fixed. */
  function PxrdEntryWith(parseFloat: string -> Option<real>): PxrdFile -> Result<Ch.Pxrd>
  {
    f => PxrdEntry(f, parseFloat)
  }

  /** The records of a list of files in order, or the first failure. */
  function PxrdEntries(fs: seq<PxrdFile>, parseFloat: string -> Option<real>): (r: Result<seq<Ch.Pxrd>>)
    ensures r.Ok? <==> forall i :: 0 <= i < |fs| ==> PxrdEntry(fs[i], parseFloat).Ok?
    ensures r.Ok? ==> |r.value| == |fs| && forall i :: 0 <= i < |fs| ==> PxrdEntry(fs[i], parseFloat) == Ok(r.value[i])
  {
    MapResult(PxrdEntryWith(parseFloat), fs)
  }

  /** The records of the files of one experiment. */
  function ExperimentPxrd(id: string, files: seq<PxrdFile>, parseFloat: string -> Option<real>): Result<seq<Ch.Pxrd>>
  {
    var selected := FilterPxrdFiles(id, files);
    if selected.None? then Ok([]) else PxrdEntries(selected.value, parseFloat)
  }

  /** The PXRD loop of the converter. */
  method CollectPxrd(id: string, files: seq<PxrdFile>, parseFloat: string -> Option<real>)
    returns (r: Result<seq<Ch.Pxrd>>)
    ensures r == ExperimentPxrd(id, files, parseFloat)
  {
    var selected := FilterPxrdFiles(id, files);
    if selected.None? {
      return Ok([]);
    }
    r := MapEach(PxrdEntryWith(parseFloat), selected.value);
  }

  /** Every record comes from a file of the experiment, in file order. */
  lemma ExperimentPxrdFiles(id: string, files: seq<PxrdFile>, parseFloat: string -> Option<real>)
    requires ExperimentPxrd(id, files, parseFloat).Ok?
    ensures var r := ExperimentPxrd(id, files, parseFloat).value;
            forall k :: 0 <= k < |r| ==> exists i :: 0 <= i < |files| && files[i].experimentId == id
                                                    && files[i].path == r[k].relativeFilePath
  {
    var r := ExperimentPxrd(id, files, parseFloat).value;
    var selected := FilterPxrdFiles(id, files);
    if selected.Some? {
      var fs := selected.value;
      forall k | 0 <= k < |r|
        ensures exists i :: 0 <= i < |files| && files[i].experimentId == id && files[i].path == r[k].relativeFilePath
      {
        assert PxrdEntry(fs[k], parseFloat) == Ok(r[k]);
        FilterPxrdFilesMembers(id, files, fs[k]);
        var i :| 0 <= i < |files| && files[i] == fs[k];
      }
    }
  }

  // ---------------------------------------------------------------------
  // The spreadsheet rows

  /** `4_modulator_amount`: an integer or a text. */
  datatype ModulatorAmount = AmountInt(i: int) | AmountText(s: string)

  function ModulatorFloat(a: ModulatorAmount, parseFloat: string -> Option<real>): Result<real>
  {
    match a
    case AmountInt(i) => Ok(i as real)
    case AmountText(s) => FloatOf(s, parseFloat)
  }

  /** One row of the MIL sheet, as its decoder gives it.  `modulator` is the
      modulator name; a sheet that holds `false` there has none. */
  datatype MilExperiment = MilExperiment(
    vialNo: string,
    metalSalt: string, metalSaltMass: real, metalSaltMassUnit: string,
    linker: string, linkerMass: real, linkerMassUnit: string,
    solvent: string, solventAmount: int, solventUnit: string,
    modulator: Option<string>, modulatorAmount: ModulatorAmount, modulatorUnit: string,
    sonicatorTime: real, sonicatorTimeUnit: string,
    place: string,
    reactionTime: int, reactionTimeUnit: string,
    reactionVessel: string,
    temperature: int, temperatureUnit: string,
    washingSolids: string,
    activationTemperature: int, activationTemperatureUnit: string,
    dryingTime: int, dryingTimeUnit: string,
    mof: string)

  /** `if modulator:`. */
  predicate HasModulator(e: MilExperiment)
  {
    e.modulator.Some? && e.modulator.value != ""
  }

  function NamedReagent(name: string, role: Role): ReagentElement
  {
    ReagentElement(None, None, Some(name), None, Some(name), None, Some(role))
  }

  function MilAdd(vial: string, amount: Quantity, reagent: string): StepEntry
  {
    StepEntry(None, Some(vial), Add, Some(amount), Some(reagent), None, None, None, None, None)
  }

  /** The reagents: metal salt, linker, solvent and washing solvent, then
      the modulator if there is one. */
  function MilReagents(e: MilExperiment): seq<ReagentElement>
  {
    [NamedReagent(e.metalSalt, Substrate), NamedReagent(e.linker, Ligand),
     NamedReagent(e.solvent, SolventRole), NamedReagent(e.washingSolids, SolventRole)]
    + (if HasModulator(e) then [NamedReagent(e.modulator.value, Reagent)] else [])
  }

  /** The preparation: Adds of metal salt, linker and solvent, then of the
      modulator if there is one. */
  function MilPrep(e: MilExperiment, parseFloat: string -> Option<real>): (r: Result<seq<StepEntry>>)
    ensures r.Ok? ==> |r.value| == (if HasModulator(e) then 4 else 3)
    ensures r.Ok? ==> forall k :: 0 <= k < |r.value| ==> r.value[k].xmlType == Add && r.value[k].vessel == Some(e.vialNo)
    ensures r.Ok? ==> r.value[0].reagent == Some(e.metalSalt) && r.value[1].reagent == Some(e.linker)
                      && r.value[2].reagent == Some(e.solvent)
                      && (HasModulator(e) ==> r.value[3].reagent == e.modulator)
  {
    var metal :- FormatMass(Some(e.metalSaltMass), Some(e.metalSaltMassUnit));
    var linker :- FormatMass(Some(e.linkerMass), Some(e.linkerMassUnit));
    var solvent :- FormatAmountVolume(Some(e.solventAmount as real), e.solventUnit);
    var base := [MilAdd(e.vialNo, metal, e.metalSalt), MilAdd(e.vialNo, linker, e.linker), MilAdd(e.vialNo, solvent, e.solvent)];
    if HasModulator(e) then
      var amount :- ModulatorFloat(e.modulatorAmount, parseFloat);
      var volume :- FormatAmountVolume(Some(amount), e.modulatorUnit);
      Ok(base + [MilAdd(e.vialNo, volume, e.modulator.value)])
    else Ok(base)
  }

  /** The reaction: Sonicate, then HeatChill with the place as comment. */
  function MilReaction(e: MilExperiment, evaluate: string -> real): Result<seq<StepEntry>>
  {
    var sonication :- FormatTime(Some(e.sonicatorTime), Some(e.sonicatorTimeUnit));
    var temp :- FormatTemperature(IntToString(e.temperature), e.temperatureUnit, evaluate);
    var time :- FormatTime(Some(e.reactionTime as real), Some(e.reactionTimeUnit));
    Ok([StepEntry(None, Some(e.vialNo), Sonicate, None, None, None, Some(sonication), None, None, None),
        StepEntry(Some("In: " + e.place), Some(e.vialNo), HeatChill, None, None, Some(temp), Some(time), None, None, None)])
  }

  /** The workup: WashSolid with the washing solvent, then Dry under
      vacuum (0 Pa). */
  function MilWorkup(e: MilExperiment, evaluate: string -> real): Result<seq<StepEntry>>
  {
    var solvent := SolventOf(e.washingSolids);
    if solvent.None? then Err(ValueError("not a valid enumeration value"))
    else
      var temp :- FormatTemperature(IntToString(e.activationTemperature), e.activationTemperatureUnit, evaluate);
      var time :- FormatTime(Some(e.dryingTime as real), Some(e.dryingTimeUnit));
      Ok([StepEntry(None, Some(e.vialNo), WashSolid, None, None, None, None, None, Some(solvent.value), None),
          StepEntry(None, Some(e.vialNo), Dry, None, None, Some(temp), Some(time), None, None, Some(Pressure(Some(PressurePascal), 0.0)))])
  }

  function MilHardware(e: MilExperiment): Hardware
  {
    Hardware(Some([ComponentElement(None, None, e.vialNo, Some(e.reactionVessel))]))
  }

  /** The synthesis of one row; the vial number describes it. */
  function MilSynthesis(e: MilExperiment, prep: seq<StepEntry>, reaction: seq<StepEntry>, workup: seq<StepEntry>): SynthesisElement
  {
    SynthesisElement(
      Some(MilHardware(e)),
      Metadata(e.vialNo, Some(e.mof), None),
      LObj(ProcedureSections(SectionOf(prep), SectionOf(reaction), SectionOf(workup))),
      Reagents(MilReagents(e)))
  }

  /** The characterization entry of one row: its PXRD records and no
      weighing, under the vial number as experiment id. */
  function MilCharacterization(e: MilExperiment, pxrd: seq<Ch.Pxrd>): Ch.CharacterizationEntry
  {
    Ch.CharacterizationEntry(Ch.CharacterizationClass(pxrd, []), e.vialNo)
  }

  /** The synthesis and the characterization entry of one row, or the
      first failure in the order the converter meets them. */
  function Conversion(e: MilExperiment, files: seq<PxrdFile>, evaluate: string -> real, parseFloat: string -> Option<real>)
    : Result<(SynthesisElement, Ch.CharacterizationEntry)>
  {
    var prep :- MilPrep(e, parseFloat);
    var reaction :- MilReaction(e, evaluate);
    var workup :- MilWorkup(e, evaluate);
    var pxrd :- ExperimentPxrd(e.vialNo, files, parseFloat);
    Ok((MilSynthesis(e, prep, reaction, workup), MilCharacterization(e, pxrd)))
  }

  /** `Conversion` with the files and the way numbers are read fixed. */
  function ConversionWith(files: seq<PxrdFile>, evaluate: string -> real, parseFloat: string -> Option<real>)
    : MilExperiment -> Result<(SynthesisElement, Ch.CharacterizationEntry)>
  {
    e => Conversion(e, files, evaluate, parseFloat)
  }

  /** The first and the second components of a list of pairs. */
  function Unzip<A, B>(pairs: seq<(A, B)>): (r: (seq<A>, seq<B>))
    ensures |r.0| == |pairs| && |r.1| == |pairs|
    ensures forall i :: 0 <= i < |pairs| ==> pairs[i] == (r.0[i], r.1[i])
  {
    (seq(|pairs|, i requires 0 <= i < |pairs| => pairs[i].0), seq(|pairs|, i requires 0 <= i < |pairs| => pairs[i].1))
  }

  /** Appending a pair appends to both components. */
  lemma UnzipSnoc<A, B>(pairs: seq<(A, B)>, x: (A, B))
    ensures Unzip(pairs + [x]) == (Unzip(pairs).0 + [x.0], Unzip(pairs).1 + [x.1])
  {
    var p := pairs + [x];
    assert forall i :: 0 <= i < |p| ==> Unzip(p).0[i] == (Unzip(pairs).0 + [x.0])[i];
    assert forall i :: 0 <= i < |p| ==> Unzip(p).1[i] == (Unzip(pairs).1 + [x.1])[i];
    assert Unzip(p).0 == Unzip(pairs).0 + [x.0];
    assert Unzip(p).1 == Unzip(pairs).1 + [x.1];
  }

  /** The rows converted in order, or the first failure. */
  function Conversions(es: seq<MilExperiment>, files: seq<PxrdFile>, evaluate: string -> real, parseFloat: string -> Option<real>)
    : (r: Result<(seq<SynthesisElement>, seq<Ch.CharacterizationEntry>)>)
    ensures r.Ok? <==> forall i :: 0 <= i < |es| ==> Conversion(es[i], files, evaluate, parseFloat).Ok?
    ensures r.Ok? ==> |r.value.0| == |es| && |r.value.1| == |es|
                      && forall i :: 0 <= i < |es| ==>
                           Conversion(es[i], files, evaluate, parseFloat) == Ok((r.value.0[i], r.value.1[i]))
  {
    var pairs :- MapResult(ConversionWith(files, evaluate, parseFloat), es);
    Ok(Unzip(pairs))
  }

  /** The reagents and the preparation of one row: the four fixed
      reagents, three Add steps, and the modulator's reagent and Add step
      if there is one. */
  method BuildPrep(e: MilExperiment, parseFloat: string -> Option<real>)
    returns (reagents: seq<ReagentElement>, prep: Result<seq<StepEntry>>)
    ensures reagents == MilReagents(e)
    ensures prep == MilPrep(e, parseFloat)
  {
    var vial := e.vialNo;
    reagents := [NamedReagent(e.metalSalt, Substrate), NamedReagent(e.linker, Ligand),
                 NamedReagent(e.solvent, SolventRole), NamedReagent(e.washingSolids, SolventRole)];
    var metal := FormatMass(Some(e.metalSaltMass), Some(e.metalSaltMassUnit));
    var linker := FormatMass(Some(e.linkerMass), Some(e.linkerMassUnit));
    var solvent := FormatAmountVolume(Some(e.solventAmount as real), e.solventUnit);
    if metal.Err? || linker.Err? || solvent.Err? {
      reagents := MilReagents(e);
      prep := if metal.Err? then Err(metal.error) else if linker.Err? then Err(linker.error) else Err(solvent.error);
      return;
    }
    var steps := [MilAdd(vial, metal.value, e.metalSalt), MilAdd(vial, linker.value, e.linker), MilAdd(vial, solvent.value, e.solvent)];
    if e.modulator.Some? && e.modulator.value != "" {
      reagents := reagents + [NamedReagent(e.modulator.value, Reagent)];
      var amount := ModulatorFloat(e.modulatorAmount, parseFloat);
      if amount.Err? {
        prep := Err(amount.error);
        return;
      }
      var volume := FormatAmountVolume(Some(amount.value), e.modulatorUnit);
      if volume.Err? {
        prep := Err(volume.error);
        return;
      }
      steps := steps + [MilAdd(vial, volume.value, e.modulator.value)];
    }
    prep := Ok(steps);
  }

  /** The body of the converter loop for one row. */
  method ConvertExperiment(e: MilExperiment, files: seq<PxrdFile>, evaluate: string -> real, parseFloat: string -> Option<real>)
    returns (r: Result<(SynthesisElement, Ch.CharacterizationEntry)>)
    ensures r == Conversion(e, files, evaluate, parseFloat)
  {
    var reagents, prep := BuildPrep(e, parseFloat);
    if prep.Err? { return Err(prep.error); }
    var reaction := MilReaction(e, evaluate);
    if reaction.Err? { return Err(reaction.error); }
    var workup := MilWorkup(e, evaluate);
    if workup.Err? { return Err(workup.error); }
    var procedure := ProcedureSections(SectionOf(prep.value), SectionOf(reaction.value), SectionOf(workup.value));
    var synthesis := SynthesisElement(Some(MilHardware(e)), Metadata(e.vialNo, Some(e.mof), None), LObj(procedure), Reagents(reagents));
    assert synthesis == MilSynthesis(e, prep.value, reaction.value, workup.value);
    var pxrd := CollectPxrd(e.vialNo, files, parseFloat);
    if pxrd.Err? { return Err(pxrd.error); }
    return Ok((synthesis, Ch.CharacterizationEntry(Ch.CharacterizationClass(pxrd.value, []), e.vialNo)));
  }

  /** `convert_mil_2_json_from_excel_to_mofsy` without its file reading:
      one synthesis and one characterization entry per row, in row order. */
  method ConvertMil(es: seq<MilExperiment>, files: seq<PxrdFile>, evaluate: string -> real, parseFloat: string -> Option<real>)
    returns (r: Result<(seq<SynthesisElement>, seq<Ch.CharacterizationEntry>)>)
    ensures r == Conversions(es, files, evaluate, parseFloat)
  {
    var synthesisList: seq<SynthesisElement> := [];
    var characterizationList: seq<Ch.CharacterizationEntry> := [];
    ghost var convert := ConversionWith(files, evaluate, parseFloat);
    ghost var pairs: seq<(SynthesisElement, Ch.CharacterizationEntry)> := [];
    for i := 0 to |es|
      invariant MapResult(convert, es[..i]) == Ok(pairs)
      invariant (synthesisList, characterizationList) == Unzip(pairs)
    {
      var converted := ConvertExperiment(es[i], files, evaluate, parseFloat);
      assert es[..i + 1][..i] == es[..i];
      assert convert(es[..i + 1][i]) == converted;
      if converted.Err? {
        MapResultPrefixError(convert, es, i + 1);
        return Err(converted.error);
      }
      UnzipSnoc(pairs, converted.value);
      pairs := pairs + [converted.value];
      synthesisList := synthesisList + [converted.value.0];
      characterizationList := characterizationList + [converted.value.1];
    }
    assert es[..|es|] == es;
    return Ok((synthesisList, characterizationList));
  }

  // ---------------------------------------------------------------------
  // Properties of the conversion

  /** The reagents are the four fixed entries with roles substrate,
      ligand, solvent and solvent, and a fifth, the modulator as reagent,
      exactly when there is a modulator. */
  lemma MilReagentRoles(e: MilExperiment)
    ensures var r := MilReagents(e);
            |r| == (if HasModulator(e) then 5 else 4)
            && r[0].role == Some(Substrate) && r[1].role == Some(Ligand)
            && r[2].role == Some(SolventRole) && r[3].role == Some(SolventRole)
            && (HasModulator(e) ==> r[4].role == Some(Reagent) && r[4].name == e.modulator)
            && forall k :: 0 <= k < |r| ==> r[k].id == r[k].name && r[k].inchi.None?
  {
  }

  /** Every Add step of the preparation names one of the reagents. */
  lemma MilPrepReagents(e: MilExperiment, parseFloat: string -> Option<real>)
    requires MilPrep(e, parseFloat).Ok?
    ensures forall k :: 0 <= k < |MilPrep(e, parseFloat).value| ==>
              exists j :: 0 <= j < |MilReagents(e)| && MilReagents(e)[j].name == MilPrep(e, parseFloat).value[k].reagent
  {
    var prep := MilPrep(e, parseFloat).value;
    var reagents := MilReagents(e);
    forall k | 0 <= k < |prep|
      ensures exists j :: 0 <= j < |reagents| && reagents[j].name == prep[k].reagent
    {
      var j := if k == 3 then 4 else k;
      assert reagents[j].name == prep[k].reagent;
    }
  }

  /** Each synthesis is described by its vial number, as is its
      characterization entry, which holds no weighing. */
  lemma ConversionsIds(es: seq<MilExperiment>, files: seq<PxrdFile>, evaluate: string -> real, parseFloat: string -> Option<real>)
    requires Conversions(es, files, evaluate, parseFloat).Ok?
    ensures var r := Conversions(es, files, evaluate, parseFloat).value;
            forall i :: 0 <= i < |es| ==>
              r.0[i].metadata.description == es[i].vialNo == r.1[i].experimentId
              && r.1[i].characterization.weight == []
              && r.0[i].reagents.reagent == MilReagents(es[i])
  {
    var r := Conversions(es, files, evaluate, parseFloat).value;
    forall i | 0 <= i < |es|
      ensures r.0[i].metadata.description == es[i].vialNo == r.1[i].experimentId
              && r.1[i].characterization.weight == []
              && r.0[i].reagents.reagent == MilReagents(es[i])
    {
      assert Conversion(es[i], files, evaluate, parseFloat) == Ok((r.0[i], r.1[i]));
    }
  }

  /** A washing solvent that is not a `Solvent` fails the row. */
  lemma UnknownWashingSolventFails(e: MilExperiment, files: seq<PxrdFile>, evaluate: string -> real, parseFloat: string -> Option<real>)
    requires MilPrep(e, parseFloat).Ok? && MilReaction(e, evaluate).Ok?
    requires SolventOf(e.washingSolids).None?
    ensures Conversion(e, files, evaluate, parseFloat) == Err(ValueError("not a valid enumeration value"))
  {
  }
}
