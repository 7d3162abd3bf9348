/** The flat table of interesting parameters that
    `extract_interesting_params_for_mocof_1`
    (`fairsynthesis_data_model/extract_interesting_params.py`) builds for
    one experiment: its keys, its values, and where each parameter group
    lands in it. */
module ParamTable {
  import opened Wrappers

  /** A value of the parameter table; `PNull` is Python's `None`. */
  datatype Param = PStr(s: string) | PNum(r: real) | PBool(b: bool) | PNull

  /** A solvent slot. */
  type Slot = n: nat | 1 <= n <= 3 witness 1

  /** The keys of the table; `ParamNames.KeyName` gives the name each
      has in the JSON file the table is saved to. */
  datatype Key =
    | AminoporphyrinType | AminoporphyrinAmount | AldehydeStructure | AldehydeAmount | WaterAmount
    | AcidName | AcidPka | AcidAmount | OtherAdditives | Degassing
    | WorkupWithNaCl | ActivationWithScCO2 | MeOHInScCO2 | ActivationUnderVacuum
    | VesselUsed | TemperatureC | DurationH | SolventName(n: Slot) | SolventVolume(n: Slot)

  type Params = map<Key, Param>

  /** A monomer: its structure and its amount in µmol. */
  datatype Monomer = Monomer(structure: string, amountUmol: real)

  /** The acid: its name and pKa in DMSO from the acid table, and its
      amount in µmol. */
  datatype AcidInfo = AcidInfo(name: string, pKa: real, amountUmol: real)

  /** Temperature (°C) and duration (h) of the reaction, when given. */
  datatype Heating = Heating(temperatureC: Option<real>, durationH: Option<real>)

  /** Whether the workup washes with brine, activates with scCO2 (with
      methanol or not) and dries under vacuum. */
  datatype WorkupFlags = WorkupFlags(withNaCl: bool, withScCO2: bool, meohInScCO2: bool, underVacuum: bool)

  /** The parameter groups of one synthesis, in the order the source
      computes them. */
  datatype Groups = Groups(
    amino: Monomer, aldehyde: Monomer, water: real, acid: AcidInfo, other: string,
    solvents: Params, vessel: Option<string>, degassing: bool, heating: Heating, workup: WorkupFlags)

  /** The keys every experiment's table has besides its solvent slots. */
  const FixedKeys: set<Key> := {AminoporphyrinType, AminoporphyrinAmount, AldehydeStructure, AldehydeAmount,
    WaterAmount, AcidName, AcidPka, AcidAmount, OtherAdditives, Degassing,
    WorkupWithNaCl, ActivationWithScCO2, MeOHInScCO2, ActivationUnderVacuum}

  /** What the table holds under `k`: the groups' values, the solvent
      slots, and the vessel, temperature and duration only when the
      procedure has them. */
  function Entry(g: Groups, k: Key): Option<Param>
  {
    match k
    case AminoporphyrinType => Some(PStr(g.amino.structure))
    case AminoporphyrinAmount => Some(PNum(g.amino.amountUmol))
    case AldehydeStructure => Some(PStr(g.aldehyde.structure))
    case AldehydeAmount => Some(PNum(g.aldehyde.amountUmol))
    case WaterAmount => Some(PNum(g.water))
    case AcidName => Some(PStr(g.acid.name))
    case AcidPka => Some(PNum(g.acid.pKa))
    case AcidAmount => Some(PNum(g.acid.amountUmol))
    case OtherAdditives => Some(PStr(g.other))
    case SolventName(_) => if k in g.solvents then Some(g.solvents[k]) else None
    case SolventVolume(_) => if k in g.solvents then Some(g.solvents[k]) else None
    case VesselUsed => if g.vessel.Some? then Some(PStr(g.vessel.value)) else None
    case Degassing => Some(PBool(g.degassing))
    case TemperatureC => if g.heating.temperatureC.Some? then Some(PNum(g.heating.temperatureC.value)) else None
    case DurationH => if g.heating.durationH.Some? then Some(PNum(g.heating.durationH.value)) else None
    case WorkupWithNaCl => Some(PBool(g.workup.withNaCl))
    case ActivationWithScCO2 => Some(PBool(g.workup.withScCO2))
    case MeOHInScCO2 => Some(PBool(g.workup.meohInScCO2))
    case ActivationUnderVacuum => Some(PBool(g.workup.underVacuum))
  }

  function Table(g: Groups): Params
  {
    map k | k in g.solvents.Keys + FixedKeys + {VesselUsed, TemperatureC, DurationH} && Entry(g, k).Some?
      :: Entry(g, k).value
  }

  // Where each group lands in an experiment's table.

  /** The monomers and the water. */
  lemma TableMonomers(g: Groups)
    ensures var t := Table(g);
            AminoporphyrinType in t && t[AminoporphyrinType] == PStr(g.amino.structure)
            && AminoporphyrinAmount in t && t[AminoporphyrinAmount] == PNum(g.amino.amountUmol)
            && AldehydeStructure in t && t[AldehydeStructure] == PStr(g.aldehyde.structure)
            && AldehydeAmount in t && t[AldehydeAmount] == PNum(g.aldehyde.amountUmol)
            && WaterAmount in t && t[WaterAmount] == PNum(g.water)
  {
  }

  /** The acid. */
  lemma TableAcid(g: Groups)
    ensures var t := Table(g);
            AcidName in t && t[AcidName] == PStr(g.acid.name)
            && AcidPka in t && t[AcidPka] == PNum(g.acid.pKa)
            && AcidAmount in t && t[AcidAmount] == PNum(g.acid.amountUmol)
  {
  }

  /** The other additives and the degassing. */
  lemma TableAdditivesDegassing(g: Groups)
    ensures var t := Table(g);
            OtherAdditives in t && t[OtherAdditives] == PStr(g.other)
            && Degassing in t && t[Degassing] == PBool(g.degassing)
  {
  }

  /** The brine workup and the scCO2 activation. */
  lemma TableBrineActivation(g: Groups)
    ensures var t := Table(g);
            WorkupWithNaCl in t && t[WorkupWithNaCl] == PBool(g.workup.withNaCl)
            && ActivationWithScCO2 in t && t[ActivationWithScCO2] == PBool(g.workup.withScCO2)
  {
  }

  /** Methanol in the activation and drying under vacuum. */
  lemma TableMethanolVacuum(g: Groups)
    ensures var t := Table(g);
            MeOHInScCO2 in t && t[MeOHInScCO2] == PBool(g.workup.meohInScCO2)
            && ActivationUnderVacuum in t && t[ActivationUnderVacuum] == PBool(g.workup.underVacuum)
  {
  }

  /** The solvent slots of the solvent group. */
  lemma TableSlots(g: Groups)
    ensures forall k :: k in g.solvents && (k.SolventName? || k.SolventVolume?) ==> k in Table(g) && Table(g)[k] == g.solvents[k]
  {
  }

  /** The vessel, the temperature and the duration are in the table
      exactly when the procedure gives them. */
  lemma TableVessel(g: Groups)
    ensures VesselUsed in Table(g) <==> g.vessel.Some?
    ensures g.vessel.Some? ==> Table(g)[VesselUsed] == PStr(g.vessel.value)
  {
  }

  lemma TableTemperature(g: Groups)
    ensures TemperatureC in Table(g) <==> g.heating.temperatureC.Some?
    ensures g.heating.temperatureC.Some? ==> Table(g)[TemperatureC] == PNum(g.heating.temperatureC.value)
  {
  }

  lemma TableDuration(g: Groups)
    ensures DurationH in Table(g) <==> g.heating.durationH.Some?
    ensures g.heating.durationH.Some? ==> Table(g)[DurationH] == PNum(g.heating.durationH.value)
  {
  }
}
