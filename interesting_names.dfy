/** The names the keys of the interesting-parameter table have in the
    JSON file it is saved to
    (`fairsynthesis_data_model/extract_interesting_params.py`). */
module ParamNames {
  import opened Strings
  import opened ParamTable

  function KeyName(k: Key): string
  {
    match k
    case AminoporphyrinType => "aminoporphyrin_monomer_type"
    case AminoporphyrinAmount => "aminoporphyrin_monomer_amount_umol"
    case AldehydeStructure => "aldehyde_monomer_structure"
    case AldehydeAmount => "aldehyde_monomer_amount_umol"
    case WaterAmount => "water_amount_umol"
    case AcidName => "acid_name"
    case AcidPka => "acid_pKa_DMSO"
    case AcidAmount => "acid_amount_umol"
    case OtherAdditives => "other_additives"
    case SolventName(n) => "solvent_" + [DigitChar(n)] + "_name"
    case SolventVolume(n) => "solvent_" + [DigitChar(n)] + "_volume_uL"
    case VesselUsed => "vessel"
    case Degassing => "degassing"
    case TemperatureC => "temperature_C"
    case DurationH => "duration_h"
    case WorkupWithNaCl => "workup_with_NaCl"
    case ActivationWithScCO2 => "activation_with_scCO2"
    case MeOHInScCO2 => "MeOH_in_scCO2_activation"
    case ActivationUnderVacuum => "activation_under_vacuum"
  }
}
