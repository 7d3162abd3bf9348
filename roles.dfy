/** `rxn_role_to_xdl_role`: the reaction role an ELN component carries,
    mapped to the reagent role of the procedure schema. */
module Roles {
  import opened Wrappers
  import ProcedureSchema

  /** The reaction roles of the cleaned ELN records. */
  datatype RxnRole = RxnAcid | RxnCatalyst | RxnProduct | RxnReactant | RxnReagent | RxnSolvent

  function RxnRoleValue(r: RxnRole): string
  {
    match r
    case RxnAcid => "acid"
    case RxnCatalyst => "catalyst"
    case RxnProduct => "product"
    case RxnReactant => "reactant"
    case RxnReagent => "reagent"
    case RxnSolvent => "solvent"
  }

  /** Reactants become substrates, products have no reagent role, and the
      other roles keep their name.  The closing `raise ValueError` of the
      source is not reachable: the six cases are all the roles there are. */
  function RxnRoleToXdlRole(r: RxnRole): (x: Option<ProcedureSchema.Role>)
    ensures r == RxnReactant ==> x == Some(ProcedureSchema.Substrate)
    ensures x.None? <==> r == RxnProduct
    ensures x.Some? && r != RxnReactant ==> ProcedureSchema.RoleValue(x.value) == RxnRoleValue(r)
  {
    match r
    case RxnReactant => Some(ProcedureSchema.Substrate)
    case RxnSolvent => Some(ProcedureSchema.SolventRole)
    case RxnProduct => None
    case RxnReagent => Some(ProcedureSchema.Reagent)
    case RxnCatalyst => Some(ProcedureSchema.Catalyst)
    case RxnAcid => Some(ProcedureSchema.Acid)
  }

  /** Different roles other than the product map to different reagent
      roles. */
  lemma RxnRoleInjective(a: RxnRole, b: RxnRole)
    requires a != RxnProduct && b != RxnProduct && RxnRoleToXdlRole(a) == RxnRoleToXdlRole(b)
    ensures a == b
  {
  }
}
