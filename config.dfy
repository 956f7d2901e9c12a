/** The closed enumerations of the engine configuration. */
module Config {
  import opened Strings

  /** Cynefin-adjacent complexity classification. */
  datatype ComplexityDomain = Simple | Complicated | Complex | Chaotic

  /** The shape of one deliberation round. */
  datatype LoopGrammar = Parallel | Sequential | Debate

  /** The attack vector of the critic. */
  datatype RedTeamFlavor = Logical | Feasibility | Ethical | Steelman

  /** The roles a council seat can hold. */
  datatype CouncilRole = Synthesizer | DomainExpert | Pragmatist | Creative | RedTeam

  /** How seats without a model hint are routed. */
  datatype RoutingMode = Auto | Custom

  /** `role.value` */
  function RoleValue(role: CouncilRole): string {
    match role
    case Synthesizer => "synthesizer"
    case DomainExpert => "domain_expert"
    case Pragmatist => "pragmatist"
    case Creative => "creative"
    case RedTeam => "red_team"
  }

  /** `role.value.upper()`, the label used in every prompt and summary. */
  function RoleLabel(role: CouncilRole): string {
    Upper(RoleValue(role))
  }

  /** `complexity.value` */
  function ComplexityValue(c: ComplexityDomain): string {
    match c
    case Simple => "simple"
    case Complicated => "complicated"
    case Complex => "complex"
    case Chaotic => "chaotic"
  }
}
