/**
 * Trust levels (src/lib/trust.ts): the per-level capability table, the action check and
 * the next step offered to a user at each level.
 */
module Trust {
  import opened Database

  datatype BadgeVariant = Default | Outline | Secondary | Destructive

  /** The five capability flags of a level. */
  datatype Capabilities = Capabilities(
    canUseTrial: bool,
    canPrescribe: bool,
    canExportData: bool,
    canRequestCfdi: bool,
    canHavePublicProfile: bool)

  datatype TrustConfig = TrustConfig(
    level: TrustLevel,
    levelLabel: string,
    description: string,
    capabilities: Capabilities,
    badgeText: Option<string>,
    badgeVariant: BadgeVariant,
    alertMessage: Option<string>)

  /** The capability columns of `TRUST_CONFIGS`. */
  function LevelCapabilities(level: TrustLevel): Capabilities {
    if level == 0 then Capabilities(false, false, false, false, false)
    else if level == 1 then Capabilities(true, false, false, false, false)
    else if level == 2 then Capabilities(true, false, false, false, true)
    else Capabilities(true, true, true, true, true)
  }

  /** The `label` column of `TRUST_CONFIGS`. */
  function LevelLabel(level: TrustLevel): string {
    if level == 0 then "Sin verificar"
    else if level == 1 then "Email confirmado"
    else if level == 2 then "Verificación en proceso"
    else "Verificado"
  }

  /** `TRUST_CONFIGS[level]`, i.e. `getTrustConfig(level)`. */
  function TrustConfigOf(level: TrustLevel): TrustConfig {
    var caps := LevelCapabilities(level);
    var title := LevelLabel(level);
    if level == 0 then
      TrustConfig(0, title, "Confirma tu correo electrónico para activar tu cuenta", caps,
                  Some("Sin verificar"), Destructive,
                  Some("Confirma tu correo electrónico para activar tu cuenta y comenzar el período de prueba."))
    else if level == 1 then
      TrustConfig(1, title, "Acceso de prueba activo. Completa tu perfil para acceso completo.", caps,
                  Some("Trial activo"), Secondary,
                  Some("Completa tu perfil y sube tu cédula para desbloquear todas las funciones clínicas."))
    else if level == 2 then
      TrustConfig(2, title, "Tus documentos están siendo revisados por el equipo DeepLux", caps,
                  Some("En revisión"), Outline,
                  Some("Tus documentos están en revisión. Te notificaremos cuando estén verificados (1-2 días hábiles)."))
    else
      TrustConfig(3, title, "Perfil profesional verificado por DeepLux", caps, Some("Verificado ✓"), Default, None)
  }

  /** The actions `canPerformAction` knows by name. */
  datatype Action = Prescribe | ExportData | IssueCfdi | PublicProfile | UseTrial

  function ParseAction(name: string): Option<Action> {
    if name == "prescribe" then Some(Prescribe)
    else if name == "export_data" then Some(ExportData)
    else if name == "issue_cfdi" then Some(IssueCfdi)
    else if name == "public_profile" then Some(PublicProfile)
    else if name == "use_trial" then Some(UseTrial)
    else None
  }

  /** The config flag that governs `action`. */
  predicate Allows(caps: Capabilities, action: Action) {
    match action
    case Prescribe => caps.canPrescribe
    case ExportData => caps.canExportData
    case IssueCfdi => caps.canRequestCfdi
    case PublicProfile => caps.canHavePublicProfile
    case UseTrial => caps.canUseTrial
  }

  /** `canPerformAction`: the config's flag for a known action, false for any other name. */
  predicate CanPerformAction(level: TrustLevel, action: string) {
    var parsed := ParseAction(action);
    parsed.Some? && Allows(TrustConfigOf(level).capabilities, parsed.value)
  }

  /** The lowest level at which each action is allowed. */
  function Threshold(action: Action): TrustLevel {
    match action
    case Prescribe => 3
    case ExportData => 3
    case IssueCfdi => 3
    case PublicProfile => 2
    case UseTrial => 1
  }

  function ActionName(action: Action): string {
    match action
    case Prescribe => "prescribe"
    case ExportData => "export_data"
    case IssueCfdi => "issue_cfdi"
    case PublicProfile => "public_profile"
    case UseTrial => "use_trial"
  }

  /** Every entry of the table is filed under its own level. */
  lemma ConfigLevelMatchesKey(level: TrustLevel)
    ensures TrustConfigOf(level).level == level
  {
  }

  /** Every entry's label is the level's label. */
  lemma ConfigLabelIsLevelLabel(level: TrustLevel)
    ensures TrustConfigOf(level).levelLabel == LevelLabel(level)
  {
  }

  /** An action is allowed exactly from its threshold up; unknown names are never allowed. */
  lemma CanPerformIffThreshold(level: TrustLevel, action: string)
    ensures ParseAction(action).None? ==> !CanPerformAction(level, action)
    ensures ParseAction(action).Some? ==> (CanPerformAction(level, action) <==> level >= Threshold(ParseAction(action).value))
  {
    var parsed := ParseAction(action);
    if parsed.Some? {
      assert TrustConfigOf(level).capabilities == LevelCapabilities(level);
      AllowsIffThreshold(level, parsed.value);
    }
  }

  lemma AllowsIffThreshold(level: TrustLevel, action: Action)
    ensures Allows(LevelCapabilities(level), action) <==> level >= Threshold(action)
  {
  }

  /** Raising the level never takes a capability away. */
  lemma CapabilitiesMonotone(low: TrustLevel, high: TrustLevel, action: string)
    requires low <= high
    ensures CanPerformAction(low, action) ==> CanPerformAction(high, action)
  {
    CanPerformIffThreshold(low, action);
    CanPerformIffThreshold(high, action);
  }

  /** Each action's name is read back as that action. */
  lemma ActionNameRoundTrip(action: Action)
    ensures ParseAction(ActionName(action)) == Some(action)
  {
  }

  /** Only a fully verified user sees no alert. */
  lemma AlertOnlyBelowVerified(level: TrustLevel)
    ensures TrustConfigOf(level).alertMessage.None? <==> level == 3
  {
  }

  datatype NextAction = NextAction(title: string, description: string, href: string)

  /** `getNextTrustAction`. */
  function NextTrustAction(level: TrustLevel): Option<NextAction> {
    if level == 0 then Some(NextAction("Confirmar correo", "Revisa tu bandeja de entrada", "/perfil"))
    else if level == 1 then
      Some(NextAction("Subir cédula profesional", "Desbloquea funciones clínicas completas", "/perfil#cedula"))
    else None
  }

  /** A next step is offered below level 2 and both steps lead to the profile page. */
  lemma NextActionBelowReview(level: TrustLevel)
    ensures NextTrustAction(level).Some? <==> level < 2
    ensures NextTrustAction(level).Some? ==> NextTrustAction(level).value.href[..7] == "/perfil"
  {
  }
}
