/** The prompt-configuration admin page of app/admin/prompts/page.tsx:
    `promptConfigSchema`, the form's default values, and the reset of the
    form from a configuration loaded from the server. */
module PromptConfigPage {

  /** `system_config`. `z.number()` admits any number; reals stand for them. */
  datatype SystemConfig = SystemConfig(
    tone: real,
    technicalDepth: real,
    responseLength: real,
    language: string,
    empathyLevel: real,
    urgencyEmphasis: real)

  /** `business_rules`. */
  datatype BusinessRules = BusinessRules(
    minQuoteAmount: real,
    maxQuoteAmount: real,
    warrantyPeriod: real,
    maxShopOptions: real,
    priceRangeBuffer: real)

  /** `PromptConfigForm`: what the page edits and posts. */
  datatype PromptConfigForm = PromptConfigForm(
    systemConfig: SystemConfig,
    businessRules: BusinessRules,
    isActive: bool)

  /** A row of the `prompt_config` table, as the page receives it. */
  datatype ConfigRow = ConfigRow(
    id: string,
    systemConfig: SystemConfig,
    businessRules: BusinessRules,
    isActive: bool,
    updatedAt: int)

  const Defaults := PromptConfigForm(
    SystemConfig(3.0, 3.0, 3.0, "es", 4.0, 3.0),
    BusinessRules(50.0, 1000.0, 12.0, 3.0, 10.0),
    true)

  predicate Between(x: real, lo: real, hi: real)
  {
    lo <= x <= hi
  }

  /** The paths `promptConfigSchema` rejects, in schema order. */
  function SchemaIssues(f: PromptConfigForm): (issues: seq<string>)
    ensures issues == [] <==>
              var s, b := f.systemConfig, f.businessRules;
              Between(s.tone, 1.0, 5.0) && Between(s.technicalDepth, 1.0, 5.0)
              && Between(s.responseLength, 1.0, 5.0) && s.language in {"en", "es"}
              && Between(s.empathyLevel, 1.0, 5.0) && Between(s.urgencyEmphasis, 1.0, 5.0)
              && b.minQuoteAmount >= 0.0 && b.maxQuoteAmount >= 0.0 && b.warrantyPeriod >= 0.0
              && Between(b.maxShopOptions, 1.0, 10.0) && Between(b.priceRangeBuffer, 0.0, 100.0)
  {
    var s, b := f.systemConfig, f.businessRules;
    (if Between(s.tone, 1.0, 5.0) then [] else ["system_config.tone"])
    + (if Between(s.technicalDepth, 1.0, 5.0) then [] else ["system_config.technicalDepth"])
    + (if Between(s.responseLength, 1.0, 5.0) then [] else ["system_config.responseLength"])
    + (if s.language == "en" || s.language == "es" then [] else ["system_config.language"])
    + (if Between(s.empathyLevel, 1.0, 5.0) then [] else ["system_config.empathyLevel"])
    + (if Between(s.urgencyEmphasis, 1.0, 5.0) then [] else ["system_config.urgencyEmphasis"])
    + (if b.minQuoteAmount >= 0.0 then [] else ["business_rules.minQuoteAmount"])
    + (if b.maxQuoteAmount >= 0.0 then [] else ["business_rules.maxQuoteAmount"])
    + (if b.warrantyPeriod >= 0.0 then [] else ["business_rules.warrantyPeriod"])
    + (if Between(b.maxShopOptions, 1.0, 10.0) then [] else ["business_rules.maxShopOptions"])
    + (if Between(b.priceRangeBuffer, 0.0, 100.0) then [] else ["business_rules.priceRangeBuffer"])
  }

  /** The defaults satisfy the schema. */
  lemma DefaultsValid()
    ensures SchemaIssues(Defaults) == []
  {
  }

  /** Nothing ties the two quote bounds together: a minimum above the
      maximum is accepted. */
  lemma MinAboveMaxAccepted()
    ensures var f := Defaults.(businessRules := Defaults.businessRules.(minQuoteAmount := 2000.0));
            f.businessRules.minQuoteAmount > f.businessRules.maxQuoteAmount && SchemaIssues(f) == []
  {
  }

  /** The form values after `form.reset` with a loaded configuration. */
  function ResetFrom(config: ConfigRow): PromptConfigForm
  {
    PromptConfigForm(config.systemConfig, config.businessRules, config.isActive)
  }

  /** The reset reads nothing else of the row: rows that differ only in
      their id or stamp give the same form. */
  lemma ResetIgnoresIdentity(a: ConfigRow, b: ConfigRow)
    requires a.systemConfig == b.systemConfig && a.businessRules == b.businessRules
    requires a.isActive == b.isActive
    ensures ResetFrom(a) == ResetFrom(b)
  {
  }
}
