/**
  Which request options a chat model accepts.

  A model identifier is classified by an ordered, first-match decision table
  into a capability record: whether the model honours a reasoning-effort
  setting, a verbosity setting, response storage, and the extra-high
  ("xhigh") reasoning-effort level.
 */
module Capabilities {

  /** The capability record of one model identifier. */
  datatype Support = Support(
    reasoningEffort: bool,
    verbosity: bool,
    store: bool,
    xhighReasoning: bool)

  /** The older models that share the legacy parameter schema. */
  const LegacyModels: set<string> :=
    {"gpt-3.5-turbo", "gpt-4", "gpt-4-turbo", "gpt-4o", "gpt-4o-mini", "gpt-4.1"}

  /** The high-end tier that accepts none of the adjustable options. */
  const ProModel: string := "gpt-5.2-pro"

  /** The tiers that accept a reasoning effort but no verbosity. */
  const ReasoningOnlyModels: set<string> := {"o1", "o3", "o4-mini"}

  /** The flagship tier, the only one with the extra-high reasoning effort. */
  const FlagshipModel: string := "gpt-5.2"

  const NoOptions: Support := Support(false, false, true, false)
  const ReasoningOnly: Support := Support(true, false, true, false)
  const Flagship: Support := Support(true, true, true, true)
  /** What any identifier not named in the table gets. */
  const Fallback: Support := Support(true, true, true, false)

  /** The classifier, rule by rule in its order of precedence. */
  function ModelSupport(model: string): (s: Support)
    ensures s.store
    ensures s.reasoningEffort <==> model !in LegacyModels && model != ProModel
    ensures s.verbosity <==>
      model !in LegacyModels && model != ProModel && model !in ReasoningOnlyModels
    ensures s.xhighReasoning <==> model == FlagshipModel
  {
    if model in LegacyModels then NoOptions
    else if model == ProModel then NoOptions
    else if model in ReasoningOnlyModels then ReasoningOnly
    else if model == FlagshipModel then Flagship
    else Fallback
  }

  /** Every legacy identifier accepts storage and nothing else. */
  lemma LegacyClassification(model: string)
    requires model in LegacyModels
    ensures ModelSupport(model) == Support(false, false, true, false)
  {
  }

  /** The pro tier is not a legacy model, yet it is classified like one. */
  lemma ProClassifiedLikeLegacy()
    ensures ProModel !in LegacyModels
    ensures forall legacy | legacy in LegacyModels :: ModelSupport(ProModel) == ModelSupport(legacy)
  {
  }

  /** One row of the decision table: the identifiers it matches and what they get. */
  datatype Rule = Rule(matches: set<string>, grants: Support)

  /** The table as data, in its order of precedence. */
  const SupportTable: seq<Rule> := [
    Rule(LegacyModels, NoOptions),
    Rule({ProModel}, NoOptions),
    Rule(ReasoningOnlyModels, ReasoningOnly),
    Rule({FlagshipModel}, Flagship)
  ]

  /** The record of the first rule that matches, or the fallback when none does. */
  function FirstMatch(rules: seq<Rule>, model: string): Support
  {
    if rules == [] then Fallback
    else if model in rules[0].matches then rules[0].grants
    else FirstMatch(rules[1..], model)
  }

  /** The classifier is exactly the first-match reading of the table. */
  lemma {:induction false} ClassifierIsFirstMatch(model: string)
    ensures ModelSupport(model) == FirstMatch(SupportTable, model)
  {
    var t := SupportTable;
    assert t[1..][1..][1..][1..] == [];
    if model !in LegacyModels {
      assert FirstMatch(t, model) == FirstMatch(t[1..], model);
      if model != ProModel {
        assert FirstMatch(t[1..], model) == FirstMatch(t[1..][1..], model);
        if model !in ReasoningOnlyModels {
          assert FirstMatch(t[1..][1..], model) == FirstMatch(t[1..][1..][1..], model);
          if model != FlagshipModel {
            assert FirstMatch(t[1..][1..][1..], model) == FirstMatch(t[1..][1..][1..][1..], model);
          }
        }
      }
    }
  }
}
