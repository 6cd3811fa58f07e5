/**
  Which options tab is active for a selection of agent models, and which
  options inside it are available.

  The "old settings" tab serves the legacy schema and the "settings" tab the
  modern one. A selection is the list of model identifiers chosen for the
  agents; duplicates are allowed and order carries no meaning.
 */
module SettingsMode {
  import opened Capabilities

  /** Every selected model is legacy (true of the empty selection). */
  function AllLegacy(models: seq<string>): bool
  {
    models == [] || (models[0] in LegacyModels && AllLegacy(models[1..]))
  }

  /** Some selected model is legacy (false of the empty selection). */
  function AnyLegacy(models: seq<string>): bool
  {
    models != [] && (models[0] in LegacyModels || AnyLegacy(models[1..]))
  }

  /** The options a capability record can grant. */
  datatype Capability = ReasoningEffortOption | VerbosityOption | StoreOption

  function Grants(s: Support, c: Capability): bool
  {
    match c
    case ReasoningEffortOption => s.reasoningEffort
    case VerbosityOption => s.verbosity
    case StoreOption => s.store
  }

  /** Some selected model supports the option. */
  function AnySupports(models: seq<string>, c: Capability): bool
  {
    models != [] && (Grants(ModelSupport(models[0]), c) || AnySupports(models[1..], c))
  }

  lemma {:induction false} AllLegacyMeans(models: seq<string>)
    ensures AllLegacy(models) <==> forall i | 0 <= i < |models| :: models[i] in LegacyModels
  {
    if models != [] {
      AllLegacyMeans(models[1..]);
      assert forall i | 1 <= i < |models| :: models[i] == models[1..][i - 1];
    }
  }

  lemma {:induction false} AnyLegacyMeans(models: seq<string>)
    ensures AnyLegacy(models) <==> exists i | 0 <= i < |models| :: models[i] in LegacyModels
  {
    if models != [] {
      AnyLegacyMeans(models[1..]);
      assert forall i | 1 <= i < |models| :: models[i] == models[1..][i - 1];
      if exists i | 0 <= i < |models| :: models[i] in LegacyModels {
        var i :| 0 <= i < |models| && models[i] in LegacyModels;
        if i > 0 {
          assert models[1..][i - 1] in LegacyModels;
        }
      }
    }
  }

  lemma {:induction false} AnySupportsMeans(models: seq<string>, c: Capability)
    ensures AnySupports(models, c) <==> exists i | 0 <= i < |models| :: Grants(ModelSupport(models[i]), c)
  {
    if models != [] {
      AnySupportsMeans(models[1..], c);
      assert forall i | 1 <= i < |models| :: models[i] == models[1..][i - 1];
      if exists i | 0 <= i < |models| :: Grants(ModelSupport(models[i]), c) {
        var i :| 0 <= i < |models| && Grants(ModelSupport(models[i]), c);
        if i > 0 {
          assert Grants(ModelSupport(models[1..][i - 1]), c);
        }
      }
    }
  }

  /** Whether the old-settings tab and the settings tab accept input. */
  datatype Tabs = Tabs(oldSettings: bool, settings: bool)

  /**
    The current rule: old settings exactly when every model is legacy, new
    settings otherwise.
   */
  function TabRule(models: seq<string>): (t: Tabs)
    ensures t.oldSettings != t.settings
    ensures t.oldSettings <==> forall i | 0 <= i < |models| :: models[i] in LegacyModels
    ensures t.settings <==> exists i | 0 <= i < |models| :: models[i] !in LegacyModels
  {
    AllLegacyMeans(models);
    Tabs(AllLegacy(models), !AllLegacy(models))
  }

  /**
    The earlier rule, which enabled the settings tab only when no model was
    legacy.
   */
  function EarlierTabRule(models: seq<string>): (t: Tabs)
    ensures t.oldSettings <==> forall i | 0 <= i < |models| :: models[i] in LegacyModels
    ensures t.settings <==> forall i | 0 <= i < |models| :: models[i] !in LegacyModels
  {
    AllLegacyMeans(models);
    AnyLegacyMeans(models);
    Tabs(AllLegacy(models), !AnyLegacy(models))
  }

  /** Some but not all of the selected models are legacy. */
  predicate Mixed(models: seq<string>)
  {
    AnyLegacy(models) && !AllLegacy(models)
  }

  /** A mixed selection gets the settings tab, and only that one. */
  lemma MixedEnablesSettings(models: seq<string>)
    requires exists i | 0 <= i < |models| :: models[i] in LegacyModels
    requires exists j | 0 <= j < |models| :: models[j] !in LegacyModels
    ensures TabRule(models) == Tabs(false, true)
  {
  }

  /** Under the earlier rule a mixed selection left both tabs disabled. */
  lemma {:induction false} EarlierRuleLocksMixed(models: seq<string>)
    requires Mixed(models)
    ensures EarlierTabRule(models) == Tabs(false, false)
  {
    AnyLegacyMeans(models);
    var i :| 0 <= i < |models| && models[i] in LegacyModels;
    assert !(forall k | 0 <= k < |models| :: models[k] !in LegacyModels);
  }

  /**
    The earlier rule never enabled both tabs for a non-empty selection; on
    the empty selection it did.
   */
  lemma EarlierRuleNeverBoth(models: seq<string>)
    ensures EarlierTabRule(models) == Tabs(true, true) <==> models == []
  {
  }

  /**
    The two rules agree on every non-empty selection that is not mixed:
    all legacy, or no legacy at all.
   */
  lemma {:induction false} RulesAgreeUnlessMixed(models: seq<string>)
    requires models != []
    ensures !Mixed(models) <==> EarlierTabRule(models) == TabRule(models)
  {
    AllLegacyMeans(models);
    AnyLegacyMeans(models);
    if !Mixed(models) && !AllLegacy(models) {
      assert !AnyLegacy(models);
      assert forall i | 0 <= i < |models| :: models[i] !in LegacyModels;
    }
  }

  /** Everything the options tabs show for one selection. */
  datatype Resolution = Resolution(
    tabs: Tabs,
    reasoningAvailable: bool,
    verbosityAvailable: bool,
    storeAvailable: bool)

  /**
    The active tab, and each option available when any selected model
    supports it.
   */
  function Resolve(models: seq<string>): (r: Resolution)
    ensures r.tabs.oldSettings != r.tabs.settings
    ensures r.tabs.settings <==> exists i | 0 <= i < |models| :: models[i] !in LegacyModels
    ensures r.reasoningAvailable <==>
      exists i | 0 <= i < |models| :: ModelSupport(models[i]).reasoningEffort
    ensures r.verbosityAvailable <==>
      exists i | 0 <= i < |models| :: ModelSupport(models[i]).verbosity
    ensures r.storeAvailable <==> models != []
  {
    AnySupportsMeans(models, ReasoningEffortOption);
    AnySupportsMeans(models, VerbosityOption);
    AnySupportsMeans(models, StoreOption);
    assert models != [] ==> Grants(ModelSupport(models[0]), StoreOption);
    Resolution(
      TabRule(models),
      AnySupports(models, ReasoningEffortOption),
      AnySupports(models, VerbosityOption),
      AnySupports(models, StoreOption))
  }

  /**
    The resolution depends only on which identifiers occur in the selection,
    so reordering or duplicating entries changes nothing.
   */
  lemma SameModelsSameResolution(a: seq<string>, b: seq<string>)
    requires forall m :: m in a <==> m in b
    ensures Resolve(a) == Resolve(b)
  {
    var ra, rb := Resolve(a), Resolve(b);
    if ra.tabs.settings {
      var i :| 0 <= i < |a| && a[i] !in LegacyModels;
      assert a[i] in b;
    }
    if rb.tabs.settings {
      var i :| 0 <= i < |b| && b[i] !in LegacyModels;
      assert b[i] in a;
    }
    if ra.reasoningAvailable {
      var i :| 0 <= i < |a| && ModelSupport(a[i]).reasoningEffort;
      assert a[i] in b;
    }
    if rb.reasoningAvailable {
      var i :| 0 <= i < |b| && ModelSupport(b[i]).reasoningEffort;
      assert b[i] in a;
    }
    if ra.verbosityAvailable {
      var i :| 0 <= i < |a| && ModelSupport(a[i]).verbosity;
      assert a[i] in b;
    }
    if rb.verbosityAvailable {
      var i :| 0 <= i < |b| && ModelSupport(b[i]).verbosity;
      assert b[i] in a;
    }
    if a != [] {
      assert a[0] in b;
    }
    if b != [] {
      assert b[0] in a;
    }
  }

  /** Five reasoning-only models: settings tab, reasoning effort but no verbosity. */
  lemma FiveReasoningOnlyModels()
    ensures Resolve(["o1", "o1", "o1", "o1", "o1"]) == Resolution(Tabs(false, true), true, false, true)
  {
  }
}
