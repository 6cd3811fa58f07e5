/**
  The configuration record the GUI builds, saves, loads and renders.

  A record holds one section per agent (action, curriculum, critic, skill
  manager), the curriculum section also carrying the question-answering
  model, and three option strings. A record read from a file may lack any
  key, so every key is optional; the GUI itself always builds complete ones.
  Temperatures are only ever copied, so they are plain reals.
 */
module ConfigRecord {
  import opened Capabilities
  import opened SettingsMode

  datatype Option<T> = None | Some(value: T) {
    /** The dictionary lookup with a fallback. */
    function GetOr(default: T): T
    {
      match this
      case Some(v) => v
      case None => default
    }
  }

  /** The action, critic and skill-manager sections. */
  datatype Agent = Agent(model: Option<string>, temperature: Option<real>)

  /** The curriculum section, with its question-answering model. */
  datatype Curriculum = Curriculum(
    model: Option<string>,
    temperature: Option<real>,
    qaModel: Option<string>,
    qaTemperature: Option<real>)

  datatype Config = Config(
    action: Option<Agent>,
    curriculum: Option<Curriculum>,
    critic: Option<Agent>,
    skill: Option<Agent>,
    reasoningEffort: Option<string>,
    verbosity: Option<string>,
    store: Option<string>)

  /** The choices the model selectors offer. */
  const Models: seq<string> := [
    "gpt-5.2-pro", "gpt-5.2", "gpt-5.1", "gpt-5-mini", "gpt-4.1", "gpt-4.1-mini",
    "o4-mini", "o3", "o1", "gpt-4o", "gpt-4o-mini", "gpt-4-turbo", "gpt-4", "gpt-3.5-turbo"
  ]
  const ReasoningEfforts: seq<string> := ["none", "low", "medium", "high", "xhigh"]
  const Verbosities: seq<string> := ["low", "medium", "high"]
  const StoreChoices: seq<string> := ["true", "false"]

  /** Every legacy model and every specially classified tier is offered. */
  lemma ClassifiedModelsOffered()
    ensures forall m | m in LegacyModels :: m in Models
    ensures ProModel in Models && FlagshipModel in Models
    ensures forall m | m in ReasoningOnlyModels :: m in Models
  {
  }

  /** The model of an agent section, absent when the section or the key is. */
  function AgentModel(a: Option<Agent>): Option<string>
  {
    if a.Some? then a.value.model else None
  }

  function AgentTemperature(a: Option<Agent>): Option<real>
  {
    if a.Some? then a.value.temperature else None
  }

  /**
    The five model slots in selection order: action, curriculum,
    curriculum question-answering, critic, skill manager.
   */
  function ModelSlots(c: Config): (r: seq<Option<string>>)
    ensures |r| == 5
  {
    var cur := c.curriculum;
    [ AgentModel(c.action),
      if cur.Some? then cur.value.model else None,
      if cur.Some? then cur.value.qaModel else None,
      AgentModel(c.critic),
      AgentModel(c.skill) ]
  }

  /** The five temperature slots, in the same order. */
  function TemperatureSlots(c: Config): (r: seq<Option<real>>)
    ensures |r| == 5
  {
    var cur := c.curriculum;
    [ AgentTemperature(c.action),
      if cur.Some? then cur.value.temperature else None,
      if cur.Some? then cur.value.qaTemperature else None,
      AgentTemperature(c.critic),
      AgentTemperature(c.skill) ]
  }

  /** The three option strings. */
  function OptionSlots(c: Config): seq<Option<string>>
  {
    [c.reasoningEffort, c.verbosity, c.store]
  }

  /**
    For each of the five slots, whether the section holding it is present:
    action, curriculum (twice), critic, skill manager.
   */
  function SlotSectionPresent(c: Config): (r: seq<bool>)
    ensures |r| == 5
  {
    [c.action.Some?, c.curriculum.Some?, c.curriculum.Some?, c.critic.Some?, c.skill.Some?]
  }

  predicate HasSections(c: Config)
  {
    c.action.Some? && c.curriculum.Some? && c.critic.Some? && c.skill.Some?
  }

  /** Every key of the record is present. */
  predicate Complete(c: Config)
  {
    && HasSections(c)
    && (forall i | 0 <= i < 5 :: ModelSlots(c)[i].Some?)
    && (forall i | 0 <= i < 5 :: TemperatureSlots(c)[i].Some?)
    && c.reasoningEffort.Some? && c.verbosity.Some? && c.store.Some?
  }

  /** Every temperature slot holds t. */
  predicate UniformTemperature(c: Config, t: real)
  {
    forall i | 0 <= i < 5 :: TemperatureSlots(c)[i] == Some(t)
  }

  /** The record the GUI starts from and resets to. */
  function DefaultConfig(): (c: Config)
    ensures Complete(c) && UniformTemperature(c, 0.0)
    ensures forall i | 0 <= i < 5 :: ModelSlots(c)[i].value in Models
    ensures forall i | 0 <= i < 5 :: ModelSlots(c)[i].value in LegacyModels
    ensures c.reasoningEffort.value in ReasoningEfforts
    ensures c.verbosity.value in Verbosities
    ensures c.store.value in StoreChoices && !StoreFlag(c.store.value)
  {
    Config(
      Some(Agent(Some("gpt-4"), Some(0.0))),
      Some(Curriculum(Some("gpt-4"), Some(0.0), Some("gpt-3.5-turbo"), Some(0.0))),
      Some(Agent(Some("gpt-4"), Some(0.0))),
      Some(Agent(Some("gpt-3.5-turbo"), Some(0.0))),
      Some("none"),
      Some("medium"),
      Some("false"))
  }

  function LowerAscii(ch: char): char
  {
    if 'A' <= ch <= 'Z' then (ch as int + 32) as char else ch
  }

  /** String lowering, for the ASCII letters. */
  function Lower(s: string): (r: string)
    ensures |r| == |s| && forall i | 0 <= i < |s| :: r[i] == LowerAscii(s[i])
  {
    seq(|s|, i requires 0 <= i < |s| => LowerAscii(s[i]))
  }

  /** The store option as the boolean written into generated code. */
  function StoreFlag(store: string): (b: bool)
    ensures b <==>
      && |store| == 4
      && store[0] in "tT" && store[1] in "rR" && store[2] in "uU" && store[3] in "eE"
  {
    Lower(store) == "true"
  }

  /** Of the two store choices, only "true" becomes true. */
  lemma StoreChoicesCoerce()
    ensures forall s | s in StoreChoices :: StoreFlag(s) <==> s == "true"
  {
  }

  /** What the selectors of the GUI currently show. */
  datatype View = View(
    actionModel: string,
    curriculumModel: string,
    qaModel: string,
    criticModel: string,
    skillModel: string,
    reasoningEffort: string,
    verbosity: string,
    store: string,
    temperature: real)

  /** The five selected models in slot order. */
  function SelectedModels(v: View): seq<string>
  {
    [v.actionModel, v.curriculumModel, v.qaModel, v.criticModel, v.skillModel]
  }

  /**
    The record built from the selectors: every field comes from a selector,
    and the single temperature goes into all five temperature slots.
   */
  function RecordOf(v: View): (c: Config)
    ensures Complete(c) && UniformTemperature(c, v.temperature)
    ensures forall i | 0 <= i < 5 :: ModelSlots(c)[i] == Some(SelectedModels(v)[i])
    ensures OptionSlots(c) == [Some(v.reasoningEffort), Some(v.verbosity), Some(v.store)]
  {
    var t := Some(v.temperature);
    Config(
      Some(Agent(Some(v.actionModel), t)),
      Some(Curriculum(Some(v.curriculumModel), t, Some(v.qaModel), t)),
      Some(Agent(Some(v.criticModel), t)),
      Some(Agent(Some(v.skillModel), t)),
      Some(v.reasoningEffort),
      Some(v.verbosity),
      Some(v.store))
  }

  /** The outcome of showing a record in the selectors. */
  datatype Loaded = Loaded(ok: bool, view: View)

  /**
    Showing a record in the selectors: the five models are read in slot
    order and a missing one stops the update there (the selectors already
    set keep their new values); the options fall back to "none", "medium"
    and "false"; the temperature is the action section's, or 0.0.
   */
  function Refreshed(c: Config, prior: View): (r: Loaded)
    ensures r.ok <==> forall i | 0 <= i < 5 :: ModelSlots(c)[i].Some?
    ensures forall i | 0 <= i < 5 ::
      SelectedModels(r.view)[i] ==
        if forall j | 0 <= j <= i :: ModelSlots(c)[j].Some?
        then ModelSlots(c)[i].value else SelectedModels(prior)[i]
    ensures !r.ok ==>
      && r.view.reasoningEffort == prior.reasoningEffort
      && r.view.verbosity == prior.verbosity
      && r.view.store == prior.store
      && r.view.temperature == prior.temperature
    ensures r.ok ==>
      && r.view.reasoningEffort == c.reasoningEffort.GetOr(DefaultConfig().reasoningEffort.value)
      && r.view.verbosity == c.verbosity.GetOr(DefaultConfig().verbosity.value)
      && r.view.store == c.store.GetOr(DefaultConfig().store.value)
      && r.view.temperature == TemperatureSlots(c)[0].GetOr(0.0)
  {
    var m := ModelSlots(c);
    if m[0].None? then Loaded(false, prior) else
    var v1 := prior.(actionModel := m[0].value);
    if m[1].None? then Loaded(false, v1) else
    var v2 := v1.(curriculumModel := m[1].value);
    if m[2].None? then Loaded(false, v2) else
    var v3 := v2.(qaModel := m[2].value);
    if m[3].None? then Loaded(false, v3) else
    var v4 := v3.(criticModel := m[3].value);
    if m[4].None? then Loaded(false, v4) else
    var v5 := v4.(skillModel := m[4].value);
    Loaded(true, v5.(
      reasoningEffort := c.reasoningEffort.GetOr("none"),
      verbosity := c.verbosity.GetOr("medium"),
      store := c.store.GetOr("false"),
      temperature := c.action.value.temperature.GetOr(0.0)))
  }

  /** What the selectors show at start-up and after a reset. */
  function DefaultView(): (v: View)
    ensures forall prior :: Refreshed(DefaultConfig(), prior) == Loaded(true, v)
    ensures RecordOf(v) == DefaultConfig()
    ensures Resolve(SelectedModels(v)).tabs == Tabs(true, false)
  {
    View("gpt-4", "gpt-4", "gpt-3.5-turbo", "gpt-4", "gpt-3.5-turbo", "none", "medium", "false", 0.0)
  }

  /**
    Saving and loading again restores every selector: the five models, the
    three options and the temperature.
   */
  lemma SaveLoadRoundTrip(v: View, prior: View)
    ensures Refreshed(RecordOf(v), prior) == Loaded(true, v)
  {
  }

  /**
    Loading a complete record and saving again keeps the models and the
    options, but every temperature becomes the action agent's.
   */
  lemma LoadSaveKeepsAllButTemperatures(c: Config, prior: View)
    requires Complete(c)
    ensures Refreshed(c, prior).ok
    ensures var saved := RecordOf(Refreshed(c, prior).view);
      && ModelSlots(saved) == ModelSlots(c)
      && OptionSlots(saved) == OptionSlots(c)
      && UniformTemperature(saved, TemperatureSlots(c)[0].value)
  {
    var saved := RecordOf(Refreshed(c, prior).view);
    forall i | 0 <= i < 5 ensures ModelSlots(saved)[i] == ModelSlots(c)[i] {
      assert forall j | 0 <= j <= i :: ModelSlots(c)[j].Some?;
    }
  }

  /** The outcome of writing one temperature into every agent section. */
  datatype Applied = Applied(ok: bool, config: Config)

  /**
    Writing t into the temperature slots section by section: action,
    curriculum (its own and its question-answering temperature), critic,
    skill manager. A missing section stops the writes there, the earlier
    sections keeping the new value.
   */
  function ApplyTemperature(c: Config, t: real): (r: Applied)
    ensures r.ok <==> HasSections(c)
    ensures r.ok ==> UniformTemperature(r.config, t)
    ensures forall i | 0 <= i < 5 ::
      TemperatureSlots(r.config)[i] ==
        if forall j | 0 <= j <= i :: SlotSectionPresent(c)[j]
        then Some(t) else TemperatureSlots(c)[i]
    ensures ModelSlots(r.config) == ModelSlots(c)
    ensures OptionSlots(r.config) == OptionSlots(c)
    ensures SlotSectionPresent(r.config) == SlotSectionPresent(c)
  {
    var present := SlotSectionPresent(c);
    if c.action.None? then assert !present[0]; Applied(false, c) else
    var c1 := c.(action := Some(c.action.value.(temperature := Some(t))));
    if c1.curriculum.None? then assert !present[1]; Applied(false, c1) else
    var c2 := c1.(curriculum := Some(c1.curriculum.value.(temperature := Some(t), qaTemperature := Some(t))));
    if c2.critic.None? then assert !present[3]; Applied(false, c2) else
    var c3 := c2.(critic := Some(c2.critic.value.(temperature := Some(t))));
    if c3.skill.None? then assert !present[4]; Applied(false, c3) else
    Applied(true, c3.(skill := Some(c3.skill.value.(temperature := Some(t)))))
  }

  /** The values substituted into the generated Python script. */
  datatype Generated = Generated(
    actionModel: string,
    actionTemperature: real,
    curriculumModel: string,
    curriculumTemperature: real,
    qaModel: string,
    qaTemperature: real,
    criticModel: string,
    criticTemperature: real,
    skillModel: string,
    skillTemperature: real,
    reasoningEffort: string,
    verbosity: string,
    store: bool)

  /**
    Filling the script template from a complete record: each model and
    temperature placeholder takes its slot, and the options block always
    holds the reasoning effort, the verbosity and the store flag.
   */
  function Render(c: Config): (g: Generated)
    requires Complete(c)
    ensures ModelSlots(c) ==
      [Some(g.actionModel), Some(g.curriculumModel), Some(g.qaModel), Some(g.criticModel), Some(g.skillModel)]
    ensures TemperatureSlots(c) ==
      [Some(g.actionTemperature), Some(g.curriculumTemperature), Some(g.qaTemperature),
       Some(g.criticTemperature), Some(g.skillTemperature)]
    ensures OptionSlots(c)[..2] == [Some(g.reasoningEffort), Some(g.verbosity)]
    ensures g.store <==> StoreFlag(c.store.value)
  {
    var m, t := ModelSlots(c), TemperatureSlots(c);
    Generated(
      m[0].value, t[0].value, m[1].value, t[1].value, m[2].value, t[2].value,
      m[3].value, t[3].value, m[4].value, t[4].value,
      c.reasoningEffort.value, c.verbosity.value, StoreFlag(c.store.value))
  }
}
