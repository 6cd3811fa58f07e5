/**
  The configuration window's state: the record it holds and the values its
  selectors show (five model selectors, three option selectors and the
  temperature slider). Widgets, dialogs, files and message boxes are not
  part of this model; a selector is the string it currently holds.
 */
module ConfigWindow {
  import opened SettingsMode
  import opened ConfigRecord

  class Window {
    var config: Config
    var actionModel: string
    var curriculumModel: string
    var qaModel: string
    var criticModel: string
    var skillModel: string
    var reasoningEffort: string
    var verbosity: string
    var store: string
    var temperature: real

    /** The selectors' values together. */
    function Shown(): View
      reads this
    {
      View(actionModel, curriculumModel, qaModel, criticModel, skillModel,
           reasoningEffort, verbosity, store, temperature)
    }

    /** Start-up: the default record, shown in the selectors; the slider at 0.0. */
    constructor ()
      ensures config == DefaultConfig()
      ensures Shown() == DefaultView()
    {
      config := DefaultConfig();
      var c := DefaultConfig();
      actionModel := c.action.value.model.value;
      curriculumModel := c.curriculum.value.model.value;
      qaModel := c.curriculum.value.qaModel.value;
      criticModel := c.critic.value.model.value;
      skillModel := c.skill.value.model.value;
      reasoningEffort := c.reasoningEffort.value;
      verbosity := c.verbosity.value;
      store := c.store.value;
      temperature := 0.0;
    }

    /**
      Writes the slider's temperature into every temperature slot of the
      held record, section by section; ok is false when a section is
      missing, the sections before it already updated. The selectors do not
      change.
     */
    method ApplyTemperatureAll() returns (ok: bool)
      modifies this`config
      ensures Applied(ok, config) == ApplyTemperature(old(config), temperature)
    {
      var t := temperature;
      if config.action.None? {
        return false;
      }
      config := config.(action := Some(config.action.value.(temperature := Some(t))));
      if config.curriculum.None? {
        return false;
      }
      config := config.(curriculum := Some(config.curriculum.value.(temperature := Some(t))));
      config := config.(curriculum := Some(config.curriculum.value.(qaTemperature := Some(t))));
      if config.critic.None? {
        return false;
      }
      config := config.(critic := Some(config.critic.value.(temperature := Some(t))));
      if config.skill.None? {
        return false;
      }
      config := config.(skill := Some(config.skill.value.(temperature := Some(t))));
      ok := true;
    }

    /**
      The record to save or render: the default record with every field
      overwritten from the selectors. The held record is never read, so
      all five temperatures are the slider's.
     */
    method ConfigFromSelectors() returns (c: Config)
      ensures c == RecordOf(Shown())
      ensures Complete(c) && UniformTemperature(c, temperature)
      ensures forall i | 0 <= i < 5 :: ModelSlots(c)[i] == Some(SelectedModels(Shown())[i])
    {
      c := DefaultConfig();
      c := c.(action := Some(c.action.value.(model := Some(actionModel))));
      c := c.(action := Some(c.action.value.(temperature := Some(temperature))));
      c := c.(curriculum := Some(c.curriculum.value.(model := Some(curriculumModel))));
      c := c.(curriculum := Some(c.curriculum.value.(temperature := Some(temperature))));
      c := c.(curriculum := Some(c.curriculum.value.(qaModel := Some(qaModel))));
      c := c.(curriculum := Some(c.curriculum.value.(qaTemperature := Some(temperature))));
      c := c.(critic := Some(c.critic.value.(model := Some(criticModel))));
      c := c.(critic := Some(c.critic.value.(temperature := Some(temperature))));
      c := c.(skill := Some(c.skill.value.(model := Some(skillModel))));
      c := c.(skill := Some(c.skill.value.(temperature := Some(temperature))));
      c := c.(reasoningEffort := Some(reasoningEffort));
      c := c.(verbosity := Some(verbosity));
      c := c.(store := Some(store));
    }

    /**
      Shows the held record in the selectors, model by model in slot order;
      ok is false at the first missing model key, and the selectors set
      before it keep their new values.
     */
    method ShowConfig() returns (ok: bool)
      modifies this`actionModel, this`curriculumModel, this`qaModel, this`criticModel,
        this`skillModel, this`reasoningEffort, this`verbosity, this`store, this`temperature
      ensures Loaded(ok, Shown()) == Refreshed(config, old(Shown()))
    {
      var m := ModelSlots(config);
      if m[0].None? {
        return false;
      }
      actionModel := m[0].value;
      if m[1].None? {
        return false;
      }
      curriculumModel := m[1].value;
      if m[2].None? {
        return false;
      }
      qaModel := m[2].value;
      if m[3].None? {
        return false;
      }
      criticModel := m[3].value;
      if m[4].None? {
        return false;
      }
      skillModel := m[4].value;
      reasoningEffort := config.reasoningEffort.GetOr("none");
      verbosity := config.verbosity.GetOr("medium");
      store := config.store.GetOr("false");
      temperature := config.action.value.temperature.GetOr(0.0);
      ok := true;
    }

    /**
      Loading a parsed record: it replaces the held record first, then is
      shown; a failure leaves the new record held and the selectors
      partly updated.
     */
    method LoadConfig(loaded: Config) returns (ok: bool)
      modifies this
      ensures config == loaded
      ensures Loaded(ok, Shown()) == Refreshed(loaded, old(Shown()))
    {
      config := loaded;
      ok := ShowConfig();
    }

    /** The values filled into the generated script, all taken from the selectors. */
    method GenerateCode() returns (g: Generated)
      ensures g == Render(RecordOf(Shown()))
      ensures SelectedModels(Shown()) ==
        [g.actionModel, g.curriculumModel, g.qaModel, g.criticModel, g.skillModel]
      ensures g.actionTemperature == g.curriculumTemperature == g.qaTemperature
        == g.criticTemperature == g.skillTemperature == temperature
      ensures g.reasoningEffort == reasoningEffort && g.verbosity == verbosity
      ensures g.store <==> StoreFlag(store)
    {
      var c := ConfigFromSelectors();
      g := Render(c);
    }

    /** Back to the default record, shown in the selectors. */
    method Reset()
      modifies this
      ensures config == DefaultConfig()
      ensures Shown() == DefaultView()
    {
      config := DefaultConfig();
      var _ := ShowConfig();
    }
  }
}
