/** `src/components/ModelConfigPanel.tsx`: one model's settings card, which
    keeps a local copy of the configuration and reports every change. */
module ModelConfigPanel {
  import opened Wrappers
  import opened Text
  import opened Socket

  /** The number fields hold what `parseFloat` and `parseInt` returned; the
      parsing itself (and its NaN) is not modelled. */
  datatype ModelConfig = ModelConfig(provider: string, apiKey: string, model: string,
                                     temperature: Option<real>, maxTokens: Option<int>, systemPrompt: Option<string>)

  const InitialConfig := ModelConfig("", "", "", Some(0.7), Some(2048), Some(""))

  /** A `Partial<ModelConfig>`: `Some` for each key the update carries. */
  datatype ConfigUpdate = ConfigUpdate(provider: Option<string>, apiKey: Option<string>, model: Option<string>,
                                       temperature: Option<real>, maxTokens: Option<int>, systemPrompt: Option<string>)

  const NoUpdate := ConfigUpdate(None, None, None, None, None, None)

  function Pick<T>(update: Option<T>, current: T): T {
    if update.Some? then update.value else current
  }

  /** `{ ...c, ...u }`. */
  function Merge(c: ModelConfig, u: ConfigUpdate): (r: ModelConfig)
    ensures u.provider.Some? ==> r.provider == u.provider.value
    ensures u.provider.None? ==> r.provider == c.provider
    ensures u.apiKey.Some? ==> r.apiKey == u.apiKey.value
    ensures u.apiKey.None? ==> r.apiKey == c.apiKey
    ensures u.model.Some? ==> r.model == u.model.value
    ensures u.model.None? ==> r.model == c.model
    ensures r.temperature == if u.temperature.Some? then u.temperature else c.temperature
    ensures r.maxTokens == if u.maxTokens.Some? then u.maxTokens else c.maxTokens
    ensures r.systemPrompt == if u.systemPrompt.Some? then u.systemPrompt else c.systemPrompt
  {
    ModelConfig(Pick(u.provider, c.provider), Pick(u.apiKey, c.apiKey), Pick(u.model, c.model),
                if u.temperature.Some? then u.temperature else c.temperature,
                if u.maxTokens.Some? then u.maxTokens else c.maxTokens,
                if u.systemPrompt.Some? then u.systemPrompt else c.systemPrompt)
  }

  /** Two updates in a row, as one: the later key wins. */
  function Then(u1: ConfigUpdate, u2: ConfigUpdate): ConfigUpdate {
    ConfigUpdate(if u2.provider.Some? then u2.provider else u1.provider,
                 if u2.apiKey.Some? then u2.apiKey else u1.apiKey,
                 if u2.model.Some? then u2.model else u1.model,
                 if u2.temperature.Some? then u2.temperature else u1.temperature,
                 if u2.maxTokens.Some? then u2.maxTokens else u1.maxTokens,
                 if u2.systemPrompt.Some? then u2.systemPrompt else u1.systemPrompt)
  }

  /** Merging is a monoid action: the empty update changes nothing, the same
      update twice is the update once, and two merges are one merge of the
      combined update. */
  lemma MergeLaws(c: ModelConfig, u: ConfigUpdate, u2: ConfigUpdate)
    ensures Merge(c, NoUpdate) == c
    ensures Merge(Merge(c, u), u) == Merge(c, u)
    ensures Merge(Merge(c, u), u2) == Merge(c, Then(u, u2))
  {
  }

  /** `isConfigured`. */
  predicate IsConfigured(c: ModelConfig) {
    c.provider != "" && c.apiKey != "" && c.model != ""
  }

  /** The provider `<Select>`'s update. */
  function ProviderChoice(value: string): ConfigUpdate {
    NoUpdate.(provider := Some(value), model := Some(""))
  }

  class ModelConfigCard {
    var localConfig: ModelConfig
    var selectedProvider: Option<AIProvider>
    /** The arguments of every `onConfigChange` call so far. */
    var reported: seq<ModelConfig>

    constructor ()
      ensures localConfig == InitialConfig && selectedProvider == None && reported == []
    {
      localConfig := InitialConfig;
      selectedProvider := None;
      reported := [];
    }

    /** `handleConfigUpdate`: merge, keep and report the same object. */
    method HandleConfigUpdate(u: ConfigUpdate)
      modifies this
      ensures localConfig == Merge(old(localConfig), u)
      ensures reported == old(reported) + [localConfig]
      ensures selectedProvider == old(selectedProvider)
    {
      var updated := Merge(localConfig, u);
      localConfig := updated;
      reported := reported + [updated];
    }

    /** The effect on `localConfig.provider`: look the provider up and, when it
        is known and no model is chosen, choose its first model and report it. */
    method ProviderEffect()
      modifies this
      ensures selectedProvider == FindProvider(old(localConfig).provider)
      ensures var p := FindProvider(old(localConfig).provider);
        if p.Some? && old(localConfig).model == "" then
          localConfig == old(localConfig).(model := OrElse(if |p.value.models| > 0 then Some(p.value.models[0].value) else None, ""))
          && reported == old(reported) + [localConfig]
        else localConfig == old(localConfig) && reported == old(reported)
    {
      var provider := FindProvider(localConfig.provider);
      selectedProvider := provider;
      if provider.Some? && localConfig.model == "" {
        var first := if |provider.value.models| > 0 then Some(provider.value.models[0].value) else None;
        var updated := localConfig.(model := OrElse(first, ""));
        localConfig := updated;
        reported := reported + [updated];
      }
    }

    /** Choosing a provider: the update clears the model, and the effect then
        runs only if the provider value changed. Choosing a new catalog
        provider ends with its first model selected and reported. */
    method SelectProvider(value: string)
      modifies this
      ensures value == old(localConfig).provider ==>
        (localConfig == old(localConfig).(model := "") && reported == old(reported) + [localConfig]
         && selectedProvider == old(selectedProvider))
      ensures value != old(localConfig).provider && FindProvider(value).Some? ==>
        (localConfig == old(localConfig).(provider := value, model := FindProvider(value).value.models[0].value)
         && reported == old(reported) + [old(localConfig).(provider := value, model := ""), localConfig]
         && selectedProvider == FindProvider(value))
      ensures value != old(localConfig).provider && FindProvider(value).None? ==>
        (localConfig == old(localConfig).(provider := value, model := "") && reported == old(reported) + [localConfig]
         && selectedProvider == None)
    {
      var previous := localConfig.provider;
      HandleConfigUpdate(ProviderChoice(value));
      if localConfig.provider != previous {
        ghost var p := FindProvider(value);
        if p.Some? {
          CatalogModelsNonEmpty();
          assert |p.value.models| > 0 && p.value.models[0].value != "" by {
            FirstModelsNamed(p.value);
          }
        }
        ProviderEffect();
      }
    }

    /** The effect on the `config` prop: a non-null config replaces the local
        one wholesale; the provider effect follows when its provider differs. */
    method OnConfigProp(config: Option<ModelConfig>)
      modifies this
      ensures config.None? ==>
        (localConfig == old(localConfig) && reported == old(reported) && selectedProvider == old(selectedProvider))
      ensures config.Some? && config.value.provider == old(localConfig).provider ==>
        (localConfig == config.value && reported == old(reported) && selectedProvider == FindProvider(config.value.provider))
      ensures config.Some? && config.value.provider != old(localConfig).provider ==>
        (selectedProvider == FindProvider(config.value.provider)
         && (config.value.model != "" || FindProvider(config.value.provider).None? ==>
               localConfig == config.value && reported == old(reported)))
      ensures config.Some? && config.value.provider != old(localConfig).provider
              && config.value.model == "" && FindProvider(config.value.provider).Some? ==>
        (localConfig == config.value.(model := FindProvider(config.value.provider).value.models[0].value)
         && reported == old(reported) + [localConfig])
    {
      if config.Some? {
        var previous := localConfig.provider;
        localConfig := config.value;
        selectedProvider := FindProvider(config.value.provider);
        if localConfig.provider != previous {
          ghost var p := FindProvider(config.value.provider);
          if p.Some? {
            FirstModelsNamed(p.value);
          }
          ProviderEffect();
        }
      }
    }
  }

  /** Every catalog model has a non-empty value. */
  lemma FirstModelsNamed(p: AIProvider)
    requires p in AIProviders
    ensures |p.models| > 0 && p.models[0].value != ""
  {
    CatalogModelsNonEmpty();
  }

  /** Choosing a provider leaves the card unconfigured; once the effect has
      filled in a catalog provider's first model, the card is configured
      exactly when an API key is set. */
  lemma ConfiguredAfterProviderChoice(c: ModelConfig, value: string)
    ensures !IsConfigured(Merge(c, ProviderChoice(value)))
    ensures var p := FindProvider(value);
      p.Some? ==> (|p.value.models| > 0
        && (IsConfigured(Merge(c, ProviderChoice(value)).(model := p.value.models[0].value)) <==> c.apiKey != ""))
  {
    var p := FindProvider(value);
    if p.Some? {
      FirstModelsNamed(p.value);
    }
  }

  /** A fresh card that picks a provider and gets a key is configured. */
  method ConfigureExample()
  {
    var card := new ModelConfigCard();
    assert !IsConfigured(card.localConfig);
    card.SelectProvider("anthropic");
    assert card.localConfig.model == "claude-opus-4-20250514";
    assert |card.reported| == 2 && card.reported[0].model == "";
    card.HandleConfigUpdate(NoUpdate.(apiKey := Some("key")));
    assert IsConfigured(card.localConfig);
    card.SelectProvider("anthropic");
    assert card.localConfig.model == "" && !IsConfigured(card.localConfig);
  }
}
