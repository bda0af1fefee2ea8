/** `src/components/SettingsModal.tsx`: the form that picks a provider, an API
    key and the two models before a session starts. */
module SettingsModal {
  import opened Wrappers
  import opened Seqs
  import opened Text
  import opened Socket

  datatype AIConfig = AIConfig(provider: string, apiKey: string, modelA: string, modelB: string)

  const EmptyConfig := AIConfig("", "", "", "")

  /** `models[i]?.value`. */
  function ModelAt(models: seq<ModelOption>, i: int): Option<string> {
    if 0 <= i < |models| then Some(models[i].value) else None
  }

  function Min(a: int, b: int): int {
    if a <= b then a else b
  }

  /** The default `(modelA, modelB)` for a provider: the first model, and the
      model at `min(1, length - 1)`, each falling back as the form does. */
  function DefaultModels(p: AIProvider): (r: (string, string))
    ensures |p.models| == 0 ==> r == ("", "")
    ensures |p.models| > 0 ==> r.0 == p.models[0].value
    ensures r.1 == r.0 || r.1 in ModelValues(p)
  {
    var first := OrElse(ModelAt(p.models, 0), "");
    (first, OrElse(ModelAt(p.models, Min(1, |p.models| - 1)), first))
  }

  /** With two or more named models the defaults are the first two, and they
      differ when the model values are distinct. */
  lemma DefaultsWithTwoModels(p: AIProvider)
    requires |p.models| >= 2 && p.models[0].value != "" && p.models[1].value != ""
    ensures DefaultModels(p) == (p.models[0].value, p.models[1].value)
    ensures NoDuplicates(ModelValues(p)) ==> DefaultModels(p).0 != DefaultModels(p).1
  {
    if NoDuplicates(ModelValues(p)) {
      assert ModelValues(p)[0] != ModelValues(p)[1];
    }
  }

  /** With a single model both slots get it; with none both stay empty. */
  lemma DefaultsWithOneModel(p: AIProvider)
    ensures |p.models| == 1 ==> DefaultModels(p) == (p.models[0].value, p.models[0].value)
    ensures |p.models| == 0 ==> DefaultModels(p) == ("", "")
  {
  }

  /** For every catalog provider the defaults are its first two models, which differ. */
  lemma CatalogDefaultsDiffer(p: AIProvider)
    requires p in AIProviders
    ensures DefaultModels(p) == (p.models[0].value, p.models[1].value)
    ensures DefaultModels(p).0 != DefaultModels(p).1
  {
    CatalogModelsDistinct();
    DefaultsWithTwoModels(p);
  }

  /** The dialog's required-field check. */
  predicate Complete(c: AIConfig) {
    c.provider != "" && c.apiKey != "" && c.modelA != "" && c.modelB != ""
  }

  /** How `handleSubmit` starts. */
  datatype SubmitStart = ValidationError | Sending(config: AIConfig)

  class SettingsForm {
    var config: AIConfig
    var isSubmitting: bool
    var selectedProvider: Option<AIProvider>

    constructor ()
      ensures config == EmptyConfig && !isSubmitting && selectedProvider == None
    {
      config := EmptyConfig;
      isSubmitting := false;
      selectedProvider := None;
    }

    /** The provider `<Select>`, followed by the effect that runs when
        `config.provider` changed: look the provider up, and fill in default
        models only while one of them is still empty. */
    method SelectProvider(value: string)
      modifies this
      ensures config.provider == value && config.apiKey == old(config.apiKey) && isSubmitting == old(isSubmitting)
      ensures value == old(config.provider) ==> config == old(config) && selectedProvider == old(selectedProvider)
      ensures value != old(config.provider) ==> selectedProvider == FindProvider(value)
      ensures value != old(config.provider) && FindProvider(value).Some? && (old(config.modelA) == "" || old(config.modelB) == "") ==>
        (config.modelA, config.modelB) == DefaultModels(FindProvider(value).value)
      ensures value == old(config.provider) || FindProvider(value).None? || (old(config.modelA) != "" && old(config.modelB) != "") ==>
        config.modelA == old(config.modelA) && config.modelB == old(config.modelB)
    {
      var changed := value != config.provider;
      config := config.(provider := value);
      if changed {
        var provider := FindProvider(config.provider);
        selectedProvider := provider;
        if provider.Some? && (config.modelA == "" || config.modelB == "") {
          var defaults := DefaultModels(provider.value);
          config := config.(modelA := defaults.0, modelB := defaults.1);
        }
      }
    }

    method SetApiKey(value: string)
      modifies this
      ensures config == old(config).(apiKey := value)
      ensures selectedProvider == old(selectedProvider) && isSubmitting == old(isSubmitting)
    {
      config := config.(apiKey := value);
    }

    method SetModelA(value: string)
      modifies this
      ensures config == old(config).(modelA := value)
      ensures selectedProvider == old(selectedProvider) && isSubmitting == old(isSubmitting)
    {
      config := config.(modelA := value);
    }

    method SetModelB(value: string)
      modifies this
      ensures config == old(config).(modelB := value)
      ensures selectedProvider == old(selectedProvider) && isSubmitting == old(isSubmitting)
    {
      config := config.(modelB := value);
    }

    /** `handleSubmit` up to the `await`: refuse an incomplete form, otherwise
        mark the form busy and hand the config to `onConfigSubmit`. */
    method BeginSubmit() returns (r: SubmitStart)
      modifies this
      ensures r == ValidationError <==> !Complete(old(config))
      ensures r.ValidationError? ==> isSubmitting == old(isSubmitting)
      ensures r.Sending? ==> r.config == config && Complete(r.config) && isSubmitting
      ensures config == old(config) && selectedProvider == old(selectedProvider)
    {
      if config.provider == "" || config.apiKey == "" || config.modelA == "" || config.modelB == "" {
        return ValidationError;
      }
      isSubmitting := true;
      r := Sending(config);
    }

    /** `handleSubmit` after the `await`: `onClose` is called only when
        `onConfigSubmit` resolved, and the form is not busy any more. */
    method FinishSubmit(resolved: bool) returns (closeCalled: bool)
      modifies this
      ensures closeCalled == resolved
      ensures !isSubmitting && config == old(config) && selectedProvider == old(selectedProvider)
    {
      closeCalled := resolved;
      isSubmitting := false;
    }

    /** `handleClose`: ignored while a submit is in flight. */
    method HandleClose() returns (closeCalled: bool)
      ensures closeCalled == !isSubmitting
    {
      closeCalled := !isSubmitting;
    }
  }

  /** xAI's defaults are its first two catalog models. */
  lemma XaiDefaults()
    ensures FindProvider("xai").Some? && DefaultModels(FindProvider("xai").value) == ("grok-beta", "grok-2")
  {
    CatalogProvidersDistinct();
    FindInDistinct(AIProviders, 2);
    assert AIProviders[2].models[0].value == "grok-beta" && AIProviders[2].models[1].value == "grok-2";
    DefaultsWithTwoModels(AIProviders[2]);
  }

  /** Qwen is in the catalog. */
  lemma QwenListed()
    ensures FindProvider("qwen").Some?
  {
    CatalogMatchesDispatcher();
    assert "qwen" in ProviderValues(AIProviders);
  }

  /** Choosing a catalog provider on a fresh form and typing a key is enough to submit. */
  method FreshFormExample()
  {
    XaiDefaults();
    var form := new SettingsForm();
    form.SelectProvider("xai");
    form.SetApiKey("key");
    assert form.config.modelA == "grok-beta" && form.config.modelB == "grok-2";
    var start := form.BeginSubmit();
    assert start == Sending(AIConfig("xai", "key", "grok-beta", "grok-2"));
    var closing := form.HandleClose();
    assert !closing;
    var closed := form.FinishSubmit(true);
    assert closed && !form.isSubmitting;
  }

  /** Once both models are set, switching provider keeps them: the form can
      then submit models of the previous provider. */
  method SwitchKeepsModelsExample()
  {
    XaiDefaults();
    QwenListed();
    var form := new SettingsForm();
    form.SelectProvider("xai");
    form.SelectProvider("qwen");
    assert form.config == AIConfig("qwen", "", "grok-beta", "grok-2");
  }
}
