/**
 * The modal dialogs of the menu package: choosing a provider and one of
 * its models, editing a provider, and confirming an action.
 */
module Dialogs {
  import opened Base
  import opened Text
  import opened ConfigMenu

  /** A provider entry of `supported_Providers`. */
  datatype Provider = Provider(apiList: string, apiUrl: string, apiKey: string, filter: Option<string>)

  // ---- LLMEditDialog ----------------------------------------------------------

  /** What the provider/model dialog hands back on save. */
  datatype ModelChoice = ModelChoice(provider: string, model: string)

  const ProviderRequired := "Provider is required"
  const ModelRequired := "Model is required"

  /**
   * A button of `LLMEditDialog`, with the values of its two selects (a
   * blank select reads as ""): save needs a provider, then a model, and
   * closes with both; any other button closes with no result.
   */
  function ModelDialogPress(buttonId: string, provider: string, model: string): (r: DialogStep<ModelChoice>)
    ensures r.Dismiss? && r.result.Some? <==> buttonId == "save-btn" && provider != "" && model != ""
    ensures r.Dismiss? && r.result.Some? ==> r.result.value == ModelChoice(provider, model)
    ensures buttonId != "save-btn" ==> r == Dismiss(None)
    ensures r.Stay? ==> r.notice.severity == Error
    ensures r.Stay? ==> (r.notice.text == ProviderRequired <==> provider == "")
  {
    if buttonId != "save-btn" then Dismiss(None)
    else if provider == "" then Stay(Notice(Error, ProviderRequired))
    else if model == "" then Stay(Notice(Error, ModelRequired))
    else Dismiss(Some(ModelChoice(provider, model)))
  }

  /**
   * `load_provider_data` (the second of its two definitions, which is the
   * one in force): the list URL and key a model fetch is started with,
   * if the provider is known and has a list URL.
   */
  function ModelFetch(providers: map<string, Provider>, name: string): (r: Option<(string, string)>)
    ensures r.Some? <==> name in providers && providers[name].apiList != ""
    ensures r.Some? ==> r.value == (providers[name].apiList, providers[name].apiKey)
  {
    if name !in providers then None
    else
      var p := providers[name];
      if p.apiList != "" then Some((p.apiList, p.apiKey)) else None
  }

  /** The `(text, value)` options of a list of fetched models, in order. */
  function ModelOptions(models: seq<JValue>, format: JValue -> (string, string)): (r: seq<(string, string)>)
    ensures |r| == |models| && forall i :: 0 <= i < |r| ==> r[i] == format(models[i])
  {
    seq(|models|, i requires 0 <= i < |models| => format(models[i]))
  }

  predicate HasValue(options: seq<(string, string)>, value: string) {
    exists i :: 0 <= i < |options| && options[i].1 == value
  }

  /** The model select of `LLMEditDialog` and the models fetched for it. */
  class LlmEditDialog {
    const defaultProvider: string
    const defaultModel: string
    var availableModels: seq<JValue>
    var loadingModels: bool
    var options: seq<(string, string)>
    var selected: string
    var disabled: bool

    constructor (provider: string, model: string)
      ensures defaultProvider == provider && defaultModel == model
      ensures availableModels == [] && !loadingModels
      ensures options == [("Select provider first...", "")] && selected == "" && disabled
    {
      defaultProvider, defaultModel := provider, model;
      availableModels, loadingModels := [], false;
      options, selected, disabled := [("Select provider first...", "")], "", true;
    }

    /**
     * `fetch_models` once the provider has answered with `models` (the
     * request itself is not modelled): the models are kept, the loading
     * flag is cleared and the select is refilled.
     */
    method FetchModels(models: seq<JValue>, format: JValue -> (string, string)) returns (notice: Notice)
      modifies this
      ensures availableModels == models && !loadingModels
      ensures |models| == 0 ==> options == [("No models available", "")] && disabled
      ensures |models| > 0 ==> options == ModelOptions(models, format) && !disabled
      ensures |models| > 0 && defaultModel != "" ==> (selected == defaultModel <==> HasValue(options, defaultModel))
    {
      loadingModels := true;
      availableModels := models;
      loadingModels := false;
      notice := UpdateModelSelect(models, format);
    }

    /**
     * `update_model_select`: no models gives a disabled select with one
     * placeholder; otherwise the select is enabled with an option per
     * model, and the dialog's default model is selected when it is one of
     * the option values.  Refilling the select is taken to select its
     * first option.
     */
    method UpdateModelSelect(models: seq<JValue>, format: JValue -> (string, string)) returns (notice: Notice)
      modifies `options, `selected, `disabled
      ensures |models| == 0 ==> options == [("No models available", "")] && selected == "" && disabled
      ensures |models| == 0 ==> notice.severity == Warning
      ensures |models| > 0 ==> options == ModelOptions(models, format) && !disabled
      ensures |models| > 0 ==> selected == (if defaultModel != "" && HasValue(options, defaultModel)
                                            then defaultModel else options[0].1)
    {
      if |models| == 0 {
        options, selected, disabled := [("No models available", "")], "", true;
        notice := Notice(Warning, "Failed to load models from provider");
      } else {
        options := ModelOptions(models, format);
        selected, disabled := options[0].1, false;
        if defaultModel != "" {
          var i := 0;
          while i < |options|
            invariant 0 <= i <= |options|
            invariant forall j :: 0 <= j < i ==> options[j].1 != defaultModel
            invariant selected == options[0].1
          {
            if options[i].1 == defaultModel {
              selected := options[i].1;
              break;
            }
            i := i + 1;
          }
        }
        notice := Notice(Information, "Loaded " + IntToString(|models|) + " models");
      }
    }
  }

  // ---- ProviderEditDialog ----------------------------------------------------

  /** What `ProviderEditDialog` hands back on save. */
  datatype ProviderForm = ProviderForm(name: string, apiList: string, apiUrl: string, apiKey: string)

  function ReadProviderForm(inputs: ProviderForm): ProviderForm {
    ProviderForm(Strip(inputs.name), Strip(inputs.apiList), Strip(inputs.apiUrl), Strip(inputs.apiKey))
  }

  /** The error for the first empty required field: the name, then the list URL, then the API URL. */
  function ProviderFormError(form: ProviderForm): (r: Option<Notice>)
    ensures r.None? <==> form.name != "" && form.apiList != "" && form.apiUrl != ""
    ensures form.name == "" ==> r == Some(Notice(Error, "Provider name is required"))
    ensures form.name != "" && form.apiList == "" ==> r == Some(Notice(Error, "API List URL is required"))
    ensures form.name != "" && form.apiList != "" && form.apiUrl == "" ==>
      r == Some(Notice(Error, "API URL is required"))
  {
    var fields := [form.name, form.apiList, form.apiUrl];
    assert fields[0] == form.name && fields[1] == form.apiList && fields[2] == form.apiUrl;
    var blank := FirstEmpty(fields);
    if blank == Some(0) then Some(Notice(Error, "Provider name is required"))
    else if blank == Some(1) then Some(Notice(Error, "API List URL is required"))
    else if blank.Some? then Some(Notice(Error, "API URL is required"))
    else None
  }

  /**
   * A button of `ProviderEditDialog`: save closes with the stripped form
   * unless a required field is empty; any other button closes with no
   * result.
   */
  function ProviderDialogPress(buttonId: string, inputs: ProviderForm): (r: DialogStep<ProviderForm>)
    ensures buttonId != "save-btn" ==> r == Dismiss(None)
    ensures r.Dismiss? && r.result.Some? ==> r.result.value == ReadProviderForm(inputs)
    ensures r.Dismiss? && r.result.Some? ==> ProviderFormError(r.result.value).None?
    ensures buttonId == "save-btn" ==> (r.Stay? <==> ProviderFormError(ReadProviderForm(inputs)).Some?)
  {
    if buttonId == "save-btn" then
      var form := ReadProviderForm(inputs);
      var error := ProviderFormError(form);
      if error.Some? then Stay(error.value) else Dismiss(Some(form))
    else Dismiss(None)
  }

  /** The API key is optional: whatever it holds, it never keeps the dialog open. */
  lemma ProviderKeyOptional(inputs: ProviderForm, key: string)
    ensures ProviderDialogPress("save-btn", inputs.(apiKey := key)).Stay?
        <==> ProviderDialogPress("save-btn", inputs).Stay?
  {
    assert ReadProviderForm(inputs.(apiKey := key)) == ReadProviderForm(inputs).(apiKey := Strip(key));
  }

  // ---- ConfirmDialog ----------------------------------------------------------

  /** The confirmation dialog: it answers true only for its yes button. */
  class ConfirmDialog {
    var result: bool

    constructor ()
      ensures !result
    {
      result := false;
    }

    method OnButtonPressed(buttonId: string) returns (answer: bool)
      modifies this
      ensures answer == (old(result) || buttonId == "confirm-yes-btn") && result == answer
    {
      if buttonId == "confirm-yes-btn" {
        result := true;
      }
      answer := result;
    }
  }
}
