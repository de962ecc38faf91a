/**
 * The earlier Textual configuration menu: the status panel's preview of
 * the user content, the LLM table, the parameter and system-setting
 * handlers, and the switching between the four tabs.
 */
module TextualConfigMenu {
  import opened Base
  import opened Text
  import opened ConfigMenu
  import CommandExecution

  // ---- the status panel -------------------------------------------------------

  /** `s[:n]` */
  function Truncate(s: string, n: nat): (r: string)
    ensures |r| <= n && StartsWith(s, r)
    ensures |s| <= n ==> r == s
  {
    if |s| <= n then s else s[..n]
  }

  const ContentHeader := "[bold]📝 User Content:[/bold]"
  const MoreLines := "   [dim]...[/dim]"

  /**
   * The user-content lines of `render_status`: a header, the first three
   * lines of the content (or of `(empty)`) cut to 60 characters and
   * indented, and an ellipsis line when more lines follow.
   */
  method RenderContentPreview(userContent: string) returns (lines: seq<string>)
    ensures var content := if userContent == "" then "(empty)" else userContent;
      var all := Split(content, '\n');
      var shown := if |all| > 3 then 3 else |all|;
      && |lines| == 1 + shown + (if |all| > 3 then 1 else 0)
      && lines[0] == ContentHeader
      && (forall i :: 0 <= i < shown ==> lines[i + 1] == "   " + Truncate(all[i], 60))
      && (|all| > 3 ==> lines[|lines| - 1] == MoreLines)
    ensures forall i :: 1 <= i < |lines| ==> |lines[i]| <= 63
  {
    var content := if userContent == "" then "(empty)" else userContent;
    lines := [ContentHeader];
    var all := Split(content, '\n');
    var contentLines := if |all| > 3 then all[..3] else all;
    for k := 0 to |contentLines|
      invariant |lines| == 1 + k && lines[0] == ContentHeader
      invariant forall i :: 0 <= i < k ==> lines[i + 1] == "   " + Truncate(all[i], 60)
      invariant forall i :: 1 <= i < |lines| ==> |lines[i]| <= 63
    {
      lines := lines + ["   " + Truncate(contentLines[k], 60)];
    }
    if |all| > 3 {
      assert |MoreLines| == 17;
      lines := lines + [MoreLines];
    }
  }

  // ---- the LLM table ----------------------------------------------------------

  /** One row of the LLM table: the current mark, name, model, URL and masked key. */
  datatype LlmRow = LlmRow(mark: string, name: string, model: string, apiUrl: string, key: string)

  /**
   * `update_llm_table`: a row per LLM name in order, the model cut to 30
   * characters and the URL to 40, a check mark on the current LLM only;
   * `mask` is `format_api_key_display`.  A name without an entry shows
   * empty fields.
   */
  function LlmTable(names: seq<string>, s: MenuSettings, mask: string -> string): (r: seq<LlmRow>)
    ensures |r| == |names|
    ensures forall i :: 0 <= i < |r| ==> r[i].name == names[i] && (r[i].mark == "✓" <==> names[i] == s.currentLlm)
    ensures forall i :: 0 <= i < |r| ==> |r[i].model| <= 30 && |r[i].apiUrl| <= 40
    ensures forall i :: 0 <= i < |r| && names[i] in s.llms ==>
      StartsWith(s.llms[names[i]].model, r[i].model) && StartsWith(s.llms[names[i]].apiUrl, r[i].apiUrl)
  {
    seq(|names|, i requires 0 <= i < |names| =>
      var cfg := if names[i] in s.llms then s.llms[names[i]] else Llm("", "", "");
      LlmRow(if names[i] == s.currentLlm then "✓" else "", names[i],
             Truncate(cfg.model, 30), Truncate(cfg.apiUrl, 40), mask(cfg.apiKey)))
  }

  // ---- parameters -------------------------------------------------------------

  /** The message of the ValueError `int(value)` raises. */
  function IntError(value: string): string {
    "invalid literal for int() with base 10: '" + value + "'"
  }

  /**
   * The max-tokens and seed handlers: a blank input or a null word gives
   * `None`, anything else must be an integer, of any sign.
   */
  function OptionalIntInput(input: string): (r: Result<Option<int>>)
    ensures r == Ok(None) <==> IsNullWord(Lower(Strip(input)))
    ensures r.Ok? && r.value.Some? ==> ParseInt(Strip(input)) == r.value
    ensures r.Err? ==> r.exc == PyError(ValueError, IntError(Strip(input)))
  {
    var value := Strip(input);
    if value == "" || IsNullWord(Lower(value)) then
      assert value == "" ==> Lower(value) == "";
      Ok(None)
    else match ParseInt(value)
      case Some(n) => Ok(Some(n))
      case None => Err(PyError(ValueError, IntError(value)))
  }

  /** Every written number is taken, a non-positive token limit included. */
  lemma OptionalIntOfNumber(n: int)
    ensures OptionalIntInput(IntToString(n)) == Ok(Some(n))
  {
    IntToStringPlain(n);
    IntIsNotNullWord(n);
    ParseIntToString(n);
  }

  /**
   * The two menus read a written token limit alike except for the
   * numbers below 1, which only the newer menu refuses.
   */
  lemma MenusDisagreeOnNonPositive(n: int)
    ensures var w := IntToString(n);
      OptionalIntInput(w).Ok? && (MaxTokensInput(w) == Some(OptionalIntInput(w).value) <==> n > 0)
  {
    OptionalIntOfNumber(n);
    MaxTokensOfNumber(n);
  }

  /** The refresh-rate handler: `int()` of the raw input, which must lie in 1..60. */
  function RefreshRateResult(input: string): (r: Result<int>)
    ensures r.Ok? <==> RefreshRateInput(input).Some?
    ensures r.Ok? ==> Some(r.value) == RefreshRateInput(input)
  {
    match ParseInt(input)
    case None => Err(PyError(ValueError, IntError(input)))
    case Some(v) =>
      if 1 <= v <= 60 then Ok(v)
      else Err(PyError(ValueError, "Refresh rate must be between 1 and 60"))
  }

  // ---- themes -----------------------------------------------------------------

  /** `id.replace("theme-", "").replace("-btn", "")` */
  function ThemeOf(buttonId: string): string {
    Replace(Replace(buttonId, "theme-", ""), "-btn", "")
  }

  /** `theme-` cannot occur in `t + "-btn"` when `t` has no `-` and does not end in `theme`. */
  lemma NoThemePrefix(t: string)
    requires '-' !in t && !EndsWith(t, "theme")
    ensures forall i :: !OccursAt(t + "-btn", "theme-", i)
  {
    var x := t + "-btn";
    forall i ensures !OccursAt(x, "theme-", i) {
      if 0 <= i && i + 6 <= |x| {
        var w := x[i..i + 6];
        assert w[5] == x[i + 5];
        if i + 5 < |t| {
          assert x[i + 5] == t[i + 5] && t[i + 5] in t;
        } else if i + 5 == |t| {
          assert w[..5] == t[|t| - 5..];
        } else {
          assert x[i + 5] == "-btn"[i + 5 - |t|] != '-';
        }
      }
    }
  }

  /** The theme of a button `theme-<t>-btn` is `t`, for names without `-` that do not end in `theme`. */
  lemma ThemeOfButton(t: string)
    requires '-' !in t && !EndsWith(t, "theme")
    ensures ThemeOf("theme-" + t + "-btn") == t
  {
    var id := "theme-" + t + "-btn";
    assert id[..6] == "theme-";
    assert id[6..] == t + "-btn";
    NoThemePrefix(t);
    ContainsIff(t + "-btn", "theme-");
    ReplaceAbsent(t + "-btn", "theme-", "");
    assert Replace(id, "theme-", "") == t + "-btn";
    CommandExecution.ReplaceKeepsPrefix(t, "-btn", "-btn", "");
    assert Replace("-btn", "-btn", "") == "";
  }

  // ---- tabs -------------------------------------------------------------------

  datatype Panel = LlmPanel | ParamsPanel | ContentPanel | SystemPanel

  /** The panel a tab shows, if its id is one of the four tabs. */
  function PanelOf(tabId: string): (r: Option<Panel>)
    ensures r.Some? <==> tabId in ["tab-llms", "tab-params", "tab-content", "tab-system"]
  {
    if tabId == "tab-llms" then Some(LlmPanel)
    else if tabId == "tab-params" then Some(ParamsPanel)
    else if tabId == "tab-content" then Some(ContentPanel)
    else if tabId == "tab-system" then Some(SystemPanel)
    else None
  }

  /** Two tabs show the same panel only if they are the same tab. */
  lemma PanelOfInjective(a: string, b: string)
    requires PanelOf(a).Some? && PanelOf(a) == PanelOf(b)
    ensures a == b
  {
  }

  /** `ConfigMenuApp` of the Textual menu, with the configuration it edits. */
  class TextualMenuApp {
    var config: MenuSettings
    var llmTab: bool
    var paramsTab: bool
    var contentTab: bool
    var systemTab: bool

    /** `compose` and `on_mount`: only the LLM tab is displayed. */
    constructor (config: MenuSettings)
      ensures this.config == config
      ensures llmTab && !paramsTab && !contentTab && !systemTab
    {
      this.config := config;
      llmTab, paramsTab, contentTab, systemTab := true, false, false, false;
    }

    predicate Displayed(p: Panel)
      reads this
    {
      match p
      case LlmPanel => llmTab
      case ParamsPanel => paramsTab
      case ContentPanel => contentTab
      case SystemPanel => systemTab
    }

    /** `on_tabs_tab_activated`: every panel is hidden, then the tab's own one is shown. */
    method OnTabActivated(tabId: string)
      modifies this
      ensures config == old(config)
      ensures forall p :: Displayed(p) <==> PanelOf(tabId) == Some(p)
    {
      llmTab, paramsTab, contentTab, systemTab := false, false, false, false;
      if tabId == "tab-llms" {
        llmTab := true;
      } else if tabId == "tab-params" {
        paramsTab := true;
      } else if tabId == "tab-content" {
        contentTab := true;
      } else if tabId == "tab-system" {
        systemTab := true;
      }
    }

    /** The max-tokens button. */
    method SetMaxTokens(input: string) returns (notice: Notice)
      modifies `config
      ensures OptionalIntInput(input).Ok? ==> config == old(config).(maxTokens := OptionalIntInput(input).value)
      ensures OptionalIntInput(input).Err? ==> config == old(config) && notice.severity == Error
    {
      var result := OptionalIntInput(input);
      if result.Ok? {
        config := config.(maxTokens := result.value);
        notice := Notice(Information, "✅ Max tokens updated");
      } else {
        notice := Notice(Error, "❌ Invalid value: " + result.exc.text);
      }
    }

    /** The seed button. */
    method SetSeed(input: string) returns (notice: Notice)
      modifies `config
      ensures OptionalIntInput(input).Ok? ==> config == old(config).(seed := OptionalIntInput(input).value)
      ensures OptionalIntInput(input).Err? ==> config == old(config) && notice.severity == Error
    {
      var result := OptionalIntInput(input);
      if result.Ok? {
        config := config.(seed := result.value);
        notice := Notice(Information, "✅ Seed updated");
      } else {
        notice := Notice(Error, "❌ Invalid value: " + result.exc.text);
      }
    }

    /**
     * A button of the system-settings tab: the two language buttons, the
     * theme buttons (every id starting with `theme-`) and the refresh
     * rate, read from `refreshInput`.  The stream-delay button is not part
     * of this model; any other id does nothing.
     */
    method OnSystemButton(buttonId: string, refreshInput: string) returns (reaction: Reaction)
      modifies `config
      ensures buttonId == "lang-en-btn" ==> config == old(config).(language := "en")
      ensures buttonId == "lang-ru-btn" ==> config == old(config).(language := "ru")
      ensures buttonId !in {"lang-en-btn", "lang-ru-btn"} && StartsWith(buttonId, "theme-") ==>
        config == old(config).(theme := ThemeOf(buttonId))
      ensures buttonId == "set-refresh-rate-btn" ==>
        && (RefreshRateResult(refreshInput).Ok? ==>
              config == old(config).(refreshPerSecond := RefreshRateResult(refreshInput).value))
        && (RefreshRateResult(refreshInput).Err? ==>
              config == old(config) && reaction.Notified? && reaction.notice.severity == Error)
      ensures buttonId !in {"lang-en-btn", "lang-ru-btn", "set-refresh-rate-btn"} && !StartsWith(buttonId, "theme-") ==>
        config == old(config) && reaction == Silent
    {
      reaction := Silent;
      if buttonId == "lang-en-btn" {
        config := config.(language := "en");
        reaction := Notified(Notice(Information, "✅ Language set to English"));
      } else if buttonId == "lang-ru-btn" {
        config := config.(language := "ru");
        reaction := Notified(Notice(Information, "✅ Язык установлен: Русский"));
      } else if StartsWith(buttonId, "theme-") {
        assert buttonId != "set-refresh-rate-btn" by {
          assert buttonId[0] == "theme-"[0] == 't';
        }
        var theme := ThemeOf(buttonId);
        config := config.(theme := theme);
        reaction := Notified(Notice(Information, "✅ Theme set to " + theme));
      } else if buttonId == "set-refresh-rate-btn" {
        var result := RefreshRateResult(refreshInput);
        if result.Ok? {
          config := config.(refreshPerSecond := result.value);
          reaction := Notified(Notice(Information, "✅ Refresh rate updated"));
        } else {
          reaction := Notified(Notice(Error, "❌ Invalid value: " + result.exc.text));
        }
      }
    }

    /** The debug switch. */
    method OnDebugSwitch(on: bool) returns (notice: Notice)
      modifies `config
      ensures config == old(config).(debug := on)
      ensures notice.text == "✅ Debug mode " + (if on then "enabled" else "disabled")
    {
      config := config.(debug := on);
      notice := Notice(Information, "✅ Debug mode " + (if on then "enabled" else "disabled"));
    }

    /** `set_current_llm` */
    method SetCurrentLlm(names: seq<string>, cursor: int) returns (reaction: Reaction)
      modifies `config
      ensures SelectedRow(names, cursor).Selected? ==> config == old(config).(currentLlm := names[cursor])
      ensures !SelectedRow(names, cursor).Selected? ==> config == old(config)
      ensures SelectedRow(names, cursor) == RowMissing ==> reaction == NoSuchRow
    {
      match SelectedRow(names, cursor)
      case NoneSelected =>
        reaction := Notified(Notice(Warning, "⚠️ Please select an LLM first"));
      case RowMissing =>
        reaction := NoSuchRow;
      case Selected(name) =>
        config := config.(currentLlm := name);
        reaction := Notified(Notice(Information, "✅ Current LLM set to '" + name + "'"));
    }

    /**
     * `add_llm`: four input dialogs in turn; a cancelled or empty name,
     * model or URL ends the chain, a cancelled key counts as empty.
     * `refusal` is the message of the ValueError the configuration raises
     * when it will not add the entry, which the last dialog's handler
     * catches and reports.
     */
    method AddLlm(name: Option<string>, model: Option<string>, apiUrl: Option<string>, apiKey: Option<string>,
                  refusal: Option<string>) returns (reaction: Reaction)
      modifies `config
      ensures var given := name.Some? && name.value != "" && model.Some? && model.value != ""
                           && apiUrl.Some? && apiUrl.value != "";
        && (!given ==> config == old(config) && reaction == Silent)
        && (given && refusal.Some? ==>
              config == old(config) && reaction == Notified(Notice(Error, "❌ Error: " + refusal.value)))
        && (given && refusal.None? ==>
              && config == old(config).(llms := old(config).llms[name.value :=
                   Llm(model.value, apiUrl.value, if apiKey.Some? then apiKey.value else "")])
              && reaction == Notified(Notice(Information, "✅ LLM '" + name.value + "' added successfully")))
    {
      reaction := Silent;
      if name.None? || name.value == "" { return; }
      if model.None? || model.value == "" { return; }
      if apiUrl.None? || apiUrl.value == "" { return; }
      if refusal.Some? {
        reaction := Notified(Notice(Error, "❌ Error: " + refusal.value));
        return;
      }
      var key := if apiKey.Some? then apiKey.value else "";
      config := config.(llms := config.llms[name.value := Llm(model.value, apiUrl.value, key)]);
      reaction := Notified(Notice(Information, "✅ LLM '" + name.value + "' added successfully"));
    }

    /**
     * `edit_selected_llm`: three input dialogs in turn, for the model, the
     * URL and the key; each answered one replaces its field, a cancelled
     * one keeps it, and the chain goes on either way.
     */
    method EditSelectedLlm(names: seq<string>, cursor: int, model: Option<string>, apiUrl: Option<string>,
                           apiKey: Option<string>) returns (reaction: Reaction)
      modifies `config
      ensures !SelectedRow(names, cursor).Selected? ==> config == old(config)
      ensures SelectedRow(names, cursor).Selected? && names[cursor] !in old(config).llms ==> config == old(config)
      ensures SelectedRow(names, cursor).Selected? && names[cursor] in old(config).llms ==>
        var before := old(config).llms[names[cursor]];
        config == old(config).(llms := old(config).llms[names[cursor] := Llm(
          if model.Some? then model.value else before.model,
          if apiUrl.Some? then apiUrl.value else before.apiUrl,
          if apiKey.Some? then apiKey.value else before.apiKey)])
      ensures SelectedRow(names, cursor).Selected? ==> reaction.Notified? && reaction.notice.severity == Information
    {
      match SelectedRow(names, cursor)
      case NoneSelected =>
        reaction := Notified(Notice(Warning, "⚠️ Please select an LLM first"));
      case RowMissing =>
        reaction := NoSuchRow;
      case Selected(llmName) =>
        if llmName in config.llms {
          var entry := config.llms[llmName];
          if model.Some? { entry := entry.(model := model.value); }
          if apiUrl.Some? { entry := entry.(apiUrl := apiUrl.value); }
          if apiKey.Some? { entry := entry.(apiKey := apiKey.value); }
          config := config.(llms := config.llms[llmName := entry]);
        }
        reaction := Notified(Notice(Information, "✅ LLM '" + llmName + "' updated"));
    }

    /**
     * The Delete button of `on_button_pressed`.  The handler is a plain
     * method and calls the coroutine `delete_selected_llm` without awaiting
     * it, so as written the coroutine is created and dropped: nothing is
     * deleted and nothing is shown.  As intended the deletion runs.
     */
    method PressDelete(b: Binding, names: seq<string>, cursor: int, confirm: bool) returns (reaction: Reaction)
      modifies `config
      ensures config == DeletePressed(b, old(config), names, cursor, confirm)
      ensures b == AsWritten ==> reaction == Silent
    {
      if b == AsWritten {
        return Silent;
      }
      reaction := DeleteSelectedLlm(names, cursor, confirm);
    }

    /** `delete_selected_llm`; `confirm` is the answer to the confirmation dialog. */
    method DeleteSelectedLlm(names: seq<string>, cursor: int, confirm: bool) returns (reaction: Reaction)
      modifies `config
      ensures !SelectedRow(names, cursor).Selected? ==> config == old(config)
      ensures SelectedRow(names, cursor).Selected? ==> config == AfterDelete(old(config), names[cursor], confirm)
      ensures SelectedRow(names, cursor) == Selected(old(config).currentLlm) ==>
        reaction.Notified? && reaction.notice.severity == Error
    {
      match SelectedRow(names, cursor)
      case NoneSelected =>
        reaction := Notified(Notice(Warning, "⚠️ Please select an LLM first"));
      case RowMissing =>
        reaction := NoSuchRow;
      case Selected(llmName) =>
        if llmName == config.currentLlm {
          reaction := Notified(Notice(Error, "❌ Cannot delete current LLM"));
        } else if confirm {
          config := config.(llms := config.llms - {llmName});
          reaction := Notified(Notice(Information, "✅ LLM '" + llmName + "' deleted"));
        } else {
          reaction := Silent;
        }
    }
  }

  /** The settings after the Delete button, read as written or as intended. */
  function DeletePressed(b: Binding, s: MenuSettings, names: seq<string>, cursor: int, confirm: bool): MenuSettings {
    match b
    case AsWritten => s
    case Intended => if 0 <= cursor < |names| then AfterDelete(s, names[cursor], confirm) else s
  }

  /**
   * The Delete button as written removes nothing, even for a confirmed
   * entry that is not the current LLM, which the intended reading removes
   * while keeping every other entry.
   */
  lemma DeletePressAsWrittenKeeps(s: MenuSettings, names: seq<string>, cursor: int)
    requires 0 <= cursor < |names| && names[cursor] in s.llms && names[cursor] != s.currentLlm
    ensures DeletePressed(AsWritten, s, names, cursor, true) == s
    ensures var r := DeletePressed(Intended, s, names, cursor, true);
      && names[cursor] !in r.llms
      && (forall k :: k in s.llms && k != names[cursor] ==> k in r.llms && r.llms[k] == s.llms[k])
  {
  }
}
