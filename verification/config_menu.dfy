/**
 * The logic under the Textual settings menu: double-click detection on the
 * LLM table, the responsive button rows, the conversion of Rich markup to
 * Markdown for the help panel, the tab-id clean-up, the parameter setters
 * and the LLM list rules.
 */
module ConfigMenu {
  import opened Base
  import opened Text

  // ---- notifications ----------------------------------------------------------

  datatype Severity = Information | Warning | Error

  /** `self.notify(text, severity=...)` */
  datatype Notice = Notice(severity: Severity, text: string)

  /** What a menu action shows: nothing, a notice, or the row lookup failing. */
  datatype Reaction = Silent | Notified(notice: Notice) | NoSuchRow

  // ---- double click -----------------------------------------------------------

  /** Milliseconds within which a second click on the same row is a double click. */
  const DoubleClickThreshold := 500

  /** What the table remembers: the time and row of the last first click. */
  datatype Clicks = Clicks(lastTime: int, lastRow: int)

  /** The memory of a table that has not been clicked, or has just seen a double click. */
  const NoClick := Clicks(0, -1)

  /**
   * `on_click` at time `now` (in milliseconds) on `row`: the new memory and
   * the row posted as double-clicked, if any.
   */
  function Click(c: Clicks, now: int, row: int): (r: (Clicks, Option<int>))
    ensures r.1.Some? <==> row >= 0 && row == c.lastRow && now - c.lastTime < DoubleClickThreshold
    ensures r.1.Some? ==> r.1.value == row && r.0 == NoClick
  {
    if row == c.lastRow && now - c.lastTime < DoubleClickThreshold then
      (NoClick, if row >= 0 then Some(row) else None)
    else (Clicks(now, row), None)
  }

  /** A fresh table posts nothing on its first click. */
  lemma FirstClickPostsNothing(now: int, row: int)
    ensures Click(NoClick, now, row).1.None?
  {
  }

  /**
   * After a click that posted nothing, a second click on the same row posts
   * it exactly when it comes within the threshold.
   */
  lemma SecondClick(c: Clicks, t1: int, t2: int, row: int)
    requires row >= 0 && Click(c, t1, row).1.None?
    ensures Click(Click(c, t1, row).0, t2, row).1 == Some(row) <==> t2 - t1 < DoubleClickThreshold
  {
  }

  /** The memory is reset by a double click, so a third click never doubles it. */
  lemma NoTripleClick(c: Clicks, t1: int, r1: int, t2: int, r2: int)
    requires Click(c, t1, r1).1.Some?
    ensures Click(Click(c, t1, r1).0, t2, r2).1.None?
  {
  }

  /** `DoubleClickDataTable` */
  class DoubleClickDataTable {
    var lastClickTime: int
    var lastClickedRow: int

    constructor ()
      ensures Clicks(lastClickTime, lastClickedRow) == NoClick
    {
      lastClickTime, lastClickedRow := 0, -1;
    }

    /** `on_click`; `cursorRow` is the table's cursor row at that time. */
    method OnClick(now: int, cursorRow: int) returns (posted: Option<int>)
      modifies this
      ensures (Clicks(lastClickTime, lastClickedRow), posted)
              == Click(Clicks(old(lastClickTime), old(lastClickedRow)), now, cursorRow)
    {
      posted := None;
      if cursorRow == lastClickedRow && now - lastClickTime < DoubleClickThreshold {
        if cursorRow >= 0 {
          posted := Some(cursorRow);
        }
        lastClickTime := 0;
        lastClickedRow := -1;
      } else {
        lastClickTime := now;
        lastClickedRow := cursorRow;
      }
    }
  }

  // ---- responsive button rows -------------------------------------------------

  /** Columns one button takes: 17 of content and 2 of margin. */
  const ButtonWidth := 19

  /** One entry of `buttons_data`: text, id and variant. */
  datatype ButtonSpec = ButtonSpec(text: string, id: string, variant: string)

  /**
   * How many buttons go in a row at the given width: as many as fit, at
   * least one, and no more than there are.
   */
  function PerRow(width: nat, count: nat): (r: nat)
    ensures count == 0 ==> r == 0
    ensures count > 0 ==> 1 <= r <= count
    ensures r > 1 ==> r * ButtonWidth <= width
    ensures r < count ==> (r + 1) * ButtonWidth > width
  {
    var fit := if width / ButtonWidth > 1 then width / ButtonWidth else 1;
    if fit < count then fit else count
  }

  /** Consecutive rows of `per` items, the last one possibly shorter. */
  function Rows<T>(items: seq<T>, per: nat): seq<seq<T>>
    requires per > 0 || items == []
    decreases |items|
  {
    if items == [] then []
    else
      var end := if per < |items| then per else |items|;
      [items[..end]] + Rows(items[end..], per)
  }

  function Flatten<T>(rows: seq<seq<T>>): seq<T> {
    if rows == [] then [] else rows[0] + Flatten(rows[1..])
  }

  /** The rows hold the items in their order, each once. */
  lemma {:induction false} RowsFlatten<T>(items: seq<T>, per: nat)
    requires per > 0 || items == []
    ensures Flatten(Rows(items, per)) == items
    decreases |items|
  {
    if items != [] {
      var end := if per < |items| then per else |items|;
      RowsFlatten(items[end..], per);
      assert Rows(items, per)[1..] == Rows(items[end..], per);
      assert items[..end] + items[end..] == items;
    }
  }

  /** Every row is non-empty and holds at most `per` items; only the last one may be shorter. */
  lemma {:induction false} RowsShape<T>(items: seq<T>, per: nat)
    requires per > 0 || items == []
    ensures forall i :: 0 <= i < |Rows(items, per)| ==> 1 <= |Rows(items, per)[i]| <= per
    ensures forall i :: 0 <= i < |Rows(items, per)| - 1 ==> |Rows(items, per)[i]| == per
    decreases |items|
  {
    if items != [] {
      var end := if per < |items| then per else |items|;
      var rest := Rows(items[end..], per);
      RowsShape(items[end..], per);
      assert Rows(items, per) == [items[..end]] + rest;
      if end < |items| {
        assert rest != [];
      }
    }
  }

  /** `ResponsiveButtonRow` */
  class ResponsiveButtonRow {
    const buttons: seq<ButtonSpec>
    /** `_current_layout`: buttons per row of the layout on screen. */
    var currentLayout: nat
    /** The `Horizontal` rows mounted, each with its buttons. */
    var rows: seq<seq<ButtonSpec>>

    ghost predicate Valid()
      reads this
    {
      currentLayout > 0 || buttons == []
    }

    /** `compose` mounts every button in a single row. */
    constructor (buttons: seq<ButtonSpec>)
      ensures this.buttons == buttons && currentLayout == 4 && rows == [buttons]
      ensures Valid()
    {
      this.buttons := buttons;
      currentLayout := 4;
      rows := [buttons];
    }

    /** `on_resize`: the layout is rebuilt only when the buttons per row change. */
    method OnResize(width: nat) returns (rebuilt: bool)
      requires Valid()
      modifies this
      ensures Valid()
      ensures currentLayout == PerRow(width, |buttons|)
      ensures rebuilt <==> PerRow(width, |buttons|) != old(currentLayout)
      ensures rebuilt ==> rows == Rows(buttons, currentLayout)
      ensures !rebuilt ==> rows == old(rows)
    {
      var perRow := PerRow(width, |buttons|);
      rebuilt := perRow != currentLayout;
      if rebuilt {
        currentLayout := perRow;
        RebuildLayout();
      }
    }

    /** `_rebuild_layout`: remove every row, then mount the buttons row by row. */
    method RebuildLayout()
      requires Valid()
      modifies `rows
      ensures rows == Rows(buttons, currentLayout)
    {
      rows := [];
      var perRow := currentLayout;
      var current := 0;
      while current < |buttons|
        invariant 0 <= current <= |buttons|
        invariant rows + Rows(buttons[current..], perRow) == Rows(buttons, perRow)
        decreases |buttons| - current
      {
        var end := if current + perRow < |buttons| then current + perRow else |buttons|;
        assert buttons[current..][..end - current] == buttons[current..end];
        assert buttons[current..][end - current..] == buttons[end..];
        rows := rows + [buttons[current..end]];
        current := end;
      }
      assert buttons[current..] == [];
    }
  }

  // ---- Rich markup to Markdown ------------------------------------------------

  /** The first `]` at index `k` or later. */
  function CloseFrom(s: string, k: nat): (r: Option<nat>)
    ensures r.Some? ==> k <= r.value < |s| && s[r.value] == ']'
    ensures forall i :: k <= i < |s| && (r.None? || i < r.value) ==> s[i] != ']'
    decreases |s| - k
  {
    if k >= |s| then None
    else if s[k] == ']' then Some(k)
    else CloseFrom(s, k + 1)
  }

  /**
   * The end of the tag `\[/?[^\]]+\]` that starts at `s[0]`, if one does: a
   * `[`, at least one character other than `]`, then the first `]`.
   */
  function TagEnd(s: string): (r: Option<nat>)
    ensures r.Some? ==> 2 <= r.value < |s| && s[0] == '[' && s[r.value] == ']'
    ensures r.None? && |s| > 0 && s[0] == '[' ==>
      (|s| > 1 && s[1] == ']') || forall k :: 1 <= k < |s| ==> s[k] != ']'
  {
    if |s| == 0 || s[0] != '[' then None
    else
      var close := CloseFrom(s, 1);
      if close.Some? && close.value >= 2 then close else None
  }

  /** `re.sub(r'\[/?[^\]]+\]', '', s)`: every tag deleted, left to right. */
  function StripTags(s: string): (r: string)
    ensures |r| <= |s|
    decreases |s|
  {
    if s == [] then []
    else
      var end := TagEnd(s);
      if end.Some? then StripTags(s[end.value + 1..]) else [s[0]] + StripTags(s[1..])
  }

  /** No tag is left: each `[` is directly followed by `]`, or by no `]` at all. */
  predicate Untagged(r: string) {
    forall i :: 0 <= i < |r| && r[i] == '[' ==> (i + 1 < |r| && r[i + 1] == ']') || NoCloseAfter(r, i)
  }

  predicate NoCloseAfter(r: string, i: int) {
    forall k :: 0 <= k < |r| && i < k ==> r[k] != ']'
  }

  /** Deleting tags brings in no `]`. */
  lemma {:induction false} StripTagsNoClose(s: string)
    requires forall k :: 0 <= k < |s| ==> s[k] != ']'
    ensures forall k :: 0 <= k < |StripTags(s)| ==> StripTags(s)[k] != ']'
    decreases |s|
  {
    if s != [] {
      assert TagEnd(s).None?;
      StripTagsNoClose(s[1..]);
    }
  }

  /** The text after `re.sub` holds no tag the pattern would match. */
  lemma {:induction false} StripTagsUntagged(s: string)
    ensures Untagged(StripTags(s))
    decreases |s|
  {
    if s != [] {
      match TagEnd(s)
      case Some(j) =>
        StripTagsUntagged(s[j + 1..]);
      case None =>
        var t := StripTags(s[1..]);
        StripTagsUntagged(s[1..]);
        var r := [s[0]] + t;
        assert StripTags(s) == r;
        if s[0] == '[' {
          if |s| > 1 && s[1] == ']' {
            assert TagEnd(s[1..]).None?;
            assert t == [']'] + StripTags(s[2..]);
          } else {
            StripTagsNoClose(s[1..]);
          }
        }
        forall i | 0 <= i < |r| && r[i] == '['
          ensures (i + 1 < |r| && r[i + 1] == ']') || NoCloseAfter(r, i)
        {
          if i > 0 {
            assert t[i - 1] == '[';
          }
        }
    }
  }

  /** Text without `[` has no tag to delete. */
  lemma {:induction false} StripTagsPlain(s: string)
    requires forall k :: 0 <= k < |s| ==> s[k] != '['
    ensures StripTags(s) == s
    decreases |s|
  {
    if s != [] {
      StripTagsPlain(s[1..]);
    }
  }

  /** A replacement of a pattern starting with `[` leaves text without `[` alone. */
  lemma {:induction false} ReplacePlain(s: string, p: string, v: string)
    requires |p| > 0 && p[0] == '['
    requires forall k :: 0 <= k < |s| ==> s[k] != '['
    ensures Replace(s, p, v) == s
    decreases |s|
  {
    if |s| >= |p| {
      assert s[..|p|][0] == s[0];
      ReplacePlain(s[1..], p, v);
    }
  }

  /** `_rich_to_markdown` */
  function RichToMarkdown(richText: string): (r: string)
    ensures Untagged(r)
  {
    var headers := Replace(Replace(richText, "[bold cyan]", "## "), "[/bold cyan]", "");
    var bold := Replace(Replace(headers, "[bold]", "**"), "[/bold]", "**");
    var text := Replace(Replace(bold, "[dim]", "*"), "[/dim]", "*");
    StripTagsUntagged(text);
    StripTags(text)
  }

  /** Text without markup passes through unchanged. */
  lemma RichToMarkdownPlain(richText: string)
    requires forall k :: 0 <= k < |richText| ==> richText[k] != '['
    ensures RichToMarkdown(richText) == richText
  {
    ReplacePlain(richText, "[bold cyan]", "## ");
    ReplacePlain(richText, "[/bold cyan]", "");
    ReplacePlain(richText, "[bold]", "**");
    ReplacePlain(richText, "[/bold]", "**");
    ReplacePlain(richText, "[dim]", "*");
    ReplacePlain(richText, "[/dim]", "*");
    StripTagsPlain(richText);
  }

  // ---- tab ids ----------------------------------------------------------------

  /**
   * The id handed to `show_tab_help` for an activated tab: the `--content-`
   * prefix is removed and a doubled `tab-tab-` loses one `tab-`; other ids,
   * and a missing one, are kept.
   */
  function TabId(raw: Option<string>): (r: Option<string>)
    ensures r.Some? <==> raw.Some?
    ensures r.Some? ==> EndsWith(raw.value, r.value)
    ensures raw.Some? && !StartsWith(raw.value, "--content-") ==> r == raw
  {
    if raw.Some? && StartsWith(raw.value, "--content-") then
      var tabId := raw.value[|"--content-"|..];
      if StartsWith(tabId, "tab-tab-") then Some(tabId[4..]) else Some(tabId)
    else raw
  }

  /**
   * The content pane of the tab with id `t` is `--content-tab-` + `t`, and
   * its help is found under `t` when `t` already starts with `tab-`.
   */
  lemma TabIdOfPane(t: string)
    ensures TabId(Some("--content-tab-" + t)) == Some(if StartsWith(t, "tab-") then t else "tab-" + t)
  {
    var raw := "--content-tab-" + t;
    assert raw[..|"--content-"|] == "--content-";
    var tabId := raw[|"--content-"|..];
    assert tabId == "tab-" + t;
    assert tabId[4..] == t;
    if StartsWith(t, "tab-") {
      assert tabId[..8] == "tab-" + t[..4];
    }
  }

  // ---- parameter setters ------------------------------------------------------

  /** The words that clear an optional setting, after `strip().lower()`. */
  predicate IsNullWord(s: string) { s in ["null", "none", ""] }

  /**
   * How `set_max_tokens` reads its input: `Some(v)` sets the value to `v`
   * (`None` meaning no limit), `None` rejects the input.
   */
  function MaxTokensInput(input: string): (r: Option<Option<int>>)
    ensures r == Some(None) <==> IsNullWord(Lower(Strip(input)))
    ensures r.Some? && r.value.Some? ==> r.value.value > 0
  {
    var value := Lower(Strip(input));
    if IsNullWord(value) then Some(None)
    else match ParseInt(value)
      case Some(n) => if n > 0 then Some(Some(n)) else None
      case None => None
  }

  /** How `set_seed` reads its input: any integer, or a null word. */
  function SeedInput(input: string): (r: Option<Option<int>>)
    ensures r == Some(None) <==> IsNullWord(Lower(Strip(input)))
    ensures r.Some? && r.value.Some? ==> ParseInt(Lower(Strip(input))) == r.value
  {
    var value := Lower(Strip(input));
    if IsNullWord(value) then Some(None)
    else match ParseInt(value)
      case Some(n) => Some(Some(n))
      case None => None
  }

  /** How `set_refresh_rate` reads its input: an integer from 1 to 60. */
  function RefreshRateInput(input: string): (r: Option<int>)
    ensures r.Some? ==> 1 <= r.value <= 60 && ParseInt(input) == r
  {
    match ParseInt(input)
    case Some(v) => if 1 <= v <= 60 then Some(v) else None
    case None => None
  }

  lemma IntIsNotNullWord(i: int)
    ensures !IsNullWord(IntToString(i))
  {
    IntToStringPlain(i);
  }

  /** A written number is accepted as a token limit exactly when it is positive. */
  lemma MaxTokensOfNumber(n: int)
    ensures MaxTokensInput(IntToString(n)) == if n > 0 then Some(Some(n)) else None
  {
    IntToStringPlain(n);
    IntIsNotNullWord(n);
    ParseIntToString(n);
  }

  /** Every written number is accepted as a seed. */
  lemma SeedOfNumber(n: int)
    ensures SeedInput(IntToString(n)) == Some(Some(n))
  {
    IntToStringPlain(n);
    IntIsNotNullWord(n);
    ParseIntToString(n);
  }

  /** A written number is accepted as a refresh rate exactly when it lies in 1..60. */
  lemma RefreshRateOfNumber(n: int)
    ensures RefreshRateInput(IntToString(n)) == if 1 <= n <= 60 then Some(n) else None
  {
    ParseIntToString(n);
  }

  // ---- the LLM list -----------------------------------------------------------

  /** One configured LLM. */
  datatype Llm = Llm(model: string, apiUrl: string, apiKey: string)

  /** What `LLMEditDialog` hands back on save, every field stripped. */
  datatype LlmForm = LlmForm(name: string, model: string, apiUrl: string, apiKey: string)

  /** The settings the menus read and write, as the configuration object holds them. */
  datatype MenuSettings = MenuSettings(
    currentLlm: string,
    llms: map<string, Llm>,
    maxTokens: Option<int>,
    seed: Option<int>,
    refreshPerSecond: int,
    theme: string,
    language: string,
    debug: bool)

  /** The index of the first empty field, if any: the order in which a form checks them. */
  function FirstEmpty(fields: seq<string>): (r: Option<nat>)
    ensures r.Some? ==> r.value < |fields| && fields[r.value] == ""
    ensures forall k :: 0 <= k < |fields| && (r.None? || k < r.value) ==> fields[k] != ""
  {
    if fields == [] then None
    else if fields[0] == "" then Some(0)
    else
      var rest := FirstEmpty(fields[1..]);
      if rest.Some? then Some(rest.value + 1) else None
  }

  /** A modal dialog's answer to a button: stay open with a notice, or close with a result. */
  datatype DialogStep<T> = Stay(notice: Notice) | Dismiss(result: Option<T>)

  /** The dialog's inputs as `on_button_pressed` reads them: each one `strip()`ped. */
  function ReadLlmForm(inputs: LlmForm): LlmForm {
    LlmForm(Strip(inputs.name), Strip(inputs.model), Strip(inputs.apiUrl), Strip(inputs.apiKey))
  }

  /** The error a read form is refused with: the first empty one of name, model and URL. */
  function LlmFormError(form: LlmForm): (r: Option<Notice>)
    ensures r.None? <==> form.name != "" && form.model != "" && form.apiUrl != ""
    ensures form.name == "" ==> r == Some(Notice(Error, "Название LLM обязательно"))
    ensures form.name != "" && form.model == "" ==> r == Some(Notice(Error, "Модель обязательна"))
    ensures form.name != "" && form.model != "" && form.apiUrl == "" ==>
      r == Some(Notice(Error, "API URL обязателен"))
  {
    var fields := [form.name, form.model, form.apiUrl];
    assert fields[0] == form.name && fields[1] == form.model && fields[2] == form.apiUrl;
    var blank := FirstEmpty(fields);
    if blank == Some(0) then Some(Notice(Error, "Название LLM обязательно"))
    else if blank == Some(1) then Some(Notice(Error, "Модель обязательна"))
    else if blank.Some? then Some(Notice(Error, "API URL обязателен"))
    else None
  }

  /**
   * `LLMEditDialog.on_button_pressed`: saving closes the dialog with the
   * read form unless a required field is empty, in which case it stays
   * open; any other button closes it with no result.
   */
  function LlmDialogPress(buttonId: string, inputs: LlmForm): (r: DialogStep<LlmForm>)
    ensures buttonId != "save-btn" ==> r == Dismiss(None)
    ensures r.Dismiss? && r.result.Some? ==> r.result.value == ReadLlmForm(inputs)
    ensures r.Dismiss? && r.result.Some? ==> LlmFormError(r.result.value).None?
    ensures buttonId == "save-btn" ==> (r.Stay? <==> LlmFormError(ReadLlmForm(inputs)).Some?)
  {
    if buttonId == "save-btn" then
      var form := ReadLlmForm(inputs);
      var error := LlmFormError(form);
      if error.Some? then Stay(error.value) else Dismiss(Some(form))
    else Dismiss(None)
  }

  /**
   * The stored entry after an edit: the form's model and URL, and its key
   * unless that was left blank, in which case the stored key stays.
   */
  function EditedLlm(stored: Option<Llm>, form: LlmForm): (r: Llm)
    ensures r.model == form.model && r.apiUrl == form.apiUrl
    ensures form.apiKey == "" && stored.Some? ==> r.apiKey == stored.value.apiKey
    ensures form.apiKey != "" ==> r.apiKey == form.apiKey
  {
    var storedKey := if stored.Some? then stored.value.apiKey else "";
    Llm(form.model, form.apiUrl, if form.apiKey != "" then form.apiKey else storedKey)
  }

  /**
   * The LLMs after a confirmed or declined deletion of `name`: the current
   * LLM is never removed, and no other entry changes.
   */
  function AfterDelete(s: MenuSettings, name: string, confirm: bool): (r: MenuSettings)
    ensures r.currentLlm == s.currentLlm && r.maxTokens == s.maxTokens && r.seed == s.seed
    ensures s.currentLlm in s.llms ==> s.currentLlm in r.llms
    ensures forall k :: k in s.llms && k != name ==> k in r.llms && r.llms[k] == s.llms[k]
    ensures r.llms.Keys <= s.llms.Keys
    ensures name in r.llms <==> name in s.llms && (name == s.currentLlm || !confirm)
  {
    if name == s.currentLlm || !confirm then s
    else s.(llms := s.llms - {name})
  }

  /** Which row of the LLM table an action applies to: none, a missing one, or the name in it. */
  datatype Selection = NoneSelected | RowMissing | Selected(name: string)

  /** `table.cursor_row` checked, then `get_row_at(...)[1]`: the names column of `names`. */
  function SelectedRow(names: seq<string>, cursor: int): (r: Selection)
    ensures r.Selected? <==> 0 <= cursor < |names|
    ensures r.Selected? ==> r.name == names[cursor]
    ensures r == NoneSelected <==> cursor < 0
  {
    if cursor < 0 then NoneSelected
    else if cursor >= |names| then RowMissing
    else Selected(names[cursor])
  }

  /** `ConfigMenuApp`: the menu actions on the configuration. */
  class ConfigMenuApp {
    var config: MenuSettings

    constructor (config: MenuSettings)
      ensures this.config == config
    {
      this.config := config;
    }

    /** `set_max_tokens` */
    method SetMaxTokens(input: string) returns (notice: Notice)
      modifies this
      ensures MaxTokensInput(input).Some? ==> config == old(config).(maxTokens := MaxTokensInput(input).value)
      ensures MaxTokensInput(input).None? ==> config == old(config) && notice.severity == Error
    {
      var value := Lower(Strip(input));
      if value in ["null", "none", ""] {
        config := config.(maxTokens := None);
        notice := Notice(Information, "Максимум токенов: без ограничений");
      } else {
        var parsed := ParseInt(value);
        if parsed.Some? {
          var numValue := parsed.value;
          if numValue > 0 {
            config := config.(maxTokens := Some(numValue));
            notice := Notice(Information, "Максимум токенов: " + IntToString(numValue));
          } else {
            notice := Notice(Error, "Должно быть положительным");
          }
        } else {
          notice := Notice(Error, "Неверный числовой формат");
        }
      }
    }

    /** `set_seed` */
    method SetSeed(input: string) returns (notice: Notice)
      modifies this
      ensures SeedInput(input).Some? ==> config == old(config).(seed := SeedInput(input).value)
      ensures SeedInput(input).None? ==> config == old(config) && notice.severity == Error
    {
      var value := Lower(Strip(input));
      if value in ["null", "none", ""] {
        config := config.(seed := None);
        notice := Notice(Information, "Seed: случайный");
      } else {
        var parsed := ParseInt(value);
        if parsed.Some? {
          config := config.(seed := Some(parsed.value));
          notice := Notice(Information, "Seed: " + IntToString(parsed.value));
        } else {
          notice := Notice(Error, "Неверный числовой формат");
        }
      }
    }

    /** `set_refresh_rate` */
    method SetRefreshRate(input: string) returns (notice: Notice)
      modifies this
      ensures RefreshRateInput(input).Some? ==>
        config == old(config).(refreshPerSecond := RefreshRateInput(input).value)
      ensures RefreshRateInput(input).None? ==> config == old(config) && notice.severity == Error
    {
      var parsed := ParseInt(input);
      if parsed.Some? {
        var value := parsed.value;
        if 1 <= value <= 60 {
          config := config.(refreshPerSecond := value);
          notice := Notice(Information, "Частота обновлений: " + IntToString(value) + " Гц");
        } else {
          notice := Notice(Error, "Должно быть от 1 до 60");
        }
      } else {
        notice := Notice(Error, "Неверный числовой формат");
      }
    }

    /**
     * `add_llm`, given what the dialog returned.  `refusal` is the message of
     * the ValueError the configuration raises when it will not add the
     * entry; the callback does not catch it, so it escapes before the table
     * is refreshed or anything is shown.
     */
    method AddLlm(result: Option<LlmForm>, refusal: Option<string>) returns (reaction: Reaction, raised: Option<Exc>)
      modifies this
      ensures result.None? ==> config == old(config) && reaction == Silent && raised.None?
      ensures result.Some? && refusal.Some? ==>
        config == old(config) && reaction == Silent && raised == Some(PyError(ValueError, refusal.value))
      ensures result.Some? && refusal.None? ==>
        && config == old(config).(llms := old(config).llms[result.value.name :=
             Llm(result.value.model, result.value.apiUrl, result.value.apiKey)])
        && reaction == Notified(Notice(Information, "LLM '" + result.value.name + "' добавлена"))
        && raised.None?
    {
      reaction, raised := Silent, None;
      if result.Some? {
        var r := result.value;
        if refusal.Some? {
          raised := Some(PyError(ValueError, refusal.value));
          return;
        }
        config := config.(llms := config.llms[r.name := Llm(r.model, r.apiUrl, r.apiKey)]);
        reaction := Notified(Notice(Information, "LLM '" + r.name + "' добавлена"));
      }
    }

    /**
     * `edit_llm` on the table whose names column is `names`, given what the
     * dialog returned; the name is not editable.
     */
    method EditLlm(names: seq<string>, cursor: int, result: Option<LlmForm>) returns (reaction: Reaction)
      modifies this
      ensures SelectedRow(names, cursor) == NoneSelected ==> reaction.Notified? && reaction.notice.severity == Warning
      ensures SelectedRow(names, cursor) == RowMissing ==> reaction == NoSuchRow
      ensures !SelectedRow(names, cursor).Selected? || result.None? ==> config == old(config)
      ensures SelectedRow(names, cursor).Selected? && result.Some? ==>
        var name := names[cursor];
        config == old(config).(llms := old(config).llms[name :=
          EditedLlm(if name in old(config).llms then Some(old(config).llms[name]) else None, result.value)])
    {
      if cursor < 0 {
        return Notified(Notice(Warning, "Выберите LLM для редактирования"));
      }
      if cursor >= |names| {
        return NoSuchRow;
      }
      var llmName := names[cursor];
      var cfg := if llmName in config.llms then Some(config.llms[llmName]) else None;
      reaction := Silent;
      if result.Some? {
        var storedKey := if cfg.Some? then cfg.value.apiKey else "";
        var apiKeyToSave := if result.value.apiKey != "" then result.value.apiKey else storedKey;
        config := config.(llms := config.llms[llmName := Llm(result.value.model, result.value.apiUrl, apiKeyToSave)]);
        reaction := Notified(Notice(Information, "LLM '" + llmName + "' обновлена"));
      }
    }

    /** `delete_llm`; `confirm` is the answer to the confirmation dialog. */
    method DeleteLlm(names: seq<string>, cursor: int, confirm: bool) returns (reaction: Reaction)
      modifies this
      ensures SelectedRow(names, cursor) == NoneSelected ==> reaction.Notified? && reaction.notice.severity == Warning
      ensures SelectedRow(names, cursor) == RowMissing ==> reaction == NoSuchRow
      ensures !SelectedRow(names, cursor).Selected? ==> config == old(config)
      ensures SelectedRow(names, cursor).Selected? ==> config == AfterDelete(old(config), names[cursor], confirm)
      ensures SelectedRow(names, cursor) == Selected(old(config).currentLlm) ==>
        reaction.Notified? && reaction.notice.severity == Error
    {
      if cursor < 0 {
        return Notified(Notice(Warning, "Выберите LLM для удаления"));
      }
      if cursor >= |names| {
        return NoSuchRow;
      }
      var llmName := names[cursor];
      if llmName == config.currentLlm {
        return Notified(Notice(Error, "Нельзя удалить текущую LLM"));
      }
      reaction := Silent;
      if confirm {
        config := config.(llms := config.llms - {llmName});
        reaction := Notified(Notice(Information, "LLM '" + llmName + "' удалена"));
      }
    }
  }
}
