/**
 * `ProviderManagerScreen`: the table of LLM providers and its add, edit
 * and delete buttons, over the `supported_Providers` section of the
 * configuration.
 */
module ProviderManagement {
  import opened Base
  import opened Text
  import opened ConfigMenu
  import opened Dialogs

  // ---- the providers dict -----------------------------------------------------

  predicate Distinct(s: seq<string>) {
    forall i, j :: 0 <= i < j < |s| ==> s[i] != s[j]
  }

  /** `supported_Providers`: a dict, iterated in the order its keys were first added. */
  datatype Providers = Providers(order: seq<string>, entries: map<string, Provider>)

  ghost predicate WellFormed(d: Providers) {
    Distinct(d.order) && forall k :: k in d.entries <==> k in d.order
  }

  /** `d[k] = v`: a new key goes last, an existing one keeps its place. */
  function Put(d: Providers, k: string, v: Provider): (r: Providers)
    ensures r.entries == d.entries[k := v]
    ensures |r.order| == |d.order| + (if k in d.entries then 0 else 1)
    ensures forall i :: 0 <= i < |d.order| ==> r.order[i] == d.order[i]
    ensures WellFormed(d) ==> WellFormed(r)
  {
    if k in d.entries then Providers(d.order, d.entries[k := v])
    else Providers(d.order + [k], d.entries[k := v])
  }

  /** `s` without the occurrences of `k`, the rest in order. */
  function Without(s: seq<string>, k: string): (r: seq<string>)
    ensures forall x :: x in r <==> x in s && x != k
    ensures |r| <= |s|
  {
    if s == [] then []
    else (if s[0] == k then [] else [s[0]]) + Without(s[1..], k)
  }

  lemma {:induction false} WithoutDistinct(s: seq<string>, k: string)
    requires Distinct(s)
    ensures Distinct(Without(s, k))
  {
    if s != [] {
      assert Distinct(s[1..]) by {
        forall i, j | 0 <= i < j < |s[1..]| ensures s[1..][i] != s[1..][j] {
          assert s[1..][i] == s[i + 1] && s[1..][j] == s[j + 1];
        }
      }
      WithoutDistinct(s[1..], k);
      var rest := Without(s[1..], k);
      assert s[0] !in s[1..] by {
        forall j | 0 <= j < |s[1..]| ensures s[1..][j] != s[0] {
          assert s[1..][j] == s[j + 1];
        }
      }
      assert s[0] !in rest;
    }
  }

  /** `del d[k]`, for a key that is present. */
  function Remove(d: Providers, k: string): (r: Providers)
    ensures r.entries == d.entries - {k}
    ensures forall x :: x in r.order <==> x in d.order && x != k
    ensures WellFormed(d) ==> WellFormed(r)
  {
    var r := Providers(Without(d.order, k), d.entries - {k});
    if Distinct(d.order) then WithoutDistinct(d.order, k); r else r
  }

  // ---- the table --------------------------------------------------------------

  /** A row of the provider table: the name and the masked key. */
  datatype ProviderRow = ProviderRow(name: string, key: string)

  /** The rows of `update_provider_table`: one per provider, in dict order; `mask` is `format_api_key_display`. */
  function TableRows(d: Providers, mask: string -> string): (r: seq<ProviderRow>)
    requires WellFormed(d)
    ensures |r| == |d.order|
    ensures forall i :: 0 <= i < |r| ==> r[i].name == d.order[i] && r[i].key == mask(d.entries[d.order[i]].apiKey)
  {
    seq(|d.order|, i requires 0 <= i < |d.order| => ProviderRow(d.order[i], mask(d.entries[d.order[i]].apiKey)))
  }

  function RowNames(rows: seq<ProviderRow>): (r: seq<string>)
    ensures |r| == |rows| && forall i :: 0 <= i < |r| ==> r[i] == rows[i].name
  {
    seq(|rows|, i requires 0 <= i < |rows| => rows[i].name)
  }

  /** Every provider has exactly one row, and every row names a provider. */
  lemma TableCoversProviders(d: Providers, mask: string -> string)
    requires WellFormed(d)
    ensures Distinct(RowNames(TableRows(d, mask)))
    ensures forall k :: k in d.entries <==> k in RowNames(TableRows(d, mask))
  {
    var names := RowNames(TableRows(d, mask));
    assert names == d.order;
  }

  // ---- editing a provider -------------------------------------------------------

  /**
   * The stored entry after an edit: the form's list URL and API URL, its
   * key unless that was left blank (then the stored key stays), and no
   * model filter.
   */
  function EditedProvider(stored: Option<Provider>, form: ProviderForm): (r: Provider)
    ensures r.apiList == form.apiList && r.apiUrl == form.apiUrl && r.filter == None
    ensures form.apiKey != "" ==> r.apiKey == form.apiKey
    ensures form.apiKey == "" ==> r.apiKey == if stored.Some? then stored.value.apiKey else ""
  {
    var storedKey := if stored.Some? then stored.value.apiKey else "";
    Provider(form.apiList, form.apiUrl, if form.apiKey != "" then form.apiKey else storedKey, None)
  }

  /** What opening `ProviderEditDialog` with a `model_filter` keyword raises. */
  const ModelFilterError: Exc :=
    PyError(TypeError, "Screen.__init__() got an unexpected keyword argument 'model_filter'")

  /**
   * The providers after editing `name` with the dialog's `result`.  As
   * written the dialog is never built, because the screen passes it a
   * keyword it does not take; as intended the entry is rewritten under the
   * same name.
   */
  function Edited(b: Binding, d: Providers, name: string, result: Option<ProviderForm>): (r: Result<Providers>)
    ensures b == AsWritten <==> r == Err(ModelFilterError)
    ensures r.Ok? && result.None? ==> r.value == d
    ensures r.Ok? && result.Some? ==> r.value == Put(d, name, EditedProvider(
      if name in d.entries then Some(d.entries[name]) else None, result.value))
  {
    if b == AsWritten then Err(ModelFilterError)
    else if result.None? then Ok(d)
    else Ok(Put(d, name, EditedProvider(if name in d.entries then Some(d.entries[name]) else None, result.value)))
  }

  /**
   * An intended edit keeps the set of provider names and their order, and
   * changes no other entry; a blank key keeps the stored one.
   */
  lemma EditKeepsNames(d: Providers, name: string, form: ProviderForm)
    requires WellFormed(d) && name in d.entries
    ensures var r := Edited(Intended, d, name, Some(form)).value;
      && r.order == d.order
      && r.entries.Keys == d.entries.Keys
      && (forall k :: k in d.entries && k != name ==> r.entries[k] == d.entries[k])
      && (form.apiKey == "" ==> r.entries[name].apiKey == d.entries[name].apiKey)
  {
    var r := Edited(Intended, d, name, Some(form)).value;
    assert |r.order| == |d.order|;
  }

  /** As written, no answer to the edit dialog ever reaches the providers. */
  lemma EditAsWrittenChangesNothing(d: Providers, name: string, form: ProviderForm)
    requires WellFormed(d) && name in d.entries && form.apiList != d.entries[name].apiList
    ensures Edited(AsWritten, d, name, Some(form)).Err?
    ensures Edited(Intended, d, name, Some(form)).value.entries[name].apiList == form.apiList
  {
  }

  // ---- the screen -------------------------------------------------------------

  /** What a button of the screen leads to. */
  datatype Outcome = Quiet | Told(notice: Notice) | MissingRow | Raised(exc: Exc)

  /**
   * The cursor row after the table is refilled with `rows`: the row it was
   * on before (row 0 when the table was empty), clamped to the last row.
   * Clearing the table is taken to put the cursor on row 0.
   */
  function RestoredCursor(oldRows: seq<ProviderRow>, oldCursor: int, rows: seq<ProviderRow>): (c: int)
    ensures oldCursor >= 0 && |rows| > 0 ==> 0 <= c < |rows|
    ensures |oldRows| > 0 && 0 <= oldCursor < |rows| ==> c == oldCursor
  {
    var previous := if |oldRows| > 0 then oldCursor else 0;
    if |rows| == 0 then 0 else if previous < |rows| - 1 then previous else |rows| - 1
  }

  class ProviderManagerScreen {
    var providers: Providers
    var rows: seq<ProviderRow>
    var cursorRow: int

    /** The screen before `on_mount` fills its table. */
    constructor (providers: Providers)
      ensures this.providers == providers && rows == [] && cursorRow == 0
    {
      this.providers := providers;
      rows, cursorRow := [], 0;
    }

    /**
     * `update_provider_table`: the table is refilled from the providers,
     * and a non-empty table gets back the old cursor row, clamped to its
     * last row.
     */
    method UpdateProviderTable(mask: string -> string)
      requires WellFormed(providers)
      modifies `rows, `cursorRow
      ensures rows == TableRows(providers, mask)
      ensures cursorRow == RestoredCursor(old(rows), old(cursorRow), rows)
    {
      var previous := if |rows| > 0 then cursorRow else 0;
      var filled: seq<ProviderRow> := [];
      for i := 0 to |providers.order|
        invariant filled == TableRows(providers, mask)[..i]
      {
        var name := providers.order[i];
        filled := filled + [ProviderRow(name, mask(providers.entries[name].apiKey))];
      }
      assert TableRows(providers, mask)[..|providers.order|] == TableRows(providers, mask);
      rows, cursorRow := filled, 0;
      if |rows| > 0 {
        cursorRow := if previous < |rows| - 1 then previous else |rows| - 1;
      }
    }

    /** `add_provider`, with the answer of the dialog. */
    method AddProvider(result: Option<ProviderForm>, mask: string -> string) returns (outcome: Outcome)
      requires WellFormed(providers)
      modifies this
      ensures WellFormed(providers)
      ensures result.None? ==>
        providers == old(providers) && rows == old(rows) && cursorRow == old(cursorRow) && outcome == Quiet
      ensures result.Some? ==>
        && providers == Put(old(providers), result.value.name,
             Provider(result.value.apiList, result.value.apiUrl, result.value.apiKey, None))
        && rows == TableRows(providers, mask)
        && cursorRow == RestoredCursor(old(rows), old(cursorRow), rows)
        && outcome == Told(Notice(Information, "Provider '" + result.value.name + "' added"))
    {
      outcome := Quiet;
      if result.Some? {
        var form := result.value;
        providers := Put(providers, form.name, Provider(form.apiList, form.apiUrl, form.apiKey, None));
        UpdateProviderTable(mask);
        outcome := Told(Notice(Information, "Provider '" + form.name + "' added"));
      }
    }

    /** `edit_provider`, with the answer the dialog would give. */
    method EditProvider(b: Binding, result: Option<ProviderForm>, mask: string -> string) returns (outcome: Outcome)
      requires WellFormed(providers)
      modifies this
      ensures WellFormed(providers)
      ensures var sel := SelectedRow(RowNames(old(rows)), old(cursorRow));
        && (sel == NoneSelected ==> providers == old(providers) && outcome.Told? && outcome.notice.severity == Warning)
        && (sel == RowMissing ==> providers == old(providers) && outcome == MissingRow)
        && (sel.Selected? && b == AsWritten ==> providers == old(providers) && outcome == Raised(ModelFilterError))
        && (sel.Selected? && b == Intended ==> providers == Edited(b, old(providers), sel.name, result).value)
        && (sel.Selected? && b == Intended && result.None? ==> outcome == Quiet)
        && (sel.Selected? && b == Intended && result.Some? ==>
              && rows == TableRows(providers, mask)
              && cursorRow == RestoredCursor(old(rows), old(cursorRow), rows)
              && outcome == Told(Notice(Information, "Provider '" + sel.name + "' updated")))
        && (!(sel.Selected? && b == Intended && result.Some?) ==> rows == old(rows) && cursorRow == old(cursorRow))
    {
      match SelectedRow(RowNames(rows), cursorRow)
      case NoneSelected =>
        outcome := Told(Notice(Warning, "Select provider to edit"));
      case RowMissing =>
        outcome := MissingRow;
      case Selected(name) =>
        var edited := Edited(b, providers, name, result);
        if edited.Err? {
          outcome := Raised(edited.exc);
        } else if result.None? {
          outcome := Quiet;
        } else {
          providers := edited.value;
          UpdateProviderTable(mask);
          outcome := Told(Notice(Information, "Provider '" + name + "' updated"));
        }
    }

    /** `delete_provider`; `confirm` is the answer to the confirmation dialog. */
    method DeleteProvider(confirm: bool, mask: string -> string) returns (outcome: Outcome)
      requires WellFormed(providers)
      modifies this
      ensures WellFormed(providers)
      ensures var sel := SelectedRow(RowNames(old(rows)), old(cursorRow));
        && (!sel.Selected? ==> providers == old(providers))
        && (sel == NoneSelected ==> outcome.Told? && outcome.notice.severity == Warning)
        && (sel == RowMissing ==> outcome == MissingRow)
        && (sel.Selected? ==>
              providers == (if confirm && sel.name in old(providers).entries then Remove(old(providers), sel.name)
                            else old(providers)))
        && (sel.Selected? && confirm && sel.name in old(providers).entries ==>
              && rows == TableRows(providers, mask)
              && cursorRow == RestoredCursor(old(rows), old(cursorRow), rows)
              && outcome == Told(Notice(Information, "Provider '" + sel.name + "' deleted")))
        && (!(sel.Selected? && confirm && sel.name in old(providers).entries) ==>
              rows == old(rows) && cursorRow == old(cursorRow))
        && (sel.Selected? && !(confirm && sel.name in old(providers).entries) ==> outcome == Quiet)
    {
      match SelectedRow(RowNames(rows), cursorRow)
      case NoneSelected =>
        outcome := Told(Notice(Warning, "Select provider to delete"));
      case RowMissing =>
        outcome := MissingRow;
      case Selected(name) =>
        outcome := Quiet;
        if confirm && name in providers.entries {
          providers := Remove(providers, name);
          UpdateProviderTable(mask);
          outcome := Told(Notice(Information, "Provider '" + name + "' deleted"));
        }
    }
  }

  /** A deletion removes that one provider and leaves every other entry as it was. */
  lemma RemoveOthersUntouched(d: Providers, name: string)
    requires WellFormed(d) && name in d.entries
    ensures var r := Remove(d, name);
      && name !in r.entries && name !in r.order
      && (forall k :: k in d.entries && k != name ==> k in r.entries && r.entries[k] == d.entries[k])
      && |r.order| == |d.order| - 1
  {
    var r := Remove(d, name);
    WithoutLength(d.order, name);
  }

  lemma {:induction false} WithoutLength(s: seq<string>, k: string)
    requires Distinct(s) && k in s
    ensures |Without(s, k)| == |s| - 1
  {
    if s[0] == k {
      assert k !in s[1..] by {
        forall j | 0 <= j < |s[1..]| ensures s[1..][j] != k {
          assert s[1..][j] == s[j + 1];
        }
      }
      WithoutAbsent(s[1..], k);
    } else {
      assert Distinct(s[1..]) by {
        forall i, j | 0 <= i < j < |s[1..]| ensures s[1..][i] != s[1..][j] {
          assert s[1..][i] == s[i + 1] && s[1..][j] == s[j + 1];
        }
      }
      WithoutLength(s[1..], k);
    }
  }

  lemma {:induction false} WithoutAbsent(s: seq<string>, k: string)
    requires k !in s
    ensures Without(s, k) == s
  {
    if s != [] {
      WithoutAbsent(s[1..], k);
    }
  }
}
