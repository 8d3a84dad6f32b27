/**
 * The Sheets tools of src/mcp_google_workspace/server.py: `get_sheet_data`, `update_cells`,
 * `list_sheets` and `create_spreadsheet`. None of them guards the context or catches an
 * exception: a missing context and every failure of the API escape to the caller.
 */
module Sheets {
  import opened Wrappers
  import opened PyStr
  import opened Api

  /** The answer of `values().get`: `values` is absent for an empty range. */
  datatype ValueRange = ValueRange(values: Option<seq<seq<Cell>>>)

  /** The answer of `values().update` (an `UpdateValuesResponse`), returned as it is. */
  datatype UpdateReply = UpdateReply(json: string)

  /** A `properties` object; only `title` is read. */
  datatype Properties = Properties(title: Option<string>)

  datatype SheetMeta = SheetMeta(properties: Option<Properties>)

  /** The answer of `spreadsheets().get(fields='sheets(properties(title))')`. */
  datatype SpreadsheetMeta = SpreadsheetMeta(sheets: Option<seq<SheetMeta>>)

  /** The answer of `spreadsheets().create`. */
  datatype NewSpreadsheet = NewSpreadsheet(spreadsheetId: Option<string>, properties: Option<Properties>, spreadsheetUrl: Option<string>)

  /** The dictionary `create_spreadsheet` returns. */
  datatype CreatedSummary = CreatedSummary(spreadsheetId: string, title: string, url: string)

  /** `f"{sheet}!{range}"` */
  function A1(sheet: string, range: string): string {
    sheet + "!" + range
  }

  /** The range `get_sheet_data` asks for: qualified by the sheet when `range` is truthy, the sheet alone otherwise. */
  function SheetRange(sheet: string, range: Option<string>): string {
    if Truthy(range) then A1(sheet, range.value) else sheet
  }

  /** The index of the last `'!'` in `s`. */
  function LastBang(s: string): (r: Option<nat>)
    ensures r.Some? ==> r.value < |s| && s[r.value] == '!' && '!' !in s[r.value + 1..]
    ensures r.None? ==> '!' !in s
  {
    if s == "" then None
    else if s[|s| - 1] == '!' then Some(|s| - 1)
    else LastBang(s[..|s| - 1])
  }

  /** How an A1 range reads: a sheet name, then optionally `'!'` and a cell range without `'!'`. */
  function SplitA1(full: string): (string, Option<string>) {
    match LastBang(full)
    case None => (full, None)
    case Some(i) => (full[..i], Some(full[i + 1..]))
  }

  /**
   * The range `get_sheet_data` sends denotes exactly the sheet and the cell range it was given
   * (the sheet alone when the cell range is `None` or empty), provided the cell range, or the
   * sheet name when it stands alone, holds no `'!'`.
   */
  lemma SheetRangeRoundTrip(sheet: string, range: Option<string>)
    requires if Truthy(range) then '!' !in range.value else '!' !in sheet
    ensures SplitA1(SheetRange(sheet, range)) == (sheet, if Truthy(range) then range else None)
  {
    if Truthy(range) {
      A1RoundTrip(sheet, range.value);
    }
  }

  /** The last `'!'` of `p + "!" + t` is the one between them when `t` holds none. */
  lemma {:induction false} LastBangIsSeparator(p: string, t: string)
    requires '!' !in t
    ensures LastBang(p + "!" + t) == Some(|p|)
    decreases |t|
  {
    var full := p + "!" + t;
    if t != "" {
      assert full[..|full| - 1] == p + "!" + t[..|t| - 1];
      assert full[|full| - 1] == t[|t| - 1];
      LastBangIsSeparator(p, t[..|t| - 1]);
    }
  }

  /** `update_cells` always qualifies the range by the sheet, so its range reads back as the pair it was given. */
  lemma A1RoundTrip(sheet: string, range: string)
    requires '!' !in range
    ensures SplitA1(A1(sheet, range)) == (sheet, Some(range))
  {
    var full := A1(sheet, range);
    LastBangIsSeparator(sheet, range);
    assert full[..|sheet|] == sheet && full[|sheet| + 1..] == range;
  }

  /** `get_sheet_data`: one `values().get` on the composed range; a missing `values` key reads as `[]`. */
  function GetSheetData(ctx: ToolContext, spreadsheetId: string, sheet: string, range: Option<string>,
                        response: Result<ValueRange, ApiFailure>): (e: Exchange<seq<seq<Cell>>>)
    ensures ctx.None? ==> e == Exchange([], Err(ContextMissing))
    ensures ctx.Some? ==> e.calls == [ValuesGet(spreadsheetId, SheetRange(sheet, range))]
    ensures ctx.Some? && response.Err? ==> e.result == Err(Propagated(ApiCall(response.error)))
    ensures ctx.Some? && response == Ok(ValueRange(None)) ==> e.result == Ok([])
    ensures ctx.Some? && response.Ok? && response.value.values.Some? ==> e.result == Ok(response.value.values.value)
  {
    if ctx.None? then Exchange([], Err(ContextMissing))
    else
      var calls := [ValuesGet(spreadsheetId, SheetRange(sheet, range))];
      match response
      case Err(f) => Exchange(calls, Err(Propagated(ApiCall(f))))
      case Ok(vr) => Exchange(calls, Ok(vr.values.GetOr([])))
  }

  /** `update_cells`: one `values().update` of `sheet!range` with `USER_ENTERED`; the API's answer is returned unchanged. */
  function UpdateCells(ctx: ToolContext, spreadsheetId: string, sheet: string, range: string, data: seq<seq<Cell>>,
                       response: Result<UpdateReply, ApiFailure>): (e: Exchange<UpdateReply>)
    ensures ctx.None? ==> e == Exchange([], Err(ContextMissing))
    ensures ctx.Some? ==> e.calls == [ValuesUpdate(spreadsheetId, A1(sheet, range), "USER_ENTERED", data)]
    ensures ctx.Some? ==> e.result == match response
      case Ok(reply) => Ok(reply)
      case Err(f) => Err(Propagated(ApiCall(f)))
  {
    if ctx.None? then Exchange([], Err(ContextMissing))
    else
      var calls := [ValuesUpdate(spreadsheetId, A1(sheet, range), "USER_ENTERED", data)];
      match response
      case Err(f) => Exchange(calls, Err(Propagated(ApiCall(f))))
      case Ok(reply) => Exchange(calls, Ok(reply))
  }

  predicate HasTitle(s: SheetMeta) {
    s.properties.Some? && s.properties.value.title.Some?
  }

  /** `[sheet['properties']['title'] for sheet in sheets]`: the first sheet lacking a key raises `KeyError`. */
  function SheetTitles(sheets: seq<SheetMeta>): (r: Result<seq<string>, Cause>)
    ensures r.Ok? <==> forall i :: 0 <= i < |sheets| ==> HasTitle(sheets[i])
    ensures r.Ok? ==>
      |r.value| == |sheets| && forall i :: 0 <= i < |sheets| ==> r.value[i] == sheets[i].properties.value.title.value
    ensures r.Err? ==> r.error in {MissingKey("properties"), MissingKey("title")}
  {
    if sheets == [] then Ok([])
    else if sheets[0].properties.None? then Err(MissingKey("properties"))
    else if sheets[0].properties.value.title.None? then Err(MissingKey("title"))
    else
      match SheetTitles(sheets[1..])
      case Err(c) => Err(c)
      case Ok(rest) => Ok([sheets[0].properties.value.title.value] + rest)
  }

  /** `list_sheets`: the tab titles in the order the API lists the tabs; a missing `sheets` key reads as `[]`. */
  function ListSheets(ctx: ToolContext, spreadsheetId: string, response: Result<SpreadsheetMeta, ApiFailure>): (e: Exchange<seq<string>>)
    ensures ctx.None? ==> e == Exchange([], Err(ContextMissing))
    ensures ctx.Some? ==> e.calls == [SpreadsheetsGet(spreadsheetId, "sheets(properties(title))")]
    ensures ctx.Some? && response.Err? ==> e.result == Err(Propagated(ApiCall(response.error)))
    ensures ctx.Some? && response == Ok(SpreadsheetMeta(None)) ==> e.result == Ok([])
    ensures ctx.Some? && response.Ok? && response.value.sheets.Some? ==>
      var sheets := response.value.sheets.value;
      (e.result.Ok? <==> forall i :: 0 <= i < |sheets| ==> HasTitle(sheets[i]))
      && (e.result.Ok? ==>
            |e.result.value| == |sheets| && forall i :: 0 <= i < |sheets| ==> e.result.value[i] == sheets[i].properties.value.title.value)
  {
    if ctx.None? then Exchange([], Err(ContextMissing))
    else
      var calls := [SpreadsheetsGet(spreadsheetId, "sheets(properties(title))")];
      match response
      case Err(f) => Exchange(calls, Err(Propagated(ApiCall(f))))
      case Ok(meta) =>
        match SheetTitles(meta.sheets.GetOr([]))
        case Err(c) => Exchange(calls, Err(Propagated(c)))
        case Ok(titles) => Exchange(calls, Ok(titles))
  }

  /** `create_spreadsheet`: one `create` with the title; the summary needs the id, the title and the URL of the answer. */
  function CreateSpreadsheet(ctx: ToolContext, title: string, response: Result<NewSpreadsheet, ApiFailure>): (e: Exchange<CreatedSummary>)
    ensures ctx.None? ==> e == Exchange([], Err(ContextMissing))
    ensures ctx.Some? ==> e.calls == [SpreadsheetsCreate(title)]
    ensures ctx.Some? && response.Err? ==> e.result == Err(Propagated(ApiCall(response.error)))
    ensures ctx.Some? && response.Ok? ==> var s := response.value;
      (e.result.Ok? <==> s.spreadsheetId.Some? && s.properties.Some? && s.properties.value.title.Some? && s.spreadsheetUrl.Some?)
      && (e.result.Ok? ==> e.result.value == CreatedSummary(s.spreadsheetId.value, s.properties.value.title.value, s.spreadsheetUrl.value))
  {
    if ctx.None? then Exchange([], Err(ContextMissing))
    else
      var calls := [SpreadsheetsCreate(title)];
      match response
      case Err(f) => Exchange(calls, Err(Propagated(ApiCall(f))))
      case Ok(s) =>
        if s.spreadsheetId.None? then Exchange(calls, Err(Propagated(MissingKey("spreadsheetId"))))
        else if s.properties.None? then Exchange(calls, Err(Propagated(MissingKey("properties"))))
        else if s.properties.value.title.None? then Exchange(calls, Err(Propagated(MissingKey("title"))))
        else if s.spreadsheetUrl.None? then Exchange(calls, Err(Propagated(MissingKey("spreadsheetUrl"))))
        else Exchange(calls, Ok(CreatedSummary(s.spreadsheetId.value, s.properties.value.title.value, s.spreadsheetUrl.value)))
  }
}
