/**
 * The shapes shared by the tools of src/mcp_google_workspace/server.py: the calls they hand to
 * the Google API clients, what those calls can answer, and the errors the tools raise.
 * The clients themselves are not modelled: each tool takes the answer to each of its calls as
 * a parameter and returns the calls it made beside its result.
 */
module Api {
  import opened Wrappers
  import GoogleAuth

  /** `ctx.request_context.lifespan_context`; `None` when `ctx`, its request context or its lifespan context is missing. */
  type ToolContext = Option<GoogleAuth.WorkspaceContext>

  /** A cell value of the Sheets API, kept as its JSON text. */
  datatype Cell = Cell(json: string)

  /** An exception from a client call: `HttpError` carries `e.resp.status`; anything else has no `resp`. */
  datatype ApiFailure = HttpError(status: int, reason: string) | OtherFailure(reason: string)

  /** The answer to a call whose result the tool ignores (`batchUpdate(...).execute()`). */
  datatype Ack = Accepted | Rejected(failure: ApiFailure)

  /** An exception raised inside a tool, before it is reworded. */
  datatype Cause =
    | ApiCall(failure: ApiFailure)
    | MissingKey(key: string)          // KeyError from `d['key']`
    | EmptyContentList                 // IndexError from `content[-1]` on an empty list
    | MarkdownNotImplemented           // NotImplementedError for format 'markdown'
    | InvalidHexColor(hex: string)     // ValueError from int(..., 16)

  /** What a tool raises. Message wording is not modelled; each message is its own constructor. */
  datatype ToolError =
    | ContextNotInitialized            // the guard of the Docs tools
    | ContextMissing                   // AttributeError of an unguarded tool reading `ctx.request_context`
    | Propagated(cause: Cause)         // an exception the tool does not catch
    | InvalidIndexRange                // end_index <= start_index
    | DocNotFound(documentId: string)
    | DocAccessDenied(documentId: string)
    | ReadFailed(cause: Cause)
    | AppendFailed(cause: Cause)
    | InsertFailed(cause: Cause)
    | DeleteFailed(cause: Cause)
    | FormatFailed(cause: Cause)
    | TableFailed(cause: Cause)
    | PageBreakFailed(cause: Cause)

  /** One key of an `updateTextStyle` `textStyle` object, with its value. */
  datatype StyleEntry =
    | Bold(on: bool)
    | Italic(on: bool)
    | Underline(on: bool)
    | FontSize(magnitude: int)                 // {'magnitude': n, 'unit': 'PT'}
    | FontFamily(family: string)
    | ForegroundColor(red: int, green: int, blue: int)  // the parsed bytes, before division by 255.0
  {
    /** The JSON key of this entry. */
    function Key(): string {
      match this
      case Bold(_) => "bold"
      case Italic(_) => "italic"
      case Underline(_) => "underline"
      case FontSize(_) => "fontSize"
      case FontFamily(_) => "fontFamily"
      case ForegroundColor(_, _, _) => "foregroundColor"
    }

    /** The position of this key in the order the tool inserts keys. */
    function Rank(): nat {
      match this
      case Bold(_) => 0
      case Italic(_) => 1
      case Underline(_) => 2
      case FontSize(_) => 3
      case FontFamily(_) => 4
      case ForegroundColor(_, _, _) => 5
    }
  }

  /** One entry of `applied_styles`, the human-readable list in the reply. */
  datatype StyleLabel =
    | BoldOn | BoldOff | ItalicOn | ItalicOff | UnderlineOn | UnderlineOff
    | SizeLabel(points: int) | FamilyLabel(family: string) | ColorLabel(hex: string)

  /** The Docs `batchUpdate` requests the tools build. */
  datatype DocsRequest =
    | InsertText(index: int, text: string)
    | DeleteContentRange(startIndex: int, endIndex: int)
    | UpdateTextStyle(startIndex: int, endIndex: int, textStyle: seq<StyleEntry>, fields: string)
    | InsertTable(index: int, rows: int, columns: int)
    | InsertPageBreak(index: int)

  /** A call handed to a Google API client. */
  datatype Call =
    | ValuesGet(spreadsheetId: string, range: string)
    | ValuesUpdate(spreadsheetId: string, range: string, valueInputOption: string, values: seq<seq<Cell>>)
    | SpreadsheetsGet(spreadsheetId: string, fields: string)
    | SpreadsheetsCreate(title: string)
    | FilesList(q: string, fields: string, pageSize: int)
    | DocumentsGet(documentId: string, fieldMask: Option<string>)
    | BatchUpdate(documentId: string, requests: seq<DocsRequest>)

  /** What one tool invocation did: the calls it made, in order, and what it returned or raised. */
  datatype Exchange<T> = Exchange(calls: seq<Call>, result: Result<T, ToolError>)

  /** `limit if limit else fallback` for an `Optional[int]`: `None` and `0` are falsy. */
  function PageSize(limit: Option<int>, fallback: int): (n: int)
    ensures limit.Some? && limit.value != 0 ==> n == limit.value
    ensures limit == None || limit == Some(0) ==> n == fallback
  {
    if limit.Some? && limit.value != 0 then limit.value else fallback
  }
}
