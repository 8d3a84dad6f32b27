/**
 * The connection-report tools of src/mcp_google_workspace/server.py: `get_workspace_info`
 * and `simple_context_test`.
 */
module Workspace {
  import opened Wrappers
  import opened PyStr
  import opened Api

  /** The label `get_workspace_info` reports when no folder restricts the tools. */
  const WholeDriveLabel: string := "My Drive (전체)"

  const ServiceNames: seq<string> := ["Google Sheets", "Google Docs", "Google Drive"]

  /** The tool names `get_workspace_info` advertises, in its order. */
  const AvailableTools: seq<string> := [
    "get_sheet_data", "update_cells", "list_sheets", "create_spreadsheet", "list_spreadsheets",
    "read_google_doc", "append_to_google_doc", "insert_text", "delete_range",
    "apply_text_formatting", "insert_table", "insert_page_break",
    "search_workspace_files", "get_workspace_info"
  ]

  datatype WorkspaceInfo = WorkspaceInfo(status: string, services: seq<string>, workingFolder: string, availableTools: seq<string>)

  /** `workspace_ctx.folder_id or 'My Drive (전체)'` */
  function FolderLabel(folderId: Option<string>): (shown: string)
    ensures Truthy(folderId) ==> shown == folderId.value
    ensures !Truthy(folderId) ==> shown == WholeDriveLabel
    ensures shown != ""
  {
    if Truthy(folderId) then folderId.value else WholeDriveLabel
  }

  /** `get_workspace_info`: reads the context without a guard, so a missing context escapes as an `AttributeError`. */
  function GetWorkspaceInfo(ctx: ToolContext): (r: Result<WorkspaceInfo, ToolError>)
    ensures r.Ok? <==> ctx.Some?
    ensures ctx.None? ==> r == Err(ContextMissing)
    ensures r.Ok? ==> r.value.status == "connected" && r.value.services == ServiceNames && r.value.availableTools == AvailableTools
    ensures r.Ok? ==> r.value.workingFolder == FolderLabel(ctx.value.folderId)
  {
    if ctx.None? then Err(ContextMissing)
    else Ok(WorkspaceInfo("connected", ServiceNames, FolderLabel(ctx.value.folderId), AvailableTools))
  }

  /** The answer of `simple_context_test`. */
  datatype Probe = ProbeError | ProbeSuccess

  /**
   * The shapes of `ctx` that `simple_context_test` tells apart. The other tools treat every
   * shape but `Ready` alike, so they see only `ToolContext`.
   */
  datatype ProbeContext =
    | NoContext                // `ctx is None`
    | RequestContextMissing    // `ctx` has no `request_context` attribute
    | RequestContextNone       // `ctx.request_context is None`
    | LifespanMissing          // the request context has no `lifespan_context` attribute
    | LifespanNone             // `ctx.request_context.lifespan_context is None`
    | Ready                    // a workspace context is present

  /**
   * `simple_context_test`. The logging lines before its `try` read `ctx.request_context` and
   * then `ctx.request_context.lifespan_context` without a `hasattr` check, so a missing
   * attribute escapes as an `AttributeError`; every other shape is answered by the guarded
   * check inside the `try`.
   */
  function SimpleContextTest(ctx: ProbeContext): (r: Result<Probe, ToolError>)
    ensures r.Err? <==> ctx == RequestContextMissing || ctx == LifespanMissing
    ensures r.Err? ==> r.error == ContextMissing
    ensures r == Ok(ProbeSuccess) <==> ctx == Ready
  {
    match ctx
    case NoContext => Ok(ProbeError)
    case RequestContextMissing => Err(ContextMissing)
    case RequestContextNone => Ok(ProbeError)
    case LifespanMissing => Err(ContextMissing)
    case LifespanNone => Ok(ProbeError)
    case Ready => Ok(ProbeSuccess)
  }

  /** The probe shape of a context as the other tools see it. */
  function ProbeOf(ctx: ToolContext): ProbeContext {
    if ctx.None? then NoContext else Ready
  }

  /**
   * On the contexts the other tools are modelled with, the probe answers without raising, and
   * it reports success exactly when `get_workspace_info` can run.
   */
  lemma ProbeAgreesWithTools(ctx: ToolContext)
    ensures SimpleContextTest(ProbeOf(ctx)).Ok?
    ensures SimpleContextTest(ProbeOf(ctx)) == Ok(ProbeSuccess) <==> GetWorkspaceInfo(ctx).Ok?
  {
  }
}
