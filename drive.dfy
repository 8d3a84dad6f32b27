/**
 * The Drive listing tools of src/mcp_google_workspace/server.py: `list_spreadsheets` and
 * `search_workspace_files`. Both build a Drive query from a MIME-type clause and an optional
 * folder clause, and both answer `[]` on any failure of the call or of the reshaping.
 */
module Drive {
  import opened Wrappers
  import opened PyStr
  import opened Api

  /** One entry of a `files().list` answer; any key may be absent. */
  datatype DriveFile = DriveFile(id: Option<string>, name: Option<string>, mimeType: Option<string>)

  /** The answer of `files().list`. */
  datatype FileList = FileList(files: Option<seq<DriveFile>>)

  /** `{'id': ..., 'title': ...}` of `list_spreadsheets`. */
  datatype SpreadsheetEntry = SpreadsheetEntry(id: string, title: string)

  /** The `type` tag of `search_workspace_files`: `'Sheets'` or `'Docs'`. */
  datatype FileKind = SheetsKind | DocsKind

  /** `{'id': ..., 'name': ..., 'type': ...}` of `search_workspace_files`. */
  datatype FoundFile = FoundFile(id: string, name: string, kind: FileKind)

  const SpreadsheetClause: string := "mimeType='application/vnd.google-apps.spreadsheet'"
  const DocumentClause: string := "mimeType='application/vnd.google-apps.document'"
  const EitherClause: string := "(" + SpreadsheetClause + " or " + DocumentClause + ")"

  const FolderOpen: string := " and '"
  const FolderClose: string := "' in parents"

  /** `mime_types.get(file_type, mime_types['all'])`: an unknown file type searches both kinds. */
  function MimeClause(fileType: string): (c: string)
    ensures c == SpreadsheetClause <==> fileType == "sheets"
    ensures c == DocumentClause <==> fileType == "docs"
    ensures c == EitherClause <==> fileType != "sheets" && fileType != "docs"
  {
    assert |SpreadsheetClause| != |DocumentClause|;
    if fileType == "sheets" then SpreadsheetClause
    else if fileType == "docs" then DocumentClause
    else EitherClause
  }

  /** `f" and '{folder_id}' in parents"` when the context's folder id is truthy, nothing otherwise. */
  function FolderClause(folderId: Option<string>): string {
    if Truthy(folderId) then FolderOpen + folderId.value + FolderClose else ""
  }

  /** The query of `list_spreadsheets`. */
  function SpreadsheetQuery(folderId: Option<string>): string {
    SpreadsheetClause + FolderClause(folderId)
  }

  /** The query of `search_workspace_files`. */
  function SearchQuery(query: string, fileType: string, folderId: Option<string>): string {
    "name contains '" + query + "' and " + MimeClause(fileType) + FolderClause(folderId)
  }

  /** The folder a query built on `base` is restricted to, read back from its text. */
  function ScopeOf(q: string, base: string): Option<string> {
    if |q| >= |base| + |FolderOpen| + |FolderClose|
       && q[..|base|] == base
       && q[|base|..|base| + |FolderOpen|] == FolderOpen
       && q[|q| - |FolderClose|..] == FolderClose
    then Some(q[|base| + |FolderOpen|..|q| - |FolderClose|])
    else None
  }

  /**
   * A query is restricted to a folder exactly when the folder id is truthy, and then to that
   * folder: `None` and `""` both leave the query unrestricted.
   */
  lemma FolderClauseRoundTrip(base: string, folderId: Option<string>)
    ensures ScopeOf(base + FolderClause(folderId), base) == if Truthy(folderId) then folderId else None
  {
    var q := base + FolderClause(folderId);
    if Truthy(folderId) {
      var f := folderId.value;
      assert q == base + FolderOpen + f + FolderClose;
      assert q[..|base|] == base;
      assert q[|base|..|base| + |FolderOpen|] == FolderOpen;
      assert q[|q| - |FolderClose|..] == FolderClose;
      assert q[|base| + |FolderOpen|..|q| - |FolderClose|] == f;
    }
  }

  /** Both listing queries carry the folder clause exactly when the folder id is truthy. */
  lemma QueriesScopedIff(query: string, fileType: string, folderId: Option<string>)
    ensures ScopeOf(SpreadsheetQuery(folderId), SpreadsheetClause) == if Truthy(folderId) then folderId else None
    ensures ScopeOf(SearchQuery(query, fileType, folderId), "name contains '" + query + "' and " + MimeClause(fileType))
            == if Truthy(folderId) then folderId else None
  {
    FolderClauseRoundTrip(SpreadsheetClause, folderId);
    var base := "name contains '" + query + "' and " + MimeClause(fileType);
    FolderClauseRoundTrip(base, folderId);
    assert SearchQuery(query, fileType, folderId) == base + FolderClause(folderId);
  }

  /** `[{'id': f['id'], 'title': f['name']} for f in files]`; `None` stands for the `KeyError` of a file lacking a key. */
  function SpreadsheetEntries(files: seq<DriveFile>): (r: Option<seq<SpreadsheetEntry>>)
    ensures r.Some? <==> forall i :: 0 <= i < |files| ==> files[i].id.Some? && files[i].name.Some?
    ensures r.Some? ==> |r.value| == |files|
    ensures r.Some? ==> forall i :: 0 <= i < |files| ==> r.value[i] == SpreadsheetEntry(files[i].id.value, files[i].name.value)
  {
    if files == [] then Some([])
    else if files[0].id.None? || files[0].name.None? then None
    else
      match SpreadsheetEntries(files[1..])
      case None => None
      case Some(rest) => Some([SpreadsheetEntry(files[0].id.value, files[0].name.value)] + rest)
  }

  /** `'Sheets' if 'spreadsheet' in mimeType else 'Docs'` */
  function KindOf(mimeType: string): (k: FileKind)
    ensures k == SheetsKind <==> Contains(mimeType, "spreadsheet")
  {
    if Contains(mimeType, "spreadsheet") then SheetsKind else DocsKind
  }

  const SpreadsheetMime: string := "application/vnd.google-apps.spreadsheet"
  const DocumentMime: string := "application/vnd.google-apps.document"

  /** The two MIME types the search asks for are tagged as what they are. */
  lemma KindOfQueriedTypes()
    ensures KindOf(SpreadsheetMime) == SheetsKind
    ensures KindOf(DocumentMime) == DocsKind
  {
    assert OccursAt(SpreadsheetMime, "spreadsheet", 28);
    forall i | 0 <= i <= |DocumentMime|
      ensures !OccursAt(DocumentMime, "spreadsheet", i)
    {
      if i + 11 <= |DocumentMime| {
        assert DocumentMime[i..i + 11][0] == DocumentMime[i];
      }
    }
  }

  predicate Complete(f: DriveFile) {
    f.id.Some? && f.name.Some? && f.mimeType.Some?
  }

  /** The reshaping of `search_workspace_files`; `None` stands for the `KeyError` of a file lacking a key. */
  function FoundFiles(files: seq<DriveFile>): (r: Option<seq<FoundFile>>)
    ensures r.Some? <==> forall i :: 0 <= i < |files| ==> Complete(files[i])
    ensures r.Some? ==> |r.value| == |files|
    ensures r.Some? ==> forall i :: 0 <= i < |files| ==>
      r.value[i].id == files[i].id.value && r.value[i].name == files[i].name.value
      && (r.value[i].kind == SheetsKind <==> Contains(files[i].mimeType.value, "spreadsheet"))
  {
    if files == [] then Some([])
    else if !Complete(files[0]) then None
    else
      match FoundFiles(files[1..])
      case None => None
      case Some(rest) => Some([FoundFile(files[0].id.value, files[0].name.value, KindOf(files[0].mimeType.value))] + rest)
  }

  /** `list_spreadsheets`: one `files().list`, page size `limit` or 100; never raises once the context is there. */
  function ListSpreadsheets(ctx: ToolContext, limit: Option<int>, response: Result<FileList, ApiFailure>): (e: Exchange<seq<SpreadsheetEntry>>)
    ensures ctx.None? ==> e == Exchange([], Err(ContextMissing))
    ensures ctx.Some? ==> e.calls == [FilesList(SpreadsheetQuery(ctx.value.folderId), "files(id, name)", PageSize(limit, 100))]
    ensures ctx.Some? ==> e.result.Ok?
    ensures ctx.Some? && response.Err? ==> e.result == Ok([])
    ensures ctx.Some? && response.Ok? ==>
      var listed := SpreadsheetEntries(response.value.files.GetOr([]));
      e.result == Ok(if listed.Some? then listed.value else [])
  {
    if ctx.None? then Exchange([], Err(ContextMissing))
    else
      var calls := [FilesList(SpreadsheetQuery(ctx.value.folderId), "files(id, name)", PageSize(limit, 100))];
      match response
      case Err(_) => Exchange(calls, Ok([]))
      case Ok(list) =>
        match SpreadsheetEntries(list.files.GetOr([]))
        case None => Exchange(calls, Ok([]))
        case Some(entries) => Exchange(calls, Ok(entries))
  }

  /** `search_workspace_files`: one `files().list`, page size `limit` or 50; never raises once the context is there. */
  function SearchWorkspaceFiles(ctx: ToolContext, query: string, fileType: string, limit: Option<int>,
                                response: Result<FileList, ApiFailure>): (e: Exchange<seq<FoundFile>>)
    ensures ctx.None? ==> e == Exchange([], Err(ContextMissing))
    ensures ctx.Some? ==> e.calls == [FilesList(SearchQuery(query, fileType, ctx.value.folderId), "files(id, name, mimeType)", PageSize(limit, 50))]
    ensures ctx.Some? ==> e.result.Ok?
    ensures ctx.Some? && response.Err? ==> e.result == Ok([])
    ensures ctx.Some? && response.Ok? ==>
      var found := FoundFiles(response.value.files.GetOr([]));
      e.result == Ok(if found.Some? then found.value else [])
  {
    if ctx.None? then Exchange([], Err(ContextMissing))
    else
      var calls := [FilesList(SearchQuery(query, fileType, ctx.value.folderId), "files(id, name, mimeType)", PageSize(limit, 50))];
      match response
      case Err(_) => Exchange(calls, Ok([]))
      case Ok(list) =>
        match FoundFiles(list.files.GetOr([]))
        case None => Exchange(calls, Ok([]))
        case Some(found) => Exchange(calls, Ok(found))
  }

  /** A non-empty answer of `search_workspace_files` comes from a complete listing, file by file and in order. */
  lemma SearchResultsMirrorListing(ctx: ToolContext, query: string, fileType: string, limit: Option<int>,
                                   response: Result<FileList, ApiFailure>)
    requires SearchWorkspaceFiles(ctx, query, fileType, limit, response).result.Ok?
    requires SearchWorkspaceFiles(ctx, query, fileType, limit, response).result.value != []
    ensures response.Ok? && response.value.files.Some?
    ensures var files := response.value.files.value;
      var found := SearchWorkspaceFiles(ctx, query, fileType, limit, response).result.value;
      |found| == |files| && forall i :: 0 <= i < |files| ==>
        found[i].id == files[i].id.value && (found[i].kind == SheetsKind <==> Contains(files[i].mimeType.value, "spreadsheet"))
  {
  }
}
