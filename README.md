# Google Workspace MCP server: a Dafny model

This project models `mcp-google-workspace`, an MCP server that gives a client tools over
Google Sheets, Google Docs and Google Drive. Two parts are modelled:

- **Credential resolution.** `get_authenticated_services` picks the credential. It tries, in
  order, the base64 `CREDENTIALS_CONFIG` service-account blob, the service-account key file,
  and the OAuth user flow. The OAuth flow uses a stored token, a refreshed token, or the
  interactive browser flow. The chosen credential then builds the Sheets, Docs and Drive
  services. Module `GoogleAuth` holds this logic twice:
  - a pure decision chain, `Resolve`;
  - an imperative method, `GetAuthenticatedServices`, over a `TokenFile` object that it
    overwrites. The method is proved equal to `Resolve`.
- **The tools.** Each tool is a function or method. It takes:
  - the workspace context (`None` when the request carries none);
  - the tool's arguments;
  - the answer of each Google API call, as a parameter.

  It returns an `Exchange`: the calls it sent, in order, and its reply or the error it raises.
  This makes properties like "no request is sent for an empty range" provable.

The modules follow the server's own split:

- `Sheets`: the spreadsheet tools.
- `Drive`: the Drive listing and search tools.
- `Docs`: the document tools.
- `TextStyle`: the `updateTextStyle` payload of `apply_text_formatting`.
- `Workspace`: the connection report.
- `Api`: the shapes the tools share.
- `PyStr`: the Python string semantics the tools rely on. These are truthiness, `strip`,
  `in`, `join`/`split`, and decimal `str(n)`.

Three operations are imperative and are modelled as methods with loops or reassigned locals:
- the text extraction of `read_google_doc` (two nested loops);
- the key-by-key construction of the style payload;
- the credential chain.

Each is proved against a pure specification function. The properties are proved about that
function.

Some behaviours of the code are easy to miss on a first read. The model keeps each of them:

1. **Config precedence.** A service-account file that loads overrides the embedded config,
   because it is assigned later (`ServiceAccountFileOverridesConfig`). A file that exists but
   fails to load resets `creds` to `None`, which discards a good embedded credential
   (`FailedServiceAccountDiscardsConfig`).
2. **Refresh condition.** A stored token is refreshed only when it has a refresh token and
   `creds.expired` holds (`RefreshIff`).
3. **Context guard.** Only the Docs tools guard the context, and they fail with
   `ContextNotInitialized`. The Sheets, Drive and `get_workspace_info` tools read
   `ctx.request_context` directly, so a missing context escapes as an `AttributeError`
   (`ContextMissing`).
4. **Tool list.** `get_workspace_info` lists 14 tools. It omits `simple_context_test`.
5. **Token read-back.** `creds.to_json()` leaves out a missing refresh token, and
   `from_authorized_user_info` requires that key. A token from the browser flow without a
   refresh token is written, but the next run fails to read it (`SecondRunReusesWrittenToken`).

## Model

| member | source | states |
|---|---|---|
| GoogleAuth.NormalizeFolderId | src/mcp_google_workspace/auth/google_auth.py:100 | An empty `DRIVE_FOLDER_ID` becomes `None`; any other id is kept; the result is truthy exactly when it is present |
| GoogleAuth.BuildContext | src/mcp_google_workspace/auth/google_auth.py:92-101 | The Sheets, Docs and Drive services are built over one and the same credential, and the folder id is normalised |
| GoogleAuth.Resolve | src/mcp_google_workspace/auth/google_auth.py:49-101 | On success a source was chosen, all three services share one credential carrying the three `SCOPES`, and the folder id is normalised. Any token written is valid. A token is written exactly when the source is a refresh or the interactive flow |
| GoogleAuth.Stored | src/mcp_google_workspace/auth/google_auth.py:75-77 | A written token reads back, unchanged, exactly when it carries a refresh token |
| GoogleAuth.GetAuthenticatedServices | src/mcp_google_workspace/auth/google_auth.py:42-101 | The imperative chain (reassigning `creds`) returns exactly the outcome and source of `Resolve`. Afterwards the token file holds what the next run reads from the token `Resolve` writes, or is unchanged |
| GoogleAuth.ServiceAccountFileOverridesConfig | src/mcp_google_workspace/auth/google_auth.py:52-64 | A service-account file that exists and loads is used even when a good embedded config is present, and no token is written |
| GoogleAuth.EmbeddedConfigUsedIff | src/mcp_google_workspace/auth/google_auth.py:52-73 | The embedded config is the source exactly when it is present, decodes, and no service-account file is tried |
| GoogleAuth.FailedServiceAccountDiscardsConfig | src/mcp_google_workspace/auth/google_auth.py:59-73 | A service-account file that exists but fails to load discards a good embedded credential: the OAuth branch runs and the whole run equals one with `CREDENTIALS_CONFIG` unset |
| GoogleAuth.MalformedConfigPropagates | src/mcp_google_workspace/auth/google_auth.py:52-56 | A config that does not decode raises, whatever else is configured, and nothing is written |
| GoogleAuth.UserSourcesOnlyInOAuthBranch | src/mcp_google_workspace/auth/google_auth.py:73-89 | Outside the `if not creds:` branch the token file is irrelevant to the outcome, and the three user sources occur only inside it |
| GoogleAuth.RefreshIff | src/mcp_google_workspace/auth/google_auth.py:80-85 | With no valid stored token, the token is refreshed exactly when one was loaded, is expired and has a refresh token; otherwise the interactive flow runs |
| GoogleAuth.TokenWrittenIff | src/mcp_google_workspace/auth/google_auth.py:80-89 | The token file is written exactly when the OAuth branch runs without a valid stored token, the refresh or the flow succeeds, and the write succeeds |
| GoogleAuth.ValidTokenNeverRewritten | src/mcp_google_workspace/auth/google_auth.py:75-89 | A valid stored token is used as it is and the token file is not rewritten |
| GoogleAuth.NoWriteOnServiceAccountPaths | src/mcp_google_workspace/auth/google_auth.py:52-89 | When a service-account credential is used, the token file is never written |
| GoogleAuth.SecondRunReusesWrittenToken | src/mcp_google_workspace/auth/google_auth.py:75-89 | After a run writes a token, a second run in the same environment loads it as the stored token and writes nothing when the token has a refresh token. Without one, the second run fails reading the token file |
| Api.PageSize | src/mcp_google_workspace/server.py:208 | `limit if limit else fallback`: a given non-zero limit is used; `None` and `0` give the fallback |
| Sheets.SheetRangeRoundTrip | src/mcp_google_workspace/server.py:70-73 | The range `get_sheet_data` sends reads back as the sheet plus the cell range; a `None` or empty cell range gives the sheet alone |
| Sheets.A1RoundTrip | src/mcp_google_workspace/server.py:110 | `f"{sheet}!{range}"` reads back as the sheet and the range when the range holds no `'!'` |
| Sheets.GetSheetData | src/mcp_google_workspace/server.py:48-83 | One `values().get` on the composed range. A missing `values` key gives `[]`. API errors propagate. A missing context raises |
| Sheets.UpdateCells | src/mcp_google_workspace/server.py:86-125 | One `values().update` of `sheet!range` with `USER_ENTERED`, returning the API's answer unchanged or propagating its error |
| Sheets.SheetTitles | src/mcp_google_workspace/server.py:149-150 | The titles, in tab order, when every tab has `properties.title`; otherwise the `KeyError` of the missing key |
| Sheets.ListSheets | src/mcp_google_workspace/server.py:128-150 | One `spreadsheets().get` with `fields='sheets(properties(title))'`. It returns the tab titles in order, or `[]` without `sheets`, or the propagated error |
| Sheets.CreateSpreadsheet | src/mcp_google_workspace/server.py:153-182 | One `create` with the title. The summary succeeds exactly when the answer has an id, a title and a URL, and carries them |
| Drive.MimeClause | src/mcp_google_workspace/server.py:647-653 | `'sheets'` selects the spreadsheet clause, `'docs'` the document clause, and any other file type both |
| Drive.FolderClauseRoundTrip | src/mcp_google_workspace/server.py:200-202 | A query is restricted to a folder exactly when the folder id is truthy, and then to that folder |
| Drive.QueriesScopedIff | src/mcp_google_workspace/server.py:653-655 | Both the listing query and the search query carry the folder clause exactly when the folder id is truthy |
| Drive.SpreadsheetEntries | src/mcp_google_workspace/server.py:211-212 | One `{id, title}` per file, in order, when every file has `id` and `name`; otherwise the `KeyError` |
| Drive.KindOf | src/mcp_google_workspace/server.py:669 | A file is tagged `Sheets` exactly when its MIME type contains `spreadsheet` |
| Drive.KindOfQueriedTypes | src/mcp_google_workspace/server.py:647-669 | The spreadsheet MIME type is tagged `Sheets` and the document MIME type `Docs` |
| Drive.FoundFiles | src/mcp_google_workspace/server.py:664-672 | One entry per file, in order, with its id, name and kind, when every file has `id`, `name` and `mimeType`; otherwise the `KeyError` |
| Drive.ListSpreadsheets | src/mcp_google_workspace/server.py:185-216 | One `files().list` with page size `limit` or 100. Once the context is there it never raises: a failed call or reshaping gives `[]` |
| Drive.SearchWorkspaceFiles | src/mcp_google_workspace/server.py:625-676 | One `files().list` with page size `limit` or 50. Once the context is there it never raises: a failed call or reshaping gives `[]` |
| Drive.SearchResultsMirrorListing | src/mcp_google_workspace/server.py:664-672 | A non-empty search result comes from a successful, complete listing, file by file and in order |
| Workspace.FolderLabel | src/mcp_google_workspace/server.py:692 | The working folder is the folder id when truthy, `My Drive (전체)` otherwise, and is never empty |
| Workspace.GetWorkspaceInfo | src/mcp_google_workspace/server.py:679-702 | A present context always gets the report: status `connected`, the three services, the folder label and the 14 tool names. A missing context raises |
| Workspace.SimpleContextTest | src/mcp_google_workspace/server.py:705-729 | Raises (`AttributeError`) exactly when `ctx` lacks `request_context` or its request context lacks `lifespan_context`. These are read before the `try` without `hasattr`. Reports success exactly when a workspace context is present |
| Workspace.ProbeAgreesWithTools | src/mcp_google_workspace/server.py:705-729 | On an absent or ready context the probe does not raise, and it succeeds exactly when `get_workspace_info` runs |
| PyStr.LStripDropsSpace | src/mcp_google_workspace/server.py:272 | `lstrip` keeps a suffix, drops only whitespace, and stops at the first character that is not whitespace |
| PyStr.RStripDropsSpace | src/mcp_google_workspace/server.py:272 | `rstrip` keeps a prefix, drops only whitespace, and stops at the last character that is not whitespace |
| PyStr.StripKeepsTrimmed | src/mcp_google_workspace/server.py:272 | A text that neither starts nor ends with whitespace is its own `text.strip()` |
| PyStr.StripEmptyIffBlank | src/mcp_google_workspace/server.py:272 | `not s.strip()` holds exactly when every character is Python whitespace |
| PyStr.SplitJoin | src/mcp_google_workspace/server.py:526 | Splitting a comma join at commas gives the parts back when no part holds a comma |
| PyStr.NatToStringRoundTrip | src/mcp_google_workspace/server.py:278 | `str(n)` is a non-empty digit string that reads back as `n` |
| TextStyle.HexValuePair | src/mcp_google_workspace/server.py:505-507 | Two hex digits, most significant first, are worth 16 times the first plus the second |
| TextStyle.HexPairSlice | src/mcp_google_workspace/server.py:505-507 | `int(color_hex[k:k+2], 16)` on two hex digits is their byte value, below 256 |
| TextStyle.SixDigitColor | src/mcp_google_workspace/server.py:504-507 | `#rrggbb` parses to its three bytes, each in 0..255 |
| TextStyle.ShorthandColorRejected | src/mcp_google_workspace/server.py:504-507 | A three-digit `#rgb` colour does not parse: its third slice is empty |
| TextStyle.PartRank | src/mcp_google_workspace/server.py:479-514 | Each block adds only an entry under its own key |
| TextStyle.UptoProperties | src/mcp_google_workspace/server.py:479-514 | After the first n blocks, the keys are in the fixed insertion order. Exactly the requested entries of the first n keys are present |
| TextStyle.UptoEmptyIff | src/mcp_google_workspace/server.py:516 | The dictionary is empty exactly when no style argument was given |
| TextStyle.LabelsSnoc | src/mcp_google_workspace/server.py:479-514 | Appending an entry to `text_style` and its label to `applied_styles` keeps the labels one per key, in the same order |
| TextStyle.BlockStep | src/mcp_google_workspace/server.py:482-514 | One `if ... is not None:` block appends the entry of its rank and that entry's label, carrying the dictionary from the first k blocks to the first k+1 |
| TextStyle.BoldBlock | src/mcp_google_workspace/server.py:482-484 | The `bold` block on the empty dictionary and list leaves the first block's dictionary and its labels |
| TextStyle.ItalicBlock | src/mcp_google_workspace/server.py:486-488 | The `italic` block carries the dictionary and labels of the first block to those of the first two |
| TextStyle.UnderlineBlock | src/mcp_google_workspace/server.py:490-492 | The `underline` block carries the first two blocks' dictionary and labels to the first three's |
| TextStyle.FontSizeBlock | src/mcp_google_workspace/server.py:494-496 | The `font_size` block carries the first three blocks' dictionary and labels to the first four's |
| TextStyle.FontFamilyBlock | src/mcp_google_workspace/server.py:498-500 | The `font_family` block carries the first four blocks' dictionary and labels to the first five's |
| TextStyle.ColorGiven | src/mcp_google_workspace/server.py:502-514 | A colour that parsed adds its bytes and echoes the colour string as its label, completing the payload |
| TextStyle.ColorAbsent | src/mcp_google_workspace/server.py:502 | Without a colour the last block adds nothing, and the dictionary is already the whole payload |
| TextStyle.PayloadProperties | src/mcp_google_workspace/server.py:479-516 | The payload is key-ordered and holds exactly the requested entries; it is empty exactly when nothing was given |
| TextStyle.ParseHexColor | src/mcp_google_workspace/server.py:504-507 | A colour that parses has three components, each in -15..255 (one sign and one digit, or up to two digits) |
| TextStyle.StripIntSpaceShorter | src/mcp_google_workspace/server.py:505-507 | Stripping the characters `int(s, 16)` skips never lengthens the slice |
| TextStyle.HexValueBelow | src/mcp_google_workspace/server.py:505-507 | One hex digit is worth at most 15, two at most 255 |
| TextStyle.HexSliceRange | src/mcp_google_workspace/server.py:505-507 | `int(color_hex[k:k+2], 16)` lies in -15..255 when it parses |
| TextStyle.SeparatorNotSkipped | src/mcp_google_workspace/server.py:505-507 | `int` skips a space but not U+001C, though `str.isspace()` holds for both, so a colour padded with U+001C is rejected |
| TextStyle.AddForegroundColor | src/mcp_google_workspace/server.py:502-514 | Raises exactly when the given colour does not parse; otherwise completes the payload and its labels from the first five blocks |
| TextStyle.BuildTextStyle | src/mcp_google_workspace/server.py:479-514 | It raises exactly when a given colour does not parse. Otherwise it yields the payload and the label of each key, in order |
| TextStyle.FieldsMatchKeys | src/mcp_google_workspace/server.py:526 | The `fields` mask, split at commas, is exactly the list of the payload's keys |
| TextStyle.KeysHaveNoComma | src/mcp_google_workspace/server.py:526 | No key of the payload contains a comma |
| TextStyle.DistinctRanksDistinctKeys | src/mcp_google_workspace/server.py:479-514 | Entries under different keys have different key names |
| TextStyle.KeysDistinct | src/mcp_google_workspace/server.py:479-514 | A key-ordered payload names no key twice |
| TextStyle.HeadHasLowestRank | src/mcp_google_workspace/server.py:479-514 | In a key-ordered payload the first entry has the lowest key rank, and it is the only entry of that rank |
| TextStyle.TailAboveHead | src/mcp_google_workspace/server.py:479-514 | In a key-ordered payload the entries after the first are exactly the entries whose key comes later than the first one's |
| TextStyle.StyleDeterminedByEntries | src/mcp_google_workspace/server.py:479-514 | Two key-ordered payloads with the same entries are equal |
| Docs.ConcatSnoc | src/mcp_google_workspace/server.py:264-270 | One more element or run adds its text at the end |
| Docs.ConcatAppend | src/mcp_google_workspace/server.py:264-270 | The text of a body (or of a paragraph's runs) split in two is the two texts joined |
| Docs.SkippedElement | src/mcp_google_workspace/server.py:266-267 | An element that is not a paragraph with elements adds nothing to the text |
| Docs.ExtractText | src/mcp_google_workspace/server.py:264-270 | The nested loops collect exactly `DocumentText`: every text run's content, in document order |
| Docs.TruncationNoteRoundTrip | src/mcp_google_workspace/server.py:278 | The truncation note reads back as the full length of the text |
| Docs.RenderText | src/mcp_google_workspace/server.py:272-280 | A blank text gives the empty-document reply, and any other text the rendered reply. In the rendered reply the header comes first, then the whole text if at most 4000 characters. A longer text gives its first 4000 characters and then a note of its full length |
| Docs.ReadFieldMask | src/mcp_google_workspace/server.py:244-252 | The whole document for `json` and `markdown`; only the text runs for any other format |
| Docs.ReadError | src/mcp_google_workspace/server.py:282-288 | HTTP 404 maps to not-found, HTTP 403 to access-denied, and everything else to a read failure carrying its cause |
| Docs.ReadGoogleDoc | src/mcp_google_workspace/server.py:221-288 | The guard, then one `documents().get`, then the JSON dump, the markdown failure (a read failure), or the rendered extracted text |
| Docs.AppendIndex | src/mcp_google_workspace/server.py:320-324 | The append index is one less than the last element's `endIndex`, and 1 when a key is missing. An empty content list raises `IndexError` |
| Docs.TextToInsert | src/mcp_google_workspace/server.py:327-329 | The inserted text ends with the given text. It is one character longer, a leading newline, exactly when a newline was asked for and the index is past 1 |
| Docs.AppendToGoogleDoc | src/mcp_google_workspace/server.py:290-350 | It reads the end index, then sends one `insertText` there unless there is nothing to insert. Every failure becomes an append failure |
| Docs.AppendInsertsAtEnd | src/mcp_google_workspace/server.py:320-342 | When an update is sent, it is one `insertText` at the computed end index. Its text ends with the given text and differs from it exactly by the requested newline |
| Docs.InsertTextAt | src/mcp_google_workspace/server.py:352-391 | The guard, then one `insertText` at the unchecked index; success exactly when the API accepts |
| Docs.DeleteRange | src/mcp_google_workspace/server.py:393-437 | An empty or reversed range is refused before any call. Otherwise one `deleteContentRange` is sent; success exactly when the API accepts |
| Docs.InsertTableAt | src/mcp_google_workspace/server.py:540-582 | The guard, then one `insertTable` with the given rows, columns and index; success exactly when the API accepts |
| Docs.InsertPageBreakAt | src/mcp_google_workspace/server.py:584-620 | The guard, then one `insertPageBreak` at the index; success exactly when the API accepts |
| Docs.ApplyTextFormatting | src/mcp_google_workspace/server.py:439-538 | Steps in order: guard, range check, colour check, no-style reply. A request is sent only when all four pass. Then one `updateTextStyle` is sent whose `fields` mask splits into exactly its key-ordered, non-empty `textStyle` keys |

## Left out

- The Google API clients and `build(...)` are not modelled. Each call's answer is a
  parameter of the tool (`Result<answer, ApiFailure>`, or `Ack` for `batchUpdate`). The
  service build is one flag of the environment.
- The interactive browser flow, the refresh exchange, file existence, file reads and writes,
  and base64/JSON decoding are not modelled. Each is an input flag of `GoogleAuth.Env` or the
  contents of `TokenFile`. A token is abstracted to three flags: has an access token, is
  expired, has a refresh token. Of the token file's JSON serialisation only one effect is
  modelled: a token without a refresh token does not read back (`GoogleAuth.Stored`).
- GoogleAuth.GetAuthenticatedServices: a failed token write leaves the file as it was. The
  code opens the file with `'w'` first, so a failed write can leave it truncated.
- `workspace_lifespan`, the `FastMCP` registration, `main` and the package `__init__` are not
  modelled. They only run the server and pass the context along.
- The `print` diagnostics and the wording of messages are not modelled. Each message is a
  constructor of `ToolError`, `ReadReply` or `DocsReply` with the values it reports.
- `json.dumps` in `read_google_doc` is not modelled. `JsonDump` carries the document itself.
- The `/ 255.0` of the colour components is not modelled (floating point). The model keeps
  the parsed integers.
- TextStyle.ParseHexSlice: only ASCII hex digits are accepted. Python's `int(s, 16)` also
  accepts other Unicode decimal digits. (The whitespace `int` skips is modelled exactly.)
- Cell values and the answer of `values().update` are opaque JSON text.
- A Drive query is built by plain interpolation. A query text or folder id holding `'`
  yields a different query, and the model does not interpret query syntax.
- GoogleAuth.SecondRunReusesWrittenToken: no time passes between the two runs. The written
  token keeps its `expired` flag, so a token that expires in between is not covered.
- Workspace.GetWorkspaceInfo and the other tools take the context as present or absent. Every
  shape of a missing `request_context` or `lifespan_context` leads them to the same outcome as
  an absent one. Only `simple_context_test` tells the shapes apart (`ProbeContext`).
- Concurrency and timeouts are out of scope. The model describes one tool invocation at a
  time.
