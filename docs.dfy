/**
 * The Docs tools of src/mcp_google_workspace/server.py: `read_google_doc`,
 * `append_to_google_doc`, `insert_text`, `delete_range`, `apply_text_formatting`,
 * `insert_table` and `insert_page_break`. Each starts with the same guard on the context and
 * rewords every exception it catches into a message of its own.
 */
module Docs {
  import opened Wrappers
  import opened PyStr
  import opened Api
  import opened TextStyle

  // ---- The parts of a Docs `Document` the tools read; every key may be absent ----

  datatype TextRun = TextRun(content: Option<string>)
  datatype ParagraphElement = ParagraphElement(textRun: Option<TextRun>)
  datatype Paragraph = Paragraph(elements: Option<seq<ParagraphElement>>)
  datatype StructuralElement = StructuralElement(paragraph: Option<Paragraph>, endIndex: Option<int>)
  datatype Body = Body(content: Option<seq<StructuralElement>>)
  datatype Document = Document(body: Option<Body>)

  /** What `read_google_doc` returns. */
  datatype ReadReply =
    | Rendered(shown: string)          // the `내용:` text reply
    | EmptyDocument                    // the document holds only whitespace
    | JsonDump(document: Document)     // `json.dumps` of the whole document

  /** What the other Docs tools return; message wording is not modelled, only what it reports. */
  datatype DocsReply =
    | Appended(documentId: string)
    | NothingToAppend
    | TextInserted(index: int)
    | RangeDeleted(startIndex: int, endIndex: int)
    | StyleApplied(startIndex: int, endIndex: int, applied: seq<StyleLabel>)
    | NoStyleGiven
    | TableInserted(index: int, rows: int, columns: int)
    | PageBreakInserted(index: int)

  // ---- Text extraction ----

  /** `pe['textRun']['content']` when both keys are there, nothing otherwise. */
  function RunText(pe: ParagraphElement): string {
    if pe.textRun.Some? && pe.textRun.value.content.Some? then pe.textRun.value.content.value else ""
  }

  /** The texts `f` gives the items of `s`, concatenated in order. */
  function Concat<T>(f: T -> string, s: seq<T>): string {
    if s == [] then "" else Concat(f, s[..|s| - 1]) + f(s[|s| - 1])
  }

  /** One more item adds its text at the end. */
  lemma ConcatSnoc<T>(f: T -> string, s: seq<T>, x: T)
    ensures Concat(f, s + [x]) == Concat(f, s) + f(x)
  {
    assert (s + [x])[..|s|] == s;
  }

  /** Concatenation distributes over `+`: the text of two runs of items is the two texts joined. */
  lemma {:induction false} ConcatAppend<T>(f: T -> string, a: seq<T>, b: seq<T>)
    ensures Concat(f, a + b) == Concat(f, a) + Concat(f, b)
    decreases |b|
  {
    if b == [] {
      assert a + b == a;
    } else {
      var b', last := b[..|b| - 1], b[|b| - 1];
      calc {
        Concat(f, a + b);
        { assert a + b == (a + b') + [last]; }
        Concat(f, (a + b') + [last]);
        { ConcatSnoc(f, a + b', last); }
        Concat(f, a + b') + f(last);
        { ConcatAppend(f, a, b'); }
        Concat(f, a) + Concat(f, b') + f(last);
        { assert b == b' + [last]; ConcatSnoc(f, b', last); }
        Concat(f, a) + Concat(f, b);
      }
    }
  }

  /** The text of one structural element: its paragraph's runs, or nothing when it is not a paragraph. */
  function ElementText(element: StructuralElement): string {
    if element.paragraph.Some? && element.paragraph.value.elements.Some?
    then Concat(RunText, element.paragraph.value.elements.value)
    else ""
  }

  /** The text `read_google_doc` collects from a document: every element's text, in order. */
  function DocumentText(doc: Document): string {
    if doc.body.Some? && doc.body.value.content.Some? then Concat(ElementText, doc.body.value.content.value) else ""
  }

  /** An element that is not a paragraph with elements (a table, a section break) adds nothing to the text. */
  lemma SkippedElement(a: seq<StructuralElement>, element: StructuralElement, b: seq<StructuralElement>)
    requires element.paragraph.None? || element.paragraph.value.elements.None?
    ensures Concat(ElementText, a + [element] + b) == Concat(ElementText, a + b)
  {
    ConcatAppend(ElementText, a + [element], b);
    ConcatSnoc(ElementText, a, element);
    ConcatAppend(ElementText, a, b);
  }

  /** The nested loops of `read_google_doc` (lines 264-270) that collect the text runs. */
  method ExtractText(doc: Document) returns (text: string)
    ensures text == DocumentText(doc)
  {
    text := "";
    if doc.body.Some? && doc.body.value.content.Some? {
      var content := doc.body.value.content.value;
      for i := 0 to |content|
        invariant text == Concat(ElementText, content[..i])
      {
        var element := content[i];
        if element.paragraph.Some? && element.paragraph.value.elements.Some? {
          var pes := element.paragraph.value.elements.value;
          ghost var before := text;
          for j := 0 to |pes|
            invariant text == before + Concat(RunText, pes[..j])
          {
            var pe := pes[j];
            if pe.textRun.Some? && pe.textRun.value.content.Some? {
              text := text + pe.textRun.value.content.value;
            }
            assert pes[..j + 1] == pes[..j] + [pe];
            ConcatSnoc(RunText, pes[..j], pe);
          }
          assert pes[..|pes|] == pes;
        }
        assert content[..i + 1] == content[..i] + [element];
        ConcatSnoc(ElementText, content[..i], element);
      }
      assert content[..|content|] == content;
    }
  }

  // ---- Rendering the text ----

  const MaxLength: nat := 4000
  const TextFieldMask: string := "body(content(paragraph(elements(textRun(content)))))"
  const ContentHeader: string := "내용:\n---\n"
  const NoteOpen: string := "... [잘림 "
  const NoteClose: string := " 글자]"

  /** `f"... [잘림 {n} 글자]"` */
  function TruncationNote(n: nat): string {
    NoteOpen + NatToString(n) + NoteClose
  }

  /** The length a truncation note reports, read back from its text. */
  function NoteLength(note: string): Option<nat> {
    if |note| >= |NoteOpen| + |NoteClose|
       && note[..|NoteOpen|] == NoteOpen
       && note[|note| - |NoteClose|..] == NoteClose
       && IsDigits(note[|NoteOpen|..|note| - |NoteClose|])
    then Some(ParseNat(note[|NoteOpen|..|note| - |NoteClose|]))
    else None
  }

  /** The note reports the full length of the text it follows. */
  lemma TruncationNoteRoundTrip(n: nat)
    ensures NoteLength(TruncationNote(n)) == Some(n)
  {
    var digits := NatToString(n);
    NatToStringRoundTrip(n);
    var note := TruncationNote(n);
    assert note[..|NoteOpen|] == NoteOpen;
    assert note[|note| - |NoteClose|..] == NoteClose;
    assert note[|NoteOpen|..|note| - |NoteClose|] == digits;
  }

  /**
   * Lines 272-280: a blank text is reported as an empty document; otherwise the header is
   * followed by the text, cut after 4000 characters and then followed by a note of its length.
   */
  function RenderText(text: string): (r: ReadReply)
    ensures r == EmptyDocument <==> IsBlank(text)
    ensures r.Rendered? <==> !IsBlank(text)
    ensures r.Rendered? ==> |r.shown| >= |ContentHeader| && r.shown[..|ContentHeader|] == ContentHeader
    ensures r.Rendered? && |text| <= MaxLength ==> r.shown[|ContentHeader|..] == text
    ensures r.Rendered? && |text| > MaxLength ==>
      |r.shown| >= |ContentHeader| + MaxLength
      && r.shown[|ContentHeader|..|ContentHeader| + MaxLength] == text[..MaxLength]
      && NoteLength(r.shown[|ContentHeader| + MaxLength..]) == Some(|text|)
    ensures r.Rendered? ==> |r.shown| <= |ContentHeader| + MaxLength + |TruncationNote(|text|)|
  {
    StripEmptyIffBlank(text);
    if Strip(text) == "" then EmptyDocument
    else if |text| > MaxLength then
      var shown := ContentHeader + text[..MaxLength] + TruncationNote(|text|);
      TruncationNoteRoundTrip(|text|);
      assert shown[|ContentHeader|..|ContentHeader| + MaxLength] == text[..MaxLength];
      assert shown[|ContentHeader| + MaxLength..] == TruncationNote(|text|);
      Rendered(shown)
    else
      Rendered(ContentHeader + text)
  }

  // ---- read_google_doc ----

  /** The whole document for `'json'` and `'markdown'`, only the text runs for any other format. */
  function ReadFieldMask(format: string): (mask: Option<string>)
    ensures mask.None? <==> format == "json" || format == "markdown"
    ensures mask.Some? ==> mask.value == TextFieldMask
  {
    if format == "json" || format == "markdown" then None else Some(TextFieldMask)
  }

  /** Lines 282-288: status 404 and 403 of an HTTP error get their own messages; anything else is a read failure. */
  function ReadError(documentId: string, cause: Cause): (err: ToolError)
    ensures err == DocNotFound(documentId) <==> cause.ApiCall? && cause.failure.HttpError? && cause.failure.status == 404
    ensures err == DocAccessDenied(documentId) <==> cause.ApiCall? && cause.failure.HttpError? && cause.failure.status == 403
    ensures err.ReadFailed? <==> !(cause.ApiCall? && cause.failure.HttpError? && cause.failure.status in {403, 404})
    ensures err.ReadFailed? ==> err.cause == cause
  {
    match cause
    case ApiCall(HttpError(status, _)) =>
      if status == 404 then DocNotFound(documentId)
      else if status == 403 then DocAccessDenied(documentId)
      else ReadFailed(cause)
    case _ => ReadFailed(cause)
  }

  /**
   * `read_google_doc` (lines 221-288): one `documents().get`, then a JSON dump, the unimplemented
   * markdown path, or the extracted text rendered.
   */
  method ReadGoogleDoc(ctx: ToolContext, documentId: string, format: string, fetched: Result<Document, ApiFailure>)
    returns (e: Exchange<ReadReply>)
    ensures ctx.None? ==> e == Exchange([], Err(ContextNotInitialized))
    ensures ctx.Some? ==> e.calls == [DocumentsGet(documentId, ReadFieldMask(format))]
    ensures ctx.Some? && fetched.Err? ==> e.result == Err(ReadError(documentId, ApiCall(fetched.error)))
    ensures ctx.Some? && fetched.Ok? && format == "json" ==> e.result == Ok(JsonDump(fetched.value))
    ensures ctx.Some? && fetched.Ok? && format == "markdown" ==> e.result == Err(ReadFailed(MarkdownNotImplemented))
    ensures ctx.Some? && fetched.Ok? && format != "json" && format != "markdown" ==>
      e.result == Ok(RenderText(DocumentText(fetched.value)))
  {
    if ctx.None? {
      return Exchange([], Err(ContextNotInitialized));
    }
    var calls := [DocumentsGet(documentId, ReadFieldMask(format))];
    if fetched.Err? {
      return Exchange(calls, Err(ReadError(documentId, ApiCall(fetched.error))));
    }
    var result := fetched.value;
    if format == "json" {
      return Exchange(calls, Ok(JsonDump(result)));
    }
    if format == "markdown" {
      return Exchange(calls, Err(ReadError(documentId, MarkdownNotImplemented)));
    }
    var text := ExtractText(result);
    return Exchange(calls, Ok(RenderText(text)));
  }

  // ---- append_to_google_doc ----

  const EndIndexFieldMask: string := "body(content(endIndex))"

  /**
   * Lines 320-324: one before the `endIndex` of the last element, 1 when the body, its content
   * or that `endIndex` is missing; an empty content list raises `IndexError`.
   */
  function AppendIndex(doc: Document): (r: Result<int, Cause>)
    ensures r.Err? <==> doc.body.Some? && doc.body.value.content == Some([])
    ensures r.Err? ==> r.error == EmptyContentList
    ensures r.Ok? && doc.body.Some? && doc.body.value.content.Some?
            && doc.body.value.content.value[|doc.body.value.content.value| - 1].endIndex.Some? ==>
      r.value == doc.body.value.content.value[|doc.body.value.content.value| - 1].endIndex.value - 1
    ensures r.Ok? && !(doc.body.Some? && doc.body.value.content.Some?
            && doc.body.value.content.value[|doc.body.value.content.value| - 1].endIndex.Some?) ==>
      r.value == 1
  {
    if doc.body.Some? && doc.body.value.content.Some? then
      var content := doc.body.value.content.value;
      if content == [] then Err(EmptyContentList)
      else
        var last := content[|content| - 1];
        if last.endIndex.Some? then Ok(last.endIndex.value - 1) else Ok(1)
    else Ok(1)
  }

  /** Lines 327-329: a newline is put in front only when asked for and the document is not empty (the index is past 1). */
  function TextToInsert(text: string, addNewline: bool, endIndex: int): (t: string)
    ensures |t| >= |text| && t[|t| - |text|..] == text
    ensures |t| == |text| + 1 <==> addNewline && endIndex > 1
    ensures |t| > |text| ==> t[0] == '\n'
    ensures t == text || t == "\n" + text
  {
    if addNewline && endIndex > 1 then "\n" + text else text
  }

  /** `append_to_google_doc` (lines 290-350): read the end index, then insert there unless there is nothing to insert. */
  function AppendToGoogleDoc(ctx: ToolContext, documentId: string, text: string, addNewline: bool,
                             fetched: Result<Document, ApiFailure>, ack: Ack): (e: Exchange<DocsReply>)
    ensures ctx.None? ==> e == Exchange([], Err(ContextNotInitialized))
    ensures ctx.Some? ==> |e.calls| >= 1 && e.calls[0] == DocumentsGet(documentId, Some(EndIndexFieldMask))
    ensures ctx.Some? && fetched.Err? ==> e == Exchange(e.calls[..1], Err(AppendFailed(ApiCall(fetched.error))))
    ensures ctx.Some? && fetched.Ok? && AppendIndex(fetched.value).Err? ==>
      e == Exchange(e.calls[..1], Err(AppendFailed(EmptyContentList)))
    ensures ctx.Some? && fetched.Ok? && AppendIndex(fetched.value).Ok? ==>
      var index := AppendIndex(fetched.value).value;
      var t := TextToInsert(text, addNewline, index);
      (e.result == Ok(NothingToAppend) <==> t == "")
      && (t == "" ==> |e.calls| == 1)
      && (t != "" ==> e.calls == [e.calls[0], BatchUpdate(documentId, [InsertText(index, t)])]
                      && e.result == match ack
                        case Accepted => Ok(Appended(documentId))
                        case Rejected(f) => Err(AppendFailed(ApiCall(f))))
  {
    if ctx.None? then Exchange([], Err(ContextNotInitialized))
    else
      var get := DocumentsGet(documentId, Some(EndIndexFieldMask));
      match fetched
      case Err(f) => Exchange([get], Err(AppendFailed(ApiCall(f))))
      case Ok(doc) =>
        match AppendIndex(doc)
        case Err(c) => Exchange([get], Err(AppendFailed(c)))
        case Ok(index) =>
          var t := TextToInsert(text, addNewline, index);
          if t == "" then Exchange([get], Ok(NothingToAppend))
          else
            var calls := [get, BatchUpdate(documentId, [InsertText(index, t)])];
            match ack
            case Accepted => Exchange(calls, Ok(Appended(documentId)))
            case Rejected(f) => Exchange(calls, Err(AppendFailed(ApiCall(f))))
  }

  /**
   * Appending only ever inserts at the document's end and never drops the given text: the
   * inserted string ends with it and starts with a newline exactly when one was asked for and
   * the document had content. An empty text is still sent when a newline is added.
   */
  lemma AppendInsertsAtEnd(ctx: ToolContext, documentId: string, text: string, addNewline: bool,
                           fetched: Result<Document, ApiFailure>, ack: Ack)
    requires |AppendToGoogleDoc(ctx, documentId, text, addNewline, fetched, ack).calls| == 2
    ensures fetched.Ok? && AppendIndex(fetched.value).Ok?
    ensures var call := AppendToGoogleDoc(ctx, documentId, text, addNewline, fetched, ack).calls[1];
      var index := AppendIndex(fetched.value).value;
      call.BatchUpdate? && call.documentId == documentId && |call.requests| == 1
      && call.requests[0].InsertText? && call.requests[0].index == index
      && var t := call.requests[0].text;
      |t| >= |text| && t[|t| - |text|..] == text
      && (t != text <==> addNewline && index > 1)
  {
    var index := AppendIndex(fetched.value).value;
    var t := TextToInsert(text, addNewline, index);
    assert t != text <==> |t| == |text| + 1;
  }

  // ---- Single-request edits ----

  /** The outcome of a tool whose only call is one `batchUpdate` with `requests`. */
  function SingleUpdate(documentId: string, requests: seq<DocsRequest>, ack: Ack, reply: DocsReply,
                        failed: Cause -> ToolError): (e: Exchange<DocsReply>)
    ensures e.calls == [BatchUpdate(documentId, requests)]
    ensures ack == Accepted <==> e.result == Ok(reply)
    ensures ack.Rejected? ==> e.result == Err(failed(ApiCall(ack.failure)))
  {
    var calls := [BatchUpdate(documentId, requests)];
    match ack
    case Accepted => Exchange(calls, Ok(reply))
    case Rejected(f) => Exchange(calls, Err(failed(ApiCall(f))))
  }

  /** `insert_text` (lines 352-391): one `insertText` at the given index, which is not checked. */
  function InsertTextAt(ctx: ToolContext, documentId: string, text: string, index: int, ack: Ack): (e: Exchange<DocsReply>)
    ensures ctx.None? ==> e == Exchange([], Err(ContextNotInitialized))
    ensures ctx.Some? ==> e.calls == [BatchUpdate(documentId, [InsertText(index, text)])]
    ensures ctx.Some? ==> (e.result.Ok? <==> ack == Accepted)
    ensures ctx.Some? && e.result.Ok? ==> e.result.value == TextInserted(index)
    ensures ctx.Some? && ack.Rejected? ==> e.result == Err(InsertFailed(ApiCall(ack.failure)))
  {
    if ctx.None? then Exchange([], Err(ContextNotInitialized))
    else SingleUpdate(documentId, [InsertText(index, text)], ack, TextInserted(index), c => InsertFailed(c))
  }

  /** `delete_range` (lines 393-437): an empty or reversed range is refused before any call. */
  function DeleteRange(ctx: ToolContext, documentId: string, startIndex: int, endIndex: int, ack: Ack): (e: Exchange<DocsReply>)
    ensures ctx.None? ==> e == Exchange([], Err(ContextNotInitialized))
    ensures ctx.Some? ==> (e.result == Err(InvalidIndexRange) <==> endIndex <= startIndex)
    ensures ctx.Some? ==> (e.calls == [] <==> endIndex <= startIndex)
    ensures ctx.Some? && startIndex < endIndex ==>
      e.calls == [BatchUpdate(documentId, [DeleteContentRange(startIndex, endIndex)])]
      && (e.result.Ok? <==> ack == Accepted)
      && (e.result.Ok? ==> e.result.value == RangeDeleted(startIndex, endIndex))
      && (ack.Rejected? ==> e.result == Err(DeleteFailed(ApiCall(ack.failure))))
  {
    if ctx.None? then Exchange([], Err(ContextNotInitialized))
    else if endIndex <= startIndex then Exchange([], Err(InvalidIndexRange))
    else SingleUpdate(documentId, [DeleteContentRange(startIndex, endIndex)], ack, RangeDeleted(startIndex, endIndex), c => DeleteFailed(c))
  }

  /** `insert_table` (lines 540-582): one `insertTable`; rows, columns and index are passed on unchecked. */
  function InsertTableAt(ctx: ToolContext, documentId: string, rows: int, columns: int, index: int, ack: Ack): (e: Exchange<DocsReply>)
    ensures ctx.None? ==> e == Exchange([], Err(ContextNotInitialized))
    ensures ctx.Some? ==> e.calls == [BatchUpdate(documentId, [InsertTable(index, rows, columns)])]
    ensures ctx.Some? ==> (e.result.Ok? <==> ack == Accepted)
    ensures ctx.Some? && e.result.Ok? ==> e.result.value == TableInserted(index, rows, columns)
    ensures ctx.Some? && ack.Rejected? ==> e.result == Err(TableFailed(ApiCall(ack.failure)))
  {
    if ctx.None? then Exchange([], Err(ContextNotInitialized))
    else SingleUpdate(documentId, [InsertTable(index, rows, columns)], ack, TableInserted(index, rows, columns), c => TableFailed(c))
  }

  /** `insert_page_break` (lines 584-620): one `insertPageBreak` at the given index. */
  function InsertPageBreakAt(ctx: ToolContext, documentId: string, index: int, ack: Ack): (e: Exchange<DocsReply>)
    ensures ctx.None? ==> e == Exchange([], Err(ContextNotInitialized))
    ensures ctx.Some? ==> e.calls == [BatchUpdate(documentId, [InsertPageBreak(index)])]
    ensures ctx.Some? ==> (e.result.Ok? <==> ack == Accepted)
    ensures ctx.Some? && e.result.Ok? ==> e.result.value == PageBreakInserted(index)
    ensures ctx.Some? && ack.Rejected? ==> e.result == Err(PageBreakFailed(ApiCall(ack.failure)))
  {
    if ctx.None? then Exchange([], Err(ContextNotInitialized))
    else SingleUpdate(documentId, [InsertPageBreak(index)], ack, PageBreakInserted(index), c => PageBreakFailed(c))
  }

  // ---- apply_text_formatting ----

  /**
   * `apply_text_formatting` (lines 439-538): the guard, the range check, then the style built
   * key by key; a bad colour fails before any call, no style answers without a call, and
   * otherwise one `updateTextStyle` whose `fields` mask lists exactly the keys of its `textStyle`.
   */
  method ApplyTextFormatting(ctx: ToolContext, documentId: string, startIndex: int, endIndex: int,
                             args: StyleArgs, ack: Ack) returns (e: Exchange<DocsReply>)
    ensures ctx.None? ==> e == Exchange([], Err(ContextNotInitialized))
    ensures ctx.Some? && endIndex <= startIndex ==> e == Exchange([], Err(InvalidIndexRange))
    ensures ctx.Some? && startIndex < endIndex ==>
      (e.result == Err(FormatFailed(InvalidHexColor(args.foregroundColor.GetOr("")))) <==> !ColorParses(args))
    ensures ctx.Some? && startIndex < endIndex && ColorParses(args) ==>
      (e.result == Ok(NoStyleGiven) <==> NoneGiven(args))
    ensures ctx.Some? && startIndex < endIndex && ColorParses(args) && !NoneGiven(args) ==>
      e.calls == [BatchUpdate(documentId, [UpdateTextStyle(startIndex, endIndex, Payload(args), Fields(Payload(args)))])]
      && (e.result.Ok? <==> ack == Accepted)
      && (e.result.Ok? ==> e.result.value == StyleApplied(startIndex, endIndex, Labels(Payload(args), args.foregroundColor.GetOr(""))))
      && (ack.Rejected? ==> e.result == Err(FormatFailed(ApiCall(ack.failure))))
    ensures e.calls != [] ==> ctx.Some? && startIndex < endIndex && ColorParses(args) && !NoneGiven(args)
    ensures e.calls != [] ==>
      |e.calls| == 1 && e.calls[0].BatchUpdate? && |e.calls[0].requests| == 1 && e.calls[0].requests[0].UpdateTextStyle?
      && var request := e.calls[0].requests[0];
      request.textStyle != [] && InKeyOrder(request.textStyle)
      && Split(request.fields, ',') == Keys(request.textStyle)
  {
    if ctx.None? {
      return Exchange([], Err(ContextNotInitialized));
    }
    if endIndex <= startIndex {
      return Exchange([], Err(InvalidIndexRange));
    }
    var built := BuildTextStyle(args);
    if built.Err? {
      return Exchange([], Err(FormatFailed(built.error)));
    }
    var textStyle := built.value.textStyle;
    PayloadProperties(args);
    if textStyle == [] {
      return Exchange([], Ok(NoStyleGiven));
    }
    FieldsMatchKeys(textStyle);
    var request := UpdateTextStyle(startIndex, endIndex, textStyle, Fields(textStyle));
    var calls := [BatchUpdate(documentId, [request])];
    match ack
    case Accepted =>
      return Exchange(calls, Ok(StyleApplied(startIndex, endIndex, built.value.applied)));
    case Rejected(f) =>
      return Exchange(calls, Err(FormatFailed(ApiCall(f))));
  }
}
