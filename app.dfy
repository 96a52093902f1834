/**
 * `App.tsx`: the session controller. The staged-file list and the result slots are the
 * fields of `Session`; its handlers change them as the React state setters do, one handler
 * at a time. MIME resolution, the e-mail expansion policy and the news-error texts are
 * functions; `processAndFlattenFiles` is a loop proved against the expansion function.
 */
module App {
  import opened Wrappers
  import opened Js
  import opened Types
  import Gemini

  // ---------------------------------------------------------------------------
  // Files

  /** The bytes of a `File`, or text derived from them. */
  datatype Content =
    | Bytes(data: seq<bv8>)
    | Utf8(text: string)          // a file built from a string
    | TextOf(original: Content)   // what `file.text()` decodes from `original`

  /** A browser `File`: its name, its declared MIME type (possibly empty), its content. */
  datatype File = File(name: string, fileType: string, content: Content)

  const OctetStream := "application/octet-stream"
  const TextPlain := "text/plain"
  const PdfMime := "application/pdf"
  const DocxMime := "application/vnd.openxmlformats-officedocument.wordprocessingml.document"
  const EmlMime := "message/rfc822"
  const MsgMime := "application/vnd.ms-outlook"

  /** `name.split('.').pop()`: the text after the last dot, or the whole name without one. */
  function AfterLastDot(name: string): (r: string)
    ensures |r| <= |name| && r == name[|name| - |r|..]
    ensures |r| < |name| ==> name[|name| - |r| - 1] == '.'
  {
    if name == [] then []
    else if name[|name| - 1] == '.' then []
    else AfterLastDot(name[..|name| - 1]) + [name[|name| - 1]]
  }

  /** The extension holds no dot: it is the text after the last one. */
  lemma {:induction false} AfterLastDotHasNoDot(name: string, i: int)
    requires 0 <= i < |AfterLastDot(name)|
    ensures AfterLastDot(name)[i] != '.'
  {
    var init := name[..|name| - 1];
    if i < |AfterLastDot(name)| - 1 {
      AfterLastDotHasNoDot(init, i);
    }
  }

  /** `name.split('.').pop()?.toLowerCase()`. */
  function Extension(name: string): string {
    ToLower(AfterLastDot(name))
  }

  predicate KnownExtension(ext: string) {
    ext in {"pdf", "docx", "eml", "msg", "txt"}
  }

  /** The `switch` of `getMimeType`. */
  function MimeForExtension(ext: string): (r: string)
    ensures r != ""
    ensures r == OctetStream <==> !KnownExtension(ext)
  {
    match ext
    case "pdf" => PdfMime
    case "docx" => DocxMime
    case "eml" => EmlMime
    case "msg" => MsgMime
    case "txt" => TextPlain
    case _ => OctetStream
  }

  /** `getMimeType`: the declared type unless it is empty or generic, else by extension. */
  function GetMimeType(f: File): (r: string)
    ensures r != ""
    ensures f.fileType != "" && f.fileType != OctetStream ==> r == f.fileType
    ensures f.fileType == "" || f.fileType == OctetStream ==> r == MimeForExtension(Extension(f.name))
  {
    if f.fileType != "" && f.fileType != OctetStream then f.fileType
    else MimeForExtension(Extension(f.name))
  }

  /** The MIME type `handleSubmit` finally sends for `f`. */
  function FinalMimeType(f: File): (r: string)
    // Only the generic type is looked up again; any other declared type is kept as is.
    ensures f.fileType != OctetStream ==> r == f.fileType
    ensures f.fileType == OctetStream ==> r == MimeForExtension(Extension(f.name))
    // So the result is empty exactly when the declared type is.
    ensures r == "" <==> f.fileType == ""
  {
    if f.fileType != OctetStream then f.fileType else GetMimeType(f)
  }

  const UnsupportedFilePrefix := "Unsupported file type. Could not determine MIME type for \""

  function UnsupportedFileError(name: string): Thrown {
    ErrorInstance("Error", UnsupportedFilePrefix + name + "\".")
  }

  /** The index of the first file with an empty declared type, if any. */
  function FirstUntyped(files: seq<File>): (r: Option<nat>)
    ensures r.None? <==> forall i :: 0 <= i < |files| ==> files[i].fileType != ""
    ensures r.Some? ==> r.value < |files| && files[r.value].fileType == ""
    ensures r.Some? ==> forall j :: 0 <= j < r.value ==> files[j].fileType != ""
  {
    if files == [] then None
    else if files[0].fileType == "" then Some(0)
    else match FirstUntyped(files[1..])
      case None => None
      case Some(i) => Some(i + 1)
  }

  /** The final MIME type of every file, in order. */
  function MimeTypes(files: seq<File>): (r: seq<string>)
    ensures |r| == |files|
  {
    if files == [] then [] else [FinalMimeType(files[0])] + MimeTypes(files[1..])
  }

  /** Each file is sent with its own final MIME type. */
  lemma {:induction false} MimeTypesAt(files: seq<File>, i: int)
    requires 0 <= i < |files|
    ensures MimeTypes(files)[i] == FinalMimeType(files[i])
  {
    if i > 0 {
      MimeTypesAt(files[1..], i - 1);
    }
  }

  /**
   * The MIME types of all files to analyse, or the "unsupported" error for the first
   * file (in list order) whose type cannot be determined.
   */
  function ResolveMimeTypes(files: seq<File>): (r: Result<seq<string>, Thrown>)
    ensures r.Success? <==> forall i :: 0 <= i < |files| ==> files[i].fileType != ""
    ensures r.Success? ==> r.value == MimeTypes(files)
    ensures r.Failure? ==>
      FirstUntyped(files).Some? && r.error == UnsupportedFileError(files[FirstUntyped(files).value].name)
  {
    match FirstUntyped(files)
    case Some(i) => Failure(UnsupportedFileError(files[i].name))
    case None => Success(MimeTypes(files))
  }

  /** Every MIME type that reaches the request is non-empty. */
  lemma ResolvedMimeTypeNonEmpty(files: seq<File>, i: int)
    requires ResolveMimeTypes(files).Success? && 0 <= i < |files|
    ensures ResolveMimeTypes(files).value[i] != ""
  {
    MimeTypesAt(files, i);
  }

  // ---------------------------------------------------------------------------
  // E-mail expansion

  const PlaceholderBody := "No text body found in email."

  /** One attachment as the eml parser reports it. */
  datatype EmlAttachment = EmlAttachment(filename: string, contentType: string, content: Content)

  /** The eml parser's outcome; `EmlFailed` also covers a library that did not load. */
  datatype EmlOutcome = EmlParsed(text: Option<string>, html: Option<string>, attachments: seq<EmlAttachment>) | EmlFailed

  /** One attachment listed by the msg reader; `content` is None when `getAttachment` throws on it. */
  datatype MsgAttachment = MsgAttachment(fileName: string, content: Option<Content>)

  /** The msg reader's outcome; `MsgFailed` covers a missing library and a `fileData.error`. */
  datatype MsgOutcome = MsgRead(body: Option<string>, attachments: seq<MsgAttachment>) | MsgFailed

  /** The `<name>_body.txt` file that carries an e-mail's text. */
  function BodyFile(email: File, body: string): File {
    File(email.name + "_body.txt", TextPlain, Utf8(body))
  }

  /** The text of a parsed `.eml`'s body file: `text || html || placeholder`. */
  function EmlBodyText(text: Option<string>, html: Option<string>): string {
    OrText(text, OrText(html, PlaceholderBody))
  }

  /** Every character lies between U+0020 and U+007E. */
  predicate PrintableAscii(t: string) {
    forall i :: 0 <= i < |t| ==> ' ' <= t[i] <= '~'
  }

  /**
   * The `type` a `new File(parts, name, { type })` ends up with: the File API drops a type
   * holding any character outside U+0020..U+007E and lowercases any other.
   */
  function FileType(t: string): string {
    if PrintableAscii(t) then ToLower(t) else ""
  }

  /**
   * The type is emptied exactly when it is empty or holds a character outside printable
   * ASCII; otherwise it keeps its length and each character is lowercased.
   */
  lemma FileTypeCases(t: string)
    ensures FileType(t) == "" <==> t == "" || !PrintableAscii(t)
    ensures PrintableAscii(t) ==> |FileType(t)| == |t| && forall i :: 0 <= i < |t| ==> FileType(t)[i] == LowerChar(t[i])
  {
    if PrintableAscii(t) {
      forall i | 0 <= i < |t|
        ensures FileType(t)[i] == LowerChar(t[i])
      {
        ToLowerAt(t, i);
      }
    }
  }

  /** A type the File API has normalized is left alone by a second pass. */
  lemma FileTypeIdempotent(t: string)
    ensures FileType(FileType(t)) == FileType(t)
  {
    var r := FileType(t);
    if PrintableAscii(t) {
      FileTypeCases(t);
      assert PrintableAscii(r);
      forall i | 0 <= i < |r|
        ensures !('A' <= r[i] <= 'Z')
      {
        assert r[i] == LowerChar(t[i]);
      }
      ToLowerNoUpper(r);
    }
  }

  /** Each `.eml` attachment becomes a file with its own name and its declared type as the File API normalizes it. */
  function EmlAttachmentFiles(atts: seq<EmlAttachment>): (r: seq<File>)
    ensures |r| == |atts|
  {
    if atts == [] then []
    else [File(atts[0].filename, FileType(atts[0].contentType), atts[0].content)] + EmlAttachmentFiles(atts[1..])
  }

  /** The `i`-th `.eml` attachment keeps its name and content, with its declared type normalized. */
  lemma {:induction false} EmlAttachmentFileAt(atts: seq<EmlAttachment>, i: int)
    requires 0 <= i < |atts|
    ensures EmlAttachmentFiles(atts)[i] == File(atts[i].filename, FileType(atts[i].contentType), atts[i].content)
  {
    if i > 0 {
      EmlAttachmentFileAt(atts[1..], i - 1);
    }
  }

  /** One more attachment, one more file. */
  lemma {:induction false} EmlAttachmentFilesSnoc(atts: seq<EmlAttachment>, a: EmlAttachment)
    ensures EmlAttachmentFiles(atts + [a]) == EmlAttachmentFiles(atts) + [File(a.filename, FileType(a.contentType), a.content)]
  {
    if atts == [] {
      assert atts + [a] == [a];
    } else {
      assert (atts + [a])[1..] == atts[1..] + [a];
      EmlAttachmentFilesSnoc(atts[1..], a);
    }
  }

  /** How many attachments, from the front, `getAttachment` reads before one throws. */
  function ReadableCount(atts: seq<MsgAttachment>): (n: nat)
    ensures n <= |atts|
    ensures n < |atts| ==> atts[n].content.None?
  {
    if atts == [] || atts[0].content.None? then 0 else 1 + ReadableCount(atts[1..])
  }

  /** The `.msg` attachments read before the first failure, each typed octet-stream. */
  function MsgAttachmentFiles(atts: seq<MsgAttachment>): (r: seq<File>)
    ensures |r| == ReadableCount(atts)
  {
    if atts == [] || atts[0].content.None? then []
    else [File(atts[0].fileName, OctetStream, atts[0].content.value)] + MsgAttachmentFiles(atts[1..])
  }

  /** Each read `.msg` attachment keeps its name and content and is typed octet-stream. */
  lemma {:induction false} MsgAttachmentFileAt(atts: seq<MsgAttachment>, i: int)
    requires 0 <= i < ReadableCount(atts)
    ensures atts[i].content.Some?
    ensures MsgAttachmentFiles(atts)[i] == File(atts[i].fileName, OctetStream, atts[i].content.value)
  {
    if i > 0 {
      MsgAttachmentFileAt(atts[1..], i - 1);
    }
  }

  /** Reading stops at the first attachment that throws. */
  lemma {:induction false} MsgAttachmentFilesStop(atts: seq<MsgAttachment>, j: int)
    requires 0 <= j < |atts| && atts[j].content.None?
    requires forall k :: 0 <= k < j ==> atts[k].content.Some?
    ensures MsgAttachmentFiles(atts) == MsgAttachmentFiles(atts[..j])
    ensures ReadableCount(atts) == j
  {
    if j > 0 {
      assert atts[..j][1..] == atts[1..][..j - 1];
      MsgAttachmentFilesStop(atts[1..], j - 1);
    }
  }

  /** Another readable attachment adds its file. */
  lemma {:induction false} MsgAttachmentFilesSnoc(atts: seq<MsgAttachment>, a: MsgAttachment)
    requires forall k :: 0 <= k < |atts| ==> atts[k].content.Some?
    requires a.content.Some?
    ensures MsgAttachmentFiles(atts + [a]) == MsgAttachmentFiles(atts) + [File(a.fileName, OctetStream, a.content.value)]
  {
    if atts == [] {
      assert atts + [a] == [a];
    } else {
      assert (atts + [a])[0] == atts[0];
      assert (atts + [a])[1..] == atts[1..] + [a];
      MsgAttachmentFilesSnoc(atts[1..], a);
    }
  }

  /** What a `.eml` contributes, given its parser's outcome. */
  function ExpandEml(f: File, p: EmlOutcome): (r: seq<File>)
    ensures |r| >= 1
    // Parsed: its body file, then each attachment with its own type.
    ensures p.EmlParsed? ==>
      && |r| == 1 + |p.attachments|
      && r[0] == BodyFile(f, EmlBodyText(p.text, p.html))
      && r[1..] == EmlAttachmentFiles(p.attachments)
    // Failed: its own text under its own name.
    ensures p.EmlFailed? ==> r == [File(f.name, TextPlain, TextOf(f.content))]
  {
    match p
    case EmlParsed(text, html, atts) => [BodyFile(f, EmlBodyText(text, html))] + EmlAttachmentFiles(atts)
    case EmlFailed => [File(f.name, TextPlain, TextOf(f.content))]
  }

  /** What a `.msg` contributes, given its reader's outcome. */
  function ExpandMsg(f: File, m: MsgOutcome): (r: seq<File>)
    ensures |r| >= 1
    // Read: its body file, then the readable attachments; if one could not be read,
    // the original file after those already emitted.
    ensures m.MsgRead? ==>
      var n := ReadableCount(m.attachments);
      && r[0] == BodyFile(f, OrText(m.body, PlaceholderBody))
      && |r| == 1 + n + (if n < |m.attachments| then 1 else 0)
      && r[1..1 + n] == MsgAttachmentFiles(m.attachments)
      && (n < |m.attachments| ==> r[|r| - 1] == f)
    // Failed: the original file.
    ensures m.MsgFailed? ==> r == [f]
  {
    match m
    case MsgRead(body, atts) =>
      [BodyFile(f, OrText(body, PlaceholderBody))] + MsgAttachmentFiles(atts)
        + (if ReadableCount(atts) < |atts| then [f] else [])
    case MsgFailed => [f]
  }

  /** A staged file that `processAndFlattenFiles` treats as an e-mail. */
  predicate IsEmail(f: File) {
    Extension(f.name) == "eml" || Extension(f.name) == "msg"
  }

  /** What one staged file contributes to the list of files to analyse. */
  function ExpandFile(f: File, eml: File -> EmlOutcome, msg: File -> MsgOutcome): (r: seq<File>)
    ensures |r| >= 1
    // Anything that is not an e-mail passes through unchanged.
    ensures !IsEmail(f) ==> r == [f]
  {
    var ext := Extension(f.name);
    if ext == "eml" then ExpandEml(f, eml(f))
    else if ext == "msg" then ExpandMsg(f, msg(f))
    else [f]
  }

  /** Each element's expansion, concatenated in order. */
  function FlatMap<T, U>(xs: seq<T>, f: T -> seq<U>): seq<U> {
    if xs == [] then [] else f(xs[0]) + FlatMap(xs[1..], f)
  }

  /** Concatenating the inputs concatenates the expansions. */
  lemma {:induction false} FlatMapAppend<T, U>(a: seq<T>, b: seq<T>, f: T -> seq<U>)
    ensures FlatMap(a + b, f) == FlatMap(a, f) + FlatMap(b, f)
  {
    if a == [] {
      assert a + b == b;
    } else {
      assert (a + b)[0] == a[0];
      assert (a + b)[1..] == a[1..] + b;
      FlatMapAppend(a[1..], b, f);
    }
  }

  /** One more element appends its expansion. */
  lemma FlatMapSnoc<T, U>(xs: seq<T>, x: T, f: T -> seq<U>)
    ensures FlatMap(xs + [x], f) == FlatMap(xs, f) + f(x)
  {
    FlatMapAppend(xs, [x], f);
    assert FlatMap([x], f) == f(x) + FlatMap([], f);
  }

  /** A sequence around one of its elements. */
  lemma SplitAt<T>(xs: seq<T>, i: int)
    requires 0 <= i < |xs|
    ensures xs == xs[..i] + [xs[i]] + xs[i + 1..]
  {
  }

  /** The `k`-th output of element `i` follows the outputs of the elements before it. */
  lemma FlatMapAt<T, U>(xs: seq<T>, i: int, f: T -> seq<U>, k: int)
    requires 0 <= i < |xs| && 0 <= k < |f(xs[i])|
    ensures |FlatMap(xs[..i], f)| + k < |FlatMap(xs, f)|
    ensures FlatMap(xs, f)[|FlatMap(xs[..i], f)| + k] == f(xs[i])[k]
  {
    FlatMapSplit(xs, i, f);
    var before, mid, after := FlatMap(xs[..i], f), f(xs[i]), FlatMap(xs[i + 1..], f);
    assert (before + mid + after)[|before| + k] == mid[k];
  }

  /** When every element expands to itself alone, the sequence is unchanged. */
  lemma {:induction false} FlatMapUnchanged<T>(xs: seq<T>, f: T -> seq<T>)
    requires forall i :: 0 <= i < |xs| ==> f(xs[i]) == [xs[i]]
    ensures FlatMap(xs, f) == xs
  {
    if xs != [] {
      forall i | 0 <= i < |xs[1..]|
        ensures f(xs[1..][i]) == [xs[1..][i]]
      {
        assert xs[1..][i] == xs[i + 1];
      }
      FlatMapUnchanged(xs[1..], f);
      assert [xs[0]] + xs[1..] == xs;
    }
  }

  /** An element's expansion sits between those of the elements before and after it. */
  lemma FlatMapSplit<T, U>(xs: seq<T>, i: int, f: T -> seq<U>)
    requires 0 <= i < |xs|
    ensures FlatMap(xs, f) == FlatMap(xs[..i], f) + f(xs[i]) + FlatMap(xs[i + 1..], f)
  {
    SplitAt(xs, i);
    FlatMapAppend(xs[..i] + [xs[i]], xs[i + 1..], f);
    FlatMapSnoc(xs[..i], xs[i], f);
  }

  /** `ExpandFile` with the two parsers fixed. */
  function Expander(eml: File -> EmlOutcome, msg: File -> MsgOutcome): File -> seq<File> {
    f => ExpandFile(f, eml, msg)
  }

  /** The files to analyse: each staged file's expansion, in order. */
  function Flatten(files: seq<File>, eml: File -> EmlOutcome, msg: File -> MsgOutcome): seq<File> {
    FlatMap(files, Expander(eml, msg))
  }

  /** Flattening distributes over concatenation: outputs stay contiguous and in input order. */
  lemma FlattenAppend(a: seq<File>, b: seq<File>, eml: File -> EmlOutcome, msg: File -> MsgOutcome)
    ensures Flatten(a + b, eml, msg) == Flatten(a, eml, msg) + Flatten(b, eml, msg)
  {
    FlatMapAppend(a, b, Expander(eml, msg));
  }

  /** The first staged file's outputs come first. */
  lemma FlattenCons(files: seq<File>, eml: File -> EmlOutcome, msg: File -> MsgOutcome)
    requires files != []
    ensures Flatten(files, eml, msg) == ExpandFile(files[0], eml, msg) + Flatten(files[1..], eml, msg)
  {
  }

  /** Every staged file yields at least one file to analyse. */
  lemma {:induction false} FlattenLength(files: seq<File>, eml: File -> EmlOutcome, msg: File -> MsgOutcome)
    ensures |Flatten(files, eml, msg)| >= |files|
  {
    if files != [] {
      FlattenLength(files[1..], eml, msg);
      FlattenCons(files, eml, msg);
    }
  }

  /** Without e-mails the list is passed through unchanged. */
  lemma FlattenWithoutEmails(files: seq<File>, eml: File -> EmlOutcome, msg: File -> MsgOutcome)
    requires forall i :: 0 <= i < |files| ==> !IsEmail(files[i])
    ensures Flatten(files, eml, msg) == files
  {
    var f := Expander(eml, msg);
    forall i | 0 <= i < |files|
      ensures f(files[i]) == [files[i]]
    {
      assert !IsEmail(files[i]);
    }
    FlatMapUnchanged(files, f);
  }

  /** A staged non-e-mail file reaches the list of files to analyse as it is, after the outputs of the files before it. */
  lemma FlattenKeepsPlainFile(files: seq<File>, eml: File -> EmlOutcome, msg: File -> MsgOutcome, i: int)
    requires 0 <= i < |files| && !IsEmail(files[i])
    ensures |Flatten(files[..i], eml, msg)| < |Flatten(files, eml, msg)|
    ensures Flatten(files, eml, msg)[|Flatten(files[..i], eml, msg)|] == files[i]
  {
    FlatMapSplit(files, i, Expander(eml, msg));
    var before, after := Flatten(files[..i], eml, msg), Flatten(files[i + 1..], eml, msg);
    assert Flatten(files, eml, msg) == before + [files[i]] + after;
    assert (before + [files[i]] + after)[|before|] == files[i];
  }

  /** A parsed `.eml`'s `k`-th attachment follows its body file. */
  lemma ExpandEmlAttachmentAt(f: File, p: EmlOutcome, k: int)
    requires p.EmlParsed? && 0 <= k < |p.attachments|
    ensures 1 + k < |ExpandEml(f, p)|
    ensures ExpandEml(f, p)[1 + k] == EmlAttachmentFiles(p.attachments)[k]
  {
    var r := ExpandEml(f, p);
    assert r[1..][k] == r[1 + k];
  }

  /** That attachment reaches the files to analyse right after the outputs before its e-mail and the e-mail's body. */
  lemma FlattenHoldsEmlAttachment(files: seq<File>, eml: File -> EmlOutcome, msg: File -> MsgOutcome, i: int, k: int)
    requires 0 <= i < |files| && Extension(files[i].name) == "eml"
    requires eml(files[i]).EmlParsed? && 0 <= k < |eml(files[i]).attachments|
    ensures |Flatten(files[..i], eml, msg)| + 1 + k < |Flatten(files, eml, msg)|
    ensures Flatten(files, eml, msg)[|Flatten(files[..i], eml, msg)| + 1 + k]
         == EmlAttachmentFiles(eml(files[i]).attachments)[k]
  {
    var f := Expander(eml, msg);
    assert f(files[i]) == ExpandEml(files[i], eml(files[i]));
    ExpandEmlAttachmentAt(files[i], eml(files[i]), k);
    FlatMapAt(files, i, f, 1 + k);
  }

  /** The inner loop over a parsed `.eml`'s attachments. */
  method PushEmlAttachments(processed: seq<File>, atts: seq<EmlAttachment>) returns (out: seq<File>)
    ensures out == processed + EmlAttachmentFiles(atts)
  {
    out := processed;
    var j := 0;
    while j < |atts|
      invariant 0 <= j <= |atts|
      invariant out == processed + EmlAttachmentFiles(atts[..j])
    {
      var attachment := atts[j];
      out := out + [File(attachment.filename, FileType(attachment.contentType), attachment.content)];
      assert atts[..j + 1] == atts[..j] + [attachment];
      EmlAttachmentFilesSnoc(atts[..j], attachment);
      j := j + 1;
    }
    assert atts[..j] == atts;
  }

  /** The inner loop over a read `.msg`'s attachments; `threw` when `getAttachment` threw. */
  method PushMsgAttachments(processed: seq<File>, atts: seq<MsgAttachment>) returns (out: seq<File>, threw: bool)
    ensures threw <==> ReadableCount(atts) < |atts|
    ensures out == processed + MsgAttachmentFiles(atts)
  {
    out := processed;
    threw := false;
    var j := 0;
    while j < |atts| && !threw
      invariant 0 <= j <= |atts|
      invariant forall k :: 0 <= k < j ==> atts[k].content.Some?
      invariant threw ==> j < |atts| && atts[j].content.None?
      invariant out == processed + MsgAttachmentFiles(atts[..j])
      decreases |atts| - j, if threw then 0 else 1
    {
      var attachment := atts[j];
      var attachmentContent := attachment.content;
      if attachmentContent.None? {
        threw := true;
      } else {
        out := out + [File(attachment.fileName, OctetStream, attachmentContent.value)];
        assert atts[..j + 1] == atts[..j] + [attachment];
        MsgAttachmentFilesSnoc(atts[..j], attachment);
        j := j + 1;
      }
    }
    if threw {
      MsgAttachmentFilesStop(atts, j);
    } else {
      assert atts[..j] == atts;
      AllReadableCount(atts);
    }
  }

  /** When every attachment can be read, all of them are. */
  lemma {:induction false} AllReadableCount(atts: seq<MsgAttachment>)
    requires forall k :: 0 <= k < |atts| ==> atts[k].content.Some?
    ensures ReadableCount(atts) == |atts|
  {
    if atts != [] {
      assert forall k :: 0 <= k < |atts[1..]| ==> atts[1..][k] == atts[k + 1];
      AllReadableCount(atts[1..]);
    }
  }

  /** The `.eml` branch of the loop body of `processAndFlattenFiles`. */
  method PushEml(processed: seq<File>, file: File, parsed: EmlOutcome) returns (out: seq<File>)
    ensures out == processed + ExpandEml(file, parsed)
  {
    match parsed {
      case EmlParsed(text, html, atts) =>
        out := processed + [BodyFile(file, EmlBodyText(text, html))];
        out := PushEmlAttachments(out, atts);
      case EmlFailed =>
        out := processed + [File(file.name, TextPlain, TextOf(file.content))];
    }
  }

  /** The `.msg` branch of the loop body of `processAndFlattenFiles`. */
  method PushMsg(processed: seq<File>, file: File, read: MsgOutcome) returns (out: seq<File>)
    ensures out == processed + ExpandMsg(file, read)
  {
    match read {
      case MsgRead(body, atts) =>
        out := processed + [BodyFile(file, OrText(body, PlaceholderBody))];
        var threw;
        out, threw := PushMsgAttachments(out, atts);
        if threw {
          out := out + [file];
        }
      case MsgFailed =>
        out := processed + [file];
    }
  }

  /** The body of the loop of `processAndFlattenFiles`, for one staged file. */
  method PushExpansion(processed: seq<File>, file: File, eml: File -> EmlOutcome, msg: File -> MsgOutcome)
    returns (out: seq<File>)
    ensures out == processed + ExpandFile(file, eml, msg)
  {
    var extension := Extension(file.name);
    if extension == "eml" {
      out := PushEml(processed, file, eml(file));
    } else if extension == "msg" {
      out := PushMsg(processed, file, msg(file));
    } else {
      out := processed + [file];
    }
  }

  /** Flattening one more staged file appends its expansion. */
  lemma FlattenSnoc(files: seq<File>, f: File, eml: File -> EmlOutcome, msg: File -> MsgOutcome)
    ensures Flatten(files + [f], eml, msg) == Flatten(files, eml, msg) + ExpandFile(f, eml, msg)
  {
    FlatMapSnoc(files, f, Expander(eml, msg));
  }

  /** The prefix form of `FlattenSnoc` that the loop of `processAndFlattenFiles` uses. */
  lemma FlattenPrefixStep(files: seq<File>, i: int, eml: File -> EmlOutcome, msg: File -> MsgOutcome)
    requires 0 <= i < |files|
    ensures Flatten(files[..i + 1], eml, msg) == Flatten(files[..i], eml, msg) + ExpandFile(files[i], eml, msg)
  {
    assert files[..i + 1] == files[..i] + [files[i]];
    FlattenSnoc(files[..i], files[i], eml, msg);
  }

  /** `processAndFlattenFiles`: pushes each staged file's outputs onto `processed`. */
  method ProcessAndFlattenFiles(files: seq<File>, eml: File -> EmlOutcome, msg: File -> MsgOutcome)
    returns (processed: seq<File>)
    ensures processed == Flatten(files, eml, msg)
  {
    processed := [];
    var i := 0;
    while i < |files|
      invariant 0 <= i <= |files|
      invariant processed == Flatten(files[..i], eml, msg)
    {
      processed := PushExpansion(processed, files[i], eml, msg);
      FlattenPrefixStep(files, i, eml, msg);
      i := i + 1;
    }
    assert files[..i] == files;
  }

  // ---------------------------------------------------------------------------
  // The staged-file list

  /** The names already staged. */
  function Names(files: seq<File>): set<string> {
    set i | 0 <= i < |files| :: files[i].name
  }

  /** The added files whose names are not in `existing`, in input order. */
  function UniqueNewFiles(existing: set<string>, newFiles: seq<File>): (r: seq<File>)
    ensures |r| <= |newFiles|
    ensures forall f :: f in r <==> f in newFiles && f.name !in existing
  {
    if newFiles == [] then []
    else (if newFiles[0].name in existing then [] else [newFiles[0]]) + UniqueNewFiles(existing, newFiles[1..])
  }

  /** The filter works batch by batch: it keeps input order. */
  lemma {:induction false} UniqueNewFilesAppend(existing: set<string>, a: seq<File>, b: seq<File>)
    ensures UniqueNewFiles(existing, a + b) == UniqueNewFiles(existing, a) + UniqueNewFiles(existing, b)
  {
    if a == [] {
      assert a + b == b;
    } else {
      assert (a + b)[0] == a[0];
      assert (a + b)[1..] == a[1..] + b;
      UniqueNewFilesAppend(existing, a[1..], b);
    }
  }

  /** When no added name is already staged, the whole batch is kept, duplicates included. */
  lemma {:induction false} UniqueNewFilesAllFresh(existing: set<string>, newFiles: seq<File>)
    requires forall i :: 0 <= i < |newFiles| ==> newFiles[i].name !in existing
    ensures UniqueNewFiles(existing, newFiles) == newFiles
  {
    if newFiles != [] {
      UniqueNewFilesAllFresh(existing, newFiles[1..]);
    }
  }

  /** `files.filter((_, index) => index !== indexToRemove)`. */
  function RemoveAt(files: seq<File>, index: int): (r: seq<File>)
    ensures 0 <= index < |files| ==> r == files[..index] + files[index + 1..]
    ensures !(0 <= index < |files|) ==> r == files
  {
    if files == [] then []
    else (if index == 0 then [] else [files[0]]) + RemoveAt(files[1..], index - 1)
  }

  // ---------------------------------------------------------------------------
  // Error texts

  const UnknownSubmitError := "An unknown error occurred."
  const UnparsableNewsError := "Could not parse news fetch error."
  const UnknownNewsError := "An unknown error occurred while fetching news."
  const RateLimitNewsError := "Could not fetch news due to API rate limits. Please check your plan and billing details."
  const GenericNewsError := "Failed to fetch news and web information."

  /** The text the outer `catch` of `handleSubmit` shows. */
  function SubmitErrorText(err: Thrown): (r: string)
    ensures err.ErrorInstance? ==> r == err.message
    ensures !err.ErrorInstance? ==> r == UnknownSubmitError
  {
    if err.ErrorInstance? then err.message else UnknownSubmitError
  }

  /** The raw message extracted from a news error. */
  function NewsRawMessage(err: Thrown): (r: string)
    ensures err.ErrorInstance? ==> r == err.message
    ensures err.PlainObject? && TruthyText(err.nestedMessage) ==> r == err.nestedMessage.value
    ensures err.PlainObject? && !TruthyText(err.nestedMessage) ==> r == err.json.GetOr(UnparsableNewsError)
    ensures err.OtherValue? ==> r == UnknownNewsError
  {
    match err
    case ErrorInstance(_, message) => message
    case PlainObject(nested, json) =>
      if TruthyText(nested) then nested.value
      else if json.Some? then json.value else UnparsableNewsError
    case OtherValue => UnknownNewsError
  }

  /** The news error shown: rate limit iff the raw text mentions it. */
  function ClassifyNewsError(raw: string): (r: string)
    ensures r == RateLimitNewsError <==> Contains(raw, "RESOURCE_EXHAUSTED") || Contains(raw, "429")
    ensures r != RateLimitNewsError ==> r == GenericNewsError
  {
    if Contains(raw, "RESOURCE_EXHAUSTED") || Contains(raw, "429") then RateLimitNewsError else GenericNewsError
  }

  /** An `Error` whose message mentions the quota is classified as a rate limit. */
  lemma RateLimitedErrorClassified(name: string, pre: string, post: string)
    ensures ClassifyNewsError(NewsRawMessage(ErrorInstance(name, pre + "RESOURCE_EXHAUSTED" + post))) == RateLimitNewsError
    ensures ClassifyNewsError(NewsRawMessage(ErrorInstance(name, pre + "429" + post))) == RateLimitNewsError
  {
    ContainsInside(pre, "RESOURCE_EXHAUSTED", post);
    ContainsInside(pre, "429", post);
  }

  // ---------------------------------------------------------------------------
  // One submit run

  /**
   * What a submit consults outside the program: the two e-mail parsers, what
   * `extractDataFromDocument` settles to, and what `fetchWebNews` settles to for a name.
   */
  datatype Services = Services(
    eml: File -> EmlOutcome,
    msg: File -> MsgOutcome,
    extraction: Result<ExtractedData, Thrown>,
    news: Option<string> -> Gemini.NewsOutcome)

  /** The services as `geminiService.ts` provides them, for one key and one set of replies. */
  function GeminiServices(apiKey: Option<string>, eml: File -> EmlOutcome, msg: File -> MsgOutcome,
                          sections: Gemini.SectionReplies, attempt: Gemini.NewsAttempt): Services
  {
    Services(eml, msg, Gemini.ExtractDataFromDocument(apiKey, sections),
             name => Gemini.FetchWebNews(name, apiKey, attempt))
  }

  /** The four result slots a submit run fills. */
  datatype Outcome = Outcome(
    extractedData: Option<ExtractedData>,
    newsData: Option<WebNewsData>,
    error: Option<string>,
    newsError: Option<string>)

  /** The slots after a run that threw before any data arrived. */
  function FailedRun(err: Thrown): (o: Outcome)
    ensures o.extractedData.None? && o.newsData.None? && o.newsError.None?
    ensures o.error == Some(SubmitErrorText(err))
  {
    Outcome(None, None, Some(SubmitErrorText(err)), None)
  }

  /** The news error shown for what `fetchWebNews` threw. */
  function NewsErrorText(err: Thrown): (r: string)
    ensures r == RateLimitNewsError || r == GenericNewsError
  {
    ClassifyNewsError(NewsRawMessage(err))
  }

  /** The slots after the data arrived: news is asked for only for a truthy entity name. */
  function ReceivedData(data: ExtractedData, news: Option<string> -> Gemini.NewsOutcome): (o: Outcome)
    ensures o.extractedData == Some(data) && o.error.None?
    ensures !TruthyText(data.anagrafica.entityName) ==> o.newsData.None? && o.newsError.None?
    ensures TruthyText(data.anagrafica.entityName) ==>
      match news(data.anagrafica.entityName)
      case Resolved(n) => o.newsData == n && o.newsError.None?
      case Rejected(e) => o.newsData.None? && o.newsError == Some(NewsErrorText(e))
  {
    var name := data.anagrafica.entityName;
    if !TruthyText(name) then Outcome(Some(data), None, None, None)
    else
      match news(name)
      case Resolved(n) => Outcome(Some(data), n, None, None)
      case Rejected(e) => Outcome(Some(data), None, None, Some(NewsErrorText(e)))
  }

  /** The result slots after a submit run over a non-empty staged list. */
  function SubmitRun(staged: seq<File>, svc: Services): (o: Outcome)
    // Either the data was extracted or the run failed with a message, never both.
    ensures o.extractedData.Some? <==> o.error.None?
    ensures o.extractedData.Some? <==>
      ResolveMimeTypes(Flatten(staged, svc.eml, svc.msg)).Success? && svc.extraction.Success?
    ensures o.extractedData.Some? ==> svc.extraction == Success(o.extractedData.value)
    ensures o.error.Some? ==> o.newsData.None? && o.newsError.None?
    // News, or a news error, only for a truthy entity name; never both.
    ensures o.newsData.Some? || o.newsError.Some? ==> TruthyText(o.extractedData.value.anagrafica.entityName)
    ensures o.newsData.None? || o.newsError.None?
  {
    match ResolveMimeTypes(Flatten(staged, svc.eml, svc.msg))
    case Failure(e) => FailedRun(e)
    case Success(_) =>
      match svc.extraction
      case Failure(e) => FailedRun(e)
      case Success(data) => ReceivedData(data, svc.news)
  }

  /** A staged non-e-mail file with an empty declared type fails the whole run. */
  lemma UntypedFileFailsRun(staged: seq<File>, svc: Services, i: int)
    requires 0 <= i < |staged| && staged[i].fileType == ""
    requires !IsEmail(staged[i])
    ensures SubmitRun(staged, svc).error.Some?
    ensures SubmitRun(staged, svc).extractedData.None?
  {
    FlattenKeepsPlainFile(staged, svc.eml, svc.msg, i);
  }

  /** The MIME types of such a list cannot be resolved. */
  lemma NonPrintableAttachmentUnresolved(files: seq<File>, eml: File -> EmlOutcome, msg: File -> MsgOutcome, i: int, k: int)
    requires 0 <= i < |files| && Extension(files[i].name) == "eml"
    requires eml(files[i]).EmlParsed?
    requires 0 <= k < |eml(files[i]).attachments|
    requires !PrintableAscii(eml(files[i]).attachments[k].contentType)
    ensures ResolveMimeTypes(Flatten(files, eml, msg)).Failure?
  {
    var atts := eml(files[i]).attachments;
    FlattenHoldsEmlAttachment(files, eml, msg, i, k);
    EmlAttachmentFileAt(atts, k);
    var j := |Flatten(files[..i], eml, msg)| + 1 + k;
    assert Flatten(files, eml, msg)[j].fileType == "";
  }

  /**
   * A parsed `.eml` whose attachment declares a type with a character outside printable
   * ASCII (a tab, an accented letter) yields a file with an empty type, which fails the run.
   */
  lemma NonPrintableAttachmentFailsRun(staged: seq<File>, svc: Services, i: int, k: int)
    requires 0 <= i < |staged| && Extension(staged[i].name) == "eml"
    requires svc.eml(staged[i]).EmlParsed?
    requires 0 <= k < |svc.eml(staged[i]).attachments|
    requires !PrintableAscii(svc.eml(staged[i]).attachments[k].contentType)
    ensures SubmitRun(staged, svc).error.Some?
    ensures SubmitRun(staged, svc).extractedData.None?
  {
    NonPrintableAttachmentUnresolved(staged, svc.eml, svc.msg, i, k);
  }

  /** Without an API key a run that reaches the extraction reports the configuration error. */
  lemma MissingKeyFailsRun(staged: seq<File>, eml: File -> EmlOutcome, msg: File -> MsgOutcome,
                           sections: Gemini.SectionReplies, attempt: Gemini.NewsAttempt)
    requires ResolveMimeTypes(Flatten(staged, eml, msg)).Success?
    ensures SubmitRun(staged, GeminiServices(None, eml, msg, sections, attempt))
         == Outcome(None, None, Some(Gemini.ApiKeyMissingMessage), None)
  {
  }

  /** With a falsy entity name the news reply is never consulted. */
  lemma NewsOnlyForNamedEntity(staged: seq<File>, svc: Services, other: Option<string> -> Gemini.NewsOutcome)
    requires svc.extraction.Success? && !TruthyText(svc.extraction.value.anagrafica.entityName)
    ensures SubmitRun(staged, svc) == SubmitRun(staged, svc.(news := other))
  {
  }

  // ---------------------------------------------------------------------------
  // The controller

  class Session {
    var selectedFiles: seq<File>
    var extractedData: Option<ExtractedData>
    var newsData: Option<WebNewsData>
    var isLoading: bool
    var isNewsLoading: bool
    var error: Option<string>
    var newsError: Option<string>
    var isApiKeyConfigured: bool

    /** The initial state, after the mount effect has checked the API key. */
    constructor(apiKey: Option<string>)
      ensures selectedFiles == [] && extractedData.None? && newsData.None?
      ensures !isLoading && !isNewsLoading && error.None? && newsError.None?
      ensures isApiKeyConfigured == TruthyText(apiKey)
    {
      selectedFiles := [];
      extractedData := None;
      newsData := None;
      isLoading := false;
      isNewsLoading := false;
      error := None;
      newsError := None;
      isApiKeyConfigured := TruthyText(apiKey);
    }

    /** `handleFilesAdd`: appends the files with new names; results reset iff one was added. */
    method HandleFilesAdd(newFiles: seq<File>)
      modifies this
      ensures selectedFiles == old(selectedFiles) + UniqueNewFiles(Names(old(selectedFiles)), newFiles)
      ensures UniqueNewFiles(Names(old(selectedFiles)), newFiles) != [] ==>
        extractedData.None? && newsData.None? && error.None? && newsError.None?
      ensures UniqueNewFiles(Names(old(selectedFiles)), newFiles) == [] ==>
        extractedData == old(extractedData) && newsData == old(newsData)
        && error == old(error) && newsError == old(newsError)
      ensures isLoading == old(isLoading) && isNewsLoading == old(isNewsLoading)
      ensures isApiKeyConfigured == old(isApiKeyConfigured)
    {
      var existingFileNames := Names(selectedFiles);
      var uniqueNewFiles := UniqueNewFiles(existingFileNames, newFiles);
      if |uniqueNewFiles| > 0 {
        extractedData := None;
        newsData := None;
        error := None;
        newsError := None;
      }
      selectedFiles := selectedFiles + uniqueNewFiles;
    }

    /** `handleFileRemove`: drops the file at `indexToRemove`; results are kept. */
    method HandleFileRemove(indexToRemove: int)
      modifies this`selectedFiles
      ensures selectedFiles == RemoveAt(old(selectedFiles), indexToRemove)
    {
      selectedFiles := RemoveAt(selectedFiles, indexToRemove);
    }

    /** `handleClearFiles`: empties the list and all four result slots. */
    method HandleClearFiles()
      modifies this`selectedFiles, this`extractedData, this`newsData, this`error, this`newsError
      ensures selectedFiles == [] && extractedData.None? && newsData.None? && error.None? && newsError.None?
    {
      selectedFiles := [];
      extractedData := None;
      newsData := None;
      error := None;
      newsError := None;
    }

    /** `handleDataUpdate`: the form's edited record replaces the extracted one. */
    method HandleDataUpdate(updatedData: ExtractedData)
      modifies this`extractedData
      ensures extractedData == Some(updatedData)
    {
      extractedData := Some(updatedData);
    }

    /** The synchronous start of `handleSubmit`: nothing without files, else a reset. */
    method StartSubmit() returns (started: bool)
      modifies this
      ensures started <==> old(selectedFiles) != []
      ensures !started ==> unchanged(this)
      ensures started ==>
        && isLoading && isNewsLoading
        && extractedData.None? && newsData.None? && error.None? && newsError.None?
        && selectedFiles == old(selectedFiles) && isApiKeyConfigured == old(isApiKeyConfigured)
    {
      if |selectedFiles| == 0 {
        return false;
      }
      isLoading := true;
      isNewsLoading := true;
      error := None;
      newsError := None;
      extractedData := None;
      newsData := None;
      return true;
    }

    /** The outer `catch` of `handleSubmit`. */
    method FailSubmit(err: Thrown)
      requires extractedData.None? && newsData.None? && newsError.None?
      modifies this`error, this`isLoading, this`isNewsLoading
      ensures Outcome(extractedData, newsData, error, newsError) == FailedRun(err)
      ensures !isLoading && !isNewsLoading
    {
      error := Some(SubmitErrorText(err));
      isLoading := false;
      isNewsLoading := false;
    }

    /** `handleSubmit` after `extractDataFromDocument` resolved with `data`. */
    method ReceiveData(data: ExtractedData, news: Option<string> -> Gemini.NewsOutcome)
      requires newsData.None? && error.None? && newsError.None?
      modifies this`extractedData, this`newsData, this`newsError, this`isLoading, this`isNewsLoading
      ensures Outcome(extractedData, newsData, error, newsError) == ReceivedData(data, news)
      ensures !isLoading && !isNewsLoading
    {
      extractedData := Some(data);
      isLoading := false;
      var entityName := data.anagrafica.entityName;
      if TruthyText(entityName) {
        var result := news(entityName);
        match result {
          case Resolved(n) => newsData := n;
          case Rejected(e) => newsError := Some(NewsErrorText(e));
        }
        isNewsLoading := false;
      } else {
        isNewsLoading := false;
      }
    }

    /** The `try` block of `handleSubmit`, run to completion from the state the start leaves. */
    method CompleteSubmit(svc: Services)
      requires extractedData.None? && newsData.None? && error.None? && newsError.None?
      modifies this`extractedData, this`newsData, this`error, this`newsError, this`isLoading, this`isNewsLoading
      ensures Outcome(extractedData, newsData, error, newsError) == SubmitRun(selectedFiles, svc)
      ensures !isLoading && !isNewsLoading
    {
      var filesToAnalyze := ProcessAndFlattenFiles(selectedFiles, svc.eml, svc.msg);
      var mimeTypes := ResolveMimeTypes(filesToAnalyze);
      if mimeTypes.Failure? {
        FailSubmit(mimeTypes.error);
      } else {
        var data := svc.extraction;
        if data.Failure? {
          FailSubmit(data.error);
        } else {
          ReceiveData(data.value, svc.news);
        }
      }
    }

    /** `handleSubmit` as a whole. */
    method HandleSubmit(svc: Services)
      modifies this
      ensures old(selectedFiles) == [] ==> unchanged(this)
      ensures selectedFiles == old(selectedFiles) && isApiKeyConfigured == old(isApiKeyConfigured)
      ensures selectedFiles != [] ==>
        && Outcome(extractedData, newsData, error, newsError) == SubmitRun(selectedFiles, svc)
        && !isLoading && !isNewsLoading
    {
      var started := StartSubmit();
      if started {
        CompleteSubmit(svc);
      }
    }
  }
}
