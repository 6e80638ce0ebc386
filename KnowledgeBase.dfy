/**
 * The knowledge-base panel of the admin dashboard
 * (dashboard/src/components/KnowledgeBase.jsx): the icon and size label of
 * a file row, and the two list updates the panel applies to its `files`
 * state (removing a deleted row, putting a newly inserted row first).
 */
module KnowledgeBase {
  import opened Base

  /** A row of the `knowledge_base` table as the panel lists it. */
  datatype FileRow = FileRow(
    id: string,
    filename: string,
    sizeBytes: Option<int>,
    mimeType: Option<string>,
    storagePath: string)

  // ---------------------------------------------------------------------
  // Icon
  // ---------------------------------------------------------------------

  datatype Icon = Description | FolderZip | TableChart | InsertDriveFile

  /** `mime?.includes(word)`: false for a null or missing type. */
  predicate Mentions(mime: Option<string>, word: string) {
    mime.Some? && Contains(mime.value, word)
  }

  /** `mimeIcon`: the first matching rule in priority order decides. */
  function MimeIcon(mime: Option<string>): (icon: Icon)
    ensures icon == Description <==> Mentions(mime, "pdf")
    ensures icon == FolderZip <==>
      !Mentions(mime, "pdf") && (Mentions(mime, "zip") || Mentions(mime, "compressed"))
    ensures icon == TableChart <==>
      !Mentions(mime, "pdf") && !Mentions(mime, "zip") && !Mentions(mime, "compressed")
      && (Mentions(mime, "csv") || Mentions(mime, "spreadsheet"))
    ensures mime.None? ==> icon == InsertDriveFile
  {
    if Mentions(mime, "pdf") then Description
    else if Mentions(mime, "zip") || Mentions(mime, "compressed") then FolderZip
    else if Mentions(mime, "csv") || Mentions(mime, "spreadsheet") then TableChart
    else InsertDriveFile
  }

  /** A type that mentions "pdf" is a document whatever else it mentions. */
  lemma {:induction false} PdfWins(prefix: string, suffix: string)
    ensures MimeIcon(Some(prefix + "pdf" + suffix)) == Description
  {
    var m := prefix + "pdf" + suffix;
    assert m[|prefix|..|prefix| + 3] == "pdf";
    ContainsAt(m, "pdf", |prefix|);
  }

  // ---------------------------------------------------------------------
  // Size label
  // ---------------------------------------------------------------------

  const KIB: int := 1024
  const MIB: int := 1024 * 1024

  /** `String(n)` for an integer. */
  function IntToString(n: int): string {
    if n < 0 then "-" + NatToString(-n) else NatToString(n)
  }

  /**
   * `formatSize(bytes)`: the text for small sizes, or the unit and the
   * number of bytes for sizes shown in KB or MB (their one-decimal
   * `toFixed` text is not modelled).
   */
  datatype SizeLabel = Text(text: string) | InKB(bytes: int) | InMB(bytes: int)

  function FormatSize(bytes: Option<int>): (r: SizeLabel)
    ensures r == Text("0 B") <==> bytes.None? || bytes.value == 0
    ensures r.InKB? <==> bytes.Some? && KIB <= bytes.value < MIB
    ensures r.InMB? <==> bytes.Some? && bytes.value >= MIB
    ensures (r.InKB? || r.InMB?) ==> r.bytes == bytes.value
  {
    if bytes.None? || bytes.value == 0 then Text("0 B")
    else if bytes.value < KIB then
      NonZeroText(bytes.value);
      Text(IntToString(bytes.value) + " B")
    else if bytes.value < MIB then InKB(bytes.value)
    else InMB(bytes.value)
  }

  /** Only zero is written "0". */
  lemma {:induction false} NonZeroText(n: int)
    requires n != 0
    ensures IntToString(n) + " B" != "0 B"
  {
    var t := IntToString(n);
    assert "0 B"[0] == '0';
    if n < 0 {
      assert (t + " B")[0] == '-';
    } else {
      assert (t + " B")[0] == t[0] != '0';
    }
  }

  /** Sizes from 1 to 1023 bytes are shown as exactly their decimal digits and " B", which read back as the size. */
  lemma {:induction false} SmallSizeText(b: int)
    requires 1 <= b < KIB
    ensures var t := FormatSize(Some(b)).text;
      && |t| >= 3 && t[|t| - 2..] == " B"
      && AllDigits(t[..|t| - 2]) && t[0] != '0'
      && ParseNat(t[..|t| - 2]) == b
  {
    var d := NatToString(b);
    var t := d + " B";
    assert t[..|t| - 2] == d;
    assert t[|t| - 2..] == " B";
    ParseNatToString(b);
  }

  // ---------------------------------------------------------------------
  // List updates
  // ---------------------------------------------------------------------

  /** `prev.filter(f => f.id !== id)`. */
  function RemoveById(files: seq<FileRow>, id: string): (r: seq<FileRow>)
    ensures |r| <= |files|
  {
    if files == [] then []
    else (if files[0].id != id then [files[0]] else []) + RemoveById(files[1..], id)
  }

  /** Deleting removes exactly the rows with that id; the others stay. */
  lemma {:induction false} RemoveByIdMembers(files: seq<FileRow>, id: string)
    ensures forall f :: f in RemoveById(files, id) <==> f in files && f.id != id
  {
    if files != [] {
      RemoveByIdMembers(files[1..], id);
      assert files == [files[0]] + files[1..];
    }
  }

  /** Deleting works row by row, so the kept rows stay in their order. */
  lemma {:induction false} RemoveByIdAppend(a: seq<FileRow>, b: seq<FileRow>, id: string)
    ensures RemoveById(a + b, id) == RemoveById(a, id) + RemoveById(b, id)
  {
    if a == [] {
      assert a + b == b;
    } else {
      assert (a + b)[0] == a[0];
      assert (a + b)[1..] == a[1..] + b;
      RemoveByIdAppend(a[1..], b, id);
    }
  }

  /** A list without the id is left as it is. */
  lemma {:induction false} RemoveByIdAbsent(files: seq<FileRow>, id: string)
    requires forall i :: 0 <= i < |files| ==> files[i].id != id
    ensures RemoveById(files, id) == files
  {
    if files != [] {
      RemoveByIdAbsent(files[1..], id);
      assert files == [files[0]] + files[1..];
    }
  }

  /** `if (data) setFiles(prev => [data, ...prev])`: a returned row goes first. */
  function AfterUpload(prev: seq<FileRow>, inserted: Option<FileRow>): (r: seq<FileRow>)
    ensures inserted.None? ==> r == prev
    ensures inserted.Some? ==> |r| == |prev| + 1 && r[0] == inserted.value && r[1..] == prev
  {
    if inserted.Some? then [inserted.value] + prev else prev
  }

  /** Deleting a freshly uploaded row (with a new id) gives back the list as it was before the upload. */
  lemma {:induction false} UploadThenDelete(prev: seq<FileRow>, row: FileRow)
    requires forall i :: 0 <= i < |prev| ==> prev[i].id != row.id
    ensures RemoveById(AfterUpload(prev, Some(row)), row.id) == prev
  {
    RemoveByIdAbsent(prev, row.id);
    assert [row] + prev == AfterUpload(prev, Some(row));
    RemoveByIdAppend([row], prev, row.id);
    assert RemoveById([row], row.id) == [];
  }

  /** `file.type || 'application/octet-stream'`. */
  function MimeOf(fileType: string): (m: string)
    ensures m != ""
    ensures fileType != "" ==> m == fileType
  {
    if fileType == "" then "application/octet-stream" else fileType
  }

  /** The metadata `handleUpload` inserts: storage path `knowledge/<now>_<name>`, default type for an empty one. */
  function NewRecord(id: string, name: string, size: int, fileType: string, now: nat): (row: FileRow)
    ensures row.id == id && row.filename == name && row.sizeBytes == Some(size)
    ensures row.mimeType == Some(MimeOf(fileType))
    ensures var p := row.storagePath;
      && |p| > 11 + |name|
      && p[..10] == "knowledge/"
      && p[10..|p| - |name| - 1] == NatToString(now)
      && p[|p| - |name| - 1] == '_'
      && p[|p| - |name|..] == name
  {
    var path := "knowledge/" + NatToString(now) + "_" + name;
    assert path[..10] == "knowledge/";
    assert path[10..|path| - |name| - 1] == NatToString(now);
    assert path[|path| - |name|..] == name;
    FileRow(id, name, Some(size), Some(MimeOf(fileType)), path)
  }
}
