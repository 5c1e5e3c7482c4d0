/** se_eval_eval/preprocess/text_extraction.py: `extract_text`, which writes the text of a PDF
    to `<directory of the PDF>/text/<name>.txt`. The page texts `PdfReader` extracts are an
    input; the file system is an object holding the directories and the file contents. */
module TextExtraction {
  import opened Wrappers
  import opened Seqs
  import opened PyStr
  import opened PosixPath

  const TextDirName: string := "text"
  const PdfExtension: string := ".pdf"
  const TextExtension: string := ".txt"

  /** The errors `open(path, "w")` raises: a path whose directory part is a file, or a path
      that names a directory. */
  datatype FsError = NotADirectory(path: string) | IsADirectory(path: string)

  /** The part of the file system `extract_text` touches. */
  class FileSystem {
    var dirs: set<string>
    var files: map<string, string>

    constructor (dirs: set<string>, files: map<string, string>)
      ensures this.dirs == dirs && this.files == files
    {
      this.dirs := dirs;
      this.files := files;
    }

    /** `os.path.exists(p)`. */
    predicate Exists(p: string)
      reads this
    {
      p in dirs || p in files
    }
  }

  /** The text written: the page texts in page order, stripped of surrounding whitespace. */
  function ExtractedText(pages: seq<string>): string {
    Strip(Concat(pages))
  }

  /** `os.path.join(os.path.dirname(pdf_path), 'text')`. */
  function TextDir(pdfPath: string): string {
    Join(Dirname(pdfPath), TextDirName)
  }

  /** `os.path.basename(pdf_path).replace('.pdf', '.txt')`. */
  function OutputName(pdfPath: string): string {
    ReplaceAll(Basename(pdfPath), PdfExtension, TextExtension)
  }

  function OutputPath(pdfPath: string): string {
    Join(TextDir(pdfPath), OutputName(pdfPath))
  }

  /** `text += page.extract_text()` over the pages, then `text.strip()`. */
  method JoinPages(pages: seq<string>) returns (text: string)
    ensures text == ExtractedText(pages)
  {
    text := "";
    for i := 0 to |pages|
      invariant text == Concat(pages[..i])
    {
      PrefixSnoc(pages, i);
      ConcatSnoc(pages[..i], pages[i]);
      text := text + pages[i];
    }
    assert pages[..|pages|] == pages;
    text := Strip(text);
  }

  /** `extract_text(pdf_path)`. It returns nothing; `err` is the exception `open` raises. */
  method ExtractText(fs: FileSystem, pdfPath: string, pages: seq<string>) returns (err: Option<FsError>)
    modifies fs
    ensures fs.dirs == old(fs.dirs) + (if old(fs.Exists(TextDir(pdfPath))) then {} else {TextDir(pdfPath)})
    ensures err == (if TextDir(pdfPath) in old(fs.files) then Some(NotADirectory(TextDir(pdfPath)))
                    else if OutputPath(pdfPath) in fs.dirs then Some(IsADirectory(OutputPath(pdfPath)))
                    else None)
    ensures fs.files == if err.None? then old(fs.files)[OutputPath(pdfPath) := ExtractedText(pages)] else old(fs.files)
  {
    var text := JoinPages(pages);
    var textPath := TextDir(pdfPath);
    MakeDirs(fs, textPath);
    err := WriteFile(fs, textPath, OutputName(pdfPath), text);
  }

  /** `if not os.path.exists(text_path): os.makedirs(text_path)`. */
  method MakeDirs(fs: FileSystem, path: string)
    modifies fs
    ensures fs.dirs == old(fs.dirs) + (if old(fs.Exists(path)) then {} else {path})
    ensures fs.files == old(fs.files)
  {
    if !fs.Exists(path) {
      fs.dirs := fs.dirs + {path};
    }
  }

  /** `open(os.path.join(dir, name), "w").write(text)`. */
  method WriteFile(fs: FileSystem, dir: string, name: string, text: string) returns (err: Option<FsError>)
    modifies fs
    ensures err == (if dir in old(fs.files) then Some(NotADirectory(dir))
                    else if Join(dir, name) in old(fs.dirs) then Some(IsADirectory(Join(dir, name)))
                    else None)
    ensures fs.dirs == old(fs.dirs)
    ensures fs.files == if err.None? then old(fs.files)[Join(dir, name) := text] else old(fs.files)
  {
    if dir in fs.files {
      return Some(NotADirectory(dir));
    }
    var path := Join(dir, name);
    if path in fs.dirs {
      return Some(IsADirectory(path));
    }
    fs.files := fs.files[path := text];
    return None;
  }

  // ---- The output path ----

  /** A join with a non-empty last component ends with that component. */
  lemma JoinEndsWith(a: string, b: string)
    requires b != []
    ensures |Join(a, b)| >= |b| && Join(a, b)[|Join(a, b)| - |b|..] == b
  {
  }

  /** The output directory is a directory named "text" beside the PDF. */
  lemma TextDirFacts(pdfPath: string)
    ensures Basename(TextDir(pdfPath)) == TextDirName
    ensures Dirname(pdfPath) != [] && Dirname(pdfPath)[|Dirname(pdfPath)| - 1] != '/' ==>
      Dirname(TextDir(pdfPath)) == Dirname(pdfPath)
  {
    BasenameOfJoin(Dirname(pdfPath), TextDirName);
    if Dirname(pdfPath) != [] && Dirname(pdfPath)[|Dirname(pdfPath)| - 1] != '/' {
      DirnameOfJoin(Dirname(pdfPath), TextDirName);
    }
  }

  /** The output file lies directly in the output directory, under the derived name. */
  lemma OutputPathFacts(pdfPath: string)
    requires OutputName(pdfPath) != []
    ensures Basename(OutputPath(pdfPath)) == OutputName(pdfPath)
    ensures Dirname(OutputPath(pdfPath)) == TextDir(pdfPath)
  {
    var name := OutputName(pdfPath);
    ReplaceKeepsSlashes(Basename(pdfPath));
    BasenameOfJoin(TextDir(pdfPath), name);
    JoinEndsWith(Dirname(pdfPath), TextDirName);
    DirnameOfJoin(TextDir(pdfPath), name);
  }

  // ---- The output name ----

  /** The replacement writes no '/' into a name that has none. */
  lemma {:induction false} ReplaceKeepsSlashes(s: string)
    requires NoSlash(s)
    ensures NoSlash(ReplaceAll(s, PdfExtension, TextExtension))
  {
    if |s| >= |PdfExtension| {
      assert NoSlash(s[1..]) && NoSlash(s[|PdfExtension|..]);
      ReplaceKeepsSlashes(s[1..]);
      ReplaceKeepsSlashes(s[|PdfExtension|..]);
    }
  }

  /** A replaced string that does not start with '.' started with the same character, and the
      rest of it is the replacement of the rest. */
  lemma ReplaceHead(t: string)
    requires ReplaceAll(t, PdfExtension, TextExtension) != []
    requires ReplaceAll(t, PdfExtension, TextExtension)[0] != '.'
    ensures t != [] && t[0] == ReplaceAll(t, PdfExtension, TextExtension)[0]
    ensures ReplaceAll(t, PdfExtension, TextExtension)[1..] == ReplaceAll(t[1..], PdfExtension, TextExtension)
  {
    if |t| < |PdfExtension| {
      assert ReplaceAll(t[1..], PdfExtension, TextExtension) == t[1..];
    }
  }

  /** An occurrence after a prefix is an occurrence in the rest. */
  lemma OccursAfter(a: string, b: string, pat: string, i: nat)
    ensures OccursAt(a + b, pat, |a| + i) <==> OccursAt(b, pat, i)
  {
    if i + |pat| <= |b| {
      assert (a + b)[|a| + i..|a| + i + |pat|] == b[i..i + |pat|];
    }
  }

  /** When ".pdf" starts the result of a step that copied the first character, the input
      started with ".pdf" too. */
  lemma PdfAtStart(s: string)
    requires |s| >= 4
    requires OccursAt([s[0]] + ReplaceAll(s[1..], PdfExtension, TextExtension), PdfExtension, 0)
    ensures s[..4] == PdfExtension
  {
    var r1 := ReplaceAll(s[1..], PdfExtension, TextExtension);
    var w := ([s[0]] + r1)[..4];
    assert w == PdfExtension;
    assert w[0] == '.' && w[1] == 'p' && w[2] == 'd' && w[3] == 'f';
    assert s[0] == w[0] && r1[0] == w[1] && r1[1] == w[2] && r1[2] == w[3];
    ReplaceHead(s[1..]);
    assert s[1..][1..] == s[2..];
    var r2 := ReplaceAll(s[2..], PdfExtension, TextExtension);
    assert r2 == r1[1..];
    ReplaceHead(s[2..]);
    assert s[2..][1..] == s[3..];
    var r3 := ReplaceAll(s[3..], PdfExtension, TextExtension);
    assert r3 == r2[1..];
    ReplaceHead(s[3..]);
    assert s[..4] == [s[0], s[1], s[2], s[3]];
  }

  lemma NoPdfAtStart(s: string)
    requires |s| >= 4 && s[..4] != PdfExtension
    ensures !OccursAt([s[0]] + ReplaceAll(s[1..], PdfExtension, TextExtension), PdfExtension, 0)
  {
    if OccursAt([s[0]] + ReplaceAll(s[1..], PdfExtension, TextExtension), PdfExtension, 0) {
      PdfAtStart(s);
    }
  }

  /** Every ".pdf" is replaced, wherever it stands, and the replacement cannot form a new one:
      no ".pdf" is left in the output name. */
  lemma {:induction false} NoPdfLeft(s: string)
    ensures forall i: nat :: !OccursAt(ReplaceAll(s, PdfExtension, TextExtension), PdfExtension, i)
  {
    var r := ReplaceAll(s, PdfExtension, TextExtension);
    if |s| >= |PdfExtension| {
      if s[..4] == PdfExtension {
        var rest := ReplaceAll(s[4..], PdfExtension, TextExtension);
        NoPdfLeft(s[4..]);
        assert r == TextExtension + rest;
        forall i: nat ensures !OccursAt(r, PdfExtension, i) {
          if i >= 4 {
            OccursAfter(TextExtension, rest, PdfExtension, i - 4);
          } else if i == 0 {
            assert |r| >= 4 && r[..4] == TextExtension;
            assert r[..4][1] == 't';
          } else if i + 4 <= |r| {
            assert r[i..i + 4][0] == r[i] == TextExtension[i] != '.';
          }
        }
      } else {
        var rest := ReplaceAll(s[1..], PdfExtension, TextExtension);
        NoPdfLeft(s[1..]);
        assert r == [s[0]] + rest;
        forall i: nat ensures !OccursAt(r, PdfExtension, i) {
          if i >= 1 {
            OccursAfter([s[0]], rest, PdfExtension, i - 1);
          } else {
            NoPdfAtStart(s);
          }
        }
      }
    }
  }

  /** The name keeps its length, and ".pdf" is replaced everywhere, not only at the end. */
  lemma OutputNameFacts(pdfPath: string)
    ensures |OutputName(pdfPath)| == |Basename(pdfPath)|
    ensures forall i: nat :: !OccursAt(OutputName(pdfPath), PdfExtension, i)
  {
    NoPdfLeft(Basename(pdfPath));
  }

  /** An illustration of `NoPdfLeft` on one name: an inner ".pdf" is replaced as well as the
      extension. */
  lemma ReplaceExample()
    ensures ReplaceAll("a.pdf.pdf", PdfExtension, TextExtension) == "a.txt.txt"
  {
    assert ReplaceAll(".pdf", PdfExtension, TextExtension) == TextExtension;
    assert ReplaceAll(".pdf.pdf", PdfExtension, TextExtension) == ".txt" + ReplaceAll(".pdf", PdfExtension, TextExtension);
    assert ReplaceAll("a.pdf.pdf", PdfExtension, TextExtension) == "a" + ReplaceAll(".pdf.pdf", PdfExtension, TextExtension);
  }

  /** An illustration of `OutputNameFacts` on one path. */
  lemma OutputNameExample()
    ensures OutputName("docs/a.pdf.pdf") == "a.txt.txt"
  {
    assert Join("docs", "a.pdf.pdf") == "docs/a.pdf.pdf";
    BasenameOfJoin("docs", "a.pdf.pdf");
    ReplaceExample();
  }
}
