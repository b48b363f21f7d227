/**
 * The text extractor (lib/parse.ts): the lower-cased extension of a stored
 * file's path chooses a decoder — PDF, DOCX, or a plain UTF-8 read for
 * `.txt`, `.md` and extension-less files — and every other extension is
 * refused. The decoders and the file read are foreign code (`FileIo`).
 */
module Parse {
  import opened Common

  /** The decoder a lower-cased extension selects. */
  datatype Decoder = Pdf | Docx | Utf8Text | Unsupported(extension: string)

  /** The foreign readers, each given the file's path. */
  datatype FileIo = FileIo(
    readPdfText: string -> Result<string>,     // fs.readFile, then pdf-parse's `text`
    extractDocxText: string -> Result<string>, // mammoth.extractRawText's `value`
    readUtf8: string -> Result<string>)        // fs.readFile(path, 'utf8')

  /** `SUPPORTED_TEXT_EXTENSIONS`. */
  const TextExtensions: set<string> := {".txt", ".md"}

  const UnsupportedPrefix := "Unsupported file type: "

  /** The path without its trailing `/` characters. */
  function StripTrailingSlashes(path: string): string {
    if path != [] && path[|path| - 1] == '/' then StripTrailingSlashes(path[..|path| - 1]) else path
  }

  /** The characters after the last `/`. */
  function Basename(path: string): string {
    if path == [] || path[|path| - 1] == '/' then []
    else Basename(path[..|path| - 1]) + [path[|path| - 1]]
  }

  /** The index of the last `.`, if any. */
  function LastDot(s: string): (r: Option<nat>)
    ensures r.Some? ==> r.value < |s|
  {
    if s == [] then None
    else if s[|s| - 1] == '.' then Some(|s| - 1)
    else LastDot(s[..|s| - 1])
  }

  /**
   * Node's POSIX `path.extname`: from the last `.` of the last path segment
   * (trailing slashes ignored) to its end; empty when the segment has no `.`,
   * when its only leading `.` is that last one (`.bashrc`), or when the
   * segment is `..`.
   */
  function Extname(path: string): (ext: string)
    ensures ext == "" || (ext[0] == '.' && '.' !in ext[1..])
  {
    SegmentExtension(Basename(StripTrailingSlashes(path)))
  }

  /** The extension of one path segment, as `Extname` takes it. */
  function SegmentExtension(base: string): (ext: string)
    ensures ext == "" || (ext[0] == '.' && '.' !in ext[1..])
  {
    LastDotIsLast(base);
    match LastDot(base)
    case None => ""
    case Some(d) => if d == 0 || base == ".." then "" else base[d..]
  }

  /** `toLowerCase` on one character (ASCII letters only). */
  function LowerChar(c: char): char {
    if 'A' <= c <= 'Z' then (c as int + 32) as char else c
  }

  /** `toLowerCase`. */
  function Lower(s: string): (r: string)
    ensures |r| == |s|
  {
    if s == [] then [] else [LowerChar(s[0])] + Lower(s[1..])
  }

  /** Two strings that differ at most in the case of their letters. */
  predicate SameIgnoringCase(a: string, b: string) {
    |a| == |b| && forall i :: 0 <= i < |a| ==> LowerChar(a[i]) == LowerChar(b[i])
  }

  /** Stripping trailing slashes keeps a prefix that does not end in `/`. */
  lemma {:induction false} StripTrailingSlashesIsPrefix(path: string)
    ensures var r := StripTrailingSlashes(path); |r| <= |path| && r == path[..|r|] && (r == [] || r[|r| - 1] != '/')
  {
    if path != [] && path[|path| - 1] == '/' {
      StripTrailingSlashesIsPrefix(path[..|path| - 1]);
    }
  }

  /** The base name is the longest suffix without `/`. */
  lemma {:induction false} BasenameIsSuffix(path: string)
    ensures var b := Basename(path); '/' !in b && |b| <= |path| && b == path[|path| - |b|..]
    ensures var b := Basename(path); |b| < |path| ==> path[|path| - |b| - 1] == '/'
  {
    if path != [] && path[|path| - 1] != '/' {
      BasenameIsSuffix(path[..|path| - 1]);
    }
  }

  /** `LastDot` finds the last `.`, and only a string without `.` has none. */
  lemma {:induction false} LastDotIsLast(s: string)
    ensures var r := LastDot(s); r.Some? ==> r.value < |s| && s[r.value] == '.' && '.' !in s[r.value + 1..]
    ensures LastDot(s).None? ==> '.' !in s
  {
    if s != [] && s[|s| - 1] != '.' {
      LastDotIsLast(s[..|s| - 1]);
      assert s == s[..|s| - 1] + [s[|s| - 1]];
    }
  }

  /**
   * An extension is empty or a `.` followed by neither `/` nor `.`, and it is
   * a suffix of the path once trailing slashes are removed.
   */
  lemma ExtnameShape(path: string)
    ensures var ext := Extname(path);
            ext != [] ==> ext[0] == '.' && '/' !in ext && '.' !in ext[1..]
    ensures var ext, p := Extname(path), StripTrailingSlashes(path);
            |ext| <= |p| && ext == p[|p| - |ext|..]
  {
    var p := StripTrailingSlashes(path);
    var b := Basename(p);
    var ext := SegmentExtension(b);
    assert Extname(path) == ext;
    assert '/' !in ext by {
      BasenameIsSuffix(p);
      SegmentExtensionShape(b);
    }
    assert |ext| <= |p| && ext == p[|p| - |ext|..] by {
      BasenameIsSuffix(p);
      SegmentExtensionShape(b);
      SuffixOfSuffix(p, b, |b| - |ext|);
    }
  }

  /** A segment's extension is empty or a `.` with no `.` after it, and it ends the segment. */
  lemma SegmentExtensionShape(b: string)
    ensures var ext := SegmentExtension(b);
            && |ext| <= |b| && ext == b[|b| - |ext|..]
            && (ext != [] ==> ext[0] == '.' && '.' !in ext[1..])
            && forall c :: c in ext ==> c in b
  {
    LastDotIsLast(b);
    var dot := LastDot(b);
    if dot.Some? && dot.value != 0 && b != ".." {
      var d := dot.value;
      assert b[d..][1..] == b[d + 1..];
    }
  }

  /** A suffix of a suffix is a suffix. */
  lemma SuffixOfSuffix(p: string, b: string, d: nat)
    requires |b| <= |p| && b == p[|p| - |b|..] && d <= |b|
    ensures b[d..] == p[|p| - (|b| - d)..]
  {
  }

  /** The if-chain of `parseResume`, on an already lower-cased extension. */
  function Classify(ext: string): (d: Decoder)
    ensures d == Pdf <==> ext == ".pdf"
    ensures d == Docx <==> ext == ".docx"
    ensures d == Utf8Text <==> ext in TextExtensions || ext == ""
    ensures d.Unsupported? <==> ext !in TextExtensions + {".pdf", ".docx", ""}
    ensures d.Unsupported? ==> d.extension == ext
  {
    if ext == ".pdf" then Pdf
    else if ext == ".docx" then Docx
    else if ext in TextExtensions || ext == "" then Utf8Text
    else Unsupported(ext)
  }

  /** The decoder `parseResume` uses for a path. */
  function DecoderFor(path: string): (d: Decoder)
    ensures var ext := Lower(Extname(path));
            && (d == Pdf <==> ext == ".pdf")
            && (d == Docx <==> ext == ".docx")
            && (d == Utf8Text <==> ext in TextExtensions || ext == "")
            && (d.Unsupported? ==> d.extension == ext)
  {
    Classify(Lower(Extname(path)))
  }

  /** `parseResume`: the text of a stored résumé, or the error that aborts it. */
  function ParseResume(path: string, io: FileIo): (r: Result<string>)
    ensures var ext := Lower(Extname(path));
            && (ext == ".pdf" ==> r == io.readPdfText(path))
            && (ext == ".docx" ==> r == io.extractDocxText(path))
            && (ext in TextExtensions || ext == "" ==> r == io.readUtf8(path))
            && (ext !in TextExtensions + {".pdf", ".docx", ""} ==> r == Err(UnsupportedPrefix + ext))
  {
    Decode(DecoderFor(path), path, io)
  }

  /** Runs the chosen decoder on the file, or throws for an unsupported extension. */
  function Decode(decoder: Decoder, path: string, io: FileIo): (r: Result<string>)
    ensures decoder == Pdf ==> r == io.readPdfText(path)
    ensures decoder == Docx ==> r == io.extractDocxText(path)
    ensures decoder == Utf8Text ==> r == io.readUtf8(path)
    ensures decoder.Unsupported? ==> r == Err(UnsupportedPrefix + decoder.extension)
  {
    match decoder
    case Pdf => io.readPdfText(path)
    case Docx => io.extractDocxText(path)
    case Utf8Text => io.readUtf8(path)
    case Unsupported(ext) => Err(UnsupportedPrefix + ext)
  }

  /** Each character of the lower-cased string is the lower-cased character. */
  lemma {:induction false} LowerAt(s: string, i: nat)
    requires i < |s|
    ensures Lower(s)[i] == LowerChar(s[i])
  {
    if i > 0 {
      LowerAt(s[1..], i - 1);
    }
  }

  /** Lower-casing is idempotent. */
  lemma LowerIsIdempotent(s: string)
    ensures Lower(Lower(s)) == Lower(s)
  {
    forall i | 0 <= i < |s| ensures Lower(Lower(s))[i] == Lower(s)[i] {
      LowerAt(s, i);
      LowerAt(Lower(s), i);
    }
  }

  /** A string without upper-case letters is its own lower-case form. */
  lemma LowerKeepsLowerCase(s: string)
    requires forall i :: 0 <= i < |s| ==> !('A' <= s[i] <= 'Z')
    ensures Lower(s) == s
  {
    forall i | 0 <= i < |s| ensures Lower(s)[i] == s[i] {
      LowerAt(s, i);
    }
  }

  /** Paths whose extensions differ only in letter case go to the same decoder. */
  lemma DecoderIgnoresCase(p: string, q: string)
    requires SameIgnoringCase(Extname(p), Extname(q))
    ensures DecoderFor(p) == DecoderFor(q)
  {
    var a, b := Extname(p), Extname(q);
    forall i | 0 <= i < |a| ensures Lower(a)[i] == Lower(b)[i] {
      LowerAt(a, i);
      LowerAt(b, i);
    }
    assert Lower(a) == Lower(b);
  }

  /** The extension of a stored file `dir/name.ext` is `.ext`, whatever the directory. */
  lemma ExtnameOfStoredFile(dir: string, name: string, ext: string)
    requires '/' !in name && '/' !in ext && '.' !in ext
    requires name != "" && name != "."
    ensures Extname(dir + "/" + name + "." + ext) == "." + ext
  {
    var base := name + "." + ext;
    var p := dir + "/" + base;
    assert dir + "/" + name + "." + ext == p;
    NoTrailingSlash(dir, base);
    BasenameAfterSlash(dir, base);
    LastDotOfExtension(name, ext);
    StoredNameIsNotDotDot(name, ext);
    ExtnameFromParts(p, base, |name|);
    assert base[|name|..] == "." + ext;
  }

  /** A path ending in a non-empty name without `/` has no trailing slash to strip. */
  lemma NoTrailingSlash(dir: string, base: string)
    requires '/' !in base && base != ""
    ensures StripTrailingSlashes(dir + "/" + base) == dir + "/" + base
  {
    var p := dir + "/" + base;
    assert p[|p| - 1] == base[|base| - 1];
  }

  /** `name.ext` is not `..` when `name` is neither empty nor `.`. */
  lemma StoredNameIsNotDotDot(name: string, ext: string)
    requires name != "" && name != "."
    ensures name + "." + ext != ".."
  {
    var base := name + "." + ext;
    assert base[0] == name[0];
    assert |name| == 1 ==> name == [name[0]];
  }

  /** `Extname` read off its parts. */
  lemma ExtnameFromParts(path: string, base: string, d: nat)
    requires StripTrailingSlashes(path) == path && Basename(path) == base
    requires LastDot(base) == Some(d) && d != 0 && base != ".."
    ensures d < |base| && Extname(path) == base[d..]
  {
  }

  /** The decoder of a stored file `dir/name.ext` is chosen by `.ext` alone. */
  lemma StoredFileDecoder(dir: string, name: string, ext: string)
    requires '/' !in name && '/' !in ext && '.' !in ext
    requires name != "" && name != "."
    ensures DecoderFor(dir + "/" + name + "." + ext) == Classify(Lower("." + ext))
  {
    ExtnameOfStoredFile(dir, name, ext);
  }

  /** `.PDF` routes as `.pdf` does. */
  lemma UpperCasePdfIsPdf(dir: string, name: string)
    requires '/' !in name && name != "" && name != "."
    ensures DecoderFor(dir + "/" + name + ".PDF") == Pdf
  {
    StoredFileDecoder(dir, name, "PDF");
    assert dir + "/" + name + "." + "PDF" == dir + "/" + name + ".PDF";
    var lower := Lower("." + "PDF");
    assert lower[0] == '.' && lower[1] == 'p' && lower[2] == 'd' && lower[3] == 'f';
    assert lower == ".pdf";
  }

  /** The last dot of `name + "." + ext` is the one before `ext` when `ext` has none. */
  lemma {:induction false} LastDotOfExtension(name: string, ext: string)
    requires '.' !in ext
    ensures LastDot(name + "." + ext) == Some(|name|)
    decreases |ext|
  {
    if ext != [] {
      var s := name + "." + ext;
      assert s[..|s| - 1] == name + "." + ext[..|ext| - 1];
      LastDotOfExtension(name, ext[..|ext| - 1]);
    } else {
      assert (name + "." + ext)[|name|] == '.';
    }
  }

  /** `.txt`, `.md` and extension-less files are read as UTF-8 text, unchanged. */
  lemma TextFilesAreReadVerbatim(path: string, io: FileIo)
    requires Lower(Extname(path)) in TextExtensions || Extname(path) == ""
    ensures ParseResume(path, io) == io.readUtf8(path)
  {
    assert Extname(path) == "" ==> Lower(Extname(path)) == "";
  }

  /**
   * Every extension selects exactly one decoder; the extensions outside the
   * supported four fail with the lower-cased extension in the message and
   * never reach a reader.
   */
  lemma UnsupportedExtensionFails(path: string, io1: FileIo, io2: FileIo)
    requires Lower(Extname(path)) !in {".pdf", ".docx", ".txt", ".md", ""}
    ensures ParseResume(path, io1) == Err(UnsupportedPrefix + Lower(Extname(path)))
    ensures ParseResume(path, io1) == ParseResume(path, io2)
  {
  }

  /** A `.exe` résumé is refused with `Unsupported file type: .exe`, whatever the readers would do. */
  lemma ExecutableIsRefused(dir: string, name: string, io: FileIo)
    requires '/' !in name && name != "" && name != "."
    ensures ParseResume(dir + "/" + name + ".exe", io) == Err("Unsupported file type: .exe")
  {
    var path := dir + "/" + name + ".exe";
    StoredFileDecoder(dir, name, "exe");
    assert dir + "/" + name + "." + "exe" == path;
    assert "." + "exe" == ".exe";
    LowerKeepsLowerCase(".exe");
    assert ".exe" != ".pdf" && ".exe" != ".docx" && ".exe" !in TextExtensions && ".exe" != "";
    assert DecoderFor(path) == Unsupported(".exe");
    assert ParseResume(path, io) == Decode(Unsupported(".exe"), path, io);
  }

  /** The base name of `dir + "/" + name` is `name` when `name` has no `/`. */
  lemma {:induction false} BasenameAfterSlash(dir: string, name: string)
    requires '/' !in name
    ensures Basename(dir + "/" + name) == name
    decreases |name|
  {
    var s := dir + "/" + name;
    if name != [] {
      assert s[..|s| - 1] == dir + "/" + name[..|name| - 1];
      BasenameAfterSlash(dir, name[..|name| - 1]);
      assert name[..|name| - 1] + [name[|name| - 1]] == name;
    }
  }

  /** A `.txt` file whose content is "Experienced engineer" extracts to that exact string. */
  lemma PlainTextExample(dir: string, name: string, io: FileIo)
    requires '/' !in name && name != "" && name != "."
    requires io.readUtf8(dir + "/" + name + ".txt") == Ok("Experienced engineer")
    ensures ParseResume(dir + "/" + name + ".txt", io) == Ok("Experienced engineer")
  {
    var path := dir + "/" + name + ".txt";
    assert Extname(path) == ".txt" by {
      assert ".txt" == "." + "txt";
      assert path == dir + "/" + name + "." + "txt";
      ExtnameOfStoredFile(dir, name, "txt");
    }
    assert Lower(".txt") == ".txt" by {
      var lower := Lower(".txt");
      assert lower[0] == '.' && lower[1] == 't' && lower[2] == 'x' && lower[3] == 't';
    }
    TextFilesAreReadVerbatim(path, io);
  }
}
