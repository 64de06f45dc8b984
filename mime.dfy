/**
 * The pure parts of `Public` in mic.go: the route pattern it derives from a
 * directory prefix, and the lookup of a Content-Type from the requested path.
 *
 * Go's `strings.Split(s, sep)` with a one-character separator is modelled by
 * `Split`; `Join` is its inverse.
 */
module Mime {
  import opened Wrappers

  // The content types named by the source's constants.
  const GIF := "image/gif"
  const PNG := "image/png"
  const JPG := "image/jpeg"
  const ICO := "image/x-icon"
  const PDF := "application/pdf"
  const CSS := "text/css;charset=utf-8"
  const HTML := "text/html;charset=utf-8"
  const TXT := "text/plain;charset=utf-8"
  const JS := "text/javascript;charset=utf-8"

  /** The content type of every extension the switch does not name. */
  const XmlDefault := "text/xml;charset=utf-8"

  /** What `Public` appends to the prefix: a group that captures everything after it. */
  const CaptureAll := "(.+)"

  /**
   * The extension table as a map: the reference that `ContentType` is
   * checked against. `ContentType` itself mirrors the source's `switch`
   * case by case.
   */
  const MimeTable: map<string, string> :=
    map["html" := HTML, "png" := PNG, "css" := CSS, "jpg" := JPG, "js" := JS,
        "gif" := GIF, "ico" := ICO, "pdf" := PDF, "txt" := TXT]

  /** The pattern `Public(prefix)` registers: the prefix itself, then the capture group. */
  function PublicPattern(prefix: string): (pattern: string)
    ensures |pattern| == |prefix| + |CaptureAll|
    ensures pattern[..|prefix|] == prefix && pattern[|prefix|..] == CaptureAll
  {
    prefix + CaptureAll
  }

  // ---------------------------------------------------------------------------
  // Splitting at a separator

  /** `strings.Split(s, [sep])`: the pieces between the separators, at least one. */
  function Split(s: string, sep: char): (parts: seq<string>)
    ensures |parts| >= 1
    decreases |s|
  {
    if s == [] then [[]]
    else
      var rest := Split(s[1..], sep);
      if s[0] == sep then [[]] + rest
      else [[s[0]] + rest[0]] + rest[1..]
  }

  /** `strings.Join(parts, [sep])`. */
  function Join(parts: seq<string>, sep: char): string
    requires |parts| >= 1
    decreases |parts|
  {
    if |parts| == 1 then parts[0] else parts[0] + [sep] + Join(parts[1..], sep)
  }

  /** No piece of a split contains the separator. */
  lemma {:induction false} SplitPiecesFree(s: string, sep: char)
    ensures forall i :: 0 <= i < |Split(s, sep)| ==> sep !in Split(s, sep)[i]
    decreases |s|
  {
    if s != [] {
      SplitPiecesFree(s[1..], sep);
      var rest := Split(s[1..], sep);
      if s[0] != sep {
        assert Split(s, sep) == [[s[0]] + rest[0]] + rest[1..];
        assert sep !in rest[0];
      }
    }
  }

  /** Joining the pieces again gives back the string that was split. */
  lemma {:induction false} JoinSplit(s: string, sep: char)
    ensures Join(Split(s, sep), sep) == s
    decreases |s|
  {
    if s != [] {
      var rest := Split(s[1..], sep);
      JoinSplit(s[1..], sep);
      if s[0] == sep {
        assert ([[]] + rest)[1..] == rest;
      } else {
        var parts := [[s[0]] + rest[0]] + rest[1..];
        if |rest| == 1 {
          assert parts == [[s[0]] + rest[0]];
        } else {
          assert parts[1..] == rest[1..];
          assert Join(rest, sep) == rest[0] + [sep] + Join(rest[1..], sep);
        }
      }
    }
  }

  /** Splitting a string that starts with a separator-free piece. */
  lemma {:induction false} SplitAfterPiece(a: string, t: string, sep: char)
    requires sep !in a
    ensures Split(a + t, sep) == [a + Split(t, sep)[0]] + Split(t, sep)[1..]
    decreases |a|
  {
    var parts := Split(t, sep);
    if a == [] {
      assert a + t == t && a + parts[0] == parts[0];
      assert parts == [parts[0]] + parts[1..];
    } else {
      SplitAfterPiece(a[1..], t, sep);
      var s := a + t;
      assert s[0] == a[0] && s[1..] == a[1..] + t;
      var rest := Split(s[1..], sep);
      assert rest[0] == a[1..] + parts[0] && rest[1..] == parts[1..];
      assert s[0] != sep;
      assert Split(s, sep) == [[s[0]] + rest[0]] + rest[1..];
      assert [a[0]] + (a[1..] + parts[0]) == a + parts[0];
    }
  }

  /** Splitting what `Join` built from separator-free pieces gives back the pieces. */
  lemma {:induction false} SplitJoin(parts: seq<string>, sep: char)
    requires |parts| >= 1
    requires forall i :: 0 <= i < |parts| ==> sep !in parts[i]
    ensures Split(Join(parts, sep), sep) == parts
    decreases |parts|
  {
    if |parts| == 1 {
      SplitAfterPiece(parts[0], [], sep);
      assert parts[0] + [] == parts[0];
    } else {
      var tail := Join(parts[1..], sep);
      SplitJoin(parts[1..], sep);
      var t := [sep] + tail;
      assert t[0] == sep && t[1..] == tail;
      assert Split(t, sep) == [[]] + parts[1..];
      SplitAfterPiece(parts[0], t, sep);
      assert parts[0] + [sep] + tail == parts[0] + t;
      assert parts[0] + Split(t, sep)[0] == parts[0];
      assert Split(t, sep)[1..] == parts[1..];
      assert parts == [parts[0]] + parts[1..];
    }
  }

  /** A string splits into more than one piece exactly when it holds the separator. */
  lemma {:induction false} SplitSeveral(s: string, sep: char)
    ensures |Split(s, sep)| >= 2 <==> sep in s
  {
    var parts := Split(s, sep);
    JoinSplit(s, sep);
    SplitPiecesFree(s, sep);
    if |parts| >= 2 {
      assert s == parts[0] + [sep] + Join(parts[1..], sep);
      assert s[|parts[0]|] == sep;
    }
  }

  /** The last piece of a join is its suffix, after the last separator. */
  lemma {:induction false} JoinEndsWithLast(parts: seq<string>, sep: char)
    requires |parts| >= 2
    ensures Join(parts, sep) == Join(parts[..|parts| - 1], sep) + [sep] + parts[|parts| - 1]
    decreases |parts|
  {
    if |parts| > 2 {
      JoinEndsWithLast(parts[1..], sep);
      assert parts[1..][..|parts| - 2] == parts[..|parts| - 1][1..];
    }
  }

  // ---------------------------------------------------------------------------
  // The Content-Type lookup of the handler `Public` registers

  /** `ur[len(ur)-1]` with `ur := strings.Split(path, "/")`: the last path segment. */
  function LastSegment(path: string): string {
    var parts := Split(path, '/');
    parts[|parts| - 1]
  }

  /**
   * The last segment contains no slash, is a suffix of the path, and is
   * preceded by a slash whenever it is shorter than the path.
   */
  lemma LastSegmentShape(path: string)
    ensures var segment := LastSegment(path);
      && '/' !in segment
      && |segment| <= |path| && path[|path| - |segment|..] == segment
      && (|segment| < |path| ==> path[|path| - |segment| - 1] == '/')
  {
    var parts := Split(path, '/');
    SplitPiecesFree(path, '/');
    JoinSplit(path, '/');
    if |parts| >= 2 {
      JoinEndsWithLast(parts, '/');
    }
  }

  /**
   * `strings.Split(segment, ".")[1]`: the piece after the FIRST dot and before
   * the next one, which is not the last piece when the segment has two dots.
   * Go panics (index out of range) when the segment has no dot: None here.
   */
  function ExtensionField(segment: string): Option<string> {
    var parts := Split(segment, '.');
    if |parts| >= 2 then Some(parts[1]) else None
  }

  /** The field exists exactly when the segment has a dot, and it has none itself. */
  lemma ExtensionFieldExists(segment: string)
    ensures ExtensionField(segment).None? <==> '.' !in segment
    ensures ExtensionField(segment).Some? ==> '.' !in ExtensionField(segment).value
  {
    SplitSeveral(segment, '.');
    SplitPiecesFree(segment, '.');
  }

  /**
   * Where the field `ExtensionField` picks lies in the segment: right after
   * the first dot, up to the second dot or the end.
   */
  lemma ExtensionFieldPosition(segment: string) returns (stem: string, rest: string)
    requires '.' in segment
    ensures ExtensionField(segment).Some?
    ensures segment == stem + "." + ExtensionField(segment).value + rest
    ensures '.' !in stem
    ensures rest == [] || rest[0] == '.'
  {
    var parts := Split(segment, '.');
    ExtensionFieldExists(segment);
    SplitPiecesFree(segment, '.');
    JoinSplit(segment, '.');
    stem := parts[0];
    rest := if |parts| == 2 then [] else ['.'] + Join(parts[2..], '.');
    assert Join(parts, '.') == parts[0] + ['.'] + Join(parts[1..], '.');
    assert parts[1..][1..] == parts[2..];
    assert Join(parts[1..], '.') == parts[1] + rest;
  }

  /** The `switch` on the extension field, case by case in the source's order; `MimeTable` is its reference. */
  function ContentType(ext: string): string {
    if ext == "html" then HTML
    else if ext == "png" then PNG
    else if ext == "css" then CSS
    else if ext == "jpg" then JPG
    else if ext == "js" then JS
    else if ext == "gif" then GIF
    else if ext == "ico" then ICO
    else if ext == "pdf" then PDF
    else if ext == "txt" then TXT
    else "text/xml;charset=utf-8"
  }

  /** The switch agrees with the table: the listed extensions get theirs, all others XML. */
  lemma ContentTypeFollowsTable(ext: string)
    ensures ext in MimeTable ==> ContentType(ext) == MimeTable[ext]
    ensures ext !in MimeTable ==> ContentType(ext) == XmlDefault
  {
  }

  /**
   * The Content-Type the public-directory handler sets for a URL path, or
   * None where the handler panics (the last segment has no dot).
   */
  function PublicContentType(path: string): Option<string> {
    match ExtensionField(LastSegment(path))
    case None => None
    case Some(ext) => Some(ContentType(ext))
  }

  /** The lookup is undefined (the handler panics) exactly when the last segment has no dot. */
  lemma PublicContentTypeDefined(path: string)
    ensures PublicContentType(path).None? <==> '.' !in LastSegment(path)
  {
    ExtensionFieldExists(LastSegment(path));
  }

  // ---------------------------------------------------------------------------
  // Worked cases

  /** The last segment of a path ending in "/" and a slash-free name is that name. */
  lemma LastSegmentAfterSlash(prefix: string, name: string)
    requires '/' !in name
    ensures LastSegment(prefix + "/" + name) == name
  {
    var before := Split(prefix, '/');
    JoinSplit(prefix, '/');
    SplitPiecesFree(prefix, '/');
    var parts := before + [name];
    assert parts[..|parts| - 1] == before && parts[|parts| - 1] == name;
    JoinEndsWithLast(parts, '/');
    assert Join(parts, '/') == prefix + "/" + name;
    forall i | 0 <= i < |parts|
      ensures '/' !in parts[i]
    {
      if i < |before| {
        assert parts[i] == before[i];
      }
    }
    SplitJoin(parts, '/');
  }

  /** The extension field of a name with one dot is its extension. */
  lemma ExtensionOfTwo(stem: string, ext: string)
    requires '.' !in stem && '.' !in ext
    ensures ExtensionField(stem + "." + ext) == Some(ext)
  {
    var parts := [stem, ext];
    assert parts[1..] == [ext];
    assert Join(parts, '.') == stem + "." + ext;
    SplitJoin(parts, '.');
  }

  /** The extension field of a name with two dots is the middle piece. */
  lemma ExtensionOfThree(stem: string, middle: string, last: string)
    requires '.' !in stem && '.' !in middle && '.' !in last
    ensures ExtensionField(stem + "." + middle + "." + last) == Some(middle)
  {
    var parts := [stem, middle, last];
    assert parts[1..] == [middle, last] && parts[1..][1..] == [last];
    assert Join(parts[1..], '.') == middle + "." + last;
    assert Join(parts, '.') == stem + "." + middle + "." + last;
    SplitJoin(parts, '.');
  }

  /** The switch on the names it lists, and on one it does not. */
  lemma ContentTypeTable()
    ensures ContentType("html") == HTML && ContentType("png") == PNG && ContentType("css") == CSS
    ensures ContentType("jpg") == JPG && ContentType("js") == JS && ContentType("gif") == GIF
    ensures ContentType("ico") == ICO && ContentType("pdf") == PDF && ContentType("txt") == TXT
    ensures ContentType("min") == XmlDefault
  {
  }

  /** A file with one dot in its name is served with its extension's type, under any prefix. */
  lemma FileContentType(prefix: string, stem: string, ext: string, suffix: string)
    requires '/' !in stem && '/' !in ext && '.' !in stem && '.' !in ext
    requires suffix == "." + ext
    ensures PublicContentType(prefix + "/" + stem + suffix) == Some(ContentType(ext))
  {
    var name := stem + suffix;
    assert name == stem + "." + ext;
    assert prefix + "/" + stem + suffix == prefix + "/" + name;
    LastSegmentAfterSlash(prefix, name);
    ExtensionOfTwo(stem, ext);
  }

  /** With two dots in the file name, the MIDDLE field decides the type, not the last one. */
  lemma MiddleFieldDecides(prefix: string, stem: string, middle: string, last: string, suffix: string)
    requires '/' !in stem && '/' !in middle && '/' !in last
    requires '.' !in stem && '.' !in middle && '.' !in last
    requires suffix == "." + middle + "." + last
    ensures PublicContentType(prefix + "/" + stem + suffix) == Some(ContentType(middle))
  {
    var name := stem + suffix;
    assert name == stem + "." + middle + "." + last;
    assert prefix + "/" + stem + suffix == prefix + "/" + name;
    LastSegmentAfterSlash(prefix, name);
    ExtensionOfThree(stem, middle, last);
  }

  /** A script, for example "/static/app.js", is served as JavaScript. */
  lemma ScriptIsJavascript(prefix: string, name: string)
    requires '/' !in name && '.' !in name
    ensures PublicContentType(prefix + "/" + name + ".js") == Some(JS)
  {
    var ext := "js";
    assert ".js" == "." + ext;
    assert ContentType(ext) == JS;
    FileContentType(prefix, name, ext, ".js");
  }

  /** A minified script, for example "/static/jquery.min.js", is served as XML: its field is "min". */
  lemma MinifiedScriptIsXml(prefix: string, name: string)
    requires '/' !in name && '.' !in name
    ensures PublicContentType(prefix + "/" + name + ".min.js") == Some(XmlDefault)
  {
    var middle, last := "min", "js";
    assert ".min.js" == "." + middle + "." + last;
    assert ContentType(middle) == XmlDefault;
    MiddleFieldDecides(prefix, name, middle, last, ".min.js");
  }

  /** A file name without a dot, for example "/static/LICENSE", has no extension field: the handler panics. */
  lemma DotlessFileHasNoContentType(prefix: string, name: string)
    requires '/' !in name && '.' !in name
    ensures PublicContentType(prefix + "/" + name) == None
  {
    LastSegmentAfterSlash(prefix, name);
    ExtensionFieldExists(name);
  }
}
