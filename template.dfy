/**
 * The template-method demo (src/bin/template.rs): opening a document is the
 * same for every document type except for the one extension each type
 * accepts. The extension of a path is taken as Rust's `Path::extension`
 * does for plain paths: the text after the last dot of the final path
 * component, where a name that only starts with a dot has no extension.
 */
module Template {
  import opened Wrappers

  /** The two document types, each standing for its own implementation of the trait. */
  datatype DocumentKind = DocumentWord | DocumentPdf

  /** What `open` hands back; it carries nothing. */
  datatype DocumentEntity = DocumentEntity

  /**
   * `allow_extension` of each document type: a non-empty text without dot or
   * separator, so one a path can end with; the two types accept different ones.
   */
  function AllowExtension(kind: DocumentKind): (ext: string)
    ensures ext != [] && '.' !in ext && '/' !in ext
    ensures kind == DocumentWord <==> ext == "doc"
    ensures kind == DocumentPdf <==> ext == "pdf"
  {
    match kind
    case DocumentWord => "doc"
    case DocumentPdf => "pdf"
  }

  /** The position of the last `c` among the first `n` characters of `s`, if any. */
  function LastIndexBelow(s: string, c: char, n: nat): (r: Option<nat>)
    requires n <= |s|
    ensures r.None? <==> forall i :: 0 <= i < n ==> s[i] != c
    ensures r.Some? ==> r.value < n && s[r.value] == c && forall i :: r.value < i < n ==> s[i] != c
    decreases n
  {
    if n == 0 then None
    else if s[n - 1] == c then Some(n - 1)
    else LastIndexBelow(s, c, n - 1)
  }

  /** The position of the last `c` in `s`, if any. */
  function LastIndexOf(s: string, c: char): (r: Option<nat>)
    ensures r.None? <==> c !in s
    ensures r.Some? ==> r.value < |s| && s[r.value] == c && forall i :: r.value < i < |s| ==> s[i] != c
  {
    LastIndexBelow(s, c, |s|)
  }

  /** The length of the first `n` characters of `path` without the separators they end with. */
  function TrimmedLength(path: string, n: nat): (m: nat)
    requires n <= |path|
    ensures m <= n && (m == 0 || path[m - 1] != '/')
    ensures forall i :: m <= i < n ==> path[i] == '/'
    decreases n
  {
    if n > 0 && path[n - 1] == '/' then TrimmedLength(path, n - 1) else n
  }

  /** The path without the separators it ends with. */
  function TrimTrailingSlashes(path: string): (t: string)
    ensures t <= path
    ensures t == [] || t[|t| - 1] != '/'
  {
    path[..TrimmedLength(path, |path|)]
  }

  /** The final component of the path. */
  function FileName(path: string): (name: string)
    ensures '/' !in name
    ensures |name| <= |TrimTrailingSlashes(path)|
    ensures TrimTrailingSlashes(path)[|TrimTrailingSlashes(path)| - |name|..] == name
  {
    var t := TrimTrailingSlashes(path);
    match LastIndexOf(t, '/')
    case None => t
    case Some(k) => t[k + 1..]
  }

  /**
   * The extension of the final component: the text after its last dot, unless
   * there is no dot, the only dot starts the name, or the name is "..".
   */
  function Extension(path: string): (r: Option<string>)
    ensures r.Some? ==> '.' !in r.value && '/' !in r.value
  {
    var name := FileName(path);
    if name == ".." then None
    else match LastIndexOf(name, '.')
      case None => None
      case Some(k) => if k == 0 then None else Some(name[k + 1..])
  }

  /** The last `c` is the one with no `c` after it. */
  lemma LastIndexOfIs(s: string, c: char, k: nat)
    requires k < |s| && s[k] == c && forall i :: k < i < |s| ==> s[i] != c
    ensures LastIndexOf(s, c) == Some(k)
  {
  }

  /**
   * A text made of a stem without separator, a dot and an extension with
   * neither dot nor separator: its last dot is the one before the extension.
   */
  lemma NameOfStemDotExt(stem: string, ext: string)
    requires '/' !in stem && '.' !in ext && '/' !in ext
    ensures '/' !in stem + "." + ext
    ensures |stem| < |stem + "." + ext| && LastIndexOf(stem + "." + ext, '.') == Some(|stem|)
    ensures (stem + "." + ext)[|stem| + 1..] == ext
  {
    var name := stem + "." + ext;
    forall i | 0 <= i < |name| ensures name[i] != '/' {
      if i < |stem| {
        assert name[i] == stem[i];
      } else if i > |stem| {
        assert name[i] == ext[i - |stem| - 1];
      }
    }
    assert name[|stem| + 1..] == ext;
    LastIndexOfIs(name, '.', |stem|);
  }

  /** A path that does not end with a separator is its own trimmed form. */
  lemma TrimNothing(path: string)
    requires path == [] || path[|path| - 1] != '/'
    ensures TrimTrailingSlashes(path) == path
  {
    assert path[..|path|] == path;
  }

  /** The final component of a directory followed by a name without separator is that name. */
  lemma FileNameAfterDir(dir: string, name: string)
    requires '/' !in name && name != []
    requires dir == [] || dir[|dir| - 1] == '/'
    ensures FileName(dir + name) == name
  {
    var path := dir + name;
    assert path[|path| - 1] == name[|name| - 1];
    TrimNothing(path);
    if dir == [] {
      assert path == name;
    } else {
      assert path[|dir| - 1] == '/' && path[|dir|..] == name;
      LastIndexOfIs(path, '/', |dir| - 1);
    }
  }

  /**
   * A path ending in a non-empty stem without separator (it may hold dots of
   * its own), a dot and a text with neither dot nor separator has exactly
   * that text as its extension, unless the whole name is "..".
   */
  lemma ExtensionOfStemDotExt(dir: string, stem: string, ext: string)
    requires stem != [] && '/' !in stem && '.' !in ext && '/' !in ext
    requires stem + "." + ext != ".."
    requires dir == [] || dir[|dir| - 1] == '/'
    ensures Extension(dir + (stem + "." + ext)) == Some(ext)
  {
    var name := stem + "." + ext;
    NameOfStemDotExt(stem, ext);
    FileNameAfterDir(dir, name);
  }

  /**
   * Conversely, a path that has an extension ends, separators at the end
   * aside, with a non-empty stem, a dot and that extension, and the stem's
   * last character belongs to the final component.
   */
  lemma ExtensionIsSuffix(path: string)
    requires Extension(path).Some?
    ensures |TrimTrailingSlashes(path)| >= |Extension(path).value| + 2
    ensures TrimTrailingSlashes(path)[|TrimTrailingSlashes(path)| - |Extension(path).value| - 1..] ==
      "." + Extension(path).value
    ensures TrimTrailingSlashes(path)[|TrimTrailingSlashes(path)| - |Extension(path).value| - 2] != '/'
  {
    var t := TrimTrailingSlashes(path);
    var name := FileName(path);
    var k := LastIndexOf(name, '.').value;
    var e := Extension(path).value;
    assert e == name[k + 1..] && name[k] == '.' && k >= 1 && name[k - 1] != '/';
    MarkedSuffix(t, name, k, '.', e);
  }

  /**
   * When `s` is a suffix of `t` and `c` followed by `e` ends `s` at a
   * position past its first, then `t` ends with `c` followed by `e`, right
   * after `s[k - 1]`.
   */
  lemma MarkedSuffix<T>(t: seq<T>, s: seq<T>, k: nat, c: T, e: seq<T>)
    requires |s| <= |t| && t[|t| - |s|..] == s && 1 <= k < |s|
    requires s[k] == c && e == s[k + 1..]
    ensures |t| >= |e| + 2
    ensures t[|t| - |e| - 1..] == [c] + e
    ensures t[|t| - |e| - 2] == s[k - 1]
  {
    SliceAtIndex(s, k);
    SuffixOfSuffix(t, s, k);
    SuffixAt(t, s, k - 1);
  }

  /** A slice starting at `k` is the element at `k` followed by the rest. */
  lemma SliceAtIndex<T>(s: seq<T>, k: nat)
    requires k < |s|
    ensures s[k..] == [s[k]] + s[k + 1..]
  {
  }

  /** The element at `i` of a suffix is the element at the matching place of the whole. */
  lemma SuffixAt<T>(t: seq<T>, s: seq<T>, i: nat)
    requires |s| <= |t| && t[|t| - |s|..] == s && i < |s|
    ensures t[|t| - |s| + i] == s[i]
  {
    assert t[|t| - |s|..][i] == s[i];
  }

  /** A suffix of a suffix is a suffix. */
  lemma SuffixOfSuffix<T>(t: seq<T>, s: seq<T>, k: nat)
    requires |s| <= |t| && t[|t| - |s|..] == s && k <= |s|
    ensures t[|t| - (|s| - k)..] == s[k..]
  {
    assert t[|t| - (|s| - k)..] == t[|t| - |s|..][k..];
  }

  /**
   * `open`: the document opens exactly when the path's extension is the one
   * its type accepts. A path without extension makes the source panic on
   * `unwrap`, so the caller must not give one.
   */
  function Open(kind: DocumentKind, path: string): (r: Option<DocumentEntity>)
    requires Extension(path).Some?
    ensures r.Some? <==> Extension(path).value == AllowExtension(kind)
  {
    if Extension(path).value == AllowExtension(kind) then Some(DocumentEntity) else None
  }

  /** The demo in `main`: a Word document opens "/home/user/rules.doc", a PDF document does not. */
  lemma TemplateDemo()
    ensures Extension("/home/user/rules.doc") == Some("doc")
    ensures Open(DocumentWord, "/home/user/rules.doc").Some?
    ensures Open(DocumentPdf, "/home/user/rules.doc").None?
  {
    assert "/home/user/" + ("rules" + "." + "doc") == "/home/user/rules.doc";
    ExtensionOfStemDotExt("/home/user/", "rules", "doc");
  }

  /** A name with several dots: only the text after the last one is the extension. */
  lemma MultiDotName()
    ensures Extension("/home/user/rules.v2.doc") == Some("doc")
  {
    assert "/home/user/" + ("rules.v2" + "." + "doc") == "/home/user/rules.v2.doc";
    ExtensionOfStemDotExt("/home/user/", "rules.v2", "doc");
  }

  /**
   * Each document type opens a file named with its own extension and refuses
   * the same file for the other type.
   */
  lemma OpensOwnExtension(kind: DocumentKind, dir: string, stem: string)
    requires stem != [] && '/' !in stem
    requires dir == [] || dir[|dir| - 1] == '/'
    ensures Extension(dir + (stem + "." + AllowExtension(kind))).Some?
    ensures Open(kind, dir + (stem + "." + AllowExtension(kind))).Some?
    ensures Open(if kind == DocumentWord then DocumentPdf else DocumentWord,
                 dir + (stem + "." + AllowExtension(kind))).None?
  {
    var ext := AllowExtension(kind);
    assert |stem + "." + ext| > 2;
    ExtensionOfStemDotExt(dir, stem, ext);
  }
}
