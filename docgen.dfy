/**
  DocGen: assembling the functions documentation page from the JSDoc
  comments found in the TypeScript sources.

  The directory walk, the file reads and the JSDoc regular expression are
  inputs: the walk is the sequence of (directory, file names) pairs in the
  order it visits them, `extract` gives for a path the (JSDoc, function
  name) matches of the regular expression, or `None` when opening or
  reading the file raised, and `relpath` renders a path relative to the
  source directory.
 */
module DocGen {
  import opened Js
  import Strings

  /** One match of the JSDoc regular expression: the comment and the name of the function after it. */
  datatype FunctionDoc = FunctionDoc(jsdoc: string, name: string)

  /** One directory of the walk with the names of the files in it. */
  datatype WalkEntry = WalkEntry(root: string, files: seq<string>)

  /** One item of the `all_jsdoc_functions` dictionary. */
  datatype Entry = Entry(path: string, functions: seq<FunctionDoc>)

  type Extractor = string -> Option<seq<FunctionDoc>>

  const Header := "# Functions Documentation\n\n"

  /** `extract_jsdoc_and_functions`: the matches, or no matches at all when the file could not be read. */
  function ExtractJsdocAndFunctions(extract: Extractor, filePath: string): seq<FunctionDoc>
  {
    match extract(filePath)
    case None => []
    case Some(matches) => matches
  }

  /** `os.path.join` of a directory and a plain file name. */
  function PathJoin(root: string, file: string): string
  {
    if root == "" || root[|root| - 1] == '/' then root + file else root + "/" + file
  }

  /** The paths of the files of one directory that are scanned: those whose names end in '.ts'. */
  function TsPaths(root: string, files: seq<string>): seq<string>
  {
    if files == [] then []
    else
      var last := files[|files| - 1];
      TsPaths(root, files[..|files| - 1]) + if Strings.EndsWith(last, ".ts") then [PathJoin(root, last)] else []
  }

  /** Every scanned path, in the order of the walk. */
  function ScannedPaths(walk: seq<WalkEntry>): seq<string>
  {
    if walk == [] then []
    else
      var last := walk[|walk| - 1];
      ScannedPaths(walk[..|walk| - 1]) + TsPaths(last.root, last.files)
  }

  /** The paths of a dictionary, in insertion order. */
  function Paths(d: seq<Entry>): seq<string>
  {
    seq(|d|, i requires 0 <= i < |d| => d[i].path)
  }

  /** Dictionary assignment `d[key] = v`: an existing key keeps its place and gets the new value; a new key goes last. */
  function Assign(d: seq<Entry>, key: string, v: seq<FunctionDoc>): seq<Entry>
  {
    if d == [] then [Entry(key, v)]
    else if d[0].path == key then [Entry(key, v)] + d[1..]
    else [d[0]] + Assign(d[1..], key, v)
  }

  /** One scanned file: its matches are stored only when there are some. */
  function CollectStep(d: seq<Entry>, filePath: string, extract: Extractor): seq<Entry>
  {
    var functions := ExtractJsdocAndFunctions(extract, filePath);
    if functions != [] then Assign(d, filePath, functions) else d
  }

  /** The dictionary after scanning `paths` in order. */
  function Collected(paths: seq<string>, extract: Extractor): seq<Entry>
  {
    if paths == [] then []
    else CollectStep(Collected(paths[..|paths| - 1], extract), paths[|paths| - 1], extract)
  }

  /** One function's entry. */
  function FunctionEntry(f: FunctionDoc): string
  {
    "### " + f.name + "\n" + f.jsdoc + "\n\n"
  }

  function FunctionEntries(functions: seq<FunctionDoc>): string
  {
    if functions == [] then ""
    else FunctionEntries(functions[..|functions| - 1]) + FunctionEntry(functions[|functions| - 1])
  }

  /** One file's section; a file without functions has none. */
  function Section(e: Entry, relpath: string -> string): string
  {
    if e.functions == [] then "" else "## " + relpath(e.path) + "\n" + FunctionEntries(e.functions)
  }

  function Sections(d: seq<Entry>, relpath: string -> string): string
  {
    if d == [] then "" else Sections(d[..|d| - 1], relpath) + Section(d[|d| - 1], relpath)
  }

  /** The whole page for a walk. */
  function Markdown(walk: seq<WalkEntry>, extract: Extractor, relpath: string -> string): string
  {
    Header + Sections(Collected(ScannedPaths(walk), extract), relpath)
  }

  lemma CollectedSnoc(paths: seq<string>, filePath: string, extract: Extractor)
    ensures Collected(paths + [filePath], extract) == CollectStep(Collected(paths, extract), filePath, extract)
  {
    assert (paths + [filePath])[..|paths|] == paths;
  }

  lemma TsPathsSnoc(root: string, files: seq<string>, j: nat)
    requires j < |files|
    ensures TsPaths(root, files[..j + 1]) ==
            TsPaths(root, files[..j]) + if Strings.EndsWith(files[j], ".ts") then [PathJoin(root, files[j])] else []
  {
    assert files[..j + 1][..j] == files[..j];
  }

  lemma ScannedPathsSnoc(walk: seq<WalkEntry>, i: nat)
    requires i < |walk|
    ensures ScannedPaths(walk[..i + 1]) == ScannedPaths(walk[..i]) + TsPaths(walk[i].root, walk[i].files)
  {
    assert walk[..i + 1][..i] == walk[..i];
  }

  lemma SectionsSnoc(d: seq<Entry>, i: nat, relpath: string -> string)
    requires i < |d|
    ensures Sections(d[..i + 1], relpath) == Sections(d[..i], relpath) + Section(d[i], relpath)
  {
    assert d[..i + 1][..i] == d[..i];
  }

  lemma FunctionEntriesSnoc(functions: seq<FunctionDoc>, j: nat)
    requires j < |functions|
    ensures FunctionEntries(functions[..j + 1]) == FunctionEntries(functions[..j]) + FunctionEntry(functions[j])
  {
    assert functions[..j + 1][..j] == functions[..j];
  }

  /** Every path is visited once. */
  predicate Distinct(paths: seq<string>)
  {
    forall i, j :: 0 <= i < j < |paths| ==> paths[i] != paths[j]
  }

  /** The files with matches, one entry each, in the order they are visited. */
  function Filtered(paths: seq<string>, extract: Extractor): seq<Entry>
  {
    if paths == [] then []
    else
      var functions := ExtractJsdocAndFunctions(extract, paths[0]);
      (if functions != [] then [Entry(paths[0], functions)] else []) + Filtered(paths[1..], extract)
  }

  lemma PathsCons(d: seq<Entry>)
    requires d != []
    ensures Paths(d) == [d[0].path] + Paths(d[1..])
  {
  }

  /** The dictionary update keeps the key set and its order, adding a new key last. */
  lemma {:induction false} AssignPaths(d: seq<Entry>, key: string, v: seq<FunctionDoc>)
    ensures Paths(Assign(d, key, v)) == if key in Paths(d) then Paths(d) else Paths(d) + [key]
  {
    if d != [] {
      PathsCons(d);
      PathsCons(Assign(d, key, v));
      if d[0].path != key {
        AssignPaths(d[1..], key, v);
      } else {
        assert Assign(d, key, v)[1..] == d[1..];
      }
    }
  }

  /** The dictionary update stores the new value, and every other item is an old one. */
  lemma {:induction false} AssignEntries(d: seq<Entry>, key: string, v: seq<FunctionDoc>)
    ensures Entry(key, v) in Assign(d, key, v)
    ensures forall e :: e in Assign(d, key, v) ==> e in d || e == Entry(key, v)
  {
    if d != [] && d[0].path != key {
      AssignEntries(d[1..], key, v);
      assert d == [d[0]] + d[1..];
    }
  }

  /** A key not yet present goes last. */
  lemma {:induction false} AssignNew(d: seq<Entry>, key: string, v: seq<FunctionDoc>)
    requires key !in Paths(d)
    ensures Assign(d, key, v) == d + [Entry(key, v)]
  {
    if d != [] {
      PathsCons(d);
      AssignNew(d[1..], key, v);
      assert d == [d[0]] + d[1..];
    }
  }

  /**
    A file is in the dictionary exactly when it was scanned and has at
    least one match (a file that failed to read has none), and it holds
    exactly its matches; so no stored file is ever without functions.
   */
  lemma {:induction false} CollectedMembers(paths: seq<string>, extract: Extractor)
    ensures forall p :: p in Paths(Collected(paths, extract)) <==>
                        p in paths && ExtractJsdocAndFunctions(extract, p) != []
    ensures forall e :: e in Collected(paths, extract) ==>
                        e.functions == ExtractJsdocAndFunctions(extract, e.path) && e.functions != []
  {
    if paths != [] {
      var init, last := paths[..|paths| - 1], paths[|paths| - 1];
      assert paths == init + [last];
      CollectedMembers(init, extract);
      var functions := ExtractJsdocAndFunctions(extract, last);
      if functions != [] {
        AssignPaths(Collected(init, extract), last, functions);
        AssignEntries(Collected(init, extract), last, functions);
      }
    }
  }

  lemma {:induction false} FilteredSnoc(paths: seq<string>, p: string, extract: Extractor)
    ensures Filtered(paths + [p], extract) ==
            Filtered(paths, extract) +
            (if ExtractJsdocAndFunctions(extract, p) != [] then [Entry(p, ExtractJsdocAndFunctions(extract, p))] else [])
  {
    if paths != [] {
      assert (paths + [p])[1..] == paths[1..] + [p];
      FilteredSnoc(paths[1..], p, extract);
    }
  }

  /**
    When every path is visited once, the dictionary is the visited files
    that have matches, in visit order: the sections come out in the order
    of the walk.
   */
  lemma {:induction false} CollectedInVisitOrder(paths: seq<string>, extract: Extractor)
    requires Distinct(paths)
    ensures Collected(paths, extract) == Filtered(paths, extract)
  {
    if paths != [] {
      var init, last := paths[..|paths| - 1], paths[|paths| - 1];
      assert paths == init + [last];
      CollectedInVisitOrder(init, extract);
      CollectedMembers(init, extract);
      FilteredSnoc(init, last, extract);
      var functions := ExtractJsdocAndFunctions(extract, last);
      if functions != [] {
        AssignNew(Collected(init, extract), last, functions);
      }
    }
  }

  /** Only names ending in '.ts' are scanned: a '.tsx' file adds no path. */
  lemma TsxSkipped(root: string, files: seq<string>, file: string)
    requires Strings.EndsWith(file, ".tsx")
    ensures !Strings.EndsWith(file, ".ts")
    ensures TsPaths(root, files + [file]) == TsPaths(root, files)
  {
    assert file[|file| - 1] == 'x';
    assert (files + [file])[..|files|] == files;
  }

  /** The scanned paths of a directory are exactly its '.ts' names joined to it. */
  lemma {:induction false} TsPathsMembers(root: string, files: seq<string>, p: string)
    ensures p in TsPaths(root, files) <==>
            exists k :: 0 <= k < |files| && Strings.EndsWith(files[k], ".ts") && p == PathJoin(root, files[k])
  {
    if files != [] {
      var init := files[..|files| - 1];
      TsPathsMembers(root, init, p);
      if p in TsPaths(root, init) {
        var k :| 0 <= k < |init| && Strings.EndsWith(init[k], ".ts") && p == PathJoin(root, init[k]);
        assert files[k] == init[k];
      }
      if exists k :: 0 <= k < |files| && Strings.EndsWith(files[k], ".ts") && p == PathJoin(root, files[k]) {
        var k :| 0 <= k < |files| && Strings.EndsWith(files[k], ".ts") && p == PathJoin(root, files[k]);
        if k < |init| { assert init[k] == files[k]; }
      }
    }
  }

  /** The page is the concatenation of the sections of its files, in dictionary order. */
  lemma {:induction false} SectionsAppend(a: seq<Entry>, b: seq<Entry>, relpath: string -> string)
    ensures Sections(a + b, relpath) == Sections(a, relpath) + Sections(b, relpath)
  {
    if b != [] {
      var init := b[..|b| - 1];
      assert (a + b)[..|a + b| - 1] == a + init;
      SectionsAppend(a, init, relpath);
      Strings.ConcatAssoc(Sections(a, relpath), Sections(init, relpath), Section(b[|b| - 1], relpath));
    } else {
      assert a + b == a;
    }
  }

  /** A section lists its functions in match order, each entry once. */
  lemma {:induction false} FunctionEntriesAppend(a: seq<FunctionDoc>, b: seq<FunctionDoc>)
    ensures FunctionEntries(a + b) == FunctionEntries(a) + FunctionEntries(b)
  {
    if b != [] {
      var init := b[..|b| - 1];
      assert (a + b)[..|a + b| - 1] == a + init;
      FunctionEntriesAppend(a, init);
      Strings.ConcatAssoc(FunctionEntries(a), FunctionEntries(init), FunctionEntry(b[|b| - 1]));
    } else {
      assert a + b == a;
    }
  }

  /** Every match of a file appears on the page as '### <name>', its JSDoc and a blank line. */
  lemma {:induction false} EveryFunctionListed(functions: seq<FunctionDoc>, f: FunctionDoc)
    requires f in functions
    ensures Strings.Includes(FunctionEntries(functions), "### " + f.name + "\n" + f.jsdoc + "\n\n")
  {
    var init, last := functions[..|functions| - 1], functions[|functions| - 1];
    if f == last {
      Strings.IncludesSelf(FunctionEntry(f));
      Strings.IncludesRight(FunctionEntries(init), FunctionEntry(f), FunctionEntry(f));
    } else {
      assert functions == init + [last];
      EveryFunctionListed(init, f);
      Strings.IncludesLeft(FunctionEntries(init), FunctionEntry(last), FunctionEntry(f));
    }
  }

  /** Every section of the dictionary is on the page body. */
  lemma {:induction false} SectionListed(d: seq<Entry>, e: Entry, relpath: string -> string)
    requires e in d
    ensures Strings.Includes(Sections(d, relpath), Section(e, relpath))
  {
    var init, last := d[..|d| - 1], d[|d| - 1];
    if e == last {
      Strings.IncludesSelf(Section(e, relpath));
      Strings.IncludesRight(Sections(init, relpath), Section(e, relpath), Section(e, relpath));
    } else {
      assert d == init + [last];
      SectionListed(init, e, relpath);
      Strings.IncludesLeft(Sections(init, relpath), Section(last, relpath), Section(e, relpath));
    }
  }

  /**
    Every function the extractor finds in a scanned `.ts` file appears on
    the generated page as its `### name` entry with the JSDoc below it.
   */
  lemma EveryFunctionOnPage(walk: seq<WalkEntry>, extract: Extractor, relpath: string -> string, p: string, f: FunctionDoc)
    requires p in ScannedPaths(walk) && f in ExtractJsdocAndFunctions(extract, p)
    ensures Strings.Includes(Markdown(walk, extract, relpath), "### " + f.name + "\n" + f.jsdoc + "\n\n")
  {
    var d := Collected(ScannedPaths(walk), extract);
    CollectedMembers(ScannedPaths(walk), extract);
    assert p in Paths(d);
    var i :| 0 <= i < |d| && Paths(d)[i] == p;
    var e := d[i];
    assert e in d && e.path == p;
    EveryFunctionListed(e.functions, f);
    Strings.IncludesRight("## " + relpath(e.path) + "\n", FunctionEntries(e.functions), FunctionEntry(f));
    SectionListed(d, e, relpath);
    Strings.IncludesTrans(Sections(d, relpath), Section(e, relpath), FunctionEntry(f));
    Strings.IncludesRight(Header, Sections(d, relpath), FunctionEntry(f));
  }

  /** The page begins with the title and a blank line, whatever the walk. */
  lemma HeaderFirst(walk: seq<WalkEntry>, extract: Extractor, relpath: string -> string)
    ensures |Markdown(walk, extract, relpath)| >= |Header|
    ensures Markdown(walk, extract, relpath)[..|Header|] == "# Functions Documentation\n\n"
    ensures walk == [] ==> Markdown(walk, extract, relpath) == "# Functions Documentation\n\n"
  {
  }

  /** The first half of `generate_functions_md`: the walk fills the dictionary. */
  method CollectFunctions(walk: seq<WalkEntry>, extract: Extractor) returns (allJsdocFunctions: seq<Entry>)
    ensures allJsdocFunctions == Collected(ScannedPaths(walk), extract)
  {
    allJsdocFunctions := [];
    for i := 0 to |walk|
      invariant allJsdocFunctions == Collected(ScannedPaths(walk[..i]), extract)
    {
      var root, files := walk[i].root, walk[i].files;
      ghost var scanned := ScannedPaths(walk[..i]);
      assert files[..0] == [];
      assert scanned + TsPaths(root, files[..0]) == scanned;
      for j := 0 to |files|
        invariant allJsdocFunctions == Collected(scanned + TsPaths(root, files[..j]), extract)
      {
        ghost var before := scanned + TsPaths(root, files[..j]);
        TsPathsSnoc(root, files, j);
        if Strings.EndsWith(files[j], ".ts") {
          var filePath := PathJoin(root, files[j]);
          assert scanned + TsPaths(root, files[..j + 1]) == before + [filePath];
          CollectedSnoc(before, filePath, extract);
          var functions := ExtractJsdocAndFunctions(extract, filePath);
          if functions != [] {
            allJsdocFunctions := Assign(allJsdocFunctions, filePath, functions);
          }
        } else {
          assert scanned + TsPaths(root, files[..j + 1]) == before;
        }
      }
      assert files[..|files|] == files;
      ScannedPathsSnoc(walk, i);
    }
    assert walk[..|walk|] == walk;
  }

  /** One file's section, appended to the page. */
  method AppendSection(mdContent: string, e: Entry, relpath: string -> string) returns (r: string)
    requires e.functions != []
    ensures r == mdContent + Section(e, relpath)
  {
    ghost var heading := "## " + relpath(e.path) + "\n";
    r := mdContent + "## " + relpath(e.path) + "\n";
    assert r == mdContent + heading;
    for j := 0 to |e.functions|
      invariant r == mdContent + (heading + FunctionEntries(e.functions[..j]))
    {
      FunctionEntriesSnoc(e.functions, j);
      ghost var current := r;
      r := r + "### " + e.functions[j].name + "\n";
      r := r + e.functions[j].jsdoc + "\n\n";
      assert r == current + FunctionEntry(e.functions[j]);
    }
    assert e.functions[..|e.functions|] == e.functions;
  }

  /** The second half: the page grows by one section per file that has functions. */
  method RenderSections(allJsdocFunctions: seq<Entry>, relpath: string -> string) returns (mdContent: string)
    ensures mdContent == Header + Sections(allJsdocFunctions, relpath)
  {
    mdContent := Header;
    for i := 0 to |allJsdocFunctions|
      invariant mdContent == Header + Sections(allJsdocFunctions[..i], relpath)
    {
      var e := allJsdocFunctions[i];
      SectionsSnoc(allJsdocFunctions, i, relpath);
      Strings.ConcatAssoc(Header, Sections(allJsdocFunctions[..i], relpath), Section(e, relpath));
      if e.functions != [] {
        mdContent := AppendSection(mdContent, e, relpath);
      } else {
        assert mdContent + Section(e, relpath) == mdContent;
      }
    }
    assert allJsdocFunctions[..|allJsdocFunctions|] == allJsdocFunctions;
  }

  /** `generate_functions_md` without the file write. */
  method GenerateFunctionsMd(walk: seq<WalkEntry>, extract: Extractor, relpath: string -> string) returns (mdContent: string)
    ensures mdContent == Markdown(walk, extract, relpath)
  {
    var allJsdocFunctions := CollectFunctions(walk, extract);
    mdContent := RenderSections(allJsdocFunctions, relpath);
  }
}
