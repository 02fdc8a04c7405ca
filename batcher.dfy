/**
 * The batch task queue of the batcher library: the same queue as the
 * top-level one, except that list_tree keeps every walked file, the
 * template path gets a '/' separator, and source_listing filters by the
 * configurable extension list `exts`.
 */
module Batcher {
  import opened Wrappers
  import opened Text
  import opened Batch

  /** `exts`: one extension as a string, or a list of them. */
  datatype Exts = ExtStr(e: string) | ExtList(es: seq<string>)

  /** The `tuple(exts)` endswith tests, a string counting as a one-item list. */
  function ExtSeq(exts: Exts): seq<string> {
    match exts
    case ExtStr(e) => [e]
    case ExtList(es) => es
  }

  /** Python truthiness of `exts`. */
  predicate Truthy(exts: Exts) {
    match exts
    case ExtStr(e) => e != ""
    case ExtList(es) => es != []
  }

  /** `item.endswith(tuple(exts))` */
  predicate EndsWithAny(item: string, exts: seq<string>) {
    exists k :: 0 <= k < |exts| && EndsWith(item, exts[k])
  }

  function KeepEnding(flist: seq<string>, exts: seq<string>): seq<string>
    decreases |flist|
  {
    if |flist| == 0 then []
    else KeepEnding(flist[..|flist| - 1], exts) + (if EndsWithAny(flist[|flist| - 1], exts) then [flist[|flist| - 1]] else [])
  }

  /** extfilter(flist) */
  function ExtFilter(exts: Exts, flist: seq<string>): seq<string> {
    if Truthy(exts) then KeepEnding(flist, ExtSeq(exts)) else flist
  }

  /** `s` is `t` with some items left out, order kept. */
  predicate SubseqOf(s: seq<string>, t: seq<string>)
    decreases |t|
  {
    if |t| == 0 then |s| == 0
    else (|s| > 0 && s[|s| - 1] == t[|t| - 1] && SubseqOf(s[..|s| - 1], t[..|t| - 1])) || SubseqOf(s, t[..|t| - 1])
  }

  /**
   * extfilter keeps, in order, exactly the items ending with one of the
   * extensions; with no extensions it returns the list unchanged.
   */
  lemma {:induction false} ExtFilterSpec(exts: Exts, flist: seq<string>)
    ensures SubseqOf(ExtFilter(exts, flist), flist)
    ensures Truthy(exts) ==> forall x :: x in ExtFilter(exts, flist) <==> x in flist && EndsWithAny(x, ExtSeq(exts))
    ensures !Truthy(exts) ==> ExtFilter(exts, flist) == flist
    decreases |flist|
  {
    if Truthy(exts) {
      KeepEndingSpec(flist, ExtSeq(exts));
    } else {
      SubseqRefl(flist);
    }
  }

  lemma {:induction false} KeepEndingSpec(flist: seq<string>, exts: seq<string>)
    ensures SubseqOf(KeepEnding(flist, exts), flist)
    ensures forall x :: x in KeepEnding(flist, exts) <==> x in flist && EndsWithAny(x, exts)
    decreases |flist|
  {
    if |flist| > 0 {
      var p := flist[..|flist| - 1];
      var x := flist[|flist| - 1];
      KeepEndingSpec(p, exts);
      var q := KeepEnding(p, exts);
      assert flist == p + [x];
      if EndsWithAny(x, exts) {
        assert KeepEnding(flist, exts) == q + [x];
        assert (q + [x])[..|q + [x]| - 1] == q;
        assert SubseqOf(q + [x], flist);
      } else {
        assert KeepEnding(flist, exts) == q;
        assert SubseqOf(q, flist);
      }
    }
  }

  lemma {:induction false} SubseqRefl(t: seq<string>)
    ensures SubseqOf(t, t)
    decreases |t|
  {
    if |t| > 0 {
      SubseqRefl(t[..|t| - 1]);
    }
  }

  /** A single extension string filters as the one-item list holding it. */
  lemma {:induction false} ExtStrAsList(e: string, flist: seq<string>)
    ensures ExtFilter(ExtStr(e), flist) == ExtFilter(ExtList([e]), flist)
  {
    if e == "" {
      KeepAllEmpty(flist);
    }
  }

  /** An empty extension matches every name, so `[""]` keeps everything. */
  lemma {:induction false} KeepAllEmpty(flist: seq<string>)
    ensures KeepEnding(flist, [""]) == flist
    decreases |flist|
  {
    if |flist| > 0 {
      KeepAllEmpty(flist[..|flist| - 1]);
      assert EndsWith(flist[|flist| - 1], [""][0]);
    }
  }

  /** list_tree(folder): every walked file, joined to its root. */
  function ListAll(fs: Listing, folder: string): seq<string> {
    WalkFiles(fs.walk(folder), "")
  }

  /** Every walked file is listed. */
  lemma {:induction false} ListAllSpec(fs: Listing, folder: string)
    ensures forall e :: e in fs.walk(folder) ==> PathJoin(e.0, e.1) in ListAll(fs, folder)
  {
    WalkFilesSpec(fs.walk(folder), "");
  }

  /** source_listing(): the files once each, the folder listings and the tree listings, through extfilter. */
  function FilteredListing(files: seq<string>, folders: seq<string>, trees: seq<string>, fs: Listing, exts: Exts): seq<string> {
    ExtFilter(exts, AddNew([], files) + AllOf(fs.listdir, folders) + AllOf(t => ListAll(fs, t), trees))
  }

  /** get_template: the path and the file name joined with '/'. */
  function TemplateWithSlash(path: string, file: string): (r: seq<string>)
    ensures |r| == 1 && |r[0]| == |TemplateOf(path, file)[0]| + 1
  {
    [path + "/" + file]
  }

  /** The two queues name different templates for the same settings: one leaves the '/' out. */
  lemma {:induction false} TemplatesDiffer(path: string, file: string)
    ensures TemplateWithSlash(path, file) != TemplateOf(path, file)
    ensures TemplateWithSlash(DefaultPath, DefaultFile) == ["/data/templates/gallery_css3.html"]
  {
    assert DefaultPath + "/" + DefaultFile == "/data/templates/gallery_css3.html";
  }

  class BatchProcess {
    var sourceFiles: seq<string>
    var sourceFolders: seq<string>
    var sourceTrees: seq<string>
    var tasks: seq<string>
    var errors: seq<(string, string)>
    var exts: Exts
    var templatePath: string
    var templateFile: string

    /** The three source lists are sets. */
    predicate Valid()
      reads this
    {
      Unique(sourceFiles) && Unique(sourceFolders) && Unique(sourceTrees)
    }

    constructor()
      ensures Valid()
      ensures sourceFiles == [] && sourceFolders == [] && sourceTrees == [] && tasks == [] && errors == []
      ensures exts == ExtList([".txt"])
      ensures templatePath == DefaultPath && templateFile == DefaultFile
    {
      sourceFiles, sourceFolders, sourceTrees := [], [], [];
      tasks, errors := [], [];
      exts := ExtList([".txt"]);
      templatePath, templateFile := DefaultPath, DefaultFile;
    }

    /** add_tree_files: every file of a tree joins the source files. */
    method AddTreeFiles(fs: Listing, folder: string)
      requires Valid()
      modifies this
      ensures Valid()
      ensures sourceFiles == AddNew(old(sourceFiles), ListAll(fs, folder))
      ensures sourceFolders == old(sourceFolders) && sourceTrees == old(sourceTrees)
      ensures tasks == old(tasks) && errors == old(errors) && exts == old(exts)
      ensures templatePath == old(templatePath) && templateFile == old(templateFile)
    {
      var files := ListTreeFiles(fs, folder, "");
      ghost var before := sourceFiles;
      var i := 0;
      while i < |files|
        invariant 0 <= i <= |files|
        invariant sourceFiles == AddNew(before, files[..i])
        invariant Unique(sourceFiles)
        invariant sourceFolders == old(sourceFolders) && sourceTrees == old(sourceTrees)
        invariant tasks == old(tasks) && errors == old(errors) && exts == old(exts)
        invariant templatePath == old(templatePath) && templateFile == old(templateFile)
      {
        assert files[..i + 1][..i] == files[..i];
        var fname := files[i];
        if fname !in sourceFiles {
          sourceFiles := sourceFiles + [fname];
        }
        i := i + 1;
      }
      assert files[..|files|] == files;
    }

    method ClearErrors()
      modifies this
      ensures errors == []
      ensures sourceFiles == old(sourceFiles) && sourceFolders == old(sourceFolders) && sourceTrees == old(sourceTrees)
      ensures tasks == old(tasks) && exts == old(exts)
      ensures templatePath == old(templatePath) && templateFile == old(templateFile)
    {
      errors := [];
    }

    method ClearSources()
      modifies this
      ensures Valid()
      ensures sourceFiles == [] && sourceFolders == [] && sourceTrees == []
      ensures tasks == old(tasks) && errors == old(errors) && exts == old(exts)
      ensures templatePath == old(templatePath) && templateFile == old(templateFile)
    {
      sourceFiles, sourceFolders, sourceTrees := [], [], [];
    }

    method ClearTasks()
      modifies this
      ensures tasks == []
      ensures sourceFiles == old(sourceFiles) && sourceFolders == old(sourceFolders) && sourceTrees == old(sourceTrees)
      ensures errors == old(errors) && exts == old(exts)
      ensures templatePath == old(templatePath) && templateFile == old(templateFile)
    {
      tasks := [];
    }

    /** clear: the sources, the tasks and the errors. */
    method Clear()
      modifies this
      ensures Valid()
      ensures sourceFiles == [] && sourceFolders == [] && sourceTrees == [] && tasks == [] && errors == []
      ensures exts == old(exts) && templatePath == old(templatePath) && templateFile == old(templateFile)
    {
      ClearSources();
      ClearTasks();
      ClearErrors();
    }

    /** extfilter(flist) with the configured extensions. */
    method ExtFilterList(flist: seq<string>) returns (r: seq<string>)
      ensures r == ExtFilter(exts, flist)
    {
      r := flist;
      if Truthy(exts) {
        var es := ExtSeq(exts);
        r := [];
        var i := 0;
        while i < |flist|
          invariant 0 <= i <= |flist|
          invariant r == KeepEnding(flist[..i], es)
        {
          assert flist[..i + 1][..i] == flist[..i];
          var item := flist[i];
          var keep := EndsWithOneOf(item, es);
          if keep {
            r := r + [item];
          }
          i := i + 1;
        }
        assert flist[..|flist|] == flist;
      }
    }

    method GetErrors() returns (r: seq<string>)
      ensures r == ErrorLines(errors)
    {
      r := [];
      var i := 0;
      while i < |errors|
        invariant 0 <= i <= |errors|
        invariant r == ErrorLines(errors[..i])
      {
        ErrorLinesStep(errors, i);
        r := r + [ErrorLine(errors[i])];
        i := i + 1;
      }
      assert errors[..|errors|] == errors;
    }

    function GetTemplate(): seq<string>
      reads this
    {
      TemplateWithSlash(templatePath, templateFile)
    }

    /** next: the first task leaves the queue and is returned for processing; an empty queue stays empty. */
    method Next() returns (task: Option<string>)
      modifies this
      ensures old(tasks) == [] ==> task == None && tasks == []
      ensures old(tasks) != [] ==> task == Some(old(tasks)[0]) && tasks == old(tasks)[1..]
      ensures sourceFiles == old(sourceFiles) && sourceFolders == old(sourceFolders) && sourceTrees == old(sourceTrees)
      ensures errors == old(errors) && exts == old(exts)
      ensures templatePath == old(templatePath) && templateFile == old(templateFile)
    {
      task := None;
      if |tasks| > 0 {
        task := Some(tasks[0]);
        tasks := tasks[1..];
      }
    }

    /** source_listing() */
    method SourceListing(fs: Listing) returns (r: seq<string>)
      ensures r == FilteredListing(sourceFiles, sourceFolders, sourceTrees, fs, exts)
    {
      r := [];
      var i := 0;
      while i < |sourceFiles|
        invariant 0 <= i <= |sourceFiles|
        invariant r == AddNew([], sourceFiles[..i])
      {
        AddNewStep(sourceFiles, i);
        if sourceFiles[i] !in r {
          r := r + [sourceFiles[i]];
        }
        i := i + 1;
      }
      assert sourceFiles[..|sourceFiles|] == sourceFiles;
      ghost var head := r;
      i := 0;
      while i < |sourceFolders|
        invariant 0 <= i <= |sourceFolders|
        invariant r == head + AllOf(fs.listdir, sourceFolders[..i])
      {
        AllOfStep(fs.listdir, sourceFolders, i, head);
        r := AppendEach(r, fs.listdir(sourceFolders[i]));
        i := i + 1;
      }
      assert sourceFolders[..|sourceFolders|] == sourceFolders;
      ghost var middle := r;
      i := 0;
      while i < |sourceTrees|
        invariant 0 <= i <= |sourceTrees|
        invariant r == middle + AllOf(t => ListAll(fs, t), sourceTrees[..i])
      {
        AllOfStep(t => ListAll(fs, t), sourceTrees, i, middle);
        var listed := ListTreeFiles(fs, sourceTrees[i], "");
        r := AppendEach(r, listed);
        i := i + 1;
      }
      assert sourceTrees[..|sourceTrees|] == sourceTrees;
      r := ExtFilterList(r);
    }

    /** queue: the errors are cleared and the tasks become the filtered source listing. */
    method Queue(fs: Listing)
      modifies this
      ensures errors == []
      ensures tasks == FilteredListing(sourceFiles, sourceFolders, sourceTrees, fs, exts)
      ensures sourceFiles == old(sourceFiles) && sourceFolders == old(sourceFolders) && sourceTrees == old(sourceTrees)
      ensures exts == old(exts) && templatePath == old(templatePath) && templateFile == old(templateFile)
    {
      ClearErrors();
      tasks := SourceListing(fs);
    }

    /** sources: files, then folders, then trees. */
    function Sources(): (r: seq<string>)
      reads this
      ensures forall x :: x in r <==> x in sourceFiles || x in sourceFolders || x in sourceTrees
      ensures |r| == |sourceFiles| + |sourceFolders| + |sourceTrees|
    {
      sourceFiles + sourceFolders + sourceTrees
    }

    /** task_names: one short name per task, in order. */
    function TaskNames(): (r: seq<string>)
      reads this
      ensures |r| == |tasks| && forall k :: 0 <= k < |r| ==> EndsWith(tasks[k], r[k]) && '/' !in r[k]
    {
      TaskNamesOf(tasks)
    }
  }

  /** `item.endswith(tuple(exts))`, one extension at a time. */
  method EndsWithOneOf(item: string, exts: seq<string>) returns (b: bool)
    ensures b == EndsWithAny(item, exts)
  {
    b := false;
    var k := 0;
    while k < |exts| && !b
      invariant 0 <= k <= |exts|
      invariant b == (exists j :: 0 <= j < k && EndsWith(item, exts[j]))
    {
      b := EndsWith(item, exts[k]);
      k := k + 1;
    }
  }
}
