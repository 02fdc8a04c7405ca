/**
 * The batch task queue of batch.py: source files, folders and trees (sets,
 * kept here in insertion order without duplicates), a FIFO list of tasks
 * and a list of errors. The file system enters as data: the names
 * os.listdir gives for a folder and the joined paths os.walk gives for a
 * tree. Calling the processing callback is left to the caller of Next.
 */
module Batch {
  import opened Wrappers
  import opened Text

  /** What the file system lists: the names os.listdir(folder) gives, and every (root, fname) pair os.walk(folder) visits, in order. */
  datatype Listing = Listing(listdir: string -> seq<string>, walk: string -> seq<(string, string)>)

  /** posixpath.join(a, b) of two parts. */
  function PathJoin(a: string, b: string): string {
    if |b| > 0 && b[0] == '/' then b
    else if a == "" || a[|a| - 1] == '/' then a + b
    else a + "/" + b
  }

  /** A joined path ends with its last part, and so with whatever that part ends with. */
  lemma {:induction false} PathJoinEnds(a: string, b: string, ext: string)
    requires EndsWith(b, ext)
    ensures EndsWith(PathJoin(a, b), b) && EndsWith(PathJoin(a, b), ext)
  {
    var j := PathJoin(a, b);
    assert j == (j[..|j| - |b|]) + b;
    assert j[|j| - |ext|..] == b[|b| - |ext|..];
  }

  /** No item occurs twice: what a Python set guarantees. */
  predicate Unique(xs: seq<string>) {
    forall i, j :: 0 <= i < j < |xs| ==> xs[i] != xs[j]
  }

  /** `for y in ys: if y not in xs: xs.add(y)`: the new items appended in order. */
  function AddNew(xs: seq<string>, ys: seq<string>): seq<string>
    decreases |ys|
  {
    if |ys| == 0 then xs
    else
      var p := AddNew(xs, ys[..|ys| - 1]);
      if ys[|ys| - 1] in p then p else p + [ys[|ys| - 1]]
  }

  /** Adding keeps the old items first and unique, and ends up with exactly the old and the new items. */
  lemma {:induction false} AddNewSpec(xs: seq<string>, ys: seq<string>)
    ensures xs <= AddNew(xs, ys)
    ensures Unique(xs) ==> Unique(AddNew(xs, ys))
    ensures forall x :: x in AddNew(xs, ys) <==> x in xs || x in ys
    decreases |ys|
  {
    if |ys| > 0 {
      AddNewSpec(xs, ys[..|ys| - 1]);
    }
  }

  /** The items ending with `ext`, in order. */
  function EndsFilter(items: seq<string>, ext: string): (r: seq<string>)
    ensures forall k :: 0 <= k < |r| ==> EndsWith(r[k], ext) && r[k] in items
    decreases |items|
  {
    if |items| == 0 then []
    else EndsFilter(items[..|items| - 1], ext) + (if EndsWith(items[|items| - 1], ext) then [items[|items| - 1]] else [])
  }

  /** Every item ending with `ext` is kept. */
  lemma {:induction false} EndsFilterKeeps(items: seq<string>, ext: string, k: nat)
    requires k < |items| && EndsWith(items[k], ext)
    ensures items[k] in EndsFilter(items, ext)
    decreases |items|
  {
    if k < |items| - 1 {
      EndsFilterKeeps(items[..|items| - 1], ext, k);
    }
  }

  /** The listings of several keys, one after the other. */
  function AllOf(f: string -> seq<string>, keys: seq<string>): seq<string>
    decreases |keys|
  {
    if |keys| == 0 then [] else AllOf(f, keys[..|keys| - 1]) + f(keys[|keys| - 1])
  }

  /** One more key adds its items at the end. */
  lemma {:induction false} AllOfStep(f: string -> seq<string>, keys: seq<string>, i: nat, head: seq<string>)
    requires i < |keys|
    ensures head + AllOf(f, keys[..i + 1]) == (head + AllOf(f, keys[..i])) + f(keys[i])
  {
    assert keys[..i + 1][..i] == keys[..i];
  }

  /** One more item is added unless it is already there. */
  lemma {:induction false} AddNewStep(ys: seq<string>, i: nat)
    requires i < |ys|
    ensures var p := AddNew([], ys[..i]);
      AddNew([], ys[..i + 1]) == if ys[i] in p then p else p + [ys[i]]
  {
    assert ys[..i + 1][..i] == ys[..i];
  }

  /** The joined paths of the walked files whose names end with `ext`. */
  function WalkFiles(entries: seq<(string, string)>, ext: string): (r: seq<string>)
    decreases |entries|
  {
    if |entries| == 0 then []
    else
      var e := entries[|entries| - 1];
      WalkFiles(entries[..|entries| - 1], ext) + (if EndsWith(e.1, ext) then [PathJoin(e.0, e.1)] else [])
  }

  /** list_tree(folder, ext) */
  function ListTree(fs: Listing, folder: string, ext: string): seq<string> {
    WalkFiles(fs.walk(folder), ext)
  }

  /** Every path list_tree gives ends with `ext`, and each walked file with that ending is listed. */
  lemma {:induction false} WalkFilesSpec(entries: seq<(string, string)>, ext: string)
    ensures forall k :: 0 <= k < |WalkFiles(entries, ext)| ==> EndsWith(WalkFiles(entries, ext)[k], ext)
    ensures forall e :: e in entries && EndsWith(e.1, ext) ==> PathJoin(e.0, e.1) in WalkFiles(entries, ext)
    decreases |entries|
  {
    if |entries| > 0 {
      var e := entries[|entries| - 1];
      var p := entries[..|entries| - 1];
      WalkFilesSpec(p, ext);
      if EndsWith(e.1, ext) {
        PathJoinEnds(e.0, e.1, ext);
      }
      assert entries == p + [e];
    }
  }

  /** The nested loop of list_tree over what os.walk visits. */
  method ListTreeFiles(fs: Listing, folder: string, ext: string) returns (r: seq<string>)
    ensures r == ListTree(fs, folder, ext)
  {
    var entries := fs.walk(folder);
    r := [];
    var i := 0;
    while i < |entries|
      invariant 0 <= i <= |entries|
      invariant r == WalkFiles(entries[..i], ext)
    {
      assert entries[..i + 1][..i] == entries[..i];
      var (root, fname) := entries[i];
      if EndsWith(fname, ext) {
        r := r + [PathJoin(root, fname)];
      }
      i := i + 1;
    }
    assert entries[..|entries|] == entries;
  }

  /** source_listing(ext): the source files once each, the folder listings, the tree listings, then the `ext` filter if `ext` is not empty. */
  function Listed(files: seq<string>, folders: seq<string>, trees: seq<string>, fs: Listing, ext: string): seq<string> {
    var all := AddNew([], files) + AllOf(fs.listdir, folders) + AllOf(t => ListTree(fs, t, ".txt"), trees);
    if ext != "" then EndsFilter(all, ext) else all
  }

  /** The error report line of one (path, error) pair. */
  function ErrorLine(e: (string, string)): string {
    Basename(e.0) + ":\n   " + e.1 + "\n"
  }

  function ErrorLines(es: seq<(string, string)>): (r: seq<string>)
    ensures |r| == |es|
    decreases |es|
  {
    if |es| == 0 then [] else ErrorLines(es[..|es| - 1]) + [ErrorLine(es[|es| - 1])]
  }

  lemma {:induction false} ErrorLinesStep(es: seq<(string, string)>, i: nat)
    requires i < |es|
    ensures ErrorLines(es[..i + 1]) == ErrorLines(es[..i]) + [ErrorLine(es[i])]
  {
    assert es[..i + 1][..i] == es[..i];
  }

  /** get_template: the path and the file name joined with no separator. */
  function TemplateOf(path: string, file: string): seq<string> {
    [path + file]
  }

  const DefaultPath: string := "/data/templates"
  const DefaultFile: string := "gallery_css3.html"

  /** The default template has no separator between its folder and its file name. */
  lemma {:induction false} DefaultTemplate()
    ensures TemplateOf(DefaultPath, DefaultFile) == ["/data/templatesgallery_css3.html"]
  {
    assert DefaultPath + DefaultFile == "/data/templatesgallery_css3.html";
  }

  /** The task shown for a path: os.path.basename. */
  function TaskNamesOf(tasks: seq<string>): (r: seq<string>)
    ensures |r| == |tasks|
    ensures forall k :: 0 <= k < |r| ==> r[k] == Basename(tasks[k]) && EndsWith(tasks[k], r[k]) && '/' !in r[k]
  {
    seq(|tasks|, k requires 0 <= k < |tasks| => Basename(tasks[k]))
  }

  /**
   * source_listing holds each source file once; with a non-empty `ext`
   * every item ends with it, and no item of the lists is lost but those
   * that do not.
   */
  lemma {:induction false} ListedShape(files: seq<string>, folders: seq<string>, trees: seq<string>, fs: Listing, ext: string)
    ensures Unique(AddNew([], files)) && forall x :: x in AddNew([], files) <==> x in files
    ensures ext == "" ==> (Listed(files, folders, trees, fs, ext) ==
      AddNew([], files) + AllOf(fs.listdir, folders) + AllOf(t => ListTree(fs, t, ".txt"), trees))
    ensures ext != "" ==> forall k :: 0 <= k < |Listed(files, folders, trees, fs, ext)| ==>
      EndsWith(Listed(files, folders, trees, fs, ext)[k], ext)
    ensures forall x :: x in files && EndsWith(x, ext) ==> x in Listed(files, folders, trees, fs, ext)
  {
    AddNewSpec([], files);
    var all := AddNew([], files) + AllOf(fs.listdir, folders) + AllOf(t => ListTree(fs, t, ".txt"), trees);
    forall x | x in files && EndsWith(x, ext) ensures x in Listed(files, folders, trees, fs, ext) {
      assert x in AddNew([], files);
      assert x in all;
      var k :| 0 <= k < |all| && all[k] == x;
      if ext != "" {
        EndsFilterKeeps(all, ext, k);
      }
    }
  }

  class BatchProcess {
    var sourceFiles: seq<string>
    var sourceFolders: seq<string>
    var sourceTrees: seq<string>
    var tasks: seq<string>
    var errors: seq<(string, string)>
    var templatePath: string
    var templateFile: string

    /** The three source lists are sets. */
    predicate Valid()
      reads this
    {
      Unique(sourceFiles) && Unique(sourceFolders) && Unique(sourceTrees)
    }

    constructor()
      ensures Valid()
      ensures sourceFiles == [] && sourceFolders == [] && sourceTrees == [] && tasks == [] && errors == []
      ensures templatePath == DefaultPath && templateFile == DefaultFile
    {
      sourceFiles, sourceFolders, sourceTrees := [], [], [];
      tasks, errors := [], [];
      templatePath, templateFile := DefaultPath, DefaultFile;
    }

    /** add_tree_files: the `.txt` files of a tree join the source files. */
    method AddTreeFiles(fs: Listing, folder: string)
      requires Valid()
      modifies this
      ensures Valid()
      ensures sourceFiles == AddNew(old(sourceFiles), ListTree(fs, folder, ".txt"))
      ensures sourceFolders == old(sourceFolders) && sourceTrees == old(sourceTrees)
      ensures tasks == old(tasks) && errors == old(errors)
      ensures templatePath == old(templatePath) && templateFile == old(templateFile)
    {
      var files := ListTreeFiles(fs, folder, ".txt");
      ghost var before := sourceFiles;
      var i := 0;
      while i < |files|
        invariant 0 <= i <= |files|
        invariant sourceFiles == AddNew(before, files[..i])
        invariant Unique(sourceFiles)
        invariant sourceFolders == old(sourceFolders) && sourceTrees == old(sourceTrees)
        invariant tasks == old(tasks) && errors == old(errors)
        invariant templatePath == old(templatePath) && templateFile == old(templateFile)
      {
        assert files[..i + 1][..i] == files[..i];
        var fname := files[i];
        if fname !in sourceFiles {
          sourceFiles := sourceFiles + [fname];
        }
        i := i + 1;
      }
      assert files[..|files|] == files;
    }

    method ClearErrors()
      modifies this
      ensures errors == []
      ensures sourceFiles == old(sourceFiles) && sourceFolders == old(sourceFolders) && sourceTrees == old(sourceTrees)
      ensures tasks == old(tasks) && templatePath == old(templatePath) && templateFile == old(templateFile)
    {
      errors := [];
    }

    method ClearSources()
      modifies this
      ensures Valid()
      ensures sourceFiles == [] && sourceFolders == [] && sourceTrees == []
      ensures tasks == old(tasks) && errors == old(errors)
      ensures templatePath == old(templatePath) && templateFile == old(templateFile)
    {
      sourceFiles, sourceFolders, sourceTrees := [], [], [];
    }

    method ClearTasks()
      modifies this
      ensures tasks == []
      ensures sourceFiles == old(sourceFiles) && sourceFolders == old(sourceFolders) && sourceTrees == old(sourceTrees)
      ensures errors == old(errors) && templatePath == old(templatePath) && templateFile == old(templateFile)
    {
      tasks := [];
    }

    /** clear: the sources, the tasks and the errors. */
    method Clear()
      modifies this
      ensures Valid()
      ensures sourceFiles == [] && sourceFolders == [] && sourceTrees == [] && tasks == [] && errors == []
      ensures templatePath == old(templatePath) && templateFile == old(templateFile)
    {
      ClearSources();
      ClearTasks();
      ClearErrors();
    }

    method GetErrors() returns (r: seq<string>)
      ensures r == ErrorLines(errors)
    {
      r := [];
      var i := 0;
      while i < |errors|
        invariant 0 <= i <= |errors|
        invariant r == ErrorLines(errors[..i])
      {
        ErrorLinesStep(errors, i);
        r := r + [ErrorLine(errors[i])];
        i := i + 1;
      }
      assert errors[..|errors|] == errors;
    }

    function GetTemplate(): seq<string>
      reads this
    {
      TemplateOf(templatePath, templateFile)
    }

    /** next: the first task leaves the queue and is returned for processing; an empty queue stays empty. */
    method Next() returns (task: Option<string>)
      modifies this
      ensures old(tasks) == [] ==> task == None && tasks == []
      ensures old(tasks) != [] ==> task == Some(old(tasks)[0]) && tasks == old(tasks)[1..]
      ensures sourceFiles == old(sourceFiles) && sourceFolders == old(sourceFolders) && sourceTrees == old(sourceTrees)
      ensures errors == old(errors) && templatePath == old(templatePath) && templateFile == old(templateFile)
    {
      task := None;
      if |tasks| > 0 {
        task := Some(tasks[0]);
        tasks := tasks[1..];
      }
    }

    /** source_listing(ext) */
    method SourceListing(fs: Listing, ext: string) returns (r: seq<string>)
      ensures r == Listed(sourceFiles, sourceFolders, sourceTrees, fs, ext)
    {
      r := [];
      var i := 0;
      while i < |sourceFiles|
        invariant 0 <= i <= |sourceFiles|
        invariant r == AddNew([], sourceFiles[..i])
      {
        AddNewStep(sourceFiles, i);
        if sourceFiles[i] !in r {
          r := r + [sourceFiles[i]];
        }
        i := i + 1;
      }
      assert sourceFiles[..|sourceFiles|] == sourceFiles;
      ghost var head := r;
      i := 0;
      while i < |sourceFolders|
        invariant 0 <= i <= |sourceFolders|
        invariant r == head + AllOf(fs.listdir, sourceFolders[..i])
      {
        AllOfStep(fs.listdir, sourceFolders, i, head);
        r := AppendEach(r, fs.listdir(sourceFolders[i]));
        i := i + 1;
      }
      assert sourceFolders[..|sourceFolders|] == sourceFolders;
      ghost var middle := r;
      i := 0;
      while i < |sourceTrees|
        invariant 0 <= i <= |sourceTrees|
        invariant r == middle + AllOf(t => ListTree(fs, t, ".txt"), sourceTrees[..i])
      {
        AllOfStep(t => ListTree(fs, t, ".txt"), sourceTrees, i, middle);
        var listed := ListTreeFiles(fs, sourceTrees[i], ".txt");
        r := AppendEach(r, listed);
        i := i + 1;
      }
      assert sourceTrees[..|sourceTrees|] == sourceTrees;
      if ext != "" {
        r := FilterEnds(r, ext);
      }
    }

    /** queue: the errors are cleared and the tasks become the `.txt` source listing. */
    method Queue(fs: Listing)
      modifies this
      ensures errors == []
      ensures tasks == Listed(sourceFiles, sourceFolders, sourceTrees, fs, ".txt")
      ensures sourceFiles == old(sourceFiles) && sourceFolders == old(sourceFolders) && sourceTrees == old(sourceTrees)
      ensures templatePath == old(templatePath) && templateFile == old(templateFile)
    {
      ClearErrors();
      tasks := SourceListing(fs, ".txt");
    }

    /** sources: files, then folders, then trees. */
    function Sources(): (r: seq<string>)
      reads this
      ensures forall x :: x in r <==> x in sourceFiles || x in sourceFolders || x in sourceTrees
      ensures |r| == |sourceFiles| + |sourceFolders| + |sourceTrees|
    {
      sourceFiles + sourceFolders + sourceTrees
    }

    /** task_names: one short name per task, in order. */
    function TaskNames(): (r: seq<string>)
      reads this
      ensures |r| == |tasks| && forall k :: 0 <= k < |r| ==> EndsWith(tasks[k], r[k]) && '/' !in r[k]
    {
      TaskNamesOf(tasks)
    }
  }

  /** `for fname in names: result.append(fname)` */
  method AppendEach(r: seq<string>, names: seq<string>) returns (out: seq<string>)
    ensures out == r + names
  {
    out := r;
    var j := 0;
    while j < |names|
      invariant 0 <= j <= |names|
      invariant out == r + names[..j]
    {
      assert names[..j + 1] == names[..j] + [names[j]];
      out := out + [names[j]];
      j := j + 1;
    }
    assert names[..|names|] == names;
  }

  /** `[item for item in result if item.endswith(ext)]` */
  method FilterEnds(items: seq<string>, ext: string) returns (out: seq<string>)
    ensures out == EndsFilter(items, ext)
  {
    out := [];
    var j := 0;
    while j < |items|
      invariant 0 <= j <= |items|
      invariant out == EndsFilter(items[..j], ext)
    {
      assert items[..j + 1][..j] == items[..j];
      if EndsWith(items[j], ext) {
        out := out + [items[j]];
      }
      j := j + 1;
    }
    assert items[..|items|] == items;
  }
}
