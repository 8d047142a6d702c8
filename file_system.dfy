/**
 * The file system composite of `10_exercises/05_exercise.js`: files and
 * directories share one interface, a directory keeps its children in a
 * list it changes in place, and `showDetails` prints a component and,
 * for a directory, everything below it, each level indented two spaces
 * more. Children are objects, compared by identity. Console output is
 * returned as lines.
 */
module FileSystem {
  import opened Wrappers
  import Strings

  /** The classes: a `File` with its size in KB, a `Directory`, or the bare `FileSystemComponent`. */
  datatype Kind = File(size: int) | Directory | Abstract

  /** The error the bare component throws from `showDetails`. */
  const NotImplemented := "showDetails() must be implemented."

  /** A component object. Only a `Directory` has children. */
  class Component {
    const name: string
    const kind: Kind
    var children: seq<Component>

    /** `new FileSystemComponent(name)`. */
    constructor Abstract(name: string)
      ensures this.name == name && kind == Kind.Abstract && children == []
    {
      this.name, kind, children := name, Kind.Abstract, [];
    }

    /** `new File(name, size)`. */
    constructor File(name: string, size: int)
      ensures this.name == name && kind == Kind.File(size) && children == []
    {
      this.name, kind, children := name, Kind.File(size), [];
    }

    /** `new Directory(name)`: no children. */
    constructor Directory(name: string)
      ensures this.name == name && kind == Kind.Directory && children == []
    {
      this.name, kind, children := name, Kind.Directory, [];
    }

    /** `add(component)`: appends a child. */
    method Add(component: Component)
      requires kind == Kind.Directory
      modifies this
      ensures children == old(children) + [component]
    {
      children := children + [component];
    }

    /** `remove(component)`: keeps, in order, every child that is not this component. */
    method Remove(component: Component)
      requires kind == Kind.Directory
      modifies this
      ensures children == RemoveChild(old(children), component)
      ensures forall c :: c in children <==> c in old(children) && c != component
    {
      RemoveChildMembers(children, component);
      children := RemoveChild(children, component);
    }

    /**
     * `showDetails(indent)`: the lines printed and, when a bare component is
     * reached, the error it throws; a directory stops at the first child
     * that throws.
     */
    method ShowDetails(indent: string, ghost depth: nat) returns (lines: seq<string>, error: Option<string>)
      requires Finite(this, depth)
      ensures (lines, error) == Details(this, indent, depth)
      decreases depth, 1
    {
      match kind {
        case Abstract =>
          return [], Some(NotImplemented);
        case File(size) =>
          return [FileLine(indent, name, size)], None;
        case Directory =>
      }
      lines, error := [DirectoryLine(indent, name)], None;
      var shown: seq<string> := [];
      var i := 0;
      while i < |children| && error == None
        invariant 0 <= i <= |children|
        invariant error == None ==> (shown, error) == ChildrenDetails(children[..i], indent + "  ", depth - 1)
        invariant error != None ==> (shown, error) == ChildrenDetails(children, indent + "  ", depth - 1)
      {
        assert children[..i + 1][..i] == children[..i];
        var more, thrown := children[i].ShowDetails(indent + "  ", depth - 1);
        shown, error := shown + more, thrown;
        if error != None {
          ChildrenStop(children, i + 1, indent + "  ", depth - 1);
        }
        i := i + 1;
      }
      if error == None {
        assert children[..i] == children;
      }
      lines := lines + shown;
    }
  }

  /** `children.filter((child) => child !== component)`. */
  function RemoveChild(children: seq<Component>, component: Component): seq<Component> {
    if children == [] then []
    else if children[0] == component then RemoveChild(children[1..], component)
    else [children[0]] + RemoveChild(children[1..], component)
  }

  /** The children kept by `remove` are exactly those other than the component. */
  lemma {:induction false} RemoveChildMembers(children: seq<Component>, component: Component)
    ensures forall c :: c in RemoveChild(children, component) <==> c in children && c != component
  {
    if children != [] {
      RemoveChildMembers(children[1..], component);
      assert children == [children[0]] + children[1..];
    }
  }

  /** The component and everything below it lie within `depth` levels: the structure has no cycle. */
  ghost predicate Finite(c: Component, depth: nat)
    reads *
    decreases depth
  {
    c.kind == Kind.Directory ==>
      depth > 0 && forall k :: 0 <= k < |c.children| ==> Finite(c.children[k], depth - 1)
  }

  /** The line of a file. */
  function FileLine(indent: string, name: string, size: int): (line: string)
    ensures Strings.StartsWith(line, indent)
  {
    var rest := "File: " + name + " (Size: " + Strings.IntToString(size) + "KB)";
    Strings.StartsWithConcat(indent, rest);
    assert indent + "File: " + name + " (Size: " + Strings.IntToString(size) + "KB)" == indent + rest;
    indent + rest
  }

  /** The line of a directory. */
  function DirectoryLine(indent: string, name: string): (line: string)
    ensures Strings.StartsWith(line, indent)
  {
    Strings.StartsWithConcat(indent, "Directory: " + name);
    assert indent + "Directory: " + name == indent + ("Directory: " + name);
    indent + "Directory: " + name
  }

  /** What `showDetails(indent)` prints, and the error it throws if it throws. */
  ghost function Details(c: Component, indent: string, depth: nat): (seq<string>, Option<string>)
    requires Finite(c, depth)
    reads *
    decreases depth, 0
  {
    match c.kind
    case Abstract => ([], Some(NotImplemented))
    case File(size) => ([FileLine(indent, c.name, size)], None)
    case Directory =>
      var (below, error) := ChildrenDetails(c.children, indent + "  ", depth - 1);
      ([DirectoryLine(indent, c.name)] + below, error)
  }

  /** The `forEach` over the children: each child's lines in order, up to the first that throws. */
  ghost function ChildrenDetails(children: seq<Component>, indent: string, depth: nat): (seq<string>, Option<string>)
    requires forall k :: 0 <= k < |children| ==> Finite(children[k], depth)
    reads *
    decreases depth, 1, |children|
  {
    if children == [] then ([], None)
    else
      var (before, error) := ChildrenDetails(children[..|children| - 1], indent, depth);
      if error != None then (before, error)
      else
        var (last, lastError) := Details(children[|children| - 1], indent, depth);
        (before + last, lastError)
  }

  /** Once a child has thrown, the children after it add nothing. */
  lemma {:induction false} ChildrenStop(children: seq<Component>, n: nat, indent: string, depth: nat)
    requires n <= |children|
    requires forall k :: 0 <= k < |children| ==> Finite(children[k], depth)
    requires ChildrenDetails(children[..n], indent, depth).1 != None
    ensures ChildrenDetails(children, indent, depth) == ChildrenDetails(children[..n], indent, depth)
    decreases |children|
  {
    if n < |children| {
      var init := children[..|children| - 1];
      assert init[..n] == children[..n];
      ChildrenStop(init, n, indent, depth);
    } else {
      assert children[..n] == children;
    }
  }

  /** Every line starts with `indent`. */
  ghost predicate AllIndented(lines: seq<string>, indent: string) {
    forall k :: 0 <= k < |lines| ==> Strings.StartsWith(lines[k], indent)
  }

  /** Indented lines followed by indented lines are indented. */
  lemma AllIndentedAppend(a: seq<string>, b: seq<string>, indent: string)
    requires AllIndented(a, indent) && AllIndented(b, indent)
    ensures AllIndented(a + b, indent)
  {
    forall k | 0 <= k < |a + b|
      ensures Strings.StartsWith((a + b)[k], indent)
    {
      if k < |a| {
        assert (a + b)[k] == a[k];
      } else {
        assert (a + b)[k] == b[k - |a|];
      }
    }
  }

  /** Lines indented by `indent + "  "` are indented by `indent`. */
  lemma DeeperIndented(lines: seq<string>, indent: string)
    requires AllIndented(lines, indent + "  ")
    ensures AllIndented(lines, indent)
  {
    forall k | 0 <= k < |lines|
      ensures Strings.StartsWith(lines[k], indent)
    {
      Strings.StartsWithLonger(lines[k], indent, "  ");
    }
  }

  /**
   * Every line a component prints starts with its indent, and every line
   * printed for what is below a directory starts with the deeper indent.
   */
  lemma {:induction false} DetailsIndented(c: Component, indent: string, depth: nat)
    requires Finite(c, depth)
    ensures AllIndented(Details(c, indent, depth).0, indent)
    ensures c.kind == Kind.Directory ==>
      Details(c, indent, depth).0 != [] && AllIndented(Details(c, indent, depth).0[1..], indent + "  ")
    decreases depth, 0
  {
    if c.kind == Kind.Directory {
      var deeper := indent + "  ";
      ChildrenIndented(c.children, deeper, depth - 1);
      var lines := Details(c, indent, depth).0;
      var below := ChildrenDetails(c.children, deeper, depth - 1).0;
      assert lines == [DirectoryLine(indent, c.name)] + below && lines[1..] == below;
      DeeperIndented(below, indent);
      assert AllIndented([DirectoryLine(indent, c.name)], indent);
      AllIndentedAppend([DirectoryLine(indent, c.name)], below, indent);
    }
  }

  /** Every line printed for a list of children starts with the indent they are shown at. */
  lemma {:induction false} ChildrenIndented(children: seq<Component>, indent: string, depth: nat)
    requires forall k :: 0 <= k < |children| ==> Finite(children[k], depth)
    ensures AllIndented(ChildrenDetails(children, indent, depth).0, indent)
    decreases depth, 1, |children|
  {
    if children != [] {
      var init := children[..|children| - 1];
      ChildrenIndented(init, indent, depth);
      if ChildrenDetails(init, indent, depth).1 == None {
        var last := children[|children| - 1];
        DetailsIndented(last, indent, depth);
        AllIndentedAppend(ChildrenDetails(init, indent, depth).0, Details(last, indent, depth).0, indent);
      }
    }
  }

  /**
   * A directory of files prints its own line and one line per file, in
   * the order they were added.
   */
  lemma FilesOnly(dir: Component, indent: string, depth: nat)
    requires dir.kind == Kind.Directory && depth > 0
    requires forall k :: 0 <= k < |dir.children| ==> dir.children[k].kind.File?
    ensures Finite(dir, depth)
    ensures var (lines, error) := Details(dir, indent, depth);
      error == None && |lines| == |dir.children| + 1
  {
    FilesLines(dir.children, indent + "  ", depth - 1);
  }

  /** The lines of a list of files: one each, and no error. */
  lemma {:induction false} FilesLines(files: seq<Component>, indent: string, depth: nat)
    requires forall k :: 0 <= k < |files| ==> files[k].kind.File?
    ensures forall k :: 0 <= k < |files| ==> Finite(files[k], depth)
    ensures var (lines, error) := ChildrenDetails(files, indent, depth);
      error == None && |lines| == |files|
  {
    if files != [] {
      FilesLines(files[..|files| - 1], indent, depth);
    }
  }

  /** A root over two directories of files prints itself, then each directory with its files. */
  method ShowRoot(rootDir: Component, docsDir: Component, picsDir: Component) returns (lines: seq<string>, error: Option<string>)
    requires rootDir.kind == Kind.Directory && rootDir.children == [docsDir, picsDir]
    requires docsDir.kind == Kind.Directory && picsDir.kind == Kind.Directory
    requires forall k :: 0 <= k < |docsDir.children| ==> docsDir.children[k].kind.File?
    requires forall k :: 0 <= k < |picsDir.children| ==> picsDir.children[k].kind.File?
    ensures error == None && |lines| == 3 + |docsDir.children| + |picsDir.children|
  {
    FilesOnly(docsDir, "  ", 1);
    FilesOnly(picsDir, "  ", 1);
    var kids := rootDir.children;
    assert "" + "  " == "  ";
    assert kids[..1] == [docsDir] && kids[..1][..0] == [];
    var docs, pics := Details(docsDir, "  ", 1), Details(picsDir, "  ", 1);
    assert ChildrenDetails(kids[..1], "  ", 1) == ([] + docs.0, None);
    assert ChildrenDetails(kids, "  ", 1) == (([] + docs.0) + pics.0, None);
    lines, error := rootDir.ShowDetails("", 2);
  }

  /**
   * The client code: `Root` holding `Documents` (two files) and `Pictures`
   * (one file) prints six lines, the root first, and throws nothing.
   */
  method ClientCode() returns (lines: seq<string>, error: Option<string>)
    ensures error == None && |lines| == 6
  {
    var file1 := new Component.File("resume.pdf", 120);
    var file2 := new Component.File("photo.jpg", 200);
    var file3 := new Component.File("notes.txt", 30);
    var docsDir := new Component.Directory("Documents");
    docsDir.Add(file1);
    docsDir.Add(file3);
    var picsDir := new Component.Directory("Pictures");
    picsDir.Add(file2);
    var rootDir := new Component.Directory("Root");
    rootDir.Add(docsDir);
    rootDir.Add(picsDir);
    lines, error := ShowRoot(rootDir, docsDir, picsDir);
  }
}
