/** The names of a worker's state file: filepath.Join of the state directory and the worker id. */
module Paths {
  import opened Strings

  /** A path from the root, component by component. */
  type Path = seq<string>

  /** filepath.Clean: empty components and "." are dropped, ".." takes back the component before it. */
  function Cleaned(dir: Path, parts: seq<string>): Path
    decreases |parts|
  {
    if parts == [] then dir
    else if parts[0] == "" || parts[0] == "." then Cleaned(dir, parts[1..])
    else if parts[0] == ".." then Cleaned(if dir == [] then [] else dir[..|dir| - 1], parts[1..])
    else Cleaned(dir + [parts[0]], parts[1..])
  }

  function FileOf(dir: Path, id: string): Path
  {
    Cleaned(dir, Split(id + ".json", '/'))
  }

  /** The file stands in the state directory itself, where the loader looks for it. */
  predicate TopLevel(dir: Path, id: string)
  {
    var file := FileOf(dir, id);
    |file| == |dir| + 1 && file[..|dir|] == dir
  }

  /** No two of these workers have the same file. */
  ghost predicate Apart(dir: Path, ids: set<string>)
  {
    forall v, w :: v in ids && w in ids && FileOf(dir, v) == FileOf(dir, w) ==> v == w
  }

  lemma {:induction false} NothingToSplit(s: string)
    requires '/' !in s
    ensures Split(s, '/') == [s]
  {
    if s != "" {
      NothingToSplit(s[1..]);
      assert [s[0]] + s[1..] == s;
    }
  }

  /** An id without slashes has a file of its own in the state directory. */
  lemma PlainId(dir: Path, id: string)
    requires '/' !in id
    ensures FileOf(dir, id) == dir + [id + ".json"] && TopLevel(dir, id)
  {
    var name := id + ".json";
    assert '/' !in ".json";
    NothingToSplit(name);
    assert |name| >= 5;
    assert Cleaned(dir + [name], []) == dir + [name];
    assert [name][1..] == [];
  }

  lemma PlainIdsAreApart(dir: Path, ids: set<string>)
    requires forall id :: id in ids ==> '/' !in id
    ensures Apart(dir, ids)
  {
    forall v, w | v in ids && w in ids && FileOf(dir, v) == FileOf(dir, w) ensures v == w {
      PlainId(dir, v);
      PlainId(dir, w);
      assert (dir + [v + ".json"])[|dir|] == v + ".json";
      assert (v + ".json")[..|v|] == v && (w + ".json")[..|w|] == w;
    }
  }

  lemma {:induction false} SplitFirst(a: string, rest: string)
    requires '/' !in a
    ensures Split(a + "/" + rest, '/') == [a] + Split(rest, '/')
  {
    var s := a + "/" + rest;
    if a == "" {
      assert s[1..] == rest;
    } else {
      SplitFirst(a[1..], rest);
      assert s[1..] == a[1..] + "/" + rest;
      assert [a[0]] + a[1..] == a;
    }
  }

  /** With a slash in between, the file stands below the state directory, where no loader looks for it. */
  lemma NestedId(dir: Path, a: string, b: string)
    requires '/' !in a && '/' !in b && a !in {"", ".", ".."}
    ensures FileOf(dir, a + "/" + b) == dir + [a, b + ".json"] && !TopLevel(dir, a + "/" + b)
  {
    PlainId(dir + [a], b);
    SplitFirst(a, b + ".json");
    assert a + "/" + b + ".json" == a + "/" + (b + ".json");
    var parts := Split(b + ".json", '/');
    assert ([a] + parts)[1..] == parts;
    assert dir + [a] + [b + ".json"] == dir + [a, b + ".json"];
  }

  /** "./" in front makes another id for the same file. */
  lemma DottedId(dir: Path, id: string)
    requires '/' !in id
    ensures FileOf(dir, "./" + id) == FileOf(dir, id)
  {
    SplitFirst(".", id + ".json");
    assert "./" + id + ".json" == "." + "/" + (id + ".json");
    var parts := Split(id + ".json", '/');
    assert (["."] + parts)[1..] == parts;
  }
}
