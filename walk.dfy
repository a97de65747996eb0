/**
 * The directory walk of the `_index_directory` methods: `os.walk(directory)`
 * yields one step per directory visited, and the nested loops join each
 * step's root with each of its file names, appending the paths in walk order.
 *
 * `os.walk` itself is a parameter of the callers; `os.path.join` is the
 * parameter `join`.
 */
module Walk {
  /** One step of `os.walk`: a directory visited and the names of the files directly in it. */
  datatype WalkStep = WalkStep(root: string, filenames: seq<string>)

  /** The paths the inner loop appends for one step. */
  function Joined(root: string, names: seq<string>, join: (string, string) -> string): seq<string>
    decreases |names|
  {
    if names == [] then []
    else Joined(root, names[..|names| - 1], join) + [join(root, names[|names| - 1])]
  }

  /** The list the two loops build: the paths of every step, step after step. */
  function Paths(steps: seq<WalkStep>, join: (string, string) -> string): seq<string>
    decreases |steps|
  {
    if steps == [] then []
    else
      var last := steps[|steps| - 1];
      Paths(steps[..|steps| - 1], join) + Joined(last.root, last.filenames, join)
  }

  /** How many files the steps list. */
  function FileCount(steps: seq<WalkStep>): nat
    decreases |steps|
  {
    if steps == [] then 0 else FileCount(steps[..|steps| - 1]) + |steps[|steps| - 1].filenames|
  }

  /** A step contributes one path per file name, in the order the names are listed. */
  lemma {:induction false} JoinedAt(root: string, names: seq<string>, join: (string, string) -> string)
    ensures |Joined(root, names, join)| == |names|
    ensures forall j :: 0 <= j < |names| ==> Joined(root, names, join)[j] == join(root, names[j])
    decreases |names|
  {
    if names != [] {
      var init := names[..|names| - 1];
      JoinedAt(root, init, join);
      forall j | 0 <= j < |names| - 1
        ensures Joined(root, names, join)[j] == join(root, names[j])
      {
        assert init[j] == names[j];
      }
    }
  }

  /** Walking `a` and then `b` lists the paths of `a` and then those of `b`. */
  lemma {:induction false} PathsAppend(a: seq<WalkStep>, b: seq<WalkStep>, join: (string, string) -> string)
    ensures Paths(a + b, join) == Paths(a, join) + Paths(b, join)
    decreases |b|
  {
    if b == [] {
      assert a + b == a;
    } else {
      assert (a + b)[..|a + b| - 1] == a + b[..|b| - 1];
      PathsAppend(a, b[..|b| - 1], join);
    }
  }

  /** The list holds one path per listed file. */
  lemma {:induction false} PathsCount(steps: seq<WalkStep>, join: (string, string) -> string)
    ensures |Paths(steps, join)| == FileCount(steps)
    decreases |steps|
  {
    if steps != [] {
      var last := steps[|steps| - 1];
      PathsCount(steps[..|steps| - 1], join);
      JoinedAt(last.root, last.filenames, join);
    }
  }

  /**
   * Walk order: file `j` of step `i` is joined with that step's root and
   * stands after the files of every earlier step.
   */
  lemma {:induction false} PathsAt(steps: seq<WalkStep>, join: (string, string) -> string, i: nat, j: nat)
    requires i < |steps| && j < |steps[i].filenames|
    ensures FileCount(steps[..i]) + j < |Paths(steps, join)|
    ensures Paths(steps, join)[FileCount(steps[..i]) + j] == join(steps[i].root, steps[i].filenames[j])
    decreases |steps|
  {
    var init := steps[..|steps| - 1];
    var last := steps[|steps| - 1];
    PathsCount(init, join);
    JoinedAt(last.root, last.filenames, join);
    if i == |steps| - 1 {
      assert steps[..i] == init;
    } else {
      PathsAt(init, join, i, j);
      assert init[..i] == steps[..i] && init[i] == steps[i];
    }
  }

  /** The two nested loops of `_index_directory` that collect the walked paths. */
  method CollectPaths(steps: seq<WalkStep>, join: (string, string) -> string) returns (files: seq<string>)
    ensures files == Paths(steps, join)
  {
    files := [];
    var i := 0;
    while i < |steps|
      invariant 0 <= i <= |steps|
      invariant files == Paths(steps[..i], join)
    {
      var step := steps[i];
      var j := 0;
      while j < |step.filenames|
        invariant 0 <= j <= |step.filenames|
        invariant files == Paths(steps[..i], join) + Joined(step.root, step.filenames[..j], join)
      {
        assert step.filenames[..j + 1][..j] == step.filenames[..j];
        files := files + [join(step.root, step.filenames[j])];
        j := j + 1;
      }
      assert step.filenames[..j] == step.filenames;
      assert steps[..i + 1][..i] == steps[..i];
      i := i + 1;
    }
    assert steps[..i] == steps;
  }
}
