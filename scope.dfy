/**
 * The project-folder filter. Paths are already resolved (absolute, symlinks
 * followed) and split into their components; resolution itself is done by the
 * runtime, and a resolution that failed is `None`.
 */
module Scope {
  import opened Wrappers

  /** A resolved path as its sequence of components, e.g. ["/", "a", "proj", "x.py"]. */
  type Path = seq<string>

  /**
   * `path` lies in `folder` or is `folder` itself: the folder's components are
   * matched one by one against the path's leading components, which is how a
   * relative path from `folder` to `path` exists.
   */
  predicate IsUnder(folder: Path, path: Path): (r: bool)
    ensures r ==> |folder| <= |path|
    decreases |folder|
  {
    if folder == [] then true
    else if path == [] then false
    else folder[0] == path[0] && IsUnder(folder[1..], path[1..])
  }

  /** The component-wise walk agrees with "the folder is a prefix of the path". */
  lemma {:induction false} IsUnderIsPrefix(folder: Path, path: Path)
    ensures IsUnder(folder, path) <==> |folder| <= |path| && path[..|folder|] == folder
    decreases |folder|
  {
    if folder != [] && path != [] {
      IsUnderIsPrefix(folder[1..], path[1..]);
      if |folder| <= |path| {
        assert path[..|folder|] == [path[0]] + path[1..][..|folder| - 1];
        assert folder == [folder[0]] + folder[1..];
      }
    }
  }

  /** A path is under the folder exactly when it is the folder followed by further components. */
  lemma IsUnderIffExtends(folder: Path, path: Path)
    ensures IsUnder(folder, path) <==> exists rest: Path :: path == folder + rest
  {
    IsUnderIsPrefix(folder, path);
    if IsUnder(folder, path) {
      assert path == folder + path[|folder|..];
    }
  }

  /**
   * Whether a file belongs to the project: its path resolved and lies in the
   * project folder. A failed resolution counts as outside, never as an error.
   */
  function InScope(folder: Path, resolved: Option<Path>): (r: bool)
    ensures resolved.None? ==> !r
    ensures resolved.Some? ==> (r <==> exists rest: Path :: resolved.value == folder + rest)
  {
    match resolved
    case None => false
    case Some(path) => IsUnderIffExtends(folder, path); IsUnder(folder, path)
  }

  /** The project folder itself, and everything below it, is in scope. */
  lemma NestedInScope(folder: Path, rest: Path)
    ensures InScope(folder, Some(folder + rest))
  {
  }

  /**
   * A sibling directory is out of scope even when its name extends the folder's
   * last name as a string: the comparison is per component, not per character.
   */
  lemma {:induction false} SiblingNotInScope(parent: Path, dir: string, sibling: string, rest: Path)
    requires dir != sibling
    ensures !InScope(parent + [dir], Some(parent + [sibling] + rest))
  {
    var folder, path := parent + [dir], parent + [sibling] + rest;
    IsUnderIsPrefix(folder, path);
    assert path[|parent|] == sibling;
  }

  /** The concrete case: /a/proj2/x.py is not in the project /a/proj, while /a/proj/x.py is. */
  lemma ProjectTwoIsNotProject()
    ensures !InScope(["/", "a", "proj"], Some(["/", "a", "proj2", "x.py"]))
    ensures InScope(["/", "a", "proj"], Some(["/", "a", "proj", "x.py"]))
  {
  }
}
