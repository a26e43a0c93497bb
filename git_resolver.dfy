/**
 * The part of the git resolver that needs no git: naming a project after
 * the directory of its repository root. Finding that root is an oracle.
 */
module GitResolver {
  import Paths

  /** `get_project_name_from_git_root`. */
  function ProjectNameFromGitRoot(gitRoot: string): (r: string)
    ensures r != ""
    ensures gitRoot == "" ==> r == "unknown"
    ensures gitRoot != "" && Paths.AllSlashes(gitRoot) ==> r == "root"
    ensures !Paths.AllSlashes(gitRoot) ==> r == Paths.Basename(Paths.RStripSlash(gitRoot))
  {
    if gitRoot == "" then "unknown"
    else if Paths.RStripSlash(gitRoot) == "" then "root"
    else
      var name := Paths.Basename(Paths.RStripSlash(gitRoot));
      if name == "" then "unknown" else name
  }

  /** The name ignores trailing slashes. */
  lemma TrailingSlashInsensitive(gitRoot: string)
    requires gitRoot != ""
    ensures ProjectNameFromGitRoot(gitRoot + "/") == ProjectNameFromGitRoot(gitRoot)
  {
    assert (gitRoot + "/")[..|gitRoot|] == gitRoot;
    assert Paths.RStripSlash(gitRoot + "/") == Paths.RStripSlash(gitRoot);
  }

  /** A root with a last component names the project after that component. */
  lemma LastComponent(parent: string, name: string)
    requires name != "" && forall i | 0 <= i < |name| :: name[i] != '/'
    ensures ProjectNameFromGitRoot(parent + "/" + name) == name
  {
    var p := parent + "/" + name;
    assert p[|p| - 1] == name[|name| - 1];
    assert Paths.RStripSlash(p) == p;
    Paths.BasenameAfterSlash(parent, name);
  }
}
