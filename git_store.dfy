/**
  * The part of a GitHub repository the commit tools touch, as an object whose
  * state the tools change: the blob store, the commit graph, the branch refs
  * and the repository settings.  A blob's sha is its index in `blobs`, a
  * commit's sha its index in `commits`.  Only the operations the tools call
  * are modelled, with the semantics the tools rely on.
  */
module GitStore {
  import opened Common
  import opened Text
  import opened RepoSettings

  type Path = string
  type Sha = nat
  type CommitId = nat

  /** The mode of a regular, non-executable file in a git tree. */
  const REGULAR_FILE := "100644"
  /** The object type of a file entry in a git tree. */
  const BLOB := "blob"

  /** What a tree records for a path: its mode and the blob holding its content. */
  datatype FileRef = FileRef(mode: string, sha: Sha)

  /** A git tree, flattened: each file path names one entry. */
  type Tree = map<Path, FileRef>

  /** One element of the list passed to `create_git_tree`. */
  datatype TreeEntry = TreeEntry(path: Path, mode: string, kind: string, sha: Sha)

  datatype Commit = Commit(message: string, tree: Tree, parents: seq<CommitId>)

  function Paths(es: seq<TreeEntry>): set<Path> {
    set e | e in es :: e.path
  }

  predicate UniquePaths(es: seq<TreeEntry>) {
    forall i, j | 0 <= i < j < |es| :: es[i].path != es[j].path
  }

  /**
    * The tree `create_git_tree(es)` is taken to build: one entry per path.
    * Where a path is listed twice the later element wins; this is an
    * assumption of the model about the GitHub API, which the tools do not
    * fix (a real server could as well refuse such a request).
    */
  function ToTree(es: seq<TreeEntry>): (t: Tree)
    ensures t.Keys == Paths(es)
  {
    if es == [] then map[]
    else
      var last := es[|es| - 1];
      assert es == es[..|es| - 1] + [last];
      ToTree(es[..|es| - 1])[last.path := FileRef(last.mode, last.sha)]
  }

  /** Building from a concatenation overlays the second part on the first. */
  lemma {:induction false} ToTreeConcat(a: seq<TreeEntry>, b: seq<TreeEntry>)
    ensures ToTree(a + b) == ToTree(a) + ToTree(b)
  {
    if b != [] {
      var last := b[|b| - 1];
      assert (a + b)[..|a + b| - 1] == a + b[..|b| - 1];
      ToTreeConcat(a, b[..|b| - 1]);
    } else {
      assert a + b == a;
    }
  }

  /** With no repeated path, every element's own mode and sha end up in the tree. */
  lemma {:induction false} ToTreeAt(es: seq<TreeEntry>, i: nat)
    requires UniquePaths(es) && i < |es|
    ensures ToTree(es)[es[i].path] == FileRef(es[i].mode, es[i].sha)
  {
    if i < |es| - 1 {
      ToTreeAt(es[..|es| - 1], i);
    }
  }

  /** Every blob a tree names exists in a store of `n` blobs. */
  predicate TreeOk(t: Tree, n: nat) {
    forall p | p in t :: t[p].sha < n
  }

  /** The file contents a tree describes. */
  function ContentView(blobs: seq<string>, t: Tree): (files: map<Path, string>)
    requires TreeOk(t, |blobs|)
    ensures files.Keys == t.Keys
    ensures forall p | p in t :: files[p] == blobs[t[p].sha]
  {
    map p | p in t :: blobs[t[p].sha]
  }

  /** Appending blobs to the store does not change what an existing tree describes. */
  lemma ContentViewExtend(blobs: seq<string>, more: seq<string>, t: Tree)
    requires TreeOk(t, |blobs|)
    ensures TreeOk(t, |blobs + more|)
    ensures ContentView(blobs + more, t) == ContentView(blobs, t)
  {
  }

  /** The contents of an overlaid tree are the overlaid contents. */
  lemma ContentViewUnion(blobs: seq<string>, a: Tree, b: Tree)
    requires TreeOk(a, |blobs|) && TreeOk(b, |blobs|)
    ensures TreeOk(a + b, |blobs|)
    ensures ContentView(blobs, a + b) == ContentView(blobs, a) + ContentView(blobs, b)
  {
  }

  /** Setting one entry of a tree sets that path's content to its blob. */
  lemma ContentViewSet(blobs: seq<string>, t: Tree, p: Path, r: FileRef)
    requires TreeOk(t, |blobs|) && r.sha < |blobs|
    ensures TreeOk(t[p := r], |blobs|)
    ensures ContentView(blobs, t[p := r]) == ContentView(blobs, t)[p := blobs[r.sha]]
  {
  }

  /** One file write of a batch: a path and the content it should hold. */
  datatype Change = Change(path: Path, content: string)

  /** The files a list of writes leaves, the later write winning on a repeated path. */
  function WritesView(ws: seq<Change>): (files: map<Path, string>)
    ensures files.Keys == set w | w in ws :: w.path
  {
    if ws == [] then map[]
    else
      var last := ws[|ws| - 1];
      assert ws == ws[..|ws| - 1] + [last];
      WritesView(ws[..|ws| - 1])[last.path := last.content]
  }

  /** With no repeated path, each write's own content is what the path ends up holding. */
  lemma {:induction false} WritesViewAt(ws: seq<Change>, i: nat)
    requires i < |ws|
    requires forall j, k | 0 <= j < k < |ws| :: ws[j].path != ws[k].path
    ensures WritesView(ws)[ws[i].path] == ws[i].content
  {
    if i < |ws| - 1 {
      WritesViewAt(ws[..|ws| - 1], i);
    }
  }

  /** What `get_contents(path, ref=branch)` finds at a path. */
  datatype PathKind = Missing | File | Directory

  /** The directory `p` holds `q` (at any depth); the root `""` holds every path. */
  predicate Under(q: Path, p: Path) {
    p == "" || StartsWith(q, p + "/")
  }

  /**
    * `get_contents(p, ref=branch)` on the files of a branch (`None` when the
    * branch does not exist, which makes every lookup fail): a file, a
    * directory listing (the root, or a prefix of some file path), or a
    * `GithubException` (`Missing`).
    */
  function Kind<V>(files: Option<map<Path, V>>, p: Path): (k: PathKind)
    ensures k == File <==> files.Some? && p in files.value
    ensures k == Directory ==> files.Some? && p !in files.value
  {
    if files.None? then Missing
    else if p in files.value then File
    else if p == "" || exists q | q in files.value.Keys :: Under(q, p) then Directory
    else Missing
  }

  /**
    * A commit already in the list still describes the same files once more
    * commits and blobs were appended after the existing ones.
    */
  lemma OldCommitKept(oldBlobs: seq<string>, blobs: seq<string>, oldCommits: seq<Commit>, commits: seq<Commit>, c: nat)
    requires c < |oldCommits| <= |commits| && commits[..|oldCommits|] == oldCommits
    requires |oldBlobs| <= |blobs| && blobs[..|oldBlobs|] == oldBlobs
    requires TreeOk(oldCommits[c].tree, |oldBlobs|)
    ensures commits[c] == oldCommits[c]
    ensures ContentView(blobs, commits[c].tree) == ContentView(oldBlobs, oldCommits[c].tree)
  {
    assert commits[c] == commits[..|oldCommits|][c];
    ContentViewExtend(oldBlobs, blobs[|oldBlobs|..], oldCommits[c].tree);
    assert oldBlobs + blobs[|oldBlobs|..] == blobs;
  }

  /** The repository: the objects the git data API creates, its refs and its settings. */
  class Repository {
    var blobs: seq<string>
    var commits: seq<Commit>
    var branches: map<string, CommitId>
    var settings: Settings

    /** Refs point at existing commits; commits name earlier parents and existing blobs. */
    ghost predicate Valid()
      reads this
    {
      && (forall b | b in branches :: branches[b] < |commits|)
      && (forall i | 0 <= i < |commits| ::
            && (forall j | 0 <= j < |commits[i].parents| :: commits[i].parents[j] < i)
            && TreeOk(commits[i].tree, |blobs|))
    }

    /** The commit a branch points at. */
    function Tip(branch: string): (c: CommitId)
      reads this
      requires Valid() && branch in branches
      ensures c < |commits| && TreeOk(commits[c].tree, |blobs|)
    {
      branches[branch]
    }

    /** The tree of a branch's latest commit, if the branch exists. */
    function Snapshot(branch: string): (t: Option<Tree>)
      reads this
      requires Valid()
      ensures t.Some? <==> branch in branches
      ensures t.Some? ==> TreeOk(t.value, |blobs|)
    {
      if branch in branches then Some(commits[Tip(branch)].tree) else None
    }

    /** The file contents a branch holds, if the branch exists. */
    function Files(branch: string): (f: Option<map<Path, string>>)
      reads this
      requires Valid()
      ensures f.Some? <==> branch in branches
      ensures f.Some? ==> f.value.Keys == Snapshot(branch).value.Keys
    {
      if branch in branches then Some(ContentView(blobs, Snapshot(branch).value)) else None
    }

    /** A fresh repository: branch `main` at a root commit with an empty tree. */
    constructor (settings: Settings)
      ensures Valid()
      ensures blobs == [] && commits == [Commit("Initial commit", map[], [])]
      ensures branches == map["main" := 0] && this.settings == settings
    {
      blobs := [];
      commits := [Commit("Initial commit", map[], [])];
      branches := map["main" := 0];
      this.settings := settings;
    }

    /** `create_git_blob`: stores the content under a new sha. */
    method CreateBlob(content: string) returns (sha: Sha)
      requires Valid()
      modifies this
      ensures Valid()
      ensures blobs == old(blobs) + [content] && sha == |old(blobs)|
      ensures commits == old(commits) && branches == old(branches) && settings == old(settings)
    {
      sha := |blobs|;
      blobs := blobs + [content];
      forall i | 0 <= i < |commits| ensures TreeOk(commits[i].tree, |blobs|) {
        assert TreeOk(commits[i].tree, |old(blobs)|);
      }
    }

    /** `create_git_commit`: records a commit of `tree` on top of `parents`. */
    method CreateCommit(message: string, tree: Tree, parents: seq<CommitId>) returns (id: CommitId)
      requires Valid() && TreeOk(tree, |blobs|)
      requires forall j | 0 <= j < |parents| :: parents[j] < |commits|
      modifies this
      ensures Valid()
      ensures commits == old(commits) + [Commit(message, tree, parents)] && id == |old(commits)|
      ensures blobs == old(blobs) && branches == old(branches) && settings == old(settings)
    {
      id := |commits|;
      commits := commits + [Commit(message, tree, parents)];
    }

    /**
      * `ref.edit(sha)`: points the branch at the commit.  This is a plain
      * assignment; nothing compares the ref with the commit the caller read.
      */
    method EditRef(branch: string, id: CommitId)
      requires Valid() && id < |commits|
      modifies this
      ensures Valid()
      ensures branches == old(branches)[branch := id]
      ensures blobs == old(blobs) && commits == old(commits) && settings == old(settings)
    {
      branches := branches[branch := id];
    }

    /** `repo.edit(**params)`: applies the given settings. */
    method Edit(params: map<string, Value>)
      requires Valid()
      modifies this
      ensures Valid()
      ensures settings == Apply(old(settings), params)
      ensures blobs == old(blobs) && commits == old(commits) && branches == old(branches)
    {
      settings := Apply(settings, params);
    }

    /**
      * The new state after a tool committed `tree` with `message` on top of
      * the branch's previous tip and moved the branch to that commit; no
      * other ref changes.
      */
    ghost predicate CommittedOnto(oldCommits: seq<Commit>, oldBranches: map<string, CommitId>,
                                  branch: string, message: string, tree: Tree)
      reads this
      requires branch in oldBranches
    {
      && commits == oldCommits + [Commit(message, tree, [oldBranches[branch]])]
      && branches == oldBranches[branch := |oldCommits|]
    }

    /**
      * `update_file` / `create_file` of the contents API: one new blob and one
      * commit on the branch's tip whose tree differs from the tip's only at
      * `path`.  An existing entry keeps its mode; a new one is a regular file.
      */
    method PutFile(branch: string, path: Path, content: string, message: string)
      requires Valid() && branch in branches
      modifies this
      ensures Valid()
      ensures blobs == old(blobs) + [content]
      ensures CommittedOnto(old(commits), old(branches), branch, message,
                            old(Snapshot(branch).value)[path := FileRef(
                              if path in old(Snapshot(branch).value) then old(Snapshot(branch).value)[path].mode
                              else REGULAR_FILE,
                              |old(blobs)|)])
      ensures Files(branch) == Some(old(Files(branch).value)[path := content])
      ensures settings == old(settings)
    {
      var base := commits[branches[branch]].tree;
      ghost var oldFiles := Files(branch).value;
      var mode := if path in base then base[path].mode else REGULAR_FILE;
      var sha := CreateBlob(content);
      var tree := base[path := FileRef(mode, sha)];
      var id := CreateCommit(message, tree, [branches[branch]]);
      EditRef(branch, id);
      ContentViewExtend(old(blobs), [content], base);
      ContentViewSet(blobs, base, path, FileRef(mode, sha));
      assert Files(branch).value == ContentView(blobs, tree);
    }
  }
}
