/**
  * How the commit tools rebuild a tree: the recursive `get_all_files` walk
  * that lists every file of the branch and keeps those not excluded, the
  * blobs written for new content, and the listing of a folder that
  * `delete_folder` collects.
  */
module Synthesis {
  import opened Common
  import opened Text
  import opened GitStore

  /** The files of `files` whose path is not in `excluded`. */
  function Without(files: map<Path, string>, excluded: set<Path>): map<Path, string> {
    map p | p in files && p !in excluded :: files[p]
  }

  /** The tree the walk rebuilds: each file not excluded, same blob, as a regular file. */
  function KeptTree(tree: Tree, excluded: set<Path>): Tree {
    map p | p in tree && p !in excluded :: FileRef(REGULAR_FILE, tree[p].sha)
  }

  /** The rebuilt tree names the same blobs, so it describes the same contents minus the excluded paths. */
  lemma KeptTreeView(blobs: seq<string>, tree: Tree, excluded: set<Path>)
    requires TreeOk(tree, |blobs|)
    ensures TreeOk(KeptTree(tree, excluded), |blobs|)
    ensures ContentView(blobs, KeptTree(tree, excluded)) == Without(ContentView(blobs, tree), excluded)
  {
  }

  /**
    * The `get_all_files` walk followed by the filter: visits every file of
    * the tree once, in an order the model leaves open, and appends a
    * regular-file blob element for each path not in `excluded`, with the
    * sha it already has.
    */
  method CollectKept(tree: Tree, excluded: set<Path>) returns (es: seq<TreeEntry>)
    ensures UniquePaths(es)
    ensures forall i | 0 <= i < |es| :: es[i].mode == REGULAR_FILE && es[i].kind == BLOB
    ensures Paths(es) == tree.Keys - excluded
    ensures ToTree(es) == KeptTree(tree, excluded)
  {
    es := [];
    var remaining := tree.Keys;
    while remaining != {}
      invariant remaining <= tree.Keys
      invariant UniquePaths(es)
      invariant forall i | 0 <= i < |es| ::
        && es[i].mode == REGULAR_FILE && es[i].kind == BLOB
        && es[i].path in tree && es[i].sha == tree[es[i].path].sha
      invariant Paths(es) == (tree.Keys - remaining) - excluded
      decreases remaining
    {
      var p :| p in remaining;
      if p !in excluded {
        assert forall i | 0 <= i < |es| :: es[i].path != p by {
          forall i | 0 <= i < |es| ensures es[i].path != p {
            assert es[i] in es;
            assert es[i].path in Paths(es);
          }
        }
        PathsAppend(es, TreeEntry(p, REGULAR_FILE, BLOB, tree[p].sha));
        es := es + [TreeEntry(p, REGULAR_FILE, BLOB, tree[p].sha)];
      }
      remaining := remaining - {p};
    }
    forall p | p in ToTree(es) ensures ToTree(es)[p] == KeptTree(tree, excluded)[p] {
      var e :| e in es && e.path == p;
      var i :| 0 <= i < |es| && es[i] == e;
      ToTreeAt(es, i);
    }
  }

  lemma PathsAppend(es: seq<TreeEntry>, e: TreeEntry)
    ensures Paths(es + [e]) == Paths(es) + {e.path}
  {
    assert forall x | x in es + [e] :: x in es || x == e;
    assert forall x | x in es :: x in es + [e];
  }

  /** The contents of a list of writes, in order. */
  function Contents(ws: seq<Change>): (cs: seq<string>)
    ensures |cs| == |ws| && forall i | 0 <= i < |ws| :: cs[i] == ws[i].content
  {
    seq(|ws|, i requires 0 <= i < |ws| => ws[i].content)
  }

  /** The blob elements for writes whose blobs were stored at `first`, `first + 1`, ... */
  function EntriesFor(ws: seq<Change>, first: nat): (es: seq<TreeEntry>)
    ensures |es| == |ws|
    ensures forall i | 0 <= i < |ws| :: es[i] == TreeEntry(ws[i].path, REGULAR_FILE, BLOB, first + i)
  {
    if ws == [] then []
    else
      var n := |ws| - 1;
      EntriesFor(ws[..n], first) + [TreeEntry(ws[n].path, REGULAR_FILE, BLOB, first + n)]
  }

  /** Elements pointing at blobs that hold the written contents describe exactly the writes. */
  lemma {:induction false} EntriesView(blobs: seq<string>, ws: seq<Change>, first: nat)
    requires first + |ws| <= |blobs|
    requires forall i | 0 <= i < |ws| :: blobs[first + i] == ws[i].content
    ensures TreeOk(ToTree(EntriesFor(ws, first)), |blobs|)
    ensures ContentView(blobs, ToTree(EntriesFor(ws, first))) == WritesView(ws)
  {
    if ws != [] {
      var n := |ws| - 1;
      var prev := EntriesFor(ws[..n], first);
      var last := TreeEntry(ws[n].path, REGULAR_FILE, BLOB, first + n);
      EntriesView(blobs, ws[..n], first);
      assert (prev + [last])[..n] == prev;
      var r := FileRef(REGULAR_FILE, first + n);
      assert ToTree(EntriesFor(ws, first)) == ToTree(prev)[ws[n].path := r];
      assert WritesView(ws) == WritesView(ws[..n])[ws[n].path := ws[n].content];
      ContentViewSet(blobs, ToTree(prev), ws[n].path, r);
    }
  }

  /**
    * The `create_git_blob` loop: one blob per write, in order, and the
    * regular-file element naming each.
    */
  method WriteBlobs(repo: Repository, ws: seq<Change>) returns (es: seq<TreeEntry>)
    requires repo.Valid()
    modifies repo
    ensures repo.Valid()
    ensures repo.blobs == old(repo.blobs) + Contents(ws)
    ensures es == EntriesFor(ws, |old(repo.blobs)|)
    ensures repo.commits == old(repo.commits) && repo.branches == old(repo.branches)
    ensures repo.settings == old(repo.settings)
    ensures forall b | b in old(repo.branches) :: repo.Files(b) == old(repo.Files(b))
  {
    es := [];
    for i := 0 to |ws|
      invariant repo.Valid()
      invariant repo.blobs == old(repo.blobs) + Contents(ws[..i])
      invariant es == EntriesFor(ws[..i], |old(repo.blobs)|)
      invariant repo.commits == old(repo.commits) && repo.branches == old(repo.branches)
      invariant repo.settings == old(repo.settings)
    {
      var sha := repo.CreateBlob(ws[i].content);
      es := es + [TreeEntry(ws[i].path, REGULAR_FILE, BLOB, sha)];
      assert Contents(ws[..i + 1]) == Contents(ws[..i]) + [ws[i].content];
    }
    assert ws[..|ws|] == ws;
    assert repo.blobs[..|old(repo.blobs)|] == old(repo.blobs);
    assert repo.commits[..|repo.commits|] == repo.commits;
    forall b | b in old(repo.branches) ensures repo.Files(b) == old(repo.Files(b)) {
      OldCommitKept(old(repo.blobs), repo.blobs, repo.commits, repo.commits, repo.branches[b]);
    }
  }

  /**
    * The files `get_folder_files` collects for a path: the file itself, every
    * file below a directory, nothing when the lookup fails.
    */
  function FolderFileSet(files: Option<map<Path, string>>, p: Path): set<Path> {
    match Kind(files, p)
    case File => {p}
    case Directory => set q | q in files.value && Under(q, p)
    case Missing => {}
  }

  /** `get_folder_files(path)`: the recursive listing, each file once. */
  method ListFolder(files: Option<map<Path, string>>, p: Path) returns (paths: seq<Path>)
    ensures forall i, j | 0 <= i < j < |paths| :: paths[i] != paths[j]
    ensures forall q :: q in paths <==> q in FolderFileSet(files, p)
  {
    match Kind(files, p)
    case Missing => paths := [];
    case File => paths := [p];
    case Directory =>
      paths := [];
      var remaining := files.value.Keys;
      while remaining != {}
        invariant remaining <= files.value.Keys
        invariant forall i, j | 0 <= i < j < |paths| :: paths[i] != paths[j]
        invariant forall q :: q in paths <==> q in files.value && q !in remaining && Under(q, p)
        decreases remaining
      {
        var q :| q in remaining;
        if Under(q, p) {
          paths := paths + [q];
        }
        remaining := remaining - {q};
      }
  }
}
