/**
  * The commit tools of the GitHub MCP server, each acting on one
  * repository: `edit_file`, `batch_update_files`, `delete_files_batch`,
  * `move_file`, `move_files_batch`, `rename_file`, `create_folder`,
  * `delete_folder` and `update_repo_settings`.  Every tool that commits puts
  * exactly one new commit on top of the branch's previous tip and points the
  * branch at it; every tool that fails leaves the repository as it was.
  */
module Tools {
  import opened Common
  import opened Text
  import opened RepoSettings
  import opened GitStore
  import opened Synthesis
  import opened ToolErrors
  import opened Moves
  import opened Edits
  import opened Naming

  /**
    * The dictionary a tool returns, reduced to the fields the model decides.
    * `Crashed` stands for an exception other than `GithubException`
    * escaping the tool (an `AttributeError` when a directory listing is used
    * where a file was expected).
    */
  datatype ToolResult =
    | Failed(error: ToolError)
    | Crashed
    | FileEdited(path: Path, linesChanged: int, charactersChanged: int, commit: CommitId)
    | BatchUpdated(filesChanged: nat, paths: seq<Path>, commit: CommitId)
    | FilesDeleted(filesDeleted: nat, deletedPaths: seq<Path>, commit: CommitId)
    | FileMoved(source: Path, destination: Path, message: string, commit: CommitId)
    | FilesMoved(filesMoved: nat, moves: seq<Move>, message: string, commit: CommitId)
    | FileRenamed(oldPath: Path, newPath: Path, oldName: string, newName: string, message: string, commit: CommitId)
    | FolderCreated(folderPath: Path, gitkeepPath: Path, message: string, commit: CommitId)
    | FolderDeleted(folderPath: Path, filesInFolder: nat, message: string, commit: CommitId)
    | NoChanges
    | RepositoryUpdated(newName: string, changes: seq<string>)

  /** The content `create_folder` writes into the marker file. */
  const GITKEEP_TEXT := "# This file exists to create the folder structure\n"

  /** Every entry of the tree is a regular file. */
  predicate AllRegular(t: Tree) {
    forall p | p in t :: t[p].mode == REGULAR_FILE
  }

  /**
    * One commit with `message` was added on top of the branch's previous tip,
    * the branch now points at it, and no other ref moved.
    */
  ghost predicate Advanced(repo: Repository, oldCommits: seq<Commit>, oldBranches: map<string, CommitId>,
                           branch: string, message: string)
    reads repo
    requires branch in oldBranches
  {
    && |repo.commits| == |oldCommits| + 1
    && repo.commits[..|oldCommits|] == oldCommits
    && repo.commits[|oldCommits|].message == message
    && repo.commits[|oldCommits|].parents == [oldBranches[branch]]
    && repo.branches == oldBranches[branch := |oldCommits|]
  }

  function ChangePaths(changes: seq<Change>): (ps: seq<Path>)
    ensures |ps| == |changes| && forall i | 0 <= i < |changes| :: ps[i] == changes[i].path
  {
    seq(|changes|, i requires 0 <= i < |changes| => changes[i].path)
  }

  /** `create_git_commit(message, tree, [latest_commit])` followed by `ref.edit(commit.sha)`. */
  method CommitTree(repo: Repository, branch: string, message: string, tree: Tree) returns (id: CommitId)
    requires repo.Valid() && branch in repo.branches && TreeOk(tree, |repo.blobs|)
    modifies repo
    ensures repo.Valid()
    ensures id == |old(repo.commits)|
    ensures Advanced(repo, old(repo.commits), old(repo.branches), branch, message)
    ensures repo.Snapshot(branch) == Some(tree)
    ensures forall b | b in old(repo.branches) && b != branch :: repo.Files(b) == old(repo.Files(b))
    ensures repo.blobs == old(repo.blobs) && repo.settings == old(repo.settings)
  {
    var parent := repo.branches[branch];
    id := repo.CreateCommit(message, tree, [parent]);
    repo.EditRef(branch, id);
    assert repo.commits[..|old(repo.commits)|] == old(repo.commits);
    assert repo.blobs[..|old(repo.blobs)|] == old(repo.blobs);
    forall b | b in old(repo.branches) && b != branch ensures repo.Files(b) == old(repo.Files(b)) {
      OldCommitKept(old(repo.blobs), repo.blobs, old(repo.commits), repo.commits, old(repo.branches)[b]);
    }
  }

  /**
    * The `update_file` / `create_file` call that `edit_file` and
    * `create_folder` make: one commit setting one path.  This is not the
    * `write_file` tool, which is not part of this model.
    */
  method CommitFile(repo: Repository, branch: string, path: Path, content: string, message: string)
    returns (id: CommitId)
    requires repo.Valid() && branch in repo.branches
    modifies repo
    ensures repo.Valid()
    ensures id == |old(repo.commits)|
    ensures Advanced(repo, old(repo.commits), old(repo.branches), branch, message)
    ensures repo.Files(branch) == Some(old(repo.Files(branch)).value[path := content])
    ensures forall b | b in old(repo.branches) && b != branch :: repo.Files(b) == old(repo.Files(b))
    ensures repo.blobs == old(repo.blobs) + [content] && repo.settings == old(repo.settings)
  {
    id := |repo.commits|;
    repo.PutFile(branch, path, content, message);
    assert repo.commits[..|old(repo.commits)|] == old(repo.commits);
    assert repo.blobs[..|old(repo.blobs)|] == old(repo.blobs);
    forall b | b in old(repo.branches) && b != branch ensures repo.Files(b) == old(repo.Files(b)) {
      OldCommitKept(old(repo.blobs), repo.blobs, old(repo.commits), repo.commits, old(repo.branches)[b]);
    }
  }

  /**
    * `edit_file`: reads the file, applies the occurrence guard, and on a
    * single occurrence writes the replaced content with `update_file`.
    */
  method EditFile(repo: Repository, path: Path, oldText: string, newText: string, message: string, branch: string)
    returns (r: ToolResult)
    requires repo.Valid()
    modifies repo
    ensures repo.Valid()
    ensures Kind(old(repo.Files(branch)), path) == Missing ==>
      r == Failed(GitHubError("edit file")) && unchanged(repo)
    ensures Kind(old(repo.Files(branch)), path) == Directory ==> r == Crashed && unchanged(repo)
    ensures Kind(old(repo.Files(branch)), path) == File ==>
      var current := old(repo.Files(branch)).value[path];
      match EditPlan(current, oldText, newText)
      case NotFound => r == Failed(TextNotFound(oldText)) && unchanged(repo)
      case Ambiguous(n) => r == Failed(AmbiguousMatch(n, oldText)) && unchanged(repo)
      case Replaced(content) =>
        && r == FileEdited(path, |Split(content, '\n')| - |Split(current, '\n')|, |content| - |current|,
                           |old(repo.commits)|)
        && Advanced(repo, old(repo.commits), old(repo.branches), branch, message)
        && repo.Files(branch) == Some(old(repo.Files(branch)).value[path := content])
        && (forall b | b in old(repo.branches) && b != branch :: repo.Files(b) == old(repo.Files(b)))
        && repo.blobs == old(repo.blobs) + [content] && repo.settings == old(repo.settings)
  {
    var files := repo.Files(branch);
    match Kind(files, path) {
      case Missing => return Failed(GitHubError("edit file"));
      case Directory => return Crashed;
      case File =>
    }
    var current := files.value[path];
    match EditPlan(current, oldText, newText) {
      case NotFound => r := Failed(TextNotFound(oldText));
      case Ambiguous(n) => r := Failed(AmbiguousMatch(n, oldText));
      case Replaced(content) =>
        var id := CommitFile(repo, branch, path, content, message);
        r := FileEdited(path, |Split(content, '\n')| - |Split(current, '\n')|, |content| - |current|, id);
    }
  }

  /**
    * `batch_update_files`: one blob per change, a tree over the tip's tree
    * with those entries, one commit.
    */
  method BatchUpdateFiles(repo: Repository, changes: seq<Change>, message: string, branch: string)
    returns (r: ToolResult)
    requires repo.Valid()
    modifies repo
    ensures repo.Valid()
    ensures branch !in old(repo.branches) ==> r == Failed(GitHubError("batch update files")) && unchanged(repo)
    ensures branch in old(repo.branches) ==>
      && r == BatchUpdated(|changes|, ChangePaths(changes), |old(repo.commits)|)
      && Advanced(repo, old(repo.commits), old(repo.branches), branch, message)
      && repo.Files(branch) == Some(old(repo.Files(branch)).value + WritesView(changes))
      && (forall i | 0 <= i < |changes| :: repo.Snapshot(branch).value[changes[i].path].mode == REGULAR_FILE)
      && (forall p | p in old(repo.Snapshot(branch)).value && p !in WritesView(changes) ::
            repo.Snapshot(branch).value[p] == old(repo.Snapshot(branch)).value[p])
      && (forall b | b in old(repo.branches) && b != branch :: repo.Files(b) == old(repo.Files(b)))
      && repo.blobs == old(repo.blobs) + Contents(changes) && repo.settings == old(repo.settings)
  {
    if branch !in repo.branches {
      return Failed(GitHubError("batch update files"));
    }
    var base := repo.commits[repo.branches[branch]].tree;
    BatchView(repo.blobs, changes, base);
    var es := WriteBlobs(repo, changes);
    var id := CommitTree(repo, branch, message, base + ToTree(es));
    r := BatchUpdated(|changes|, ChangePaths(changes), id);
  }

  /**
    * The tip's tree overlaid with one regular-file element per change, over
    * the store extended by the changes' contents: the old files with the
    * writes applied, every written path a regular file, every other entry
    * as it was.
    */
  lemma BatchView(blobs: seq<string>, changes: seq<Change>, base: Tree)
    requires TreeOk(base, |blobs|)
    ensures var t := base + ToTree(EntriesFor(changes, |blobs|));
      && TreeOk(t, |blobs + Contents(changes)|)
      && ContentView(blobs + Contents(changes), t) == ContentView(blobs, base) + WritesView(changes)
      && (forall i | 0 <= i < |changes| :: t[changes[i].path].mode == REGULAR_FILE)
      && (forall p | p in base && p !in WritesView(changes) :: t[p] == base[p])
  {
    var all := blobs + Contents(changes);
    var es := EntriesFor(changes, |blobs|);
    EntriesView(all, changes, |blobs|);
    ContentViewExtend(blobs, Contents(changes), base);
    ContentViewUnion(all, base, ToTree(es));
    ToTreeModes(es);
    forall i | 0 <= i < |changes| ensures changes[i].path in ToTree(es) {
      assert es[i] in es;
    }
  }

  /** Elements that are all regular files build a tree of regular files. */
  lemma {:induction false} ToTreeModes(es: seq<TreeEntry>)
    requires forall i | 0 <= i < |es| :: es[i].mode == REGULAR_FILE
    ensures AllRegular(ToTree(es))
  {
    if es != [] {
      ToTreeModes(es[..|es| - 1]);
    }
  }

  /**
    * `delete_files_batch`: walks every file of the branch, keeps those not
    * listed, and commits the tree of the kept files.  The reported count is
    * the number of paths asked for, whether or not they existed.
    */
  method DeleteFilesBatch(repo: Repository, paths: seq<Path>, message: string, branch: string)
    returns (r: ToolResult)
    requires repo.Valid()
    modifies repo
    ensures repo.Valid()
    ensures branch !in old(repo.branches) ==> r == Failed(GitHubError("batch delete files")) && unchanged(repo)
    ensures branch in old(repo.branches) ==>
      && r == FilesDeleted(|paths|, paths, |old(repo.commits)|)
      && Advanced(repo, old(repo.commits), old(repo.branches), branch, message)
      && repo.blobs == old(repo.blobs)
      && repo.Snapshot(branch) == Some(KeptTree(old(repo.Snapshot(branch)).value, set p | p in paths))
      && repo.Files(branch) == Some(Without(old(repo.Files(branch)).value, set p | p in paths))
      && (forall b | b in old(repo.branches) && b != branch :: repo.Files(b) == old(repo.Files(b)))
      && repo.settings == old(repo.settings)
  {
    if branch !in repo.branches {
      return Failed(GitHubError("batch delete files"));
    }
    var base := repo.commits[repo.branches[branch]].tree;
    var es := CollectKept(base, set p | p in paths);
    KeptTreeView(repo.blobs, base, set p | p in paths);
    var id := CommitTree(repo, branch, message, ToTree(es));
    r := FilesDeleted(|paths|, paths, id);
  }

  /**
    * The tree synthesis shared by `move_file`, `move_files_batch` and
    * `rename_file`: a blob per destination holding its source's content,
    * the walk keeping every file that is not a source, the destination
    * elements appended, one commit.
    */
  method CommitMoves(repo: Repository, branch: string, files: map<Path, string>, moves: seq<Move>,
                     contents: seq<string>, message: string)
    returns (id: CommitId, es: seq<TreeEntry>)
    requires repo.Valid() && repo.Files(branch) == Some(files)
    requires forall i | 0 <= i < |moves| :: moves[i].source in files
    requires |contents| == |moves|
    requires forall i | 0 <= i < |moves| :: contents[i] == files[moves[i].source]
    requires forall i, j | 0 <= i < j < |moves| :: moves[i].destination != moves[j].destination
    requires forall i | 0 <= i < |moves| :: moves[i].destination !in files.Keys - SourceSet(moves)
    modifies repo
    ensures repo.Valid()
    ensures id == |old(repo.commits)|
    ensures Advanced(repo, old(repo.commits), old(repo.branches), branch, message)
    ensures repo.blobs == old(repo.blobs) + contents
    ensures UniquePaths(es) && forall i | 0 <= i < |es| :: es[i].mode == REGULAR_FILE && es[i].kind == BLOB
    ensures repo.Snapshot(branch) == Some(ToTree(es)) && AllRegular(ToTree(es))
    ensures repo.Files(branch) == Some(MovedFiles(files, moves))
    ensures forall b | b in old(repo.branches) && b != branch :: repo.Files(b) == old(repo.Files(b))
    ensures repo.settings == old(repo.settings)
  {
    var base := repo.commits[repo.branches[branch]].tree;
    var ws := MoveWrites(files, moves);
    assert Contents(ws) == contents;
    MovedView(repo.blobs, contents, base, files, moves);
    MoveEntries(files, moves, |repo.blobs|);
    var added := WriteBlobs(repo, ws);
    var kept := CollectKept(base, SourceSet(moves));
    es := kept + added;
    KeptThenAdded(kept, added, moves, files.Keys, |old(repo.blobs)|);
    ToTreeConcat(kept, added);
    ToTreeModes(es);
    id := CommitTree(repo, branch, message, ToTree(es));
  }

  /** The element written for each move names its destination and the move's blob. */
  lemma MoveEntries(files: map<Path, string>, moves: seq<Move>, first: nat)
    requires forall i | 0 <= i < |moves| :: moves[i].source in files
    ensures var added := EntriesFor(MoveWrites(files, moves), first);
      |added| == |moves| &&
      forall i | 0 <= i < |moves| :: added[i] == TreeEntry(moves[i].destination, REGULAR_FILE, BLOB, first + i)
  {
  }

  /**
    * The elements name each path once (the kept paths are distinct, so are
    * the destinations, and no destination is a kept path), and all of them
    * are regular-file blobs.
    */
  lemma KeptThenAdded(kept: seq<TreeEntry>, added: seq<TreeEntry>, moves: seq<Move>, keys: set<Path>, first: nat)
    requires UniquePaths(kept) && forall i | 0 <= i < |kept| :: kept[i].mode == REGULAR_FILE && kept[i].kind == BLOB
    requires Paths(kept) == keys - SourceSet(moves)
    requires |added| == |moves|
    requires forall i | 0 <= i < |moves| :: added[i] == TreeEntry(moves[i].destination, REGULAR_FILE, BLOB, first + i)
    requires forall i, j | 0 <= i < j < |moves| :: moves[i].destination != moves[j].destination
    requires forall i | 0 <= i < |moves| :: moves[i].destination !in keys - SourceSet(moves)
    ensures UniquePaths(kept + added)
    ensures forall i | 0 <= i < |kept + added| :: (kept + added)[i].mode == REGULAR_FILE && (kept + added)[i].kind == BLOB
  {
    var es := kept + added;
    forall i, j | 0 <= i < j < |es| ensures es[i].path != es[j].path {
      if j >= |kept| && i < |kept| {
        assert es[i] in kept;
        assert es[i].path in Paths(kept);
        assert es[j].path == moves[j - |kept|].destination;
      } else if i >= |kept| {
        assert es[i].path == moves[i - |kept|].destination;
        assert es[j].path == moves[j - |kept|].destination;
      }
    }
  }

  /**
    * The kept tree overlaid with the destination elements, over a store
    * extended by the moved contents, describes exactly the moved files.
    */
  lemma MovedView(blobs: seq<string>, contents: seq<string>, base: Tree, files: map<Path, string>, moves: seq<Move>)
    requires TreeOk(base, |blobs|) && files == ContentView(blobs, base)
    requires forall i | 0 <= i < |moves| :: moves[i].source in files
    requires |contents| == |moves|
    requires forall i | 0 <= i < |moves| :: contents[i] == files[moves[i].source]
    ensures var added := ToTree(EntriesFor(MoveWrites(files, moves), |blobs|));
      && TreeOk(KeptTree(base, SourceSet(moves)) + added, |blobs + contents|)
      && ContentView(blobs + contents, KeptTree(base, SourceSet(moves)) + added) == MovedFiles(files, moves)
  {
    var ws := MoveWrites(files, moves);
    var all := blobs + contents;
    EntriesView(all, ws, |blobs|);
    ContentViewExtend(blobs, contents, base);
    KeptTreeView(all, base, SourceSet(moves));
    ContentViewUnion(all, KeptTree(base, SourceSet(moves)), ToTree(EntriesFor(ws, |blobs|)));
  }

  lemma SingleSourceSet(moves: seq<Move>)
    requires |moves| == 1
    ensures SourceSet(moves) == {moves[0].source}
  {
    assert moves[0].source in SourceSet(moves);
  }

  /** A single move leaves the files without the source, plus the destination with its content. */
  lemma SingleMove(files: map<Path, string>, source: Path, destination: Path)
    requires source in files
    ensures MovedFiles(files, [Move(source, destination)]) == Without(files, {source})[destination := files[source]]
  {
    var moves := [Move(source, destination)];
    SingleSourceSet(moves);
    var ws := MoveWrites(files, moves);
    assert ws == [] + [Change(destination, files[source])];
    assert WritesView(ws) == map[destination := files[source]];
  }

  /**
    * `move_file`: the source must be a file and the destination must not
    * exist; the destination then holds the source's content and the source
    * is gone.
    */
  method MoveFile(repo: Repository, source: Path, destination: Path, message: Option<string>, branch: string)
    returns (r: ToolResult)
    requires repo.Valid()
    modifies repo
    ensures repo.Valid()
    ensures Kind(old(repo.Files(branch)), source) == Missing ==>
      r == Failed(GitHubError("move file")) && unchanged(repo)
    ensures Kind(old(repo.Files(branch)), source) == Directory ==> r == Crashed && unchanged(repo)
    ensures Kind(old(repo.Files(branch)), source) == File && Kind(old(repo.Files(branch)), destination) != Missing ==>
      r == Failed(DestinationFileExists(destination)) && unchanged(repo)
    ensures Kind(old(repo.Files(branch)), source) == File && Kind(old(repo.Files(branch)), destination) == Missing ==>
      var msg := OrDefault(message, "Move " + source + " to " + destination);
      && r == FileMoved(source, destination, msg, |old(repo.commits)|)
      && Advanced(repo, old(repo.commits), old(repo.branches), branch, msg)
      && AllRegular(repo.Snapshot(branch).value)
      && repo.Files(branch) == Some(Without(old(repo.Files(branch)).value, {source})
                                      [destination := old(repo.Files(branch)).value[source]])
      && (forall b | b in old(repo.branches) && b != branch :: repo.Files(b) == old(repo.Files(b)))
      && repo.blobs == old(repo.blobs) + [old(repo.Files(branch)).value[source]]
      && repo.settings == old(repo.settings)
  {
    var msg := OrDefault(message, "Move " + source + " to " + destination);
    var files := repo.Files(branch);
    match Kind(files, source) {
      case Missing => return Failed(GitHubError("move file"));
      case Directory => return Crashed;
      case File =>
    }
    if Kind(files, destination) != Missing {
      return Failed(DestinationFileExists(destination));
    }
    var moves := [Move(source, destination)];
    SingleSourceSet(moves);
    var id, es := CommitMoves(repo, branch, files.value, moves, [files.value[source]], msg);
    SingleMove(files.value, source, destination);
    r := FileMoved(source, destination, msg, id);
  }

  /**
    * `move_files_batch`: validates every move first (nothing is written when
    * a move is rejected), then commits the moved files in one commit.
    */
  method MoveFilesBatch(repo: Repository, moves: seq<Move>, message: Option<string>, branch: string)
    returns (r: ToolResult)
    requires repo.Valid()
    modifies repo
    ensures repo.Valid()
    ensures MovesVerdict(old(repo.Files(branch)), moves).Rejected? ==>
      r == Failed(MovesVerdict(old(repo.Files(branch)), moves).error) && unchanged(repo)
    ensures MovesVerdict(old(repo.Files(branch)), moves) == SourceIsDirectory ==> r == Crashed && unchanged(repo)
    ensures MovesAccepted(old(repo.Files(branch)), moves) && branch !in old(repo.branches) ==>
      r == Failed(GitHubError("batch move files")) && unchanged(repo)
    ensures MovesAccepted(old(repo.Files(branch)), moves) && branch in old(repo.branches) ==>
      var msg := if message.Some? && message.value != "" then message.value else MoveSummary(moves);
      && r == FilesMoved(|moves|, moves, msg, |old(repo.commits)|)
      && Advanced(repo, old(repo.commits), old(repo.branches), branch, msg)
      && AllRegular(repo.Snapshot(branch).value)
      && repo.Files(branch) == Some(MovedFiles(old(repo.Files(branch)).value, moves))
      && (forall b | b in old(repo.branches) && b != branch :: repo.Files(b) == old(repo.Files(b)))
      && repo.blobs == old(repo.blobs) + Contents(MoveWrites(old(repo.Files(branch)).value, moves))
      && repo.settings == old(repo.settings)
  {
    var msg := if message.Some? && message.value != "" then message.value else MoveSummary(moves);
    var files := repo.Files(branch);
    AcceptedIff(files, moves);
    var v, contents := ValidateMoves(files, moves);
    match v {
      case Rejected(e) => return Failed(e);
      case SourceIsDirectory => return Crashed;
      case Accepted =>
    }
    if branch !in repo.branches {
      return Failed(GitHubError("batch move files"));
    }
    var id := CommitBatch(repo, branch, moves, contents, msg);
    r := FilesMoved(|moves|, moves, msg, id);
  }

  /** The writing half of `move_files_batch`, once every move passed validation. */
  method CommitBatch(repo: Repository, branch: string, moves: seq<Move>, contents: seq<string>, message: string)
    returns (id: CommitId)
    requires repo.Valid() && branch in repo.branches && MovesAccepted(repo.Files(branch), moves)
    requires |contents| == |moves|
    requires forall i | 0 <= i < |moves| :: contents[i] == repo.Files(branch).value[moves[i].source]
    modifies repo
    ensures repo.Valid()
    ensures id == |old(repo.commits)|
    ensures Advanced(repo, old(repo.commits), old(repo.branches), branch, message)
    ensures AllRegular(repo.Snapshot(branch).value)
    ensures repo.Files(branch) == Some(MovedFiles(old(repo.Files(branch)).value, moves))
    ensures forall b | b in old(repo.branches) && b != branch :: repo.Files(b) == old(repo.Files(b))
    ensures repo.blobs == old(repo.blobs) + Contents(MoveWrites(old(repo.Files(branch)).value, moves))
    ensures repo.settings == old(repo.settings)
  {
    var files := repo.Files(branch).value;
    DestinationsFresh(files, moves);
    var es;
    id, es := CommitMoves(repo, branch, files, moves, contents, message);
    assert Contents(MoveWrites(files, moves)) == contents;
  }

  /**
    * `rename_file`: the same name is refused before anything is read; the
    * file must exist and the new path must be free; the file is then moved
    * to its new name in the same directory.
    */
  method RenameFile(repo: Repository, filePath: Path, newName: string, message: Option<string>, branch: string)
    returns (r: ToolResult)
    requires repo.Valid()
    modifies repo
    ensures repo.Valid()
    ensures var t := Rename(filePath, newName);
      t.currentName == newName ==> r == Failed(SameName) && unchanged(repo)
    ensures var t := Rename(filePath, newName);
      t.currentName != newName && Kind(old(repo.Files(branch)), filePath) == Missing ==>
        r == Failed(GitHubError("rename file")) && unchanged(repo)
    ensures var t := Rename(filePath, newName);
      t.currentName != newName && Kind(old(repo.Files(branch)), filePath) == Directory ==>
        r == Crashed && unchanged(repo)
    ensures var t := Rename(filePath, newName);
      t.currentName != newName && Kind(old(repo.Files(branch)), filePath) == File
      && Kind(old(repo.Files(branch)), t.newPath) != Missing ==>
        r == Failed(NameTaken(newName)) && unchanged(repo)
    ensures var t := Rename(filePath, newName);
      t.currentName != newName && Kind(old(repo.Files(branch)), filePath) == File
      && Kind(old(repo.Files(branch)), t.newPath) == Missing ==>
        var msg := OrDefault(message, "Rename " + t.currentName + " to " + newName);
        && r == FileRenamed(filePath, t.newPath, t.currentName, newName, msg, |old(repo.commits)|)
        && Advanced(repo, old(repo.commits), old(repo.branches), branch, msg)
        && AllRegular(repo.Snapshot(branch).value)
        && repo.Files(branch) == Some(Without(old(repo.Files(branch)).value, {filePath})
                                        [t.newPath := old(repo.Files(branch)).value[filePath]])
        && (forall b | b in old(repo.branches) && b != branch :: repo.Files(b) == old(repo.Files(b)))
        && repo.blobs == old(repo.blobs) + [old(repo.Files(branch)).value[filePath]]
        && repo.settings == old(repo.settings)
  {
    var t := Rename(filePath, newName);
    var msg := OrDefault(message, "Rename " + t.currentName + " to " + newName);
    if t.currentName == newName {
      return Failed(SameName);
    }
    var files := repo.Files(branch);
    match Kind(files, filePath) {
      case Missing => return Failed(GitHubError("rename file"));
      case Directory => return Crashed;
      case File =>
    }
    if Kind(files, t.newPath) != Missing {
      return Failed(NameTaken(newName));
    }
    var moves := [Move(filePath, t.newPath)];
    SingleSourceSet(moves);
    var id, es := CommitMoves(repo, branch, files.value, moves, [files.value[filePath]], msg);
    SingleMove(files.value, filePath, t.newPath);
    r := FileRenamed(filePath, t.newPath, t.currentName, newName, msg, id);
  }

  /**
    * `create_folder`: normalises the folder path and creates its `.gitkeep`
    * with `create_file`, which refuses a missing branch or a path that is
    * already taken.
    */
  method CreateFolder(repo: Repository, folderPath: Path, message: Option<string>, branch: string)
    returns (r: ToolResult)
    requires repo.Valid()
    modifies repo
    ensures repo.Valid()
    ensures var gitkeep := GitkeepPath(folderPath);
      branch !in old(repo.branches) || Kind(old(repo.Files(branch)), gitkeep) != Missing ==>
        r == Failed(GitHubError("create folder")) && unchanged(repo)
    ensures var gitkeep := GitkeepPath(folderPath);
      branch in old(repo.branches) && Kind(old(repo.Files(branch)), gitkeep) == Missing ==>
        var folder := NormalizeFolder(folderPath);
        var msg := OrDefault(message, "Create folder " + folder);
        && r == FolderCreated(folder, gitkeep, msg, |old(repo.commits)|)
        && Advanced(repo, old(repo.commits), old(repo.branches), branch, msg)
        && repo.Files(branch) == Some(old(repo.Files(branch)).value[gitkeep := GITKEEP_TEXT])
        && (forall b | b in old(repo.branches) && b != branch :: repo.Files(b) == old(repo.Files(b)))
        && repo.blobs == old(repo.blobs) + [GITKEEP_TEXT] && repo.settings == old(repo.settings)
  {
    var folder := NormalizeFolder(folderPath);
    var gitkeep := GitkeepPath(folderPath);
    var msg := OrDefault(message, "Create folder " + folder);
    var files := repo.Files(branch);
    if branch !in repo.branches || Kind(files, gitkeep) != Missing {
      return Failed(GitHubError("create folder"));
    }
    var id := CommitFile(repo, branch, gitkeep, GITKEEP_TEXT, msg);
    r := FolderCreated(folder, gitkeep, msg, id);
  }

  /** A list without repeats has as many elements as the set of its elements. */
  lemma {:induction false} DistinctCard(s: seq<Path>)
    requires forall i, j | 0 <= i < j < |s| :: s[i] != s[j]
    ensures |set x | x in s| == |s|
  {
    if s != [] {
      var n := |s| - 1;
      DistinctCard(s[..n]);
      assert (set x | x in s) == (set x | x in s[..n]) + {s[n]};
      assert s[n] !in (set x | x in s[..n]);
    }
  }

  /**
    * `delete_folder`: lists the files below the folder (looking the path up
    * with its trailing slashes stripped) and deletes them with
    * `delete_files_batch`; an empty listing is an error.
    */
  method DeleteFolder(repo: Repository, folderPath: Path, message: Option<string>, branch: string)
    returns (r: ToolResult)
    requires repo.Valid()
    modifies repo
    ensures repo.Valid()
    ensures var folder := NormalizeFolder(folderPath);
      FolderFileSet(old(repo.Files(branch)), RStripChar(folder, '/')) == {} ==>
        r == Failed(FolderNotFound(folder)) && unchanged(repo)
    ensures var folder := NormalizeFolder(folderPath);
      var doomed := FolderFileSet(old(repo.Files(branch)), RStripChar(folder, '/'));
      doomed != {} ==>
        var msg := OrDefault(message, "Delete folder " + folder + " and all its contents");
        && branch in old(repo.branches)
        && r == FolderDeleted(folder, |doomed|, msg, |old(repo.commits)|)
        && Advanced(repo, old(repo.commits), old(repo.branches), branch, msg)
        && repo.Files(branch) == Some(Without(old(repo.Files(branch)).value, doomed))
        && (forall b | b in old(repo.branches) && b != branch :: repo.Files(b) == old(repo.Files(b)))
        && repo.blobs == old(repo.blobs) && repo.settings == old(repo.settings)
  {
    var folder := NormalizeFolder(folderPath);
    var msg := OrDefault(message, "Delete folder " + folder + " and all its contents");
    var filesInFolder := ListFolder(repo.Files(branch), RStripChar(folder, '/'));
    ghost var doomed := FolderFileSet(old(repo.Files(branch)), RStripChar(folder, '/'));
    if |filesInFolder| == 0 {
      return Failed(FolderNotFound(folder));
    }
    assert filesInFolder[0] in doomed;
    assert (set p | p in filesInFolder) == doomed;
    DistinctCard(filesInFolder);
    var result := DeleteFilesBatch(repo, filesInFolder, msg, branch);
    r := if result.FilesDeleted? then FolderDeleted(folder, |filesInFolder|, msg, result.commit) else result;
  }

  /**
    * `update_repo_settings`: nothing is edited when every requested value is
    * already in place; otherwise one `repo.edit` call sets exactly the
    * requested values, and each change is reported on its own line.
    */
  method UpdateRepoSettings(repo: Repository, req: SettingsRequest) returns (r: ToolResult)
    requires repo.Valid()
    modifies repo
    ensures repo.Valid()
    ensures (forall f :: Target(old(repo.settings), req, f) == Current(old(repo.settings), f)) ==>
      r == NoChanges && unchanged(repo)
    ensures !(forall f :: Target(old(repo.settings), req, f) == Current(old(repo.settings), f)) ==>
      && r == RepositoryUpdated(repo.settings.name, ChangeLines(old(repo.settings), req, FIELDS))
      && |r.changes| >= 1
      && (forall f :: Current(repo.settings, f) == Target(old(repo.settings), req, f))
      && repo.blobs == old(repo.blobs) && repo.commits == old(repo.commits) && repo.branches == old(repo.branches)
  {
    var params, changes := PlanUpdate(repo.settings, req);
    EmptyPlanIffSatisfied(repo.settings, req, params);
    if params == map[] {
      return NoChanges;
    }
    ApplyPlan(repo.settings, req, params);
    repo.Edit(params);
    r := RepositoryUpdated(repo.settings.name, changes);
  }
}
