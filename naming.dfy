/**
  * The path arithmetic of the tools: folder normalisation in
  * `create_folder` / `delete_folder` and the target path of `rename_file`.
  */
module Naming {
  import opened Text

  /** `if not folder_path.endswith('/'): folder_path += '/'`. */
  function NormalizeFolder(p: string): (r: string)
    ensures EndsWith(r, "/")
    ensures StartsWith(r, p) && |r| <= |p| + 1
    ensures EndsWith(p, "/") ==> r == p
    ensures !EndsWith(p, "/") ==> r == p + "/"
  {
    if EndsWith(p, "/") then p else p + "/"
  }

  /** Normalising a normalised folder path changes nothing. */
  lemma NormalizeFolderIdempotent(p: string)
    ensures NormalizeFolder(NormalizeFolder(p)) == NormalizeFolder(p)
  {
  }

  /** The marker file `create_folder` writes to make the folder exist. */
  function GitkeepPath(folder: string): (r: string)
    ensures StartsWith(r, NormalizeFolder(folder)) && EndsWith(r, "/.gitkeep")
    ensures |r| == |NormalizeFolder(folder)| + |".gitkeep"|
  {
    var f := NormalizeFolder(folder);
    Append(f, "/", ".gitkeep");
    f + ".gitkeep"
  }

  /** `current_name` and `new_path` of `rename_file`. */
  datatype RenameTarget = RenameTarget(currentName: string, newPath: string)

  /**
    * With a `/` in the path: the directory is the parts before the last
    * `/`, joined again, and the current name the last part; the new path is
    * the directory, `/`, and the new name.  Without one the file is at the
    * root and the new path is the new name.
    */
  function Rename(filePath: string, newName: string): RenameTarget {
    if '/' in filePath then
      CountCharIn(filePath, '/');
      var parts := Split(filePath, '/');
      var directory := Join(parts[..|parts| - 1], '/');
      RenameTarget(parts[|parts| - 1], directory + "/" + newName)
    else
      RenameTarget(filePath, newName)
  }

  /**
    * The path splits at its last `/` into a directory and the current name,
    * and the new path keeps that directory; a path with no `/` is its own
    * name and the new path is the new name alone.
    */
  lemma RenameKeepsDirectory(filePath: string, newName: string)
    ensures '/' !in Rename(filePath, newName).currentName
    ensures '/' in filePath ==>
      exists directory ::
        && filePath == directory + "/" + Rename(filePath, newName).currentName
        && Rename(filePath, newName).newPath == directory + "/" + newName
    ensures '/' !in filePath ==>
      Rename(filePath, newName).currentName == filePath && Rename(filePath, newName).newPath == newName
  {
    if '/' in filePath {
      var parts := Split(filePath, '/');
      CountCharIn(filePath, '/');
      SplitJoin(filePath, '/');
      JoinLast(parts, '/');
      var directory := Join(parts[..|parts| - 1], '/');
      assert filePath == directory + "/" + parts[|parts| - 1];
    }
  }

  /** The new path equals the old one exactly when the new name equals the current name. */
  lemma RenameMovesIffNameDiffers(filePath: string, newName: string)
    ensures Rename(filePath, newName).newPath == filePath <==> newName == Rename(filePath, newName).currentName
  {
    RenameKeepsDirectory(filePath, newName);
    var t := Rename(filePath, newName);
    if '/' in filePath {
      var directory :| filePath == directory + "/" + t.currentName && t.newPath == directory + "/" + newName;
      if t.newPath == filePath {
        assert newName == t.newPath[|directory| + 1..];
      }
    }
  }
}
