/** The error results the commit tools return as `{"error": message}`. */
module ToolErrors {
  import opened Text

  datatype ToolError =
    | GitHubError(operation: string)
    | TextNotFound(searchedFor: string)
    | AmbiguousMatch(occurrences: nat, searchedFor: string)
    | DestinationFileExists(path: string)
    | DuplicateSource(path: string)
    | DuplicateDestination(path: string)
    | SourceNotFound(path: string)
    | DestinationExists(path: string)
    | SameName
    | NameTaken(newName: string)
    | FolderNotFound(folder: string)

  /**
    * The `"error"` text of each case.  A `GithubException` caught by a tool is
    * reported as "Failed to <operation>: " followed by the exception's text,
    * which belongs to the library and is left out here.
    */
  function Message(e: ToolError): string {
    match e
    case GitHubError(op) => "Failed to " + op + ": "
    case TextNotFound(_) => "Text to replace not found in file. Make sure the text matches exactly."
    case AmbiguousMatch(n, _) =>
      "Found " + Decimal(n) + " occurrences of the text. Please be more specific to avoid unintended replacements."
    case DestinationFileExists(p) => "Destination file '" + p + "' already exists"
    case DuplicateSource(p) => "Duplicate source path: " + p
    case DuplicateDestination(p) => "Duplicate destination path: " + p
    case SourceNotFound(p) => "Source file not found: " + p
    case DestinationExists(p) => "Destination file already exists: " + p
    case SameName => "New name is the same as current name"
    case NameTaken(n) => "A file named '" + n + "' already exists in this location"
    case FolderNotFound(f) => "Folder '" + f + "' not found or is empty"
  }
}
