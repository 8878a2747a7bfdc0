/**
  * `move_files_batch`: the validation pass over the requested moves, the
  * default commit message, and the files the batch leaves behind.  `move_file`
  * and `rename_file` leave the files a one-move batch leaves.
  */
module Moves {
  import opened Common
  import opened Text
  import opened GitStore
  import opened Synthesis
  import opened ToolErrors

  /** One requested move: `{"source": ..., "destination": ...}`. */
  datatype Move = Move(source: Path, destination: Path)

  function Sources(ms: seq<Move>): (ps: seq<Path>)
    ensures |ps| == |ms| && forall i | 0 <= i < |ms| :: ps[i] == ms[i].source
  {
    seq(|ms|, i requires 0 <= i < |ms| => ms[i].source)
  }

  function Destinations(ms: seq<Move>): (ps: seq<Path>)
    ensures |ps| == |ms| && forall i | 0 <= i < |ms| :: ps[i] == ms[i].destination
  {
    seq(|ms|, i requires 0 <= i < |ms| => ms[i].destination)
  }

  function SourceSet(ms: seq<Move>): set<Path> {
    set i | 0 <= i < |ms| :: ms[i].source
  }

  function DestinationSet(ms: seq<Move>): set<Path> {
    set i | 0 <= i < |ms| :: ms[i].destination
  }

  /**
    * How validation ends: every move passed, one was rejected with an error
    * result, or a source named a directory (its listing has no `encoding`,
    * and the `AttributeError` escapes the tool).
    */
  datatype Verdict = Accepted | Rejected(error: ToolError) | SourceIsDirectory

  /** The checks made for `moves[i]`, in the tool's order, once the earlier moves passed. */
  function CheckMove(files: Option<map<Path, string>>, moves: seq<Move>, i: nat): Verdict
    requires i < |moves|
  {
    var m := moves[i];
    if m.source in Sources(moves[..i]) then Rejected(DuplicateSource(m.source))
    else if m.destination in Destinations(moves[..i]) then Rejected(DuplicateDestination(m.destination))
    else
      match Kind(files, m.source)
      case Missing => Rejected(SourceNotFound(m.source))
      case Directory => SourceIsDirectory
      case File =>
        if m.destination !in Sources(moves[..i + 1]) && Kind(files, m.destination) != Missing
        then Rejected(DestinationExists(m.destination))
        else Accepted
  }

  /** The verdict of the moves from `i` on: the first check that fails, or `Accepted`. */
  function VerdictFrom(files: Option<map<Path, string>>, moves: seq<Move>, i: nat): Verdict
    requires i <= |moves|
    decreases |moves| - i
  {
    if i == |moves| then Accepted
    else if CheckMove(files, moves, i) != Accepted then CheckMove(files, moves, i)
    else VerdictFrom(files, moves, i + 1)
  }

  lemma {:induction false} VerdictAccepted(files: Option<map<Path, string>>, moves: seq<Move>, i: nat)
    requires i <= |moves|
    ensures VerdictFrom(files, moves, i) == Accepted <==>
      forall j | i <= j < |moves| :: CheckMove(files, moves, j) == Accepted
    decreases |moves| - i
  {
    if i < |moves| && CheckMove(files, moves, i) == Accepted {
      VerdictAccepted(files, moves, i + 1);
    }
  }

  lemma {:induction false} VerdictFirstFailure(files: Option<map<Path, string>>, moves: seq<Move>, i: nat)
    requires i <= |moves| && VerdictFrom(files, moves, i) != Accepted
    ensures exists j | i <= j < |moves| ::
      && VerdictFrom(files, moves, i) == CheckMove(files, moves, j)
      && forall k | i <= k < j :: CheckMove(files, moves, k) == Accepted
    decreases |moves| - i
  {
    if CheckMove(files, moves, i) != Accepted {
      assert VerdictFrom(files, moves, i) == CheckMove(files, moves, i);
    } else {
      VerdictFirstFailure(files, moves, i + 1);
      var j :| i + 1 <= j < |moves|
        && VerdictFrom(files, moves, i + 1) == CheckMove(files, moves, j)
        && forall k | i + 1 <= k < j :: CheckMove(files, moves, k) == Accepted;
      assert forall k | i <= k < j :: CheckMove(files, moves, k) == Accepted;
    }
  }

  /**
    * The verdict is `Accepted` exactly when every move passes its checks, and
    * otherwise it is the result of the first move that does not.
    */
  lemma VerdictFromFirstFailure(files: Option<map<Path, string>>, moves: seq<Move>, i: nat)
    requires i <= |moves|
    ensures VerdictFrom(files, moves, i) == Accepted <==>
      forall j | i <= j < |moves| :: CheckMove(files, moves, j) == Accepted
    ensures VerdictFrom(files, moves, i) != Accepted ==>
      exists j | i <= j < |moves| ::
        && VerdictFrom(files, moves, i) == CheckMove(files, moves, j)
        && forall k | i <= k < j :: CheckMove(files, moves, k) == Accepted
  {
    VerdictAccepted(files, moves, i);
    if VerdictFrom(files, moves, i) != Accepted {
      VerdictFirstFailure(files, moves, i);
    }
  }

  /** The outcome of validating the whole list. */
  function MovesVerdict(files: Option<map<Path, string>>, moves: seq<Move>): Verdict {
    VerdictFrom(files, moves, 0)
  }

  /**
    * The validation loop: `source_paths` and `dest_paths` grow as moves pass,
    * and `contents` plays the part of `file_contents`, holding each
    * source's content in move order (its keys, the destinations, are
    * distinct once validation passes).
    */
  method ValidateMoves(files: Option<map<Path, string>>, moves: seq<Move>) returns (v: Verdict, contents: seq<string>)
    ensures v == MovesVerdict(files, moves)
    ensures v == Accepted ==>
      && |contents| == |moves|
      && forall i | 0 <= i < |moves| ::
           files.Some? && moves[i].source in files.value && contents[i] == files.value[moves[i].source]
  {
    var sourcePaths: seq<Path> := [];
    var destPaths: seq<Path> := [];
    contents := [];
    for i := 0 to |moves|
      invariant sourcePaths == Sources(moves[..i]) && destPaths == Destinations(moves[..i])
      invariant VerdictFrom(files, moves, 0) == VerdictFrom(files, moves, i)
      invariant |contents| == i
      invariant forall j | 0 <= j < i ::
        files.Some? && moves[j].source in files.value && contents[j] == files.value[moves[j].source]
    {
      var source, dest := moves[i].source, moves[i].destination;
      if source in sourcePaths {
        return Rejected(DuplicateSource(source)), contents;
      }
      if dest in destPaths {
        return Rejected(DuplicateDestination(dest)), contents;
      }
      assert Sources(moves[..i + 1]) == sourcePaths + [source];
      assert Destinations(moves[..i + 1]) == destPaths + [dest];
      sourcePaths := sourcePaths + [source];
      destPaths := destPaths + [dest];
      match Kind(files, source) {
        case Missing => return Rejected(SourceNotFound(source)), contents;
        case Directory => return SourceIsDirectory, contents;
        case File =>
      }
      contents := contents + [files.value[source]];
      if dest !in sourcePaths && Kind(files, dest) != Missing {
        return Rejected(DestinationExists(dest)), contents;
      }
    }
    v := Accepted;
  }

  /**
    * The conditions validation enforces, stated for the whole list: sources
    * distinct, destinations distinct, every source a file, and every
    * destination either one of the sources up to and including its own move,
    * or absent from the branch.
    */
  predicate MovesAccepted(files: Option<map<Path, string>>, moves: seq<Move>) {
    && (forall i, j | 0 <= i < j < |moves| :: moves[i].source != moves[j].source)
    && (forall i, j | 0 <= i < j < |moves| :: moves[i].destination != moves[j].destination)
    && (forall i | 0 <= i < |moves| :: Kind(files, moves[i].source) == File)
    && (forall i | 0 <= i < |moves| ::
          || (exists j | 0 <= j <= i :: moves[j].source == moves[i].destination)
          || Kind(files, moves[i].destination) == Missing)
  }

  lemma PrefixMembership(ms: seq<Move>, i: nat, p: Path)
    requires i <= |ms|
    ensures p in Sources(ms[..i]) <==> exists j | 0 <= j < i :: ms[j].source == p
    ensures p in Destinations(ms[..i]) <==> exists j | 0 <= j < i :: ms[j].destination == p
  {
    if p in Sources(ms[..i]) {
      var k :| 0 <= k < i && Sources(ms[..i])[k] == p;
    }
    if exists j | 0 <= j < i :: ms[j].source == p {
      var j :| 0 <= j < i && ms[j].source == p;
      assert Sources(ms[..i])[j] == p;
    }
    if p in Destinations(ms[..i]) {
      var k :| 0 <= k < i && Destinations(ms[..i])[k] == p;
    }
    if exists j | 0 <= j < i :: ms[j].destination == p {
      var j :| 0 <= j < i && ms[j].destination == p;
      assert Destinations(ms[..i])[j] == p;
    }
  }

  /** The checks of one move, stated without the prefix sequences. */
  lemma CheckMoveIff(files: Option<map<Path, string>>, moves: seq<Move>, i: nat)
    requires i < |moves|
    ensures CheckMove(files, moves, i) == Accepted <==>
      && (forall j | 0 <= j < i :: moves[j].source != moves[i].source)
      && (forall j | 0 <= j < i :: moves[j].destination != moves[i].destination)
      && Kind(files, moves[i].source) == File
      && ((exists j | 0 <= j <= i :: moves[j].source == moves[i].destination)
          || Kind(files, moves[i].destination) == Missing)
  {
    PrefixMembership(moves, i, moves[i].source);
    PrefixMembership(moves, i, moves[i].destination);
    PrefixMembership(moves, i + 1, moves[i].destination);
  }

  /** Validation passes exactly when the declarative conditions hold. */
  lemma AcceptedIff(files: Option<map<Path, string>>, moves: seq<Move>)
    ensures MovesVerdict(files, moves) == Accepted <==> MovesAccepted(files, moves)
  {
    VerdictFromFirstFailure(files, moves, 0);
    forall i | 0 <= i < |moves|
      ensures CheckMove(files, moves, i) == Accepted <==>
        && (forall j | 0 <= j < i :: moves[j].source != moves[i].source)
        && (forall j | 0 <= j < i :: moves[j].destination != moves[i].destination)
        && Kind(files, moves[i].source) == File
        && ((exists j | 0 <= j <= i :: moves[j].source == moves[i].destination)
            || Kind(files, moves[i].destination) == Missing)
    {
      CheckMoveIff(files, moves, i);
    }
    if MovesAccepted(files, moves) {
      forall i | 0 <= i < |moves| ensures CheckMove(files, moves, i) == Accepted {
        assert forall j | 0 <= j < i :: moves[j].source != moves[i].source;
        assert forall j | 0 <= j < i :: moves[j].destination != moves[i].destination;
      }
    }
    if MovesVerdict(files, moves) == Accepted {
      forall i, j | 0 <= i < j < |moves| ensures moves[i].source != moves[j].source {
        assert CheckMove(files, moves, j) == Accepted;
      }
      forall i, j | 0 <= i < j < |moves| ensures moves[i].destination != moves[j].destination {
        assert CheckMove(files, moves, j) == Accepted;
      }
    }
  }

  /**
    * Order matters: with files `a` and `b`, moving `b` to `c` and then `a` to
    * `b` is accepted, while moving `a` to `b` first is rejected because `b`
    * exists and is not yet among the sources.
    */
  lemma ValidationIsOrderSensitive()
    ensures MovesVerdict(Some(map["a" := "A", "b" := "B"]), [Move("b", "c"), Move("a", "b")]) == Accepted
    ensures MovesVerdict(Some(map["a" := "A", "b" := "B"]), [Move("a", "b"), Move("b", "c")])
            == Rejected(DestinationExists("b"))
  {
    var files := Some(map["a" := "A", "b" := "B"]);
    assert !Under("a", "c") && !Under("b", "c") by {
      assert ("a")[0] != ("c/")[0] && ("b")[0] != ("c/")[0];
    }
    assert Kind(files, "c") == Missing;
    var ok := [Move("b", "c"), Move("a", "b")];
    assert Sources(ok[..0]) == [] && Destinations(ok[..0]) == [];
    assert Sources(ok[..1]) == ["b"] && Destinations(ok[..1]) == ["c"];
    assert Sources(ok[..2]) == ["b", "a"];
    assert CheckMove(files, ok, 0) == Accepted;
    assert CheckMove(files, ok, 1) == Accepted;
    var bad := [Move("a", "b"), Move("b", "c")];
    assert Sources(bad[..0]) == [] && Destinations(bad[..0]) == [];
    assert Sources(bad[..1]) == ["a"];
    assert CheckMove(files, bad, 0) == Rejected(DestinationExists("b"));
  }

  /** `f"{source} → {destination}"`. */
  function MoveLine(m: Move): string {
    m.source + " \U{2192} " + m.destination
  }

  /** `", ".join(parts)`. */
  function JoinComma(parts: seq<string>): string {
    if parts == [] then ""
    else if |parts| == 1 then parts[0]
    else parts[0] + ", " + JoinComma(parts[1..])
  }

  /** The moves the default message names: at most the first three, as "source → destination". */
  function ShownLines(moves: seq<Move>): (lines: seq<string>)
    ensures |lines| == if |moves| <= 3 then |moves| else 3
    ensures forall i | 0 <= i < |lines| :: lines[i] == MoveLine(moves[i])
  {
    var shown := if |moves| <= 3 then moves else moves[..3];
    seq(|shown|, i requires 0 <= i < |shown| => MoveLine(shown[i]))
  }

  /** `f" and {len(moves) - 3} more"` when more than three moves are requested. */
  function MoreSuffix(n: nat): string {
    if n > 3 then " and " + Decimal(n - 3) + " more" else ""
  }

  /**
    * The default commit message: the first three moves, then " and N more"
    * when there are more than three.
    */
  function MoveSummary(moves: seq<Move>): (message: string)
    ensures StartsWith(message, "Move files: ")
    ensures |moves| > 3 ==> EndsWith(message, " more")
    ensures moves == [] ==> message == "Move files: "
  {
    var listing := JoinComma(ShownLines(moves));
    assert ("Move files: " + listing + MoreSuffix(|moves|))[..|"Move files: "|] == "Move files: ";
    "Move files: " + listing + MoreSuffix(|moves|)
  }

  /**
    * The default message for every batch: "Move files: " followed by the
    * first three moves as "source → destination", separated by ", ", and
    * " and N more" for the N moves beyond the third.
    */
  lemma MoveSummaryText(moves: seq<Move>)
    ensures |moves| == 0 ==> MoveSummary(moves) == "Move files: "
    ensures |moves| == 1 ==> MoveSummary(moves) == "Move files: " + MoveLine(moves[0])
    ensures |moves| == 2 ==>
      MoveSummary(moves) == "Move files: " + MoveLine(moves[0]) + ", " + MoveLine(moves[1])
    ensures |moves| >= 3 ==>
      MoveSummary(moves) == "Move files: " + MoveLine(moves[0]) + ", " + MoveLine(moves[1]) + ", " + MoveLine(moves[2])
                            + (if |moves| > 3 then " and " + Decimal(|moves| - 3) + " more" else "")
  {
    var lines := ShownLines(moves);
    var prefix, sep := "Move files: ", ", ";
    JoinCommaShort(lines);
    if |moves| == 1 {
      Regroup(prefix, lines[0], [], [], []);
    } else if |moves| == 2 {
      Regroup(prefix, lines[0], sep, lines[1], []);
    } else if |moves| >= 3 {
      RegroupLong(prefix, lines[0], sep, lines[1], lines[2], MoreSuffix(|moves|));
    }
  }

  /** `", ".join` of one, two or three parts. */
  lemma JoinCommaShort(parts: seq<string>)
    ensures |parts| == 1 ==> JoinComma(parts) == parts[0]
    ensures |parts| == 2 ==> JoinComma(parts) == parts[0] + ", " + parts[1]
    ensures |parts| == 3 ==> JoinComma(parts) == parts[0] + ", " + parts[1] + ", " + parts[2]
  {
    if |parts| == 3 {
      var rest := parts[1..];
      assert rest[0] == parts[1] && rest[1..][0] == parts[2] && |rest[1..]| == 1;
      assert JoinComma(rest) == parts[1] + ", " + parts[2];
    } else if |parts| == 2 {
      assert parts[1..][0] == parts[1] && |parts[1..]| == 1;
    }
  }

  lemma Regroup(p: string, a: string, b: string, c: string, d: string)
    ensures p + (a + b + c) + d == p + a + b + c + d
  {
  }

  lemma RegroupLong(p: string, a: string, sep: string, b: string, c: string, d: string)
    ensures p + (a + sep + b + sep + c) + d == p + a + sep + b + sep + c + d
  {
  }

  /** A single move is named in full: "Move files: <source> → <destination>". */
  lemma MoveSummarySingle(source: Path, destination: Path)
    ensures MoveSummary([Move(source, destination)]) == "Move files: " + source + " \U{2192} " + destination
  {
    MoveSummaryText([Move(source, destination)]);
  }

  /** The new content of each destination: its source's content. */
  function MoveWrites(files: map<Path, string>, moves: seq<Move>): (ws: seq<Change>)
    requires forall i | 0 <= i < |moves| :: moves[i].source in files
    ensures |ws| == |moves|
    ensures forall i | 0 <= i < |moves| :: ws[i] == Change(moves[i].destination, files[moves[i].source])
  {
    seq(|moves|, i requires 0 <= i < |moves| => Change(moves[i].destination, files[moves[i].source]))
  }

  /**
    * The files after the moves: every file that is not a source, plus each
    * destination holding its source's content.
    */
  function MovedFiles(files: map<Path, string>, moves: seq<Move>): map<Path, string>
    requires forall i | 0 <= i < |moves| :: moves[i].source in files
  {
    Without(files, SourceSet(moves)) + WritesView(MoveWrites(files, moves))
  }

  /** The paths after the moves: the old paths minus the sources, plus the destinations. */
  lemma MovedFilesKeys(files: map<Path, string>, moves: seq<Move>)
    requires forall i | 0 <= i < |moves| :: moves[i].source in files
    ensures MovedFiles(files, moves).Keys == (files.Keys - SourceSet(moves)) + DestinationSet(moves)
  {
    var ws := MoveWrites(files, moves);
    assert (set w | w in ws :: w.path) == DestinationSet(moves) by {
      forall p | p in DestinationSet(moves) ensures p in set w | w in ws :: w.path {
        var i :| 0 <= i < |moves| && moves[i].destination == p;
        assert ws[i] in ws;
      }
    }
  }

  /**
    * After an accepted batch every destination holds its source's content,
    * every file that was not a source is untouched, and a source survives
    * only when it is also a destination.
    */
  lemma MovedFilesContent(files: map<Path, string>, moves: seq<Move>)
    requires MovesAccepted(Some(files), moves)
    ensures forall i | 0 <= i < |moves| :: moves[i].source in files
    ensures forall i | 0 <= i < |moves| ::
      moves[i].destination in MovedFiles(files, moves)
      && MovedFiles(files, moves)[moves[i].destination] == files[moves[i].source]
    ensures forall p | p in files && p !in SourceSet(moves) ::
      p in MovedFiles(files, moves) && MovedFiles(files, moves)[p] == files[p]
    ensures forall p | p in SourceSet(moves) && p !in DestinationSet(moves) :: p !in MovedFiles(files, moves)
  {
    var ws := MoveWrites(files, moves);
    MovedFilesKeys(files, moves);
    forall i | 0 <= i < |moves|
      ensures MovedFiles(files, moves)[moves[i].destination] == files[moves[i].source]
    {
      WritesViewAt(ws, i);
    }
    DestinationsFresh(files, moves);
  }

  /**
    * Under an accepted batch the destinations are distinct and none of them
    * is a file the walk keeps, so the tree elements name each path once.
    */
  lemma DestinationsFresh(files: map<Path, string>, moves: seq<Move>)
    requires MovesAccepted(Some(files), moves)
    ensures forall i | 0 <= i < |moves| :: moves[i].destination !in files.Keys - SourceSet(moves)
    ensures forall i, j | 0 <= i < j < |moves| :: moves[i].destination != moves[j].destination
  {
    forall i | 0 <= i < |moves| ensures moves[i].destination !in files.Keys - SourceSet(moves) {
      if exists j | 0 <= j <= i :: moves[j].source == moves[i].destination {
        var j :| 0 <= j <= i && moves[j].source == moves[i].destination;
        assert moves[i].destination in SourceSet(moves);
      }
    }
  }
}
