/**
  * The settings diff of `update_repo_settings`: a requested setting becomes an
  * edit parameter only when it was given (not `None`) and differs from the
  * repository's current value, and each such parameter gets one line in
  * `changes_made`.
  */
module RepoSettings {
  import opened Common
  import opened Text

  /** The repository attributes `update_repo_settings` can change. */
  datatype Settings = Settings(
    name: string,
    private: bool,
    description: Option<string>,
    homepage: Option<string>,
    hasIssues: bool,
    hasWiki: bool,
    hasDownloads: bool)

  /** The tool's optional arguments; `None` means "leave as it is". */
  datatype SettingsRequest = SettingsRequest(
    newName: Option<string>,
    private: Option<bool>,
    description: Option<string>,
    homepage: Option<string>,
    hasIssues: Option<bool>,
    hasWiki: Option<bool>,
    hasDownloads: Option<bool>)

  datatype Field = Name | Private | Description | Homepage | HasIssues | HasWiki | HasDownloads

  /** A setting's value as passed to `repo.edit`, or an unset (`None`) attribute. */
  datatype Value = Str(s: string) | Flag(b: bool) | Null

  const ARROW := " \U{2192} "

  /** The keyword under which a field is passed to `repo.edit`. */
  function Key(f: Field): string {
    match f
    case Name => "name"
    case Private => "private"
    case Description => "description"
    case Homepage => "homepage"
    case HasIssues => "has_issues"
    case HasWiki => "has_wiki"
    case HasDownloads => "has_downloads"
  }

  const KEYS: set<string> :=
    {"name", "private", "description", "homepage", "has_issues", "has_wiki", "has_downloads"}

  function OptionalText(o: Option<string>): Value {
    if o.Some? then Str(o.value) else Null
  }

  /** The repository's current value of a field. */
  function Current(s: Settings, f: Field): Value {
    match f
    case Name => Str(s.name)
    case Private => Flag(s.private)
    case Description => OptionalText(s.description)
    case Homepage => OptionalText(s.homepage)
    case HasIssues => Flag(s.hasIssues)
    case HasWiki => Flag(s.hasWiki)
    case HasDownloads => Flag(s.hasDownloads)
  }

  /** The value the request asks for, if it asks for one. */
  function Requested(r: SettingsRequest, f: Field): Option<Value> {
    match f
    case Name => if r.newName.Some? then Some(Str(r.newName.value)) else None
    case Private => if r.private.Some? then Some(Flag(r.private.value)) else None
    case Description => if r.description.Some? then Some(Str(r.description.value)) else None
    case Homepage => if r.homepage.Some? then Some(Str(r.homepage.value)) else None
    case HasIssues => if r.hasIssues.Some? then Some(Flag(r.hasIssues.value)) else None
    case HasWiki => if r.hasWiki.Some? then Some(Flag(r.hasWiki.value)) else None
    case HasDownloads => if r.hasDownloads.Some? then Some(Flag(r.hasDownloads.value)) else None
  }

  /** `x is not None and x != repo.x`. */
  predicate Wanted(cur: Settings, req: SettingsRequest, f: Field) {
    Requested(req, f).Some? && Requested(req, f).value != Current(cur, f)
  }

  /** The settings the request describes: every given value, the current one elsewhere. */
  function Target(cur: Settings, req: SettingsRequest, f: Field): Value {
    if Requested(req, f).Some? then Requested(req, f).value else Current(cur, f)
  }

  function EnabledText(b: bool): string {
    if b then "enabled" else "disabled"
  }

  function PrivacyText(b: bool): string {
    if b then "private" else "public"
  }

  /** Python's `x or default` on an optional string: `None` and `""` are both falsy. */
  function OrDefault(o: Option<string>, default: string): string {
    if o.Some? && o.value != "" then o.value else default
  }

  /** The `changes_made` line reported for a field the request changes. */
  function ChangeLine(cur: Settings, req: SettingsRequest, f: Field): string
    requires Requested(req, f).Some?
  {
    match f
    case Name => "name: " + cur.name + ARROW + req.newName.value
    case Private => "privacy: " + PrivacyText(cur.private) + ARROW + PrivacyText(req.private.value)
    case Description => "description: " + Take(OrDefault(cur.description, "(no description)"), 50) + "..." + ARROW + Take(req.description.value, 50) + "..."
    case Homepage => "homepage: " + OrDefault(cur.homepage, "(no homepage)") + ARROW + req.homepage.value
    case HasIssues => "issues: " + EnabledText(req.hasIssues.value)
    case HasWiki => "wiki: " + EnabledText(req.hasWiki.value)
    case HasDownloads => "downloads: " + EnabledText(req.hasDownloads.value)
  }

  /** The change lines for the wanted fields among `fs`, in order. */
  function ChangeLines(cur: Settings, req: SettingsRequest, fs: seq<Field>): seq<string> {
    if fs == [] then []
    else
      var f := fs[|fs| - 1];
      ChangeLines(cur, req, fs[..|fs| - 1]) + if Wanted(cur, req, f) then [ChangeLine(cur, req, f)] else []
  }

  /** The order in which the tool examines the settings. */
  const FIELDS: seq<Field> := [Name, Private, Description, Homepage, HasIssues, HasWiki, HasDownloads]

  /**
    * Builds `update_params` and `changes_made` as the tool does, one setting
    * after another in the order of `FIELDS` (the tool spells the seven checks
    * out in that order): exactly the wanted fields become parameters, with the
    * requested values, and each parameter contributes one change line.
    */
  method PlanUpdate(cur: Settings, req: SettingsRequest) returns (params: map<string, Value>, changes: seq<string>)
    ensures forall f :: Key(f) in params <==> Wanted(cur, req, f)
    ensures forall f :: Key(f) in params ==> Requested(req, f).Some? && params[Key(f)] == Requested(req, f).value
    ensures params.Keys <= KEYS
    ensures changes == ChangeLines(cur, req, FIELDS) && |changes| == |params|
  {
    params, changes := map[], [];
    for i := 0 to |FIELDS|
      invariant PlannedFor(cur, req, params, changes, FIELDS[..i])
    {
      var f := FIELDS[i];
      ghost var before, beforeChanges := params, changes;
      params, changes := Decide(cur, req, f, params, changes);
      FieldsDistinct(i);
      PlannedStep(cur, req, before, beforeChanges, params, changes, FIELDS[..i], f);
      PrefixStep(FIELDS, i);
    }
    assert FIELDS[..|FIELDS|] == FIELDS;
    PlannedAll(cur, req, params, changes);
  }

  /** One of the seven checks: a wanted field adds its parameter and its change line. */
  method Decide(cur: Settings, req: SettingsRequest, f: Field, params: map<string, Value>, changes: seq<string>)
    returns (params': map<string, Value>, changes': seq<string>)
    ensures params' == if Wanted(cur, req, f) then params[Key(f) := Requested(req, f).value] else params
    ensures changes' == if Wanted(cur, req, f) then changes + [ChangeLine(cur, req, f)] else changes
  {
    params', changes' := params, changes;
    if Wanted(cur, req, f) {
      params' := params[Key(f) := Requested(req, f).value];
      changes' := changes + [ChangeLine(cur, req, f)];
    }
  }

  /** The parameter map agrees with the plan on the fields in `done`, and names only those. */
  ghost predicate PlannedFor(cur: Settings, req: SettingsRequest, params: map<string, Value>, changes: seq<string>, done: seq<Field>) {
    && params.Keys <= (set f | f in done :: Key(f))
    && |changes| == |params|
    && changes == ChangeLines(cur, req, done)
    && (forall f | f in done :: Key(f) in params <==> Wanted(cur, req, f))
    && (forall f | f in done && Key(f) in params ::
          Requested(req, f).Some? && params[Key(f)] == Requested(req, f).value)
  }

  /** Deciding one more field keeps the parameter map in step with the plan. */
  lemma PlannedStep(cur: Settings, req: SettingsRequest, before: map<string, Value>, beforeChanges: seq<string>,
                    params: map<string, Value>, changes: seq<string>, done: seq<Field>, g: Field)
    requires PlannedFor(cur, req, before, beforeChanges, done) && g !in done
    requires params == if Wanted(cur, req, g) then before[Key(g) := Requested(req, g).value] else before
    requires changes == if Wanted(cur, req, g) then beforeChanges + [ChangeLine(cur, req, g)] else beforeChanges
    ensures PlannedFor(cur, req, params, changes, done + [g])
  {
    ChangeLinesStep(cur, req, done, g);
    forall f | f in done ensures Key(f) != Key(g) {
      KeyInjective(f, g);
    }
    assert Key(g) !in before;
    forall f | f in done + [g]
      ensures Key(f) in params <==> Wanted(cur, req, f)
      ensures Key(f) in params ==> Requested(req, f).Some? && params[Key(f)] == Requested(req, f).value
    {
      if f != g {
        assert f in done;
      }
    }
    assert params.Keys <= (set f | f in done + [g] :: Key(f)) by {
      forall k | k in params ensures k in (set f | f in done + [g] :: Key(f)) {
        if k != Key(g) {
          var f :| f in done && Key(f) == k;
          assert f in done + [g];
        }
      }
    }
  }

  lemma ChangeLinesStep(cur: Settings, req: SettingsRequest, done: seq<Field>, g: Field)
    ensures ChangeLines(cur, req, done + [g])
         == ChangeLines(cur, req, done) + if Wanted(cur, req, g) then [ChangeLine(cur, req, g)] else []
  {
    assert (done + [g])[..|done|] == done;
  }

  /** Once every field is decided, the parameter map is exactly the plan. */
  lemma PlannedAll(cur: Settings, req: SettingsRequest, params: map<string, Value>, changes: seq<string>)
    requires PlannedFor(cur, req, params, changes, FIELDS)
    ensures IsPlan(cur, req, params) && |changes| == |params|
  {
    AllFields();
  }

  /** `FIELDS` lists every setting. */
  lemma AllFields()
    ensures forall f :: f in FIELDS
  {
    forall f ensures f in FIELDS {
      match f
      case Name => assert FIELDS[0] == f;
      case Private => assert FIELDS[1] == f;
      case Description => assert FIELDS[2] == f;
      case Homepage => assert FIELDS[3] == f;
      case HasIssues => assert FIELDS[4] == f;
      case HasWiki => assert FIELDS[5] == f;
      case HasDownloads => assert FIELDS[6] == f;
    }
  }

  lemma PrefixStep<T>(s: seq<T>, i: nat)
    requires i < |s|
    ensures s[..i + 1] == s[..i] + [s[i]]
  {
  }

  lemma FieldsDistinct(i: nat)
    requires i < |FIELDS|
    ensures FIELDS[i] !in FIELDS[..i]
  {
    forall j | 0 <= j < i ensures FIELDS[j] != FIELDS[i] {
    }
  }

  lemma KeyInjective(f: Field, g: Field)
    ensures Key(f) == Key(g) ==> f == g
  {
  }

  function TextParam(params: map<string, Value>, key: string, default: string): string {
    if key in params && params[key].Str? then params[key].s else default
  }

  function OptionalTextParam(params: map<string, Value>, key: string, default: Option<string>): Option<string> {
    if key in params && params[key].Str? then Some(params[key].s) else default
  }

  function FlagParam(params: map<string, Value>, key: string, default: bool): bool {
    if key in params && params[key].Flag? then params[key].b else default
  }

  /** The repository's settings after `repo.edit(**params)`. */
  function Apply(s: Settings, params: map<string, Value>): Settings {
    Settings(
      TextParam(params, "name", s.name),
      FlagParam(params, "private", s.private),
      OptionalTextParam(params, "description", s.description),
      OptionalTextParam(params, "homepage", s.homepage),
      FlagParam(params, "has_issues", s.hasIssues),
      FlagParam(params, "has_wiki", s.hasWiki),
      FlagParam(params, "has_downloads", s.hasDownloads))
  }

  /** The field passed to `repo.edit` under `key`. */
  function FieldOf(key: string): (f: Field)
    requires key in KEYS
    ensures Key(f) == key
  {
    if key == "name" then Name
    else if key == "private" then Private
    else if key == "description" then Description
    else if key == "homepage" then Homepage
    else if key == "has_issues" then HasIssues
    else if key == "has_wiki" then HasWiki
    else HasDownloads
  }

  /** A parameter map that `PlanUpdate` can return for these settings and this request. */
  ghost predicate IsPlan(cur: Settings, req: SettingsRequest, params: map<string, Value>) {
    && params.Keys <= KEYS
    && (forall f :: Key(f) in params <==> Wanted(cur, req, f))
    && (forall f :: Key(f) in params ==> Requested(req, f).Some? && params[Key(f)] == Requested(req, f).value)
  }

  /** Editing the repository with the planned parameters yields exactly the requested settings. */
  lemma ApplyPlan(cur: Settings, req: SettingsRequest, params: map<string, Value>)
    requires IsPlan(cur, req, params)
    ensures forall f :: Current(Apply(cur, params), f) == Target(cur, req, f)
  {
    forall f ensures Current(Apply(cur, params), f) == Target(cur, req, f) {
      assert Key(f) in params <==> Wanted(cur, req, f);
      match f
      case Name =>
      case Private =>
      case Description =>
      case Homepage =>
      case HasIssues =>
      case HasWiki =>
      case HasDownloads =>
    }
  }

  /** "No changes needed" is reported exactly when every requested value is already in place. */
  lemma EmptyPlanIffSatisfied(cur: Settings, req: SettingsRequest, params: map<string, Value>)
    requires IsPlan(cur, req, params)
    ensures params == map[] <==> forall f :: Target(cur, req, f) == Current(cur, f)
  {
    if params != map[] {
      var k :| k in params;
      var f := FieldOf(k);
      assert Wanted(cur, req, f);
    }
  }
}
