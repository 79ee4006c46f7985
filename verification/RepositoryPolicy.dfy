/** Admission of repository reads over a fixed file system: `RepositoryReadPolicy` of
    `repository_access.py`. */
module RepositoryPolicy {
  import opened Prelude

  const MAX_POLICY_SOURCE_BYTES := 65536
  const MAX_POLICY_SOURCES := 16
  const MAX_POLICY_BYTES := 262144
  const MAX_POLICY_MATCH_WORK := 65536

  /** Normalised path components; the empty path is the workspace root. */
  type Path = seq<string>

  datatype Error = InvalidPath | NotFound | Unavailable | Ignored | PolicyInvalid

  datatype Result<+T> = Granted(value: T) | Refused(error: Error)

  // ----- Lexical denial -----

  const DENIED_COMPONENTS := {".git", ".hg", ".svn", ".ssh", ".gnupg", ".aws"}
  const DENIED_BASENAMES :=
    {".envrc", ".netrc", ".npmrc", ".pypirc", ".git-credentials", "credentials", "credentials.json",
     "application_default_credentials.json", "service-account.json", "id_rsa", "id_dsa", "id_ecdsa",
     "id_ed25519"}
  const DOCUMENTATION_ENV_FILES := {".env.example", ".env.sample", ".env.template"}

  function AsciiLower(s: string): string {
    if s == "" then ""
    else
      var c := s[|s| - 1];
      AsciiLower(s[..|s| - 1]) + [if 'A' <= c <= 'Z' then (c as int + 32) as char else c]
  }

  predicate EndsWith(s: string, suffix: string) {
    |suffix| <= |s| && s[|s| - |suffix|..] == suffix
  }

  predicate StartsWith(s: string, prefix: string) { |prefix| <= |s| && s[..|prefix|] == prefix }

  /** `is_hard_denied_path`. */
  predicate HardDenied(path: Path) {
    || (exists c :: c in path && c in DENIED_COMPONENTS)
    || (path != []
        && path[|path| - 1] !in DOCUMENTATION_ENV_FILES
        && var lowered := AsciiLower(path[|path| - 1]);
           || lowered in DENIED_BASENAMES
           || lowered == ".env"
           || EndsWith(lowered, ".env")
           || StartsWith(lowered, ".env.")
           || EndsWith(lowered, ".pem") || EndsWith(lowered, ".key")
           || EndsWith(lowered, ".p12") || EndsWith(lowered, ".pfx"))
  }

  // ----- The file system -----

  datatype Kind = File | Directory | Special

  datatype Resolution =
    | Missing
    | Outside
    | Resolved(canonical: Path, kind: Kind)

  datatype Presence = Absent | Present | ProbeFailed

  /** One compiled pattern: `verdict` is absent for a comment or blank line, and `hits` is a direct match,
      not one through a parent directory. */
  datatype Pattern = Pattern(verdict: Option<bool>, hits: Path -> bool)

  /** The file and directory views of one policy source. */
  datatype Rules = Rules(file: seq<Pattern>, directory: seq<Pattern>)
  {
    function For(isDirectory: bool): seq<Pattern> { if isDirectory then directory else file }
  }

  /** What the workspace boundary and the policy files are; `parse` is absent where the source's own
      reading, decoding or compilation fails. */
  datatype FileSystem = FileSystem(
    resolve: Path -> Resolution,
    leaf: Path -> Presence,
    size: Path -> nat,
    parse: Path -> Option<Rules>,
    isLink: Path -> bool)

  datatype Scoped = Scoped(owner: Path, rules: Rules)

  datatype Admitted = Admitted(path: Path, kind: Kind, isLink: bool)

  /** The cache and budgets of one decision. */
  datatype State = State(cache: map<Path, Rules>, loadedBytes: nat, matchWork: nat)

  const UNSPENT := State(map[], 0, 0)

  // ----- Rules -----

  /** `_check_policy`: the last pattern that decides. */
  function CheckPolicy(patterns: seq<Pattern>, relative: Path): Option<bool> {
    if patterns == [] then None
    else
      var last := patterns[|patterns| - 1];
      if last.verdict.Some? && last.hits(relative) then last.verdict
      else CheckPolicy(patterns[..|patterns| - 1], relative)
  }

  predicate Concerns(policy: Scoped, target: Path) {
    policy.owner < target
  }

  /** `_is_ignored`. */
  function IsIgnored(policies: seq<Scoped>, target: Path, st: State, isDirectory: bool)
    : (State, Result<Option<bool>>)
  {
    if policies == [] then (st, Granted(None))
    else
      match IsIgnored(policies[..|policies| - 1], target, st, isDirectory)
      case (failed, Refused(error)) => (failed, Refused(error))
      case (before, Granted(decision)) =>
        var policy := policies[|policies| - 1];
        if !Concerns(policy, target) then (before, Granted(decision))
        else
          var patterns := policy.rules.For(isDirectory);
          if |patterns| > MAX_POLICY_MATCH_WORK - before.matchWork then (before, Refused(PolicyInvalid))
          else
            var later := CheckPolicy(patterns, target[|policy.owner|..]);
            (before.(matchWork := before.matchWork + |patterns|),
             Granted(if later.Some? then later else decision))
  }

  function Verdict(decision: Option<bool>): bool { decision == Some(true) }

  // ----- Loading -----

  /** `_capture_owner`. */
  function CaptureOwner(fs: FileSystem, owner: Path): Result<Path> {
    match fs.resolve(owner)
    case Missing => Refused(NotFound)
    case Outside => Refused(Unavailable)
    case Resolved(canonical, kind) =>
      if HardDenied(canonical) || !kind.Directory? then Refused(Unavailable) else Granted(canonical)
  }

  /** `_resolve_policy_source`. */
  function PolicySource(fs: FileSystem, owner: Path): Result<Path> {
    match fs.resolve(owner + [".gitignore"])
    case Missing => Refused(PolicyInvalid)
    case Outside => Refused(PolicyInvalid)
    case Resolved(canonical, kind) =>
      if HardDenied(canonical) || !kind.File? || fs.size(canonical) > MAX_POLICY_SOURCE_BYTES then
        Refused(PolicyInvalid)
      else Granted(canonical)
  }

  predicate HasCapacity(st: State, bytes: nat) {
    |st.cache| < MAX_POLICY_SOURCES && st.loadedBytes + bytes <= MAX_POLICY_BYTES
  }

  /** `_load_policy`, for an owner that stays what it is. */
  function LoadPolicy(fs: FileSystem, owner: Path, st: State): (State, Result<Option<Rules>>) {
    match fs.leaf(owner)
    case Absent => (st, Granted(None))
    case ProbeFailed => (st, Refused(PolicyInvalid))
    case Present =>
      match PolicySource(fs, owner)
      case Refused(error) => (st, Refused(error))
      case Granted(source) =>
        if source in st.cache then (st, Granted(Some(st.cache[source])))
        else if !HasCapacity(st, fs.size(source)) then (st, Refused(PolicyInvalid))
        else
          match fs.parse(source)
          case None => (st, Refused(PolicyInvalid))
          case Some(rules) =>
            (st.(cache := st.cache[source := rules],
                 loadedBytes := st.loadedBytes + fs.size(source)),
             Granted(Some(rules)))
  }

  // ----- One view -----

  function Extend(rules: seq<Scoped>, owner: Path, loaded: Option<Rules>): seq<Scoped> {
    if loaded.None? then rules else rules + [Scoped(owner, loaded.value)]
  }

  /** `_prepare_ignore_view` for the owners of depth 0 to `depth`. */
  function PrepareTo(fs: FileSystem, path: Path, depth: nat, st: State): (State, Result<seq<Scoped>>)
    requires depth <= |path|
    decreases depth
  {
    if depth == 0 then
      match CaptureOwner(fs, [])
      case Refused(error) => (st, Refused(error))
      case Granted(_) =>
        match LoadPolicy(fs, [], st)
        case (after, Refused(error)) => (after, Refused(error))
        case (after, Granted(loaded)) => (after, Granted(Extend([], [], loaded)))
    else
      match PrepareTo(fs, path, depth - 1, st)
      case (after, Refused(error)) => (after, Refused(error))
      case (after, Granted(rules)) => PrepareOwner(fs, path, depth, rules, after)
  }

  /** One turn of the loop of `_prepare_ignore_view`. */
  function PrepareOwner(fs: FileSystem, path: Path, depth: nat, rules: seq<Scoped>, st: State)
    : (State, Result<seq<Scoped>>)
    requires depth <= |path|
  {
    var owner := path[..depth];
    match IsIgnored(rules, owner, st, true)
    case (after, Refused(error)) => (after, Refused(error))
    case (after, Granted(decision)) =>
      if Verdict(decision) then (after, Refused(Ignored))
      else
        match CaptureOwner(fs, owner)
        case Refused(error) =>
          if error.NotFound? then MissingOwner(path, rules, after) else (after, Refused(error))
        case Granted(_) =>
          match LoadPolicy(fs, owner, after)
          case (loaded, Refused(error)) => (loaded, Refused(error))
          case (loaded, Granted(nested)) => (loaded, Granted(Extend(rules, owner, nested)))
  }

  /** A missing owner still yields to rules that ignore the target either way. */
  function MissingOwner(path: Path, rules: seq<Scoped>, st: State): (State, Result<seq<Scoped>>) {
    match IsIgnored(rules, path, st, false)
    case (after, Refused(error)) => (after, Refused(error))
    case (after, Granted(asFile)) =>
      match IsIgnored(rules, path, after, true)
      case (last, Refused(error)) => (last, Refused(error))
      case (last, Granted(asDirectory)) =>
        (last, Refused(if Verdict(asFile) && Verdict(asDirectory) then Ignored else NotFound))
  }

  /** Proper owners have depths 0 to |path| - 1; the root is its own only owner. */
  function Depth(path: Path): nat { if path == [] then 0 else |path| - 1 }

  /** One view of a path: its ancestors admitted, and its verdicts as a file and as a directory. */
  function View(fs: FileSystem, path: Path, st: State): (State, Result<(bool, bool)>) {
    match PrepareTo(fs, path, Depth(path), st)
    case (after, Refused(error)) => (after, Refused(error))
    case (after, Granted(rules)) =>
      match IsIgnored(rules, path, after, false)
      case (more, Refused(error)) => (more, Refused(error))
      case (more, Granted(asFile)) =>
        match IsIgnored(rules, path, more, true)
        case (last, Refused(error)) => (last, Refused(error))
        case (last, Granted(asDirectory)) =>
          if Verdict(asFile) && Verdict(asDirectory) then (last, Refused(Ignored))
          else (last, Granted((Verdict(asFile), Verdict(asDirectory))))
  }

  /** `_finalize_snapshot`: the parent must itself be an admissible directory. */
  function FinalizeSnapshot(fs: FileSystem, path: Path): Result<bool> {
    if path == [] then Granted(false)
    else
      match fs.resolve(path[..|path| - 1])
      case Missing => Refused(Unavailable)
      case Outside => Refused(Unavailable)
      case Resolved(parent, kind) =>
        if HardDenied(parent) || !kind.Directory? then Refused(Unavailable)
        else Granted(fs.isLink(path))
  }

  /** `_admit_existing`; the request is absent when its syntax was refused. */
  function AdmitExisting(fs: FileSystem, request: Option<Path>, st: State): (State, Result<Admitted>) {
    match request
    case None => (st, Refused(InvalidPath))
    case Some(path) =>
      if HardDenied(path) then (st, Refused(Unavailable))
      else
        match View(fs, path, st)
        case (after, Refused(error)) => (after, Refused(error))
        case (after, Granted(lexical)) => AdmitCanonical(fs, path, lexical, after)
  }

  function AdmitCanonical(fs: FileSystem, path: Path, lexical: (bool, bool), st: State)
    : (State, Result<Admitted>)
  {
    match fs.resolve(path)
    case Missing => (st, Refused(NotFound))
    case Outside => (st, Refused(Unavailable))
    case Resolved(canonical, kind) =>
      if HardDenied(canonical) then (st, Refused(Unavailable))
      else
        match View(fs, canonical, st)
        case (after, Refused(error)) => (after, Refused(error))
        case (after, Granted(actual)) =>
          if kind.Special? then (after, Refused(Unavailable))
          else if (if kind.Directory? then lexical.1 || actual.1 else lexical.0 || actual.0) then
            (after, Refused(Ignored))
          else
            match FinalizeSnapshot(fs, path)
            case Refused(error) => (after, Refused(error))
            case Granted(isLink) => (after, Granted(Admitted(canonical, kind, isLink)))
  }
}
