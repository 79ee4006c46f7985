/** What admission decides, independent of caches and budgets, and what it keeps. */
module RepositoryAdmission {
  import opened Prelude
  import opened RepositoryPolicy

  // ----- The decision, read off the file system alone -----

  /** The file an owner's policy is read from: regular, permitted and small, wherever links lead. */
  predicate IsSource(fs: FileSystem, owner: Path, source: Path) {
    && fs.resolve(owner + [".gitignore"]) == Resolved(source, File)
    && !HardDenied(source)
    && fs.size(source) <= 65536
  }

  /** An owner's policy is absent, or can be read and parsed. */
  predicate Sound(fs: FileSystem, owner: Path) {
    || fs.leaf(owner).Absent?
    || (&& fs.leaf(owner).Present?
        && var found := fs.resolve(owner + [".gitignore"]);
           found.Resolved? && IsSource(fs, owner, found.canonical)
           && fs.parse(found.canonical).Some?)
  }

  /** The source a sound owner's policy is read from, if it has one. */
  function SourceOf(fs: FileSystem, owner: Path): set<Path> {
    var found := fs.resolve(owner + [".gitignore"]);
    if fs.leaf(owner).Present? && found.Resolved? then {found.canonical} else {}
  }

  /** A fresh parse of the policy an owner has. */
  function RulesAt(fs: FileSystem, owner: Path): Option<Rules> {
    var found := fs.resolve(owner + [".gitignore"]);
    if fs.leaf(owner).Present? && found.Resolved? && IsSource(fs, owner, found.canonical) then
      fs.parse(found.canonical)
    else None
  }

  /** The policies of the first `n` owners on the way to a path, root first. */
  function Policies(fs: FileSystem, path: Path, n: nat): seq<Scoped>
    requires n <= |path| + 1
  {
    if n == 0 then []
    else Extend(Policies(fs, path, n - 1), path[..n - 1], RulesAt(fs, path[..n - 1]))
  }

  /** One pattern applied to one target below its owner. */
  datatype Clause = Clause(pattern: Pattern, relative: Path)
  {
    predicate Decides() { pattern.verdict.Some? && pattern.hits(relative) }
  }

  function Clauses(patterns: seq<Pattern>, relative: Path): seq<Clause> {
    if patterns == [] then []
    else
      Clauses(patterns[..|patterns| - 1], relative) + [Clause(patterns[|patterns| - 1], relative)]
  }

  /** All patterns that concern a target, in one list from the root to the nearest owner. */
  function Flattened(policies: seq<Scoped>, target: Path, isDirectory: bool): seq<Clause> {
    if policies == [] then []
    else
      var last := policies[|policies| - 1];
      Flattened(policies[..|policies| - 1], target, isDirectory)
      + if Concerns(last, target)
        then Clauses(last.rules.For(isDirectory), target[|last.owner|..]) else []
  }

  /** The last clause that decides. */
  function LastMatch(clauses: seq<Clause>): Option<bool> {
    if clauses == [] then None
    else if clauses[|clauses| - 1].Decides() then clauses[|clauses| - 1].pattern.verdict
    else LastMatch(clauses[..|clauses| - 1])
  }

  predicate IgnoredBy(policies: seq<Scoped>, target: Path, isDirectory: bool) {
    Verdict(LastMatch(Flattened(policies, target, isDirectory)))
  }

  /** Whether a target is ignored by the policies of its proper ancestors. */
  predicate IgnoredAt(fs: FileSystem, target: Path, isDirectory: bool) {
    IgnoredBy(Policies(fs, target, Depth(target) + 1), target, isDirectory)
  }

  /** A directory that may be looked into. */
  predicate IsOwner(fs: FileSystem, owner: Path) {
    var found := fs.resolve(owner);
    found.Resolved? && found.kind.Directory? && !HardDenied(found.canonical)
  }

  /** An ancestor through which a view may go on. */
  predicate OpenOwner(fs: FileSystem, owner: Path) {
    IsOwner(fs, owner) && (owner != [] ==> !IgnoredAt(fs, owner, true))
  }

  /** Every proper ancestor is open, and the target is not ignored both as file and as directory. */
  predicate OpenView(fs: FileSystem, path: Path) {
    && (forall d :: 0 <= d <= Depth(path) ==> OpenOwner(fs, path[..d]))
    && !(IgnoredAt(fs, path, false) && IgnoredAt(fs, path, true))
  }

  /** What an admitted request amounts to. */
  predicate Admissible(fs: FileSystem, path: Path, a: Admitted) {
    && !HardDenied(path) && !HardDenied(a.path)
    && fs.resolve(path) == Resolved(a.path, a.kind) && !a.kind.Special?
    && OpenView(fs, path) && OpenView(fs, a.path)
    && !IgnoredAt(fs, path, a.kind.Directory?)
    && !IgnoredAt(fs, a.path, a.kind.Directory?)
    && a.isLink == (path != [] && fs.isLink(path))
  }

  // ----- What a decision reads and matches -----

  /** The patterns matched against one target. */
  function Cost(policies: seq<Scoped>, target: Path, isDirectory: bool): nat {
    if policies == [] then 0
    else
      var last := policies[|policies| - 1];
      Cost(policies[..|policies| - 1], target, isDirectory)
      + if Concerns(last, target) then |last.rules.For(isDirectory)| else 0
  }

  /** The patterns matched against the owners of depth 1 to `depth`. */
  function OwnersWork(fs: FileSystem, path: Path, depth: nat): nat
    requires depth <= |path|
  {
    if depth == 0 then 0
    else
      OwnersWork(fs, path, depth - 1)
      + Cost(Policies(fs, path, depth), path[..depth], true)
  }

  /** The patterns matched against a target, as a file and as a directory. */
  function TargetWork(fs: FileSystem, path: Path): nat {
    var policies := Policies(fs, path, Depth(path) + 1);
    Cost(policies, path, false) + Cost(policies, path, true)
  }

  function ViewWork(fs: FileSystem, path: Path): nat {
    OwnersWork(fs, path, Depth(path)) + TargetWork(fs, path)
  }

  /** The sources of the owners of depth 0 to `depth`. */
  function SourcesTo(fs: FileSystem, path: Path, depth: nat): set<Path>
    requires depth <= |path|
  {
    (if depth == 0 then {} else SourcesTo(fs, path, depth - 1)) + SourceOf(fs, path[..depth])
  }

  function Sources(fs: FileSystem, path: Path): set<Path> { SourcesTo(fs, path, Depth(path)) }

  /** Sixteen sources and 256 KiB in all. */
  ghost predicate Affordable(fs: FileSystem, sources: set<Path>) {
    |sources| <= 16 && Total(fs, sources) <= 262144
  }

  /** Every policy of a view can be read and parsed, and sources and matches fit what is left. */
  ghost predicate Readable(fs: FileSystem, path: Path, cached: set<Path>, spent: nat) {
    && (forall d :: 0 <= d <= Depth(path) ==> Sound(fs, path[..d]))
    && Affordable(fs, cached + Sources(fs, path))
    && spent + ViewWork(fs, path) <= 65536
  }

  /** The same for both views of a request. */
  ghost predicate BothReadable(fs: FileSystem, path: Path, st: State) {
    && Readable(fs, path, st.cache.Keys, st.matchWork)
    && (fs.resolve(path).Resolved? ==>
          Readable(fs, fs.resolve(path).canonical, st.cache.Keys + Sources(fs, path),
                   st.matchWork + ViewWork(fs, path)))
  }

  // ----- Cache and budgets -----

  /** The bytes of a set of policy sources. */
  ghost function Total(fs: FileSystem, sources: set<Path>): nat {
    if sources == {} then 0
    else
      var s := Least(sources);
      fs.size(s) + Total(fs, sources - {s})
  }

  /** Some element, always the same one. */
  ghost function Least(sources: set<Path>): (s: Path)
    requires sources != {}
    ensures s in sources
  {
    var s :| s in sources; s
  }

  lemma {:induction false} TotalAdd(fs: FileSystem, sources: set<Path>, s: Path)
    requires s !in sources
    ensures Total(fs, sources + {s}) == Total(fs, sources) + fs.size(s)
    decreases |sources|
  {
    var all := sources + {s};
    var x := Least(all);
    if x == s {
      assert all - {s} == sources;
    } else {
      assert all - {x} == (sources - {x}) + {s};
      TotalAdd(fs, sources - {x}, s);
      TotalAdd(fs, sources - {x}, x);
      assert (sources - {x}) + {x} == sources;
    }
  }

  lemma {:induction false} TotalMonotone(fs: FileSystem, small: set<Path>, large: set<Path>)
    requires small <= large
    ensures Total(fs, small) <= Total(fs, large)
    decreases |large|
  {
    if large <= small {
      assert small == large;
    } else {
      var x :| x in large && x !in small;
      var rest := large - {x};
      TotalMonotone(fs, small, rest);
      TotalAdd(fs, rest, x);
      assert rest + {x} == large;
    }
  }

  /** The cache always equals a fresh parse, and no budget is ever exceeded. */
  ghost predicate Kept(fs: FileSystem, st: State) {
    && (forall s :: s in st.cache ==> fs.parse(s) == Some(st.cache[s]))
    && |st.cache| <= MAX_POLICY_SOURCES
    && st.loadedBytes == Total(fs, st.cache.Keys) <= MAX_POLICY_BYTES
    && st.matchWork <= MAX_POLICY_MATCH_WORK
  }

  lemma UnspentKept(fs: FileSystem)
    ensures Kept(fs, UNSPENT)
  {}

  /** Reading a source for the first time keeps the cache a fresh parse and within its budgets. */
  lemma ReadKeeps(fs: FileSystem, st: State, source: Path, rules: Rules)
    requires Kept(fs, st) && source !in st.cache && HasCapacity(st, fs.size(source))
    requires fs.parse(source) == Some(rules)
    ensures Kept(fs, st.(cache := st.cache[source := rules],
                         loadedBytes := st.loadedBytes + fs.size(source)))
  {
    hide Total;
    var cache := st.cache[source := rules];
    assert cache.Keys == st.cache.Keys + {source};
    assert |cache| == |cache.Keys| && |st.cache| == |st.cache.Keys|;
    TotalAdd(fs, st.cache.Keys, source);
  }

  lemma CacheIsParse(fs: FileSystem, st: State)
    requires Kept(fs, st)
    ensures forall s :: s in st.cache ==> fs.parse(s) == Some(st.cache[s])
  {}

  lemma SourceMeans(fs: FileSystem, owner: Path)
    ensures fs.leaf(owner).Present? ==>
              match PolicySource(fs, owner) {
                case Granted(source) =>
                  && SourceOf(fs, owner) == {source}
                  && RulesAt(fs, owner) == fs.parse(source)
                  && (Sound(fs, owner) <==> fs.parse(source).Some?)
                case Refused(error) => error.PolicyInvalid? && !Sound(fs, owner)
              }
  {
    hide HardDenied;
  }

  lemma OneMore(fs: FileSystem, st: State, source: Path)
    requires Kept(fs, st) && source !in st.cache
    ensures HasCapacity(st, fs.size(source)) <==> Affordable(fs, st.cache.Keys + {source})
  {
    hide Total;
    TotalAdd(fs, st.cache.Keys, source);
    assert |st.cache| == |st.cache.Keys|;
  }

  lemma Affords(fs: FileSystem, st: State)
    requires Kept(fs, st)
    ensures Affordable(fs, st.cache.Keys)
  {
    hide Total;
    assert |st.cache| == |st.cache.Keys|;
  }

  /** Loading succeeds exactly when the owner's policy is absent, or can be read and parsed and fits; it
      then gives a fresh parse and has read that source. */
  lemma LoadKeeps(fs: FileSystem, owner: Path, st: State)
    requires Kept(fs, st)
    ensures var (after, r) := LoadPolicy(fs, owner, st);
            && Kept(fs, after) && after.matchWork == st.matchWork
            && (r.Granted? <==>
                  Sound(fs, owner) && Affordable(fs, st.cache.Keys + SourceOf(fs, owner)))
            && (r.Granted? ==>
                  && r.value == RulesAt(fs, owner)
                  && after.cache.Keys == st.cache.Keys + SourceOf(fs, owner))
            && (r.Refused? ==> r.error.PolicyInvalid? && after == st)
  {
    hide Kept, HasCapacity, PolicySource, RulesAt, Sound, Affordable, IsSource;
    CacheIsParse(fs, st);
    Affords(fs, st);
    SourceMeans(fs, owner);
    AbsentMeans(fs, owner);
    if fs.leaf(owner).Present? && PolicySource(fs, owner).Granted? {
      var source := PolicySource(fs, owner).value;
      if source in st.cache {
        assert st.cache.Keys + {source} == st.cache.Keys;
      } else {
        OneMore(fs, st, source);
        if HasCapacity(st, fs.size(source)) && fs.parse(source).Some? {
          ReadKeeps(fs, st, source, fs.parse(source).value);
        }
      }
    } else {
      assert st.cache.Keys + {} == st.cache.Keys;
    }
  }

  lemma AbsentMeans(fs: FileSystem, owner: Path)
    ensures fs.leaf(owner).Absent? ==>
              Sound(fs, owner) && SourceOf(fs, owner) == {} && RulesAt(fs, owner).None?
    ensures fs.leaf(owner).ProbeFailed? ==> !Sound(fs, owner)
  {}

  // ----- Ignoring -----

  lemma {:induction false} LastMatchAppend(a: seq<Clause>, b: seq<Clause>)
    ensures LastMatch(a + b) == if LastMatch(b).Some? then LastMatch(b) else LastMatch(a)
    decreases |b|
  {
    if b == [] {
      assert a + b == a;
    } else {
      assert (a + b)[..|a + b| - 1] == a + b[..|b| - 1];
      LastMatchAppend(a, b[..|b| - 1]);
    }
  }

  lemma {:induction false} CheckIsLastMatch(patterns: seq<Pattern>, relative: Path)
    ensures CheckPolicy(patterns, relative) == LastMatch(Clauses(patterns, relative))
  {
    if patterns != [] {
      var clauses := Clauses(patterns, relative);
      assert clauses[..|clauses| - 1] == Clauses(patterns[..|patterns| - 1], relative);
      CheckIsLastMatch(patterns[..|patterns| - 1], relative);
    }
  }

  /** "Ignored" is the last match in the flattened root-to-nearest list, refused exactly when the match
      budget does not hold the patterns that concern the target. */
  lemma {:induction false} IgnoredIsLastMatch(
    fs: FileSystem, policies: seq<Scoped>, target: Path, st: State, isDirectory: bool)
    requires Kept(fs, st)
    ensures var (after, r) := IsIgnored(policies, target, st, isDirectory);
            && Kept(fs, after) && after.cache == st.cache && after.loadedBytes == st.loadedBytes
            && (r.Granted? <==> st.matchWork + Cost(policies, target, isDirectory) <= 65536)
            && match r {
                 case Granted(decision) =>
                   && decision == LastMatch(Flattened(policies, target, isDirectory))
                   && after.matchWork == st.matchWork + Cost(policies, target, isDirectory)
                 case Refused(error) => error.PolicyInvalid?
               }
  {
    hide Total;
    if policies != [] {
      var front, last := policies[..|policies| - 1], policies[|policies| - 1];
      IgnoredIsLastMatch(fs, front, target, st, isDirectory);
      if Concerns(last, target) {
        var relative := target[|last.owner|..];
        CheckIsLastMatch(last.rules.For(isDirectory), relative);
        LastMatchAppend(Flattened(front, target, isDirectory),
                        Clauses(last.rules.For(isDirectory), relative));
      } else {
        assert Flattened(front, target, isDirectory) + [] == Flattened(front, target, isDirectory);
      }
    }
  }

  // ----- Views -----

  lemma {:induction false} PoliciesOfPrefix(fs: FileSystem, path: Path, m: nat, n: nat)
    requires n <= m + 1 && m <= |path|
    ensures Policies(fs, path[..m], n) == Policies(fs, path, n)
    decreases n
  {
    if n > 0 {
      PoliciesOfPrefix(fs, path, m, n - 1);
      assert path[..m][..n - 1] == path[..n - 1];
    }
  }

  /** Every policy down to a depth can be read and afforded, with the matches this takes. */
  ghost predicate ReadableTo(
    fs: FileSystem, path: Path, depth: nat, cached: set<Path>, spent: nat)
    requires depth <= |path|
  {
    && (forall d :: 0 <= d <= depth ==> Sound(fs, path[..d]))
    && Affordable(fs, cached + SourcesTo(fs, path, depth))
    && spent + OwnersWork(fs, path, depth) <= 65536
  }

  /** What a decision has read and spent behind the owners of a view. */
  predicate SpentTo(fs: FileSystem, path: Path, depth: nat, st: State, after: State)
    requires depth <= |path|
  {
    && after.cache.Keys == st.cache.Keys + SourcesTo(fs, path, depth)
    && after.matchWork == st.matchWork + OwnersWork(fs, path, depth)
  }

  /** What preparing a view decides for the owners up to a depth. */
  ghost predicate Prepared(
    fs: FileSystem, path: Path, depth: nat, st: State, prepared: (State, Result<seq<Scoped>>))
    requires depth <= |path|
  {
    match prepared.1
    case Granted(rules) =>
      && rules == Policies(fs, path, depth + 1)
      && (forall d :: 0 <= d <= depth ==> OpenOwner(fs, path[..d]))
      && ReadableTo(fs, path, depth, st.cache.Keys, st.matchWork)
      && SpentTo(fs, path, depth, st, prepared.0)
    case Refused(error) =>
      && (error.PolicyInvalid? ==>
            || !ReadableTo(fs, path, depth, st.cache.Keys, st.matchWork)
            || st.matchWork + OwnersWork(fs, path, depth) + TargetWork(fs, path) > 65536)
      && (!error.PolicyInvalid? ==> exists d :: 0 <= d <= depth && Stops(fs, path, d, error))
  }

  /** The owner of depth `d` is the first that is not open, and this is the error it stops a view
      with. */
  predicate Stops(fs: FileSystem, path: Path, d: nat, error: Error) {
    && d <= |path|
    && !OpenOwner(fs, path[..d]) && (forall e :: 0 <= e < d ==> OpenOwner(fs, path[..e]))
    && error == if d > 0 && IgnoredAt(fs, path[..d], true) then Ignored
                else if !fs.resolve(path[..d]).Missing? then Unavailable
                else if && d > 0 && IgnoredBy(Policies(fs, path, d), path, false)
                        && IgnoredBy(Policies(fs, path, d), path, true) then Ignored
                else NotFound
  }

  lemma {:induction false} SourcesGrow(fs: FileSystem, path: Path, m: nat, n: nat)
    requires m <= n <= |path|
    ensures SourcesTo(fs, path, m) <= SourcesTo(fs, path, n)
    ensures OwnersWork(fs, path, m) <= OwnersWork(fs, path, n)
    decreases n
  {
    hide SourceOf, Cost;
    if m < n { SourcesGrow(fs, path, m, n - 1); }
  }

  lemma {:induction false} CostGrows(fs: FileSystem, path: Path, m: nat, n: nat, target: Path,
                                     isDirectory: bool)
    requires m <= n <= |path| + 1
    ensures Cost(Policies(fs, path, m), target, isDirectory)
            <= Cost(Policies(fs, path, n), target, isDirectory)
    decreases n
  {
    if m < n {
      CostGrows(fs, path, m, n - 1, target, isDirectory);
      var more := Policies(fs, path, n);
      if RulesAt(fs, path[..n - 1]).Some? {
        assert more[..|more| - 1] == Policies(fs, path, n - 1);
      }
    }
  }

  lemma AffordableLess(fs: FileSystem, small: set<Path>, large: set<Path>)
    requires small <= large
    ensures Affordable(fs, large) ==> Affordable(fs, small)
  {
    hide Total;
    TotalMonotone(fs, small, large);
    Cardinality(small, large);
  }

  lemma ReadableLess(fs: FileSystem, path: Path, m: nat, n: nat, cached: set<Path>, spent: nat)
    requires m <= n <= |path|
    ensures ReadableTo(fs, path, n, cached, spent) ==> ReadableTo(fs, path, m, cached, spent)
  {
    hide Affordable, OwnersWork, SourcesTo, Sound;
    SourcesGrow(fs, path, m, n);
    AffordableLess(fs, cached + SourcesTo(fs, path, m), cached + SourcesTo(fs, path, n));
  }

  lemma CaptureMeans(fs: FileSystem, owner: Path)
    ensures CaptureOwner(fs, owner).Granted? <==> IsOwner(fs, owner)
    ensures CaptureOwner(fs, owner).Refused? ==>
              CaptureOwner(fs, owner).error
              == if fs.resolve(owner).Missing? then NotFound else Unavailable
  {
    hide HardDenied;
  }

  lemma {:induction false} PrepareDecides(fs: FileSystem, path: Path, depth: nat, st: State)
    requires Kept(fs, st) && depth <= Depth(path)
    ensures Kept(fs, PrepareTo(fs, path, depth, st).0)
    ensures Prepared(fs, path, depth, st, PrepareTo(fs, path, depth, st))
    decreases depth
  {
    hide Kept, LoadPolicy, CaptureOwner, PrepareOwner, IgnoredBy, IgnoredAt, IsOwner, Sound, SourceOf;
    hide Affordable, Cost, TargetWork;
    if depth == 0 {
      RootDecides(fs, path, st);
    } else {
      PrepareDecides(fs, path, depth - 1, st);
      var (after, r) := PrepareTo(fs, path, depth - 1, st);
      SourcesGrow(fs, path, depth - 1, depth);
      ReadableLess(fs, path, depth - 1, depth, st.cache.Keys, st.matchWork);
      if r.Granted? {
        OwnerDecides(fs, path, depth, r.value, after);
        OwnerPrepared(fs, path, depth, st, after);
      } else if !r.error.PolicyInvalid? {
        hide Stops, ReadableTo;
        var d :| 0 <= d <= depth - 1 && Stops(fs, path, d, r.error);
        assert 0 <= d <= depth;
      }
    }
  }

  lemma RootDecides(fs: FileSystem, path: Path, st: State)
    requires Kept(fs, st)
    ensures Kept(fs, PrepareTo(fs, path, 0, st).0)
    ensures Prepared(fs, path, 0, st, PrepareTo(fs, path, 0, st))
  {
    hide Kept, LoadPolicy, CaptureOwner, IgnoredBy, IgnoredAt, IsOwner, Sound, SourceOf, Affordable;
    assert path[..0] == [];
    CaptureMeans(fs, []);
    assert Policies(fs, path, 1) == Extend(Policies(fs, path, 0), [], RulesAt(fs, []));
    LoadKeeps(fs, [], st);
    MatchBudget(fs, st);
    assert {} + SourceOf(fs, []) == SourceOf(fs, []);
    if !IsOwner(fs, []) { assert Stops(fs, path, 0, CaptureOwner(fs, []).error); }
  }

  lemma MatchBudget(fs: FileSystem, st: State)
    requires Kept(fs, st)
    ensures st.matchWork <= 65536
  {}

  /** What one turn of the loop decides. */
  ghost predicate OwnerPrepares(
    fs: FileSystem, path: Path, depth: nat, st: State, prepared: (State, Result<seq<Scoped>>))
    requires 0 < depth <= |path|
  {
    var owner := path[..depth];
    var work := Cost(Policies(fs, path, depth), owner, true);
    match prepared.1
    case Granted(rules) =>
      && rules == Policies(fs, path, depth + 1) && OpenOwner(fs, owner) && Sound(fs, owner)
      && Affordable(fs, st.cache.Keys + SourceOf(fs, owner)) && st.matchWork + work <= 65536
      && prepared.0.cache.Keys == st.cache.Keys + SourceOf(fs, owner)
      && prepared.0.matchWork == st.matchWork + work
    case Refused(error) =>
      && (error.PolicyInvalid? ==>
            || !Sound(fs, owner) || !Affordable(fs, st.cache.Keys + SourceOf(fs, owner))
            || st.matchWork + work + TargetWork(fs, path) > 65536)
      && (!error.PolicyInvalid? ==>
            && !OpenOwner(fs, owner)
            && error == if IgnoredAt(fs, owner, true) then Ignored
                        else if !fs.resolve(owner).Missing? then Unavailable
                        else if && IgnoredBy(Policies(fs, path, depth), path, false)
                                && IgnoredBy(Policies(fs, path, depth), path, true) then Ignored
                        else NotFound)
  }

  /** One more owner behind a prepared view. */
  lemma OwnerPrepared(fs: FileSystem, path: Path, depth: nat, st: State, after: State)
    requires 0 < depth <= Depth(path)
    requires PrepareTo(fs, path, depth - 1, st) == (after, Granted(Policies(fs, path, depth)))
    requires Prepared(fs, path, depth - 1, st, PrepareTo(fs, path, depth - 1, st))
    requires OwnerPrepares(fs, path, depth, after,
                           PrepareOwner(fs, path, depth, Policies(fs, path, depth), after))
    ensures Prepared(fs, path, depth, st, PrepareTo(fs, path, depth, st))
  {
    hide PrepareOwner, IgnoredBy, IgnoredAt, IsOwner, Sound, SourceOf, Affordable, Cost, TargetWork;
    hide OpenOwner, Policies;
    var owner := path[..depth];
    var keys := st.cache.Keys;
    assert keys + SourcesTo(fs, path, depth - 1) + SourceOf(fs, owner)
        == keys + SourcesTo(fs, path, depth);
    var (_, r) := PrepareOwner(fs, path, depth, Policies(fs, path, depth), after);
    if r.Refused? && !r.error.PolicyInvalid? { assert Stops(fs, path, depth, r.error); }
  }

  lemma OwnerDecides(fs: FileSystem, path: Path, depth: nat, rules: seq<Scoped>, st: State)
    requires Kept(fs, st) && 0 < depth <= Depth(path) && rules == Policies(fs, path, depth)
    ensures Kept(fs, PrepareOwner(fs, path, depth, rules, st).0)
    ensures OwnerPrepares(fs, path, depth, st, PrepareOwner(fs, path, depth, rules, st))
  {
    hide Kept, LoadPolicy, CaptureOwner, IsIgnored, Flattened, LastMatch, Sound, SourceOf, Affordable;
    hide IsOwner, Cost, MissingOwner, TargetWork, Policies, IgnoredBy, RulesAt;
    var owner := path[..depth];
    OwnerIgnored(fs, path, depth, st);
    CaptureMeans(fs, owner);
    var after := IsIgnored(rules, owner, st, true).0;
    MissingDecides(fs, path, depth, after);
    LoadKeeps(fs, owner, after);
    OneMorePolicy(fs, path, depth);
  }

  lemma OneMorePolicy(fs: FileSystem, path: Path, depth: nat)
    requires depth <= |path|
    ensures Policies(fs, path, depth + 1)
            == Extend(Policies(fs, path, depth), path[..depth], RulesAt(fs, path[..depth]))
  {
    hide RulesAt;
  }

  /** The first question about an owner. */
  lemma OwnerIgnored(fs: FileSystem, path: Path, depth: nat, st: State)
    requires Kept(fs, st) && 0 < depth <= Depth(path)
    ensures var owner, rules := path[..depth], Policies(fs, path, depth);
            var (after, r) := IsIgnored(rules, owner, st, true);
            && Kept(fs, after) && after.cache == st.cache
            && (r.Granted? <==> st.matchWork + Cost(rules, owner, true) <= 65536)
            && (r.Granted? ==>
                  && after.matchWork == st.matchWork + Cost(rules, owner, true)
                  && (Verdict(r.value) <==> IgnoredAt(fs, owner, true)))
            && (r.Refused? ==> r.error.PolicyInvalid?)
  {
    hide Kept, IsIgnored, Flattened, LastMatch, Cost, RulesAt;
    PoliciesOfPrefix(fs, path, depth, depth);
    IgnoredIsLastMatch(fs, Policies(fs, path, depth), path[..depth], st, true);
  }

  /** What becomes of a missing owner. */
  lemma MissingDecides(fs: FileSystem, path: Path, depth: nat, st: State)
    requires Kept(fs, st) && 0 < depth <= Depth(path)
    ensures var rules := Policies(fs, path, depth);
            var (after, r) := MissingOwner(path, rules, st);
            && Kept(fs, after)
            && r.Refused?
            && (r.error.PolicyInvalid? ==> st.matchWork + TargetWork(fs, path) > 65536)
            && (!r.error.PolicyInvalid? ==>
                  r.error == if IgnoredBy(rules, path, false) && IgnoredBy(rules, path, true)
                             then Ignored else NotFound)
  {
    hide Kept, IsIgnored, Flattened, LastMatch, Cost, Policies;
    var rules := Policies(fs, path, depth);
    IgnoredIsLastMatch(fs, rules, path, st, false);
    IgnoredIsLastMatch(fs, rules, path, IsIgnored(rules, path, st, false).0, true);
    CostGrows(fs, path, depth, Depth(path) + 1, path, false);
    CostGrows(fs, path, depth, Depth(path) + 1, path, true);
  }

  /** The error a view that cannot be gone through stops with. */
  predicate ViewStops(fs: FileSystem, path: Path, error: Error) {
    || (exists d :: 0 <= d <= Depth(path) && Stops(fs, path, d, error))
    || (error.Ignored? && IgnoredAt(fs, path, false) && IgnoredAt(fs, path, true))
  }

  lemma StopsIsClosed(fs: FileSystem, path: Path, error: Error)
    requires ViewStops(fs, path, error)
    ensures !OpenView(fs, path)
  {
    hide OpenOwner, IgnoredAt;
    if d :| 0 <= d <= Depth(path) && Stops(fs, path, d, error) {
      assert !OpenOwner(fs, path[..d]);
    }
  }

  lemma ViewDecides(fs: FileSystem, path: Path, st: State)
    requires Kept(fs, st)
    ensures var (after, r) := View(fs, path, st);
            && Kept(fs, after)
            && (r.Granted? ==>
                  && OpenView(fs, path) && Readable(fs, path, st.cache.Keys, st.matchWork)
                  && r.value == (IgnoredAt(fs, path, false), IgnoredAt(fs, path, true))
                  && after.cache.Keys == st.cache.Keys + Sources(fs, path)
                  && after.matchWork == st.matchWork + ViewWork(fs, path))
            && (r.Refused? ==>
                  if r.error.PolicyInvalid? then !Readable(fs, path, st.cache.Keys, st.matchWork)
                  else ViewStops(fs, path, r.error))
  {
    hide Kept, IsIgnored, PrepareTo, OpenOwner, Policies, Flattened, LastMatch, Stops, Sound, Affordable;
    hide SourcesTo, OwnersWork, Cost;
    PrepareDecides(fs, path, Depth(path), st);
    var (after, r) := PrepareTo(fs, path, Depth(path), st);
    if r.Granted? {
      IgnoredIsLastMatch(fs, r.value, path, after, false);
      IgnoredIsLastMatch(fs, r.value, path, IsIgnored(r.value, path, after, false).0, true);
    }
  }

  // ----- Main results -----

  /** Where a refusal that no policy is to blame for comes from. */
  predicate Explains(fs: FileSystem, path: Path, error: Error) {
    var found := fs.resolve(path);
    || (error.Unavailable? && HardDenied(path))
    || ViewStops(fs, path, error)
    || (error.NotFound? && found.Missing?)
    || (error.Unavailable? && found.Outside?)
    || (found.Resolved?
        && (|| (error.Unavailable? && (HardDenied(found.canonical) || found.kind.Special?))
            || ViewStops(fs, found.canonical, error)
            || (error.Ignored?
                && (IgnoredAt(fs, path, found.kind.Directory?)
                    || IgnoredAt(fs, found.canonical, found.kind.Directory?)))))
  }

  /** Behind an open view the parent needs no second look. */
  lemma ParentIsOpen(fs: FileSystem, path: Path)
    requires OpenView(fs, path)
    ensures FinalizeSnapshot(fs, path) == Granted(path != [] && fs.isLink(path))
  {
    hide IgnoredAt, HardDenied;
    if path != [] {
      assert OpenOwner(fs, path[..Depth(path)]);
      assert path[..Depth(path)] == path[..|path| - 1];
    }
  }

  /** Admission is exact.  A path is admitted, with its canonical form, kind and link status, exactly when
      it is hard-denied in neither view, has no ignored proper ancestor in either view, is not ignored for
      its actual kind, and every policy on both views can be read, parsed and afforded.  A refusal for
      policy reasons means that some policy or budget fails; every other refusal has its own cause.  The
      cache stays a fresh parse and the budgets hold, whatever the outcome. */
  lemma AdmissionIsExact(fs: FileSystem, path: Path, st: State)
    requires Kept(fs, st)
    ensures var (after, r) := AdmitExisting(fs, Some(path), st);
            && Kept(fs, after)
            && (forall a: Admitted ::
                  r == Granted(a) <==> Admissible(fs, path, a) && BothReadable(fs, path, st))
            && (r.Refused? && r.error.PolicyInvalid? ==> !BothReadable(fs, path, st))
            && (r.Refused? && !r.error.PolicyInvalid? ==>
                  Explains(fs, path, r.error) && forall a: Admitted :: !Admissible(fs, path, a))
  {
    hide Kept, View, HardDenied, OpenView, IgnoredAt, FinalizeSnapshot, Readable, ViewStops, ViewWork;
    hide Sources;
    ViewDecides(fs, path, st);
    var (first, lexical) := View(fs, path, st);
    if lexical.Granted? { ParentIsOpen(fs, path); }
    if lexical.Refused? && !lexical.error.PolicyInvalid? {
      StopsIsClosed(fs, path, lexical.error);
    }
    match fs.resolve(path)
    case Resolved(canonical, _) =>
      ViewDecides(fs, canonical, first);
      var (_, actual) := View(fs, canonical, first);
      if actual.Refused? && !actual.error.PolicyInvalid? {
        StopsIsClosed(fs, canonical, actual.error);
      }
    case _ =>
  }

  /** Where nothing is spent yet and every policy can be read, parsed and afforded, admission is decided
      by the rules alone. */
  lemma FreshAdmission(fs: FileSystem, path: Path)
    requires BothReadable(fs, path, UNSPENT)
    ensures AdmitExisting(fs, Some(path), UNSPENT).1.Granted?
            <==> exists a: Admitted :: Admissible(fs, path, a)
  {
    hide Kept, AdmitExisting, Admissible, BothReadable;
    UnspentKept(fs);
    AdmissionIsExact(fs, path, UNSPENT);
    var r := AdmitExisting(fs, Some(path), UNSPENT).1;
    if r.Granted? {
      assert Admissible(fs, path, r.value);
    }
  }

  /** `lowered` is `name` with its ASCII letters in lower case. */
  predicate Lowers(name: string, lowered: string) {
    && |lowered| == |name|
    && forall i :: 0 <= i < |name| ==>
         lowered[i] == if 'A' <= name[i] <= 'Z' then (name[i] as int + 32) as char else name[i]
  }

  /** A lower-case name that usually holds credentials or keys. */
  ghost predicate Sensitive(lowered: string) {
    || lowered in {".envrc", ".netrc", ".npmrc", ".pypirc", ".git-credentials", "credentials",
                   "credentials.json", "application_default_credentials.json", "service-account.json",
                   "id_rsa", "id_dsa", "id_ecdsa", "id_ed25519"}
    || (exists stem: string :: lowered == stem + ".env")
    || (exists rest: string :: lowered == ".env." + rest)
    || (exists stem: string :: lowered == stem + ".pem")
    || (exists stem: string :: lowered == stem + ".key")
    || (exists stem: string :: lowered == stem + ".p12")
    || (exists stem: string :: lowered == stem + ".pfx")
  }

  /** The hard denials: a control directory anywhere, or a sensitive basename in any ASCII case, the three
      documentation files excepted as they are written. */
  lemma HardDeniedExactly(path: Path)
    ensures HardDenied(path)
            <==> || (exists i :: 0 <= i < |path|
                       && path[i] in {".git", ".hg", ".svn", ".ssh", ".gnupg", ".aws"})
                 || (&& path != []
                     && path[|path| - 1] !in {".env.example", ".env.sample", ".env.template"}
                     && exists lowered :: Lowers(path[|path| - 1], lowered) && Sensitive(lowered))
  {
    hide Lowers, Sensitive, EndsWith, StartsWith, AsciiLower;
    if path != [] {
      var name := path[|path| - 1];
      var lowered := AsciiLower(name);
      LowerIs(name);
      forall other | Lowers(name, other) ensures other == lowered { SameLower(name, other, lowered); }
      SensitiveIs(lowered);
    }
    assert forall c :: c in path ==> exists i :: 0 <= i < |path| && path[i] == c;
  }

  lemma {:induction false} LowerIs(name: string)
    ensures Lowers(name, AsciiLower(name))
  {
    if name != "" { LowerIs(name[..|name| - 1]); }
  }

  lemma SameLower(name: string, a: string, b: string)
    requires Lowers(name, a) && Lowers(name, b)
    ensures a == b
  {}

  lemma EndingIs(s: string, suffix: string)
    ensures EndsWith(s, suffix) <==> exists stem: string :: s == stem + suffix
  {
    if EndsWith(s, suffix) { assert s == s[..|s| - |suffix|] + suffix; }
  }

  lemma StartIs(s: string, prefix: string)
    ensures StartsWith(s, prefix) <==> exists rest: string :: s == prefix + rest
  {
    if StartsWith(s, prefix) { assert s == prefix + s[|prefix|..]; }
  }

  lemma SensitiveIs(lowered: string)
    ensures Sensitive(lowered)
            <==> || lowered in DENIED_BASENAMES || lowered == ".env" || EndsWith(lowered, ".env")
                 || StartsWith(lowered, ".env.") || EndsWith(lowered, ".pem")
                 || EndsWith(lowered, ".key") || EndsWith(lowered, ".p12") || EndsWith(lowered, ".pfx")
  {
    EndingIs(lowered, ".env");
    StartIs(lowered, ".env.");
    EndingIs(lowered, ".pem");
    EndingIs(lowered, ".key");
    EndingIs(lowered, ".p12");
    EndingIs(lowered, ".pfx");
    assert "" + ".env" == ".env";
    hide StartsWith, EndsWith;
  }

  /** A hard-denied request says nothing about what exists, and a malformed one is refused as such. */
  lemma DeniedIsUnavailable(fs: FileSystem, path: Path, st: State)
    requires HardDenied(path)
    ensures AdmitExisting(fs, Some(path), st) == (st, Refused(Unavailable))
    ensures AdmitExisting(fs, None, st) == (st, Refused(InvalidPath))
  {}

  // ----- A shared decision admits nothing more -----

  /** A decision that has seen less. */
  ghost predicate Behind(a: State, b: State) {
    a.cache.Keys <= b.cache.Keys && a.matchWork <= b.matchWork
  }

  ghost predicate Follows<T>(fs: FileSystem, fewer: (State, Result<T>), more: (State, Result<T>)) {
    more.1.Granted? ==>
      fewer.1 == more.1 && Behind(fewer.0, more.0) && Kept(fs, fewer.0) && Kept(fs, more.0)
  }

  lemma Cardinality(a: set<Path>, b: set<Path>)
    requires a <= b
    ensures |a| <= |b|
  {
    assert b == a + (b - a);
  }

  lemma LoadFollows(fs: FileSystem, owner: Path, a: State, b: State)
    requires Kept(fs, a) && Kept(fs, b) && Behind(a, b)
    ensures Follows(fs, LoadPolicy(fs, owner, a), LoadPolicy(fs, owner, b))
  {
    hide Kept, LoadPolicy, Sound, SourceOf, Affordable, RulesAt;
    LoadKeeps(fs, owner, a);
    LoadKeeps(fs, owner, b);
    AffordableLess(fs, a.cache.Keys + SourceOf(fs, owner), b.cache.Keys + SourceOf(fs, owner));
  }

  lemma {:induction false} IgnoredFollows(
    fs: FileSystem, policies: seq<Scoped>, target: Path, a: State, b: State, isDirectory: bool)
    requires Kept(fs, a) && Kept(fs, b) && Behind(a, b)
    ensures Follows(fs, IsIgnored(policies, target, a, isDirectory),
                    IsIgnored(policies, target, b, isDirectory))
  {
    hide Kept;
    IgnoredIsLastMatch(fs, policies, target, a, isDirectory);
    IgnoredIsLastMatch(fs, policies, target, b, isDirectory);
    if policies != [] {
      IgnoredFollows(fs, policies[..|policies| - 1], target, a, b, isDirectory);
    }
    hide Flattened, LastMatch;
  }

  lemma {:induction false} PrepareFollows(fs: FileSystem, path: Path, depth: nat, a: State, b: State)
    requires Kept(fs, a) && Kept(fs, b) && Behind(a, b) && depth <= |path|
    ensures Follows(fs, PrepareTo(fs, path, depth, a), PrepareTo(fs, path, depth, b))
    decreases depth
  {
    hide Kept, LoadPolicy, CaptureOwner, PrepareOwner, Behind;
    if depth == 0 {
      LoadFollows(fs, [], a, b);
    } else {
      PrepareFollows(fs, path, depth - 1, a, b);
      var (x, r) := PrepareTo(fs, path, depth - 1, a);
      var (y, q) := PrepareTo(fs, path, depth - 1, b);
      if q.Granted? { OwnerFollows(fs, path, depth, q.value, x, y); }
    }
  }

  lemma OwnerFollows(
    fs: FileSystem, path: Path, depth: nat, rules: seq<Scoped>, a: State, b: State)
    requires Kept(fs, a) && Kept(fs, b) && Behind(a, b) && depth <= |path|
    ensures Follows(fs, PrepareOwner(fs, path, depth, rules, a),
                    PrepareOwner(fs, path, depth, rules, b))
  {
    hide Kept, LoadPolicy, CaptureOwner, IsIgnored, Behind;
    var owner := path[..depth];
    IgnoredFollows(fs, rules, owner, a, b, true);
    if IsIgnored(rules, owner, b, true).1.Granted? {
      LoadFollows(fs, owner, IsIgnored(rules, owner, a, true).0, IsIgnored(rules, owner, b, true).0);
    }
  }

  lemma ViewFollows(fs: FileSystem, path: Path, a: State, b: State)
    requires Kept(fs, a) && Kept(fs, b) && Behind(a, b)
    ensures Follows(fs, View(fs, path, a), View(fs, path, b))
  {
    hide Kept, PrepareTo, IsIgnored, Behind;
    PrepareFollows(fs, path, Depth(path), a, b);
    var (x, r) := PrepareTo(fs, path, Depth(path), a);
    var (y, q) := PrepareTo(fs, path, Depth(path), b);
    if q.Granted? {
      IgnoredFollows(fs, q.value, path, x, y, false);
      if IsIgnored(q.value, path, y, false).1.Granted? {
        IgnoredFollows(fs, q.value, path, IsIgnored(q.value, path, x, false).0,
                       IsIgnored(q.value, path, y, false).0, true);
      }
    }
  }

  /** Any path admitted inside a shared traversal, whatever it has cached and spent, is admitted
      identically by a fresh decision. */
  lemma SharedAdmissionIsFreshAdmission(fs: FileSystem, path: Path, st: State)
    requires Kept(fs, st) && AdmitExisting(fs, Some(path), st).1.Granted?
    ensures AdmitExisting(fs, Some(path), UNSPENT).1 == AdmitExisting(fs, Some(path), st).1
  {
    hide Kept, View, HardDenied, FinalizeSnapshot;
    UnspentKept(fs);
    ViewFollows(fs, path, UNSPENT, st);
    match fs.resolve(path)
    case Resolved(canonical, _) =>
      ViewFollows(fs, canonical, View(fs, path, UNSPENT).0, View(fs, path, st).0);
    case _ =>
  }
}
