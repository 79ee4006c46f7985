/** One admission decision of `repository_access.py`, its cache and budgets updated in place. */
module RepositoryObjects {
  import opened Prelude
  import opened RepositoryPolicy
  import opened RepositoryAdmission

  lemma {:induction false} RefusalSticks(
    policies: seq<Scoped>, n: nat, target: Path, st: State, isDirectory: bool)
    requires n <= |policies| && IsIgnored(policies[..n], target, st, isDirectory).1.Refused?
    ensures IsIgnored(policies, target, st, isDirectory)
            == IsIgnored(policies[..n], target, st, isDirectory)
    decreases |policies|
  {
    if n < |policies| {
      var front := policies[..|policies| - 1];
      assert front[..n] == policies[..n];
      RefusalSticks(front, n, target, st, isDirectory);
    } else {
      assert policies[..n] == policies;
    }
  }

  lemma {:induction false} PreparationSticks(fs: FileSystem, path: Path, d: nat, n: nat, st: State)
    requires d <= n <= |path| && PrepareTo(fs, path, d, st).1.Refused?
    ensures PrepareTo(fs, path, n, st) == PrepareTo(fs, path, d, st)
    decreases n
  {
    hide PrepareOwner, CaptureOwner, LoadPolicy;
    if d < n { PreparationSticks(fs, path, d, n - 1, st); }
  }

  /** The loop of `_check_policy`. */
  method CheckPolicyLoop(patterns: seq<Pattern>, relative: Path) returns (decision: Option<bool>)
    ensures decision == CheckPolicy(patterns, relative)
  {
    decision := None;
    for i := 0 to |patterns|
      invariant decision == CheckPolicy(patterns[..i], relative)
    {
      assert patterns[..i + 1][..i] == patterns[..i];
      var pattern := patterns[i];
      if pattern.verdict.Some? && pattern.hits(relative) { decision := pattern.verdict; }
    }
    assert patterns[..|patterns|] == patterns;
  }

  /** `_RepositoryAdmission` with its `_AdmissionState`. */
  class RepositoryDecision {
    const fs: FileSystem
    var cache: map<Path, Rules>
    var loadedBytes: nat
    var matchWork: nat

    function View(): State
      reads this
    {
      State(cache, loadedBytes, matchWork)
    }

    ghost predicate Valid()
      reads this
    {
      Kept(fs, View())
    }

    constructor (fs: FileSystem)
      ensures Valid() && View() == UNSPENT && this.fs == fs
    {
      this.fs := fs;
      cache, loadedBytes, matchWork := map[], 0, 0;
      new;
      UnspentKept(fs);
    }

    /** `_is_ignored`. */
    method IsIgnoredLoop(policies: seq<Scoped>, target: Path, isDirectory: bool)
      returns (r: Result<bool>)
      modifies this`matchWork
      ensures var (after, spec) := IsIgnored(policies, target, old(View()), isDirectory);
              && View() == after
              && r == match spec {
                        case Granted(decision) => Granted(Verdict(decision))
                        case Refused(error) => Refused(error)
                      }
    {
      var ignored: Option<bool> := None;
      for i := 0 to |policies|
        invariant IsIgnored(policies[..i], target, old(View()), isDirectory)
                  == (View(), Granted(ignored))
        invariant cache == old(cache) && loadedBytes == old(loadedBytes)
      {
        assert policies[..i + 1][..i] == policies[..i];
        var policy := policies[i];
        if Concerns(policy, target) {
          var patterns := policy.rules.For(isDirectory);
          if |patterns| > MAX_POLICY_MATCH_WORK - matchWork {
            RefusalSticks(policies, i + 1, target, old(View()), isDirectory);
            return Refused(PolicyInvalid);
          }
          matchWork := matchWork + |patterns|;
          var decision := CheckPolicyLoop(patterns, target[|policy.owner|..]);
          if decision.Some? { ignored := decision; }
        }
      }
      assert policies[..|policies|] == policies;
      r := Granted(Verdict(ignored));
    }

    /** `_load_policy`. */
    method Load(owner: Path) returns (r: Result<Option<Rules>>)
      modifies this
      ensures (View(), r) == LoadPolicy(fs, owner, old(View()))
    {
      hide PolicySource;
      var presence := fs.leaf(owner);
      if presence.Absent? { return Granted(None); }
      if presence.ProbeFailed? { return Refused(PolicyInvalid); }
      var found := PolicySource(fs, owner);
      if found.Refused? { return Refused(found.error); }
      var source := found.value;
      if source in cache { return Granted(Some(cache[source])); }
      if |cache| >= MAX_POLICY_SOURCES || loadedBytes + fs.size(source) > MAX_POLICY_BYTES {
        return Refused(PolicyInvalid);
      }
      var parsed := fs.parse(source);
      if parsed.None? { return Refused(PolicyInvalid); }
      cache := cache[source := parsed.value];
      loadedBytes := loadedBytes + fs.size(source);
      r := Granted(parsed);
    }

    /** `_prepare_ignore_view`. */
    method PrepareIgnoreView(path: Path) returns (r: Result<seq<Scoped>>)
      modifies this
      ensures (View(), r) == PrepareTo(fs, path, Depth(path), old(View()))
    {
      hide PrepareOwner, LoadPolicy, CaptureOwner;
      ghost var start := View();
      assert path[..0] == [];
      var root := CaptureOwner(fs, []);
      if root.Refused? {
        PreparationSticks(fs, path, 0, Depth(path), start);
        return Refused(root.error);
      }
      var rootPolicy := Load([]);
      if rootPolicy.Refused? {
        PreparationSticks(fs, path, 0, Depth(path), start);
        return Refused(rootPolicy.error);
      }
      var rules := Extend([], [], rootPolicy.value);
      var depth := 1;
      while depth < |path|
        invariant 1 <= depth && (path != [] ==> depth <= |path|) && (path == [] ==> depth == 1)
        invariant PrepareTo(fs, path, depth - 1, start) == (View(), Granted(rules))
      {
        ghost var before := View();
        var next := AddOwner(path, depth, rules);
        assert PrepareTo(fs, path, depth, start) == PrepareOwner(fs, path, depth, rules, before);
        if next.Refused? {
          PreparationSticks(fs, path, depth, Depth(path), start);
          return Refused(next.error);
        }
        rules := next.value;
        depth := depth + 1;
      }
      r := Granted(rules);
    }

    /** One turn of the loop of `_prepare_ignore_view`. */
    method AddOwner(path: Path, depth: nat, rules: seq<Scoped>) returns (r: Result<seq<Scoped>>)
      requires 0 < depth <= |path|
      modifies this
      ensures (View(), r) == PrepareOwner(fs, path, depth, rules, old(View()))
    {
      hide IsIgnored, LoadPolicy, CaptureOwner;
      var owner := path[..depth];
      var ignored := IsIgnoredLoop(rules, owner, true);
      if ignored.Refused? { return Refused(ignored.error); }
      if ignored.value { return Refused(Ignored); }
      var captured := CaptureOwner(fs, owner);
      if captured.Refused? {
        if !captured.error.NotFound? { return Refused(captured.error); }
        var asFile := IsIgnoredLoop(rules, path, false);
        if asFile.Refused? { return Refused(asFile.error); }
        var asDirectory := IsIgnoredLoop(rules, path, true);
        if asDirectory.Refused? { return Refused(asDirectory.error); }
        return Refused(if asFile.value && asDirectory.value then Ignored else NotFound);
      }
      var nested := Load(owner);
      if nested.Refused? { return Refused(nested.error); }
      r := Granted(Extend(rules, owner, nested.value));
    }

    /** One view of a path and its two verdicts. */
    method PrepareView(path: Path) returns (r: Result<(bool, bool)>)
      modifies this
      ensures (View(), r) == RepositoryPolicy.View(fs, path, old(View()))
    {
      hide IsIgnored, PrepareTo;
      var rules := PrepareIgnoreView(path);
      if rules.Refused? { return Refused(rules.error); }
      var asFile := IsIgnoredLoop(rules.value, path, false);
      if asFile.Refused? { return Refused(asFile.error); }
      var asDirectory := IsIgnoredLoop(rules.value, path, true);
      if asDirectory.Refused? { return Refused(asDirectory.error); }
      if asFile.value && asDirectory.value { return Refused(Ignored); }
      r := Granted((asFile.value, asDirectory.value));
    }

    /** `admit_existing`. */
    method AdmitExistingPath(request: Option<Path>) returns (r: Result<Admitted>)
      requires Valid()
      modifies this
      ensures Valid()
      ensures (View(), r) == AdmitExisting(fs, request, old(View()))
      ensures request.Some? ==>
                forall a: Admitted ::
                  r == Granted(a)
                  <==> Admissible(fs, request.value, a) && old(BothReadable(fs, request.value, View()))
    {
      hide HardDenied, RepositoryPolicy.View, FinalizeSnapshot, Admissible, Kept, BothReadable;
      if request.None? { return Refused(InvalidPath); }
      var path := request.value;
      AdmissionIsExact(fs, path, View());
      if HardDenied(path) { return Refused(Unavailable); }
      var lexical := PrepareView(path);
      if lexical.Refused? { return Refused(lexical.error); }
      var resolved := fs.resolve(path);
      if resolved.Missing? { return Refused(NotFound); }
      if resolved.Outside? || HardDenied(resolved.canonical) { return Refused(Unavailable); }
      var canonical := PrepareView(resolved.canonical);
      if canonical.Refused? { return Refused(canonical.error); }
      if resolved.kind.Special? { return Refused(Unavailable); }
      var ignored := if resolved.kind.Directory? then lexical.value.1 || canonical.value.1
                     else lexical.value.0 || canonical.value.0;
      if ignored { return Refused(Ignored); }
      var snapshot := FinalizeSnapshot(fs, path);
      if snapshot.Refused? { return Refused(snapshot.error); }
      r := Granted(Admitted(resolved.canonical, resolved.kind, snapshot.value));
    }
  }
}
