/**
 * The import-boundary check (scripts/check-connections-boundary.ts): a depth-first walk over the import graph,
 * cycles included, that reports every reachable forbidden file and every import of a forbidden package.
 */
module BoundaryWalk {
  import opened Wrappers

  /**
   * The file system as the script sees it. `sources` holds the specifiers extracted from each readable file;
   * `present` also contains directories; `resolve(base, path)` is Node's path resolution.
   */
  datatype Repository = Repository(
    sources: map<string, seq<string>>,
    present: set<string>,
    connections: string,
    dirname: string -> string,
    resolve: (string, string) -> string)

  const FORBIDDEN_FILES: set<string> := {"publish-registry.ts", "runtime.ts"}
  const FORBIDDEN_PACKAGES: set<string> := {"axios", "googleapis"}

  /** The part of `s` before the first `c`, and what follows that `c`, if there is one. */
  function Cut(s: string, c: char): (r: (string, Option<string>))
    ensures c !in r.0
    ensures s == if r.1.Some? then r.0 + [c] + r.1.value else r.0
  {
    if s == [] then ("", None)
    else if s[0] == c then ("", Some(s[1..]))
    else
      var rest := Cut(s[1..], c);
      ([s[0]] + rest.0, rest.1)
  }

  /** The last component of a path (`file.split("/").at(-1)`). */
  function BaseName(path: string): string
    decreases |path|
  {
    match Cut(path, '/')
    case (last, None) => last
    case (_, Some(rest)) => BaseName(rest)
  }

  /** Lines 61-63: the package a specifier names. */
  function PackageName(specifier: string): string {
    var (head, rest) := Cut(specifier, '/');
    if specifier != [] && specifier[0] == '@' && rest.Some? then head + "/" + Cut(rest.value, '/').0 else head
  }

  predicate ForbiddenFile(file: string) {
    BaseName(file) in FORBIDDEN_FILES
  }

  predicate ForbiddenImport(specifier: string) {
    PackageName(specifier) in FORBIDDEN_PACKAGES
  }

  /** Lines 25-33: the first candidate that exists. */
  function ResolveModule(repo: Repository, from: string, specifier: string): Option<string> {
    var base := repo.resolve(repo.dirname(from), specifier);
    if base in repo.present then Some(base)
    else if base + ".ts" in repo.present then Some(base + ".ts")
    else if repo.resolve(base, "index.ts") in repo.present then Some(repo.resolve(base, "index.ts"))
    else None
  }

  const ALIAS := "@delulu/connections"
  const SOURCE_ALIAS := "@delulu/connections/src/"

  predicate NoNewline(s: string) {
    '\n' !in s && '\r' !in s && '\U{2028}' !in s && '\U{2029}' !in s
  }

  /** Lines 35-46: the package's own aliases; the first two are not checked for existence. */
  function ResolveAlias(repo: Repository, specifier: string): Option<string> {
    var index := repo.resolve(repo.connections, "index.ts");
    if specifier == ALIAS then Some(index)
    else if specifier == ALIAS + "/worker" then Some(repo.resolve(repo.connections, "worker-entry.ts"))
    else if SOURCE_ALIAS < specifier && NoNewline(specifier[|SOURCE_ALIAS|..]) then
      ResolveModule(repo, index, "./" + specifier[|SOURCE_ALIAS|..])
    else None
  }

  /** Where an allowed specifier of a file leads, if anywhere. */
  function Target(repo: Repository, file: string, specifier: string): Option<string> {
    if ForbiddenImport(specifier) then None
    else if specifier != [] && specifier[0] == '.' then ResolveModule(repo, file, specifier)
    else ResolveAlias(repo, specifier)
  }

  predicate Imports(repo: Repository, from: string, to: string) {
    from in repo.sources && exists s | s in repo.sources[from] :: Target(repo, from, s) == Some(to)
  }

  /** An import path: consecutive files import each other. */
  predicate IsPath(repo: Repository, path: seq<string>) {
    path != [] && forall i | 0 <= i < |path| - 1 :: Imports(repo, path[i], path[i + 1])
  }

  ghost predicate Reachable(repo: Repository, entry: string, file: string) {
    exists path :: IsPath(repo, path) && path[0] == entry && path[|path| - 1] == file
  }

  /** A reported chain, kept as a sequence: it ends in the reported file, or in the file that imports `specifier`. */
  datatype Violation =
    | File(chain: seq<string>)
    | Package(chain: seq<string>, specifier: string)

  /** What a violation is about: a forbidden file, or a pair of a file and a forbidden specifier. */
  predicate About(v: Violation, file: string) {
    v.chain != [] && v.chain[|v.chain| - 1] == file
  }

  predicate Genuine(repo: Repository, entry: string, v: Violation) {
    && IsPath(repo, v.chain) && v.chain[0] == entry && Distinct(v.chain)
    && var file := v.chain[|v.chain| - 1];
       match v
       case File(_) => ForbiddenFile(file)
       case Package(_, specifier) =>
         file in repo.sources && specifier in repo.sources[file] && ForbiddenImport(specifier)
  }

  /** Everything owed to a visited file is in the list. */
  predicate Covered(repo: Repository, violations: seq<Violation>, file: string) {
    && (ForbiddenFile(file) ==> exists v | v in violations :: v.File? && About(v, file))
    && (file in repo.sources ==>
          forall s | s in repo.sources[file] && ForbiddenImport(s) ::
            exists v | v in violations :: v.Package? && v.specifier == s && About(v, file))
  }

  /** What a finished part of the walk has settled about the files it visited after `before`. */
  ghost predicate Settled(repo: Repository, visited: set<string>, violations: seq<Violation>,
      before: set<string>, but: set<string>)
  {
    forall f | f in visited - before - but ::
      && f in repo.sources
      && Covered(repo, violations, f)
      && forall s | s in repo.sources[f] :: Target(repo, f, s).Some? ==> Target(repo, f, s).value in visited
  }

  ghost predicate Reported(violations: seq<Violation>, file: string, specifier: string) {
    exists v | v in violations :: v.Package? && v.specifier == specifier && About(v, file)
  }

  /** The specifiers of `file` already dealt with. */
  ghost predicate DealtWith(repo: Repository, visited: set<string>, violations: seq<Violation>,
      file: string, specifiers: seq<string>)
  {
    && (ForbiddenFile(file) ==> exists v | v in violations :: v.File? && About(v, file))
    && forall s | s in specifiers ::
         && (ForbiddenImport(s) ==> Reported(violations, file, s))
         && (Target(repo, file, s).Some? ==> Target(repo, file, s).value in visited)
  }

  /** What was settled before a part of the walk stays settled when that part settles all it visits. */
  lemma StaysSettled(repo: Repository, was: set<string>, found: seq<Violation>, visited: set<string>,
      violations: seq<Violation>, before: set<string>, but: set<string>)
    requires was <= visited && found <= violations
    requires Settled(repo, was, found, before, but) && Settled(repo, visited, violations, was, {})
    ensures Settled(repo, visited, violations, before, but)
  {
  }

  /** One more specifier is dealt with: reported, or leading nowhere, or leading to a visited file. */
  lemma DealtWithNext(repo: Repository, was: set<string>, found: seq<Violation>, visited: set<string>,
      violations: seq<Violation>, file: string, done: seq<string>, specifier: string)
    requires was <= visited && found <= violations
    requires DealtWith(repo, was, found, file, done)
    requires ForbiddenImport(specifier) ==> Reported(violations, file, specifier)
    requires Target(repo, file, specifier).Some? ==> Target(repo, file, specifier).value in visited
    ensures DealtWith(repo, visited, violations, file, done + [specifier])
  {
  }

  /** The closure state of the walk: `visited` and `violations`. */
  class Walker {
    const repo: Repository
    const entry: string
    var visited: set<string>
    var violations: seq<Violation>
    ghost var chains: map<string, seq<string>>

    constructor (repo: Repository, entry: string)
      ensures this.repo == repo && this.entry == entry && visited == {} && violations == [] && chains == map[]
    {
      this.repo, this.entry, visited, violations, chains := repo, entry, {}, [], map[];
    }

    /** Every visited file was first reached along one path without repetition, and reports carry that path. */
    ghost predicate Valid()
      reads this
      ensures Valid() ==> chains.Keys == visited
    {
      && chains.Keys == visited
      && (forall f | f in visited ::
            && chains[f] != [] && chains[f][|chains[f]| - 1] == f && chains[f][0] == entry
            && IsPath(repo, chains[f]) && Distinct(chains[f])
            && (forall g | g in chains[f] :: g in visited))
      && (forall v | v in violations ::
            && Genuine(repo, entry, v)
            && v.chain[|v.chain| - 1] in visited
            && v.chain == chains[v.chain[|v.chain| - 1]])
    }

    ghost predicate Explored(before: set<string>, but: set<string>)
      reads this
    {
      Settled(repo, visited, violations, before, but)
    }

    ghost predicate Handled(file: string, specifiers: seq<string>)
      reads this
    {
      DealtWith(repo, visited, violations, file, specifiers)
    }

    twostate predicate Grown()
      reads this
    {
      && old(visited) <= visited
      && old(violations) <= violations
      && forall f | f in old(visited) :: f in chains && f in old(chains) && chains[f] == old(chains)[f]
    }

    lemma FileExplored(before: set<string>, file: string)
      requires file in repo.sources && Explored(before, {file}) && Handled(file, repo.sources[file])
      ensures Explored(before, {})
    {
    }

    /** Lines 55-58. */
    method Enter(file: string, chain: seq<string>)
      requires Valid() && file !in visited
      requires (forall g | g in chain :: g in visited)
        && Distinct(chain) && IsPath(repo, chain + [file]) && (chain + [file])[0] == entry
      modifies this
      ensures Valid() && Grown() && visited == old(visited) + {file} && chains[file] == chain + [file]
      ensures Handled(file, []) && Explored(old(visited), {file})
    {
      hide IsPath, ForbiddenFile, ForbiddenImport, Target, Covered;
      Mark(file, chain);
      if ForbiddenFile(file) {
        assert Genuine(repo, entry, File(chain + [file]));
        violations := violations + [File(chain + [file])];
        assert violations[|violations| - 1] == File(chain + [file]);
      }
    }

    /** Records the visit and the path that led to it. */
    method Mark(file: string, chain: seq<string>)
      requires Valid() && file !in visited
      requires (forall g | g in chain :: g in visited)
        && Distinct(chain) && IsPath(repo, chain + [file]) && (chain + [file])[0] == entry
      modifies this`visited, this`chains
      ensures Valid() && Grown() && visited == old(visited) + {file} && chains[file] == chain + [file]
    {
      hide IsPath, Genuine;
      visited := visited + {file};
      chains := chains[file := chain + [file]];
    }

    /** Lines 64-65. */
    method ReportImport(file: string, chain: seq<string>, specifier: string)
      requires Valid() && file in visited && file in repo.sources && chains[file] == chain + [file]
      requires specifier in repo.sources[file] && ForbiddenImport(specifier)
      modifies this`violations
      ensures Valid() && Grown() && Explored(old(visited), {})
      ensures Reported(violations, file, specifier)
    {
      hide IsPath, ForbiddenFile, ForbiddenImport, Target, Covered;
      assert Genuine(repo, entry, Package(chain + [file], specifier));
      violations := violations + [Package(chain + [file], specifier)];
      assert violations[|violations| - 1] == Package(chain + [file], specifier);
    }

    /** One turn of the specifier loop (lines 61-77). */
    method Follow(file: string, chain: seq<string>, specifier: string, ghost before: set<string>, ghost done: seq<string>)
      returns (ok: bool)
      requires Valid() && file in visited && file in repo.sources && chains[file] == chain + [file]
      requires specifier in repo.sources[file]
      requires Explored(before, {file}) && Handled(file, done)
      modifies this
      ensures Valid() && Grown()
      ensures ok ==> Explored(before, {file}) && Handled(file, done + [specifier])
      ensures !ok ==> exists f :: f in visited && f !in repo.sources
      decreases repo.sources.Keys - visited, 1
    {
      hide IsPath, ForbiddenImport, Genuine, Settled, DealtWith, Reported;
      ok := true;
      if ForbiddenImport(specifier) {
        ReportImport(file, chain, specifier);
      } else {
        var resolved := Target(repo, file, specifier);
        if resolved.Some? {
          assert Imports(repo, file, resolved.value);
          PathGrows(repo, chain + [file], resolved.value);
          ok := Walk(resolved.value, chain + [file]);
        } else {
          NothingNew(visited);
        }
      }
      if ok {
        StaysSettled(repo, old(visited), old(violations), visited, violations, before, {file});
        DealtWithNext(repo, old(visited), old(violations), visited, violations, file, done, specifier);
      }
    }

    /** `walk` (lines 51-78). False is the error thrown by reading a path that is not a readable file. */
    method Walk(file: string, chain: seq<string>) returns (ok: bool)
      requires Valid()
      requires forall g | g in chain :: g in visited
      requires Distinct(chain) && IsPath(repo, chain + [file]) && (chain + [file])[0] == entry
      modifies this
      ensures Valid() && Grown() && file in visited
      ensures ok ==> Explored(old(visited), {})
      ensures !ok ==> exists f :: f in visited && f !in repo.sources
      decreases repo.sources.Keys - visited, 0
    {
      hide IsPath, ForbiddenFile, ForbiddenImport, Target, Covered, Genuine, About, Explored, Handled, Valid;
      if file in visited {
        NothingNew(visited);
        return true;
      }
      Enter(file, chain);
      if file !in repo.sources {
        return false;
      }
      var specifiers := repo.sources[file];
      for i := 0 to |specifiers|
        invariant Valid() && Grown() && file in chains && chains[file] == chain + [file]
        invariant Explored(old(visited), {file}) && Handled(file, specifiers[..i])
        invariant visited >= old(visited) + {file}
      {
        assert specifiers[..i + 1] == specifiers[..i] + [specifiers[i]];
        ok := Follow(file, chain, specifiers[i], old(visited), specifiers[..i]);
        if !ok {
          return;
        }
      }
      assert specifiers[..|specifiers|] == specifiers;
      FileExplored(old(visited), file);
      ok := true;
    }

    lemma NothingNew(before: set<string>)
      requires before == visited
      ensures Explored(before, {})
    {
    }
  }

  lemma PathGrows(repo: Repository, path: seq<string>, next: string)
    requires IsPath(repo, path) && Imports(repo, path[|path| - 1], next)
    ensures IsPath(repo, path + [next])
  {
  }

  /** A set that contains the entry and every import of its readable members contains everything reachable. */
  lemma {:induction false} ClosedContainsPath(repo: Repository, closed: set<string>, path: seq<string>)
    requires IsPath(repo, path) && path[0] in closed
    requires forall f | f in closed && f in repo.sources ::
      forall s | s in repo.sources[f] :: Target(repo, f, s).Some? ==> Target(repo, f, s).value in closed
    ensures path[|path| - 1] in closed
    decreases |path|
  {
    if |path| > 1 {
      assert Imports(repo, path[0], path[1]);
      assert IsPath(repo, path[1..]) by {
        forall i | 0 <= i < |path[1..]| - 1 ensures Imports(repo, path[1..][i], path[1..][i + 1]) {
          assert Imports(repo, path[i + 1], path[i + 2]);
        }
      }
      ClosedContainsPath(repo, closed, path[1..]);
    }
  }

  /** Every element once, in order of first occurrence (`[...new Set(list)]`). */
  function Unique<T(==, !new)>(list: seq<T>): (r: seq<T>)
    ensures Distinct(r)
    ensures forall x :: x in r <==> x in list
    ensures r == [] <==> list == []
  {
    if list == [] then []
    else
      assert list == list[..|list| - 1] + [list[|list| - 1]];
      var rest := Unique(list[..|list| - 1]);
      if list[|list| - 1] in rest then rest else rest + [list[|list| - 1]]
  }

  function Join(parts: seq<string>, separator: string): string {
    if parts == [] then ""
    else if |parts| == 1 then parts[0]
    else parts[0] + separator + Join(parts[1..], separator)
  }

  function Render(v: Violation): string {
    match v
    case File(chain) => Join(chain, " -> ")
    case Package(chain, specifier) => Join(chain + [specifier], " -> ")
  }

  function RenderAll(violations: seq<Violation>): (r: seq<string>)
    ensures |r| == |violations| && forall i | 0 <= i < |r| :: r[i] == Render(violations[i])
  {
    seq(|violations|, i requires 0 <= i < |violations| => Render(violations[i]))
  }

  /** Two reports about the same thing: the same forbidden file, or the same import in the same file. */
  predicate SameSubject(v: Violation, u: Violation) {
    && v.chain != [] && u.chain != [] && v.chain[|v.chain| - 1] == u.chain[|u.chain| - 1]
    && v.File? == u.File? && (v.Package? ==> v.specifier == u.specifier)
  }

  ghost predicate AllReadable(repo: Repository, entry: string) {
    forall f | Reachable(repo, entry, f) :: f in repo.sources
  }

  /** The boundary holds: nothing reachable is a forbidden file or imports a forbidden package. */
  ghost predicate Clean(repo: Repository, entry: string) {
    forall f | Reachable(repo, entry, f) ::
      !ForbiddenFile(f) && (f in repo.sources ==> forall s | s in repo.sources[f] :: !ForbiddenImport(s))
  }

  /** Some report is owed to nobody, or something owed is missing, or something is reported twice: none of these. */
  ghost predicate Exact(repo: Repository, entry: string, found: seq<Violation>) {
    && (forall v | v in found :: Genuine(repo, entry, v))
    && (forall f | Reachable(repo, entry, f) :: Covered(repo, found, f))
    && (forall i, j | 0 <= i < |found| && 0 <= j < |found| && SameSubject(found[i], found[j]) :: i == j)
  }

  lemma FoundMeansUnclean(repo: Repository, entry: string, found: seq<Violation>)
    requires Exact(repo, entry, found) && found != []
    ensures !Clean(repo, entry)
  {
    hide IsPath, Reachable, ForbiddenFile, ForbiddenImport, Covered;
    GenuineIsReachable(repo, entry, found[0]);
    assert Genuine(repo, entry, found[0]);
  }

  lemma GenuineIsReachable(repo: Repository, entry: string, v: Violation)
    requires Genuine(repo, entry, v)
    ensures v.chain != [] && Reachable(repo, entry, v.chain[|v.chain| - 1])
  {
  }

  lemma NothingFoundMeansClean(repo: Repository, entry: string, found: seq<Violation>)
    requires Exact(repo, entry, found) && found == []
    ensures Clean(repo, entry)
  {
    hide IsPath, Reachable, ForbiddenFile, ForbiddenImport, Genuine;
    forall f | Reachable(repo, entry, f)
      ensures !ForbiddenFile(f) && (f in repo.sources ==> forall s | s in repo.sources[f] :: !ForbiddenImport(s))
    {
      assert Covered(repo, found, f);
    }
  }

  lemma CleanIffNothingFound(repo: Repository, entry: string, found: seq<Violation>)
    requires Exact(repo, entry, found)
    ensures found == [] <==> Clean(repo, entry)
  {
    hide Exact, Clean;
    if found == [] {
      NothingFoundMeansClean(repo, entry, found);
    } else {
      FoundMeansUnclean(repo, entry, found);
    }
  }

  /**
   * `findBoundaryViolations` (lines 48-81), from an entry that is already resolved. It throws, here None, exactly
   * when some reachable path cannot be read. Otherwise it visits exactly the reachable files, finds exactly one
   * violation per reachable forbidden file and per reachable forbidden import, and returns an empty list if and
   * only if the boundary holds.
   */
  method FindBoundaryViolations(repo: Repository, entry: string)
    returns (reports: Option<seq<string>>, ghost visited: set<string>, ghost found: seq<Violation>)
    ensures reports.Some? <==> AllReadable(repo, entry)
    ensures reports.Some? ==> forall f :: f in visited <==> Reachable(repo, entry, f)
    ensures reports.Some? ==> Exact(repo, entry, found)
    ensures reports.Some? ==> Distinct(reports.value)
    ensures reports.Some? ==> forall s :: s in reports.value <==> exists v | v in found :: Render(v) == s
    ensures reports.Some? ==> (reports.value == [] <==> Clean(repo, entry))
  {
    hide Exact, Clean;
    var walker := new Walker(repo, entry);
    assert IsPath(repo, [] + [entry]);
    var ok := walker.Walk(entry, []);
    visited, found := walker.visited, Unique(walker.violations);
    WalkedAreReachable(walker);
    if !ok {
      return None, visited, found;
    }
    ReachableAreWalked(walker);
    FoundIsExact(walker, found);
    CleanIffNothingFound(repo, entry, found);
    RenderedFound(walker.violations);
    reports := Some(Unique(RenderAll(walker.violations)));
  }

  lemma RenderedFound(violations: seq<Violation>)
    ensures forall s :: s in RenderAll(violations) <==> exists v | v in Unique(violations) :: Render(v) == s
    ensures RenderAll(violations) == [] <==> Unique(violations) == []
  {
  }

  lemma WalkedAreReachable(walker: Walker)
    requires walker.Valid()
    ensures forall f | f in walker.visited :: Reachable(walker.repo, walker.entry, f)
  {
  }

  lemma ReachableAreWalked(walker: Walker)
    requires walker.Explored({}, {}) && walker.entry in walker.visited
    ensures forall f | Reachable(walker.repo, walker.entry, f) :: f in walker.visited
  {
    forall f | Reachable(walker.repo, walker.entry, f) ensures f in walker.visited {
      var path :| IsPath(walker.repo, path) && path[0] == walker.entry && path[|path| - 1] == f;
      ClosedContainsPath(walker.repo, walker.visited, path);
    }
  }

  lemma FoundIsExact(walker: Walker, found: seq<Violation>)
    requires walker.Valid() && walker.Explored({}, {}) && found == Unique(walker.violations)
    requires forall f :: f in walker.visited <==> Reachable(walker.repo, walker.entry, f)
    ensures Exact(walker.repo, walker.entry, found)
  {
    forall f | Reachable(walker.repo, walker.entry, f) ensures Covered(walker.repo, found, f) {
      assert Covered(walker.repo, walker.violations, f);
    }
    forall i, j | 0 <= i < |found| && 0 <= j < |found| && SameSubject(found[i], found[j]) ensures i == j {
      assert found[i] in walker.violations && found[j] in walker.violations;
      assert found[i] == found[j];
    }
  }
}
