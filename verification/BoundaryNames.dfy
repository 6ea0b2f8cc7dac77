/**
 * What the import-boundary check takes files, packages and import specifiers to mean, said by the shape of the strings
 * and the candidates on disk (scripts/check-connections-boundary.ts:5-46, 56-76).
 */
module BoundaryNames {
  import opened Wrappers
  import opened BoundaryWalk

  /** `r` is the first of the candidates that exists, if one does. */
  ghost predicate FirstPresent(present: set<string>, candidates: seq<string>, r: Option<string>) {
    match r
    case None => forall k | 0 <= k < |candidates| :: candidates[k] !in present
    case Some(path) =>
      exists k | 0 <= k < |candidates| ::
        candidates[k] == path && path in present && forall l | 0 <= l < k :: candidates[l] !in present
  }

  /** A relative import leads to the path itself, the path with `.ts`, or its `index.ts`, in this order. */
  lemma ModuleResolvesTo(repo: Repository, from: string, specifier: string)
    ensures var base := repo.resolve(repo.dirname(from), specifier);
            FirstPresent(repo.present, [base, base + ".ts", repo.resolve(base, "index.ts")], ResolveModule(repo, from, specifier))
  {
    var base := repo.resolve(repo.dirname(from), specifier);
    var candidates := [base, base + ".ts", repo.resolve(base, "index.ts")];
    assert candidates[0] == base && candidates[1] == base + ".ts" && candidates[2] == repo.resolve(base, "index.ts");
  }

  /** The aliases of the connections package: its index, its worker entry, and any path in its sources. */
  lemma AliasResolvesTo(repo: Repository, specifier: string, path: string)
    ensures var index := repo.resolve(repo.connections, "index.ts");
            && (specifier == "@delulu/connections" ==> ResolveAlias(repo, specifier) == Some(index))
            && (specifier == "@delulu/connections/worker" ==>
                  ResolveAlias(repo, specifier) == Some(repo.resolve(repo.connections, "worker-entry.ts")))
            && (specifier == "@delulu/connections/src/" + path && path != "" && NoNewline(path) ==>
                  ResolveAlias(repo, specifier) == ResolveModule(repo, index, "./" + path))
  {
    if specifier == "@delulu/connections/src/" + path && path != "" {
      assert specifier[|SOURCE_ALIAS|..] == path;
      assert specifier[|ALIAS| + 1] == 's';
      assert (ALIAS + "/worker")[|ALIAS| + 1] == 'w';
    }
  }

  /** Nothing else is an alias. */
  lemma AliasIsOneOfThree(repo: Repository, specifier: string)
    requires ResolveAlias(repo, specifier).Some?
    ensures || specifier in {"@delulu/connections", "@delulu/connections/worker"}
            || exists path :: path != "" && NoNewline(path) && specifier == "@delulu/connections/src/" + path
  {
    if specifier !in {"@delulu/connections", "@delulu/connections/worker"} {
      assert ALIAS + "/worker" == "@delulu/connections/worker";
      var path := specifier[|SOURCE_ALIAS|..];
      assert specifier == "@delulu/connections/src/" + path;
    }
  }

  /** Where a specifier leads: nowhere if forbidden, by path if it starts with a dot, and otherwise by alias. */
  lemma SpecifierLeadsTo(repo: Repository, file: string, specifier: string)
    ensures ForbiddenImport(specifier) ==> Target(repo, file, specifier) == None
    ensures !ForbiddenImport(specifier) && "." <= specifier ==>
      Target(repo, file, specifier) == ResolveModule(repo, file, specifier)
    ensures !ForbiddenImport(specifier) && !("." <= specifier) ==>
      Target(repo, file, specifier) == ResolveAlias(repo, specifier)
  {
  }

  lemma CutHere(c: char, y: string)
    ensures Cut([c] + y, c) == ("", Some(y)) && Cut("", c) == ("", None)
  {
    assert ([c] + y)[1..] == y;
  }

  lemma CutLater(a: char, s: string, c: char)
    requires a != c
    ensures Cut([a] + s, c) == ([a] + Cut(s, c).0, Cut(s, c).1)
  {
    assert ([a] + s)[1..] == s;
  }

  /** The cut is at the first occurrence. */
  lemma {:induction false} CutAtFirst(x: string, c: char, y: string)
    requires c !in x
    ensures Cut(x + [c] + y, c) == (x, Some(y)) && Cut(x, c) == (x, None)
  {
    hide Cut;
    if x == [] {
      assert x + [c] + y == [c] + y;
      CutHere(c, y);
    } else {
      var rest := x[1..];
      CutAtFirst(rest, c, y);
      assert x == [x[0]] + rest && x + [c] + y == [x[0]] + (rest + [c] + y);
      CutLater(x[0], rest, c);
      CutLater(x[0], rest + [c] + y, c);
    }
  }

  /** The base name is what follows the last slash. */
  lemma {:induction false} BaseNameIsLast(path: string, name: string)
    requires '/' !in name
    ensures BaseName(path) == name <==> path == name || exists dir :: path == dir + "/" + name
    decreases |path|
  {
    match Cut(path, '/') {
      case (last, None) =>
        forall dir ensures '/' in dir + "/" + name {
          assert (dir + "/" + name)[|dir|] == '/';
        }
      case (first, Some(rest)) =>
        BaseNameIsLast(rest, name);
        assert path == first + "/" + rest;
        assert path[|first|] == '/';
        if rest == name {
          assert path == first + "/" + name;
        } else if dir :| rest == dir + "/" + name {
          assert path == (first + "/" + dir) + "/" + name;
        }
        if dir :| path == dir + "/" + name {
          SlashAfterFirst(first, rest, dir, name);
        }
    }
  }

  /** A slash further to the right of the first one is a slash of the rest. */
  lemma SlashAfterFirst(first: string, rest: string, dir: string, name: string)
    requires '/' !in first && '/' !in name && first + "/" + rest == dir + "/" + name
    ensures rest == name || exists d :: rest == d + "/" + name
  {
    var path := first + "/" + rest;
    assert path == dir + "/" + name;
    assert path[|first|] == '/' && path[|dir|] == '/';
    assert forall k | 0 <= k < |first| :: path[k] == first[k];
    assert |first| <= |dir|;
    if |dir| > |first| {
      var d := dir[|first| + 1..];
      assert path[|first| + 1..] == rest;
      assert (dir + "/" + name)[|first| + 1..] == d + "/" + name;
    } else {
      assert path[|first| + 1..] == rest && (dir + "/" + name)[|dir| + 1..] == name;
    }
  }

  /** The forbidden files are the two modules of that name, in whatever directory. */
  lemma ForbiddenFileIs(file: string)
    ensures ForbiddenFile(file) <==>
      || file in {"publish-registry.ts", "runtime.ts"}
      || exists dir :: file == dir + "/" + "publish-registry.ts" || file == dir + "/" + "runtime.ts"
  {
    BaseNameIsLast(file, "publish-registry.ts");
    BaseNameIsLast(file, "runtime.ts");
  }

  /** The forbidden imports are the two packages and everything below them. */
  lemma ForbiddenImportIs(specifier: string)
    ensures ForbiddenImport(specifier) <==>
      exists name | name in {"axios", "googleapis"} :: specifier == name || name + "/" <= specifier
  {
    PackageIs(specifier, "axios");
    PackageIs(specifier, "googleapis");
    assert ForbiddenImport(specifier) <==> PackageName(specifier) == "axios" || PackageName(specifier) == "googleapis";
    if specifier == "axios" || "axios" + "/" <= specifier {
      assert "axios" in {"axios", "googleapis"};
    }
    if specifier == "googleapis" || "googleapis" + "/" <= specifier {
      assert "googleapis" in {"axios", "googleapis"};
    }
  }

  /** An unscoped package is what precedes the first slash. */
  lemma PackageIs(specifier: string, name: string)
    requires name != "" && name[0] != '@' && '/' !in name
    ensures PackageName(specifier) == name <==> specifier == name || name + "/" <= specifier
  {
    if specifier == name {
      CutAtFirst(name, '/', "");
    } else if name + "/" <= specifier {
      var y := specifier[|name| + 1..];
      assert specifier == name + ['/'] + y;
      CutAtFirst(name, '/', y);
    }
    if specifier != [] && specifier[0] == '@' {
      ScopeKept(specifier);
    } else {
      var (head, rest) := Cut(specifier, '/');
      assert PackageName(specifier) == head;
      assert rest.Some? ==> head + "/" <= specifier;
    }
  }

  lemma ScopeKept(specifier: string)
    requires specifier != [] && specifier[0] == '@'
    ensures PackageName(specifier) != [] && PackageName(specifier)[0] == '@'
  {
    var (head, rest) := Cut(specifier, '/');
    assert rest.Some? ==> specifier == head + ['/'] + rest.value;
  }

  lemma ScopeThenFirst(scope: string, tail: string)
    requires '/' !in scope && scope != "" && scope[0] == '@'
    ensures PackageName(scope + "/" + tail) == scope + "/" + Cut(tail, '/').0
  {
    hide Cut;
    CutAtFirst(scope, '/', tail);
    assert (scope + "/" + tail)[0] == '@';
  }

  /** A scoped package is its first two components. */
  lemma ScopedPackageIs(scope: string, name: string, path: string)
    requires '/' !in scope && '/' !in name && scope != "" && scope[0] == '@'
    ensures PackageName(scope + "/" + name) == scope + "/" + name
    ensures PackageName(scope + "/" + (name + "/" + path)) == scope + "/" + name
  {
    hide Cut, PackageName;
    CutAtFirst(name, '/', path);
    ScopeThenFirst(scope, name);
    ScopeThenFirst(scope, name + "/" + path);
  }

  /** A report is its chain, with the specifier at the end if there is one, joined by arrows. */
  lemma ReportReads(file: string, chain: seq<string>, specifier: string)
    ensures Render(File([file])) == file
    ensures chain != [] ==> Render(File([file] + chain)) == file + " -> " + Render(File(chain))
    ensures Render(Package(chain, specifier)) == Render(File(chain + [specifier]))
  {
    assert ([file] + chain)[1..] == chain;
  }
}
