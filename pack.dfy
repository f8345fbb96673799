/** The `reprozip pack` subcommand: which members go into the archive, and in
    which order. The filesystem is abstracted to what the command observes
    (existence, regular files, symbolic links and their stored targets); the
    archive is the ordered list of members it adds. */
module Pack {
  import opened Common
  import Paths

  type Path = string

  /** `os.path.exists` (which follows links), `os.path.isfile`, and
      `os.path.islink` / `os.readlink` (a link maps to the target text stored
      in it). */
  datatype FileSystem = FileSystem(existing: set<Path>, regularFiles: set<Path>, links: map<Path, Path>)

  datatype FileEntry = FileEntry(path: Path)

  datatype Package = Package(name: string, packfiles: bool, files: seq<FileEntry>)

  /** What `load_config` yields that `pack` reads: the packages and the files
      that belong to no package, in configuration order. */
  datatype LoadedConfig = LoadedConfig(packages: seq<Package>, otherFiles: seq<FileEntry>)

  /** Where the bytes of a member come from. */
  datatype Source = Text(content: string) | File(path: Path)

  /** One archive member: the name passed to `tar.add` and its content. */
  datatype Member = Member(name: Path, source: Source)

  /** The target exists; `config.yml` is not a file; or `tar.add` was given
      a path it cannot read. */
  datatype PackError = TargetExists | ConfigMissing | AddMissing(path: Path)

  const VersionText: string := "REPROZIP VERSION 1\n"

  function ConfigFile(directory: Path): Path { Paths.Join(directory, "config.yml") }

  function TraceFile(directory: Path): Path { Paths.Join(directory, "trace.sqlite3") }

  function VersionMember(): Member { Member("METADATA/version", Text(VersionText)) }

  function ConfigMember(directory: Path): Member { Member("METADATA/config.yml", File(ConfigFile(directory))) }

  function TraceMember(directory: Path): Member { Member("METADATA/trace.sqlite3", File(TraceFile(directory))) }

  /** `tar.add(p)`: a file stored under its own path. */
  function Payload(p: Path): Member { Member(p, File(p)) }

  // ---------------------------------------------------------------------
  // Symbolic-link chains
  // ---------------------------------------------------------------------

  /** The link table as the packer walks it: each symbolic link mapped to the
      path its stored target names, resolved against the directory that
      holds the link. */
  function Resolve(links: map<Path, Path>): map<Path, Path>
  {
    map t | t in links :: Paths.Join(Paths.Dirname(t), links[t])
  }

  /** The link at `t` is entered in `next` with its resolved target. */
  ghost predicate ResolvedAt(links: map<Path, Path>, next: map<Path, Path>, t: Path)
    requires t in links
  {
    t in next && next[t] == Paths.Join(Paths.Dirname(t), links[t])
  }

  /** `next` is `links` with every target resolved. */
  ghost predicate Resolves(links: map<Path, Path>, next: map<Path, Path>)
  {
    && next.Keys == links.Keys
    && forall t {:trigger ResolvedAt(links, next, t)} :: t in links ==> ResolvedAt(links, next, t)
  }

  lemma ResolveResolves(links: map<Path, Path>)
    ensures Resolves(links, Resolve(links))
  {
  }

  /** The path reached after `n` steps from `t` (stopping early at a non-link). */
  function Follow(next: map<Path, Path>, t: Path, n: nat): Path
    decreases n
  {
    if n == 0 || t !in next then t else Follow(next, next[t], n - 1)
  }

  /** The chain from `t` has exactly `n` links before its first non-link. */
  ghost predicate IsChainLength(next: map<Path, Path>, t: Path, n: nat)
  {
    (forall k: nat :: k < n ==> Follow(next, t, k) in next) && Follow(next, t, n) !in next
  }

  /** Following links from `t` reaches a non-link within as many steps as
      there are links; `ChainEndsIff` shows this is the same as reaching a
      non-link at all, i.e. the chain is not a cycle. */
  predicate ChainEnds(next: map<Path, Path>, t: Path)
  {
    Follow(next, t, |next|) !in next
  }

  /** The number of links walked from `t`, giving up after `fuel` steps. */
  function Steps(next: map<Path, Path>, t: Path, fuel: nat): nat
    decreases fuel
  {
    if fuel == 0 || t !in next then 0 else 1 + Steps(next, next[t], fuel - 1)
  }

  /** The number of links on the chain from `t` (meaningful when it ends). */
  function ChainLength(next: map<Path, Path>, t: Path): nat
  {
    Steps(next, t, |next|)
  }

  lemma {:induction false} FollowStep(next: map<Path, Path>, t: Path, k: nat)
    requires Follow(next, t, k) in next
    ensures Follow(next, t, k + 1) == next[Follow(next, t, k)]
    decreases k
  {
    if k > 0 && t in next {
      FollowStep(next, next[t], k - 1);
    }
  }

  lemma {:induction false} FollowAdd(next: map<Path, Path>, t: Path, a: nat, b: nat)
    ensures Follow(next, t, a + b) == Follow(next, Follow(next, t, a), b)
    decreases a
  {
    if a > 0 && t in next {
      FollowAdd(next, next[t], a - 1, b);
    }
  }

  /** Walking `fuel` steps and landing on a non-link counts the chain exactly. */
  lemma {:induction false} StepsIsChainLength(next: map<Path, Path>, t: Path, fuel: nat)
    requires Follow(next, t, fuel) !in next
    ensures IsChainLength(next, t, Steps(next, t, fuel))
    decreases fuel
  {
    if fuel > 0 && t in next {
      var h := next[t];
      StepsIsChainLength(next, h, fuel - 1);
      var m := Steps(next, h, fuel - 1);
      forall k: nat | k < m + 1
        ensures Follow(next, t, k) in next
      {
        if k > 0 {
          assert Follow(next, t, k) == Follow(next, h, k - 1);
        }
      }
      assert Follow(next, t, m + 1) == Follow(next, h, m);
    }
  }

  lemma ChainLengthUnique(next: map<Path, Path>, t: Path, n: nat, m: nat)
    requires IsChainLength(next, t, n) && IsChainLength(next, t, m)
    ensures n == m
  {
  }

  /** Once the walk revisits a path it stays among links for ever. */
  lemma {:induction false} RepeatStaysLinked(next: map<Path, Path>, t: Path, i: nat, j: nat, m: nat)
    requires i < j
    requires forall k: nat :: k < j ==> Follow(next, t, k) in next
    requires Follow(next, t, i) == Follow(next, t, j)
    ensures Follow(next, t, i + m) in next
    decreases m
  {
    var d := j - i;
    if m >= d {
      RepeatStaysLinked(next, t, i, j, m - d);
      calc {
        Follow(next, t, i + m);
        { FollowAdd(next, t, j, m - d); }
        Follow(next, Follow(next, t, j), m - d);
        { FollowAdd(next, t, i, m - d); }
        Follow(next, t, i + (m - d));
      }
    }
  }

  /** The paths visited before the end of a chain are pairwise distinct. */
  lemma ChainDistinct(next: map<Path, Path>, t: Path, n: nat, i: nat, j: nat)
    requires IsChainLength(next, t, n)
    requires i < j < n
    ensures Follow(next, t, i) != Follow(next, t, j)
  {
    if Follow(next, t, i) == Follow(next, t, j) {
      RepeatStaysLinked(next, t, i, j, n - i);
      assert false;
    }
  }

  /** The paths visited in the first `m` steps of the walk from `t`. */
  function Visited(next: map<Path, Path>, t: Path, m: nat): set<Path>
  {
    if m == 0 then {} else Visited(next, t, m - 1) + {Follow(next, t, m - 1)}
  }

  lemma {:induction false} NotYetVisited(next: map<Path, Path>, t: Path, n: nat, i: nat, m: nat)
    requires IsChainLength(next, t, n)
    requires m <= i < n
    ensures Follow(next, t, i) !in Visited(next, t, m)
    decreases m
  {
    if m > 0 {
      NotYetVisited(next, t, n, i, m - 1);
      ChainDistinct(next, t, n, m - 1, i);
    }
  }

  /** Before its end, a chain visits as many distinct links as it takes steps. */
  lemma {:induction false} VisitedCount(next: map<Path, Path>, t: Path, n: nat, m: nat)
    requires IsChainLength(next, t, n)
    requires m <= n
    ensures Visited(next, t, m) <= next.Keys && |Visited(next, t, m)| == m
    decreases m
  {
    if m > 0 {
      VisitedCount(next, t, n, m - 1);
      NotYetVisited(next, t, n, m - 1, m - 1);
      assert Follow(next, t, m - 1) in next;
    }
  }

  /** A chain that reaches a non-link at all does so within as many steps as
      there are links. */
  lemma ChainEndsIff(next: map<Path, Path>, t: Path)
    ensures ChainEnds(next, t) <==> exists n: nat :: Follow(next, t, n) !in next
  {
    if exists n: nat :: Follow(next, t, n) !in next {
      var n0: nat :| Follow(next, t, n0) !in next;
      StepsIsChainLength(next, t, n0);
      var n := Steps(next, t, n0);
      VisitedCount(next, t, n, n);
      SubsetCard(Visited(next, t, n), next.Keys);
      assert n <= |next|;
      FollowAdd(next, t, n, |next| - n);
    }
  }

  lemma {:induction false} SubsetCard<T>(a: set<T>, b: set<T>)
    requires a <= b
    ensures |a| <= |b|
    decreases |a|
  {
    if a != {} {
      var x :| x in a;
      SubsetCard(a - {x}, b - {x});
    }
  }

  /** The members added for the chain from `t`: `t` itself, then each target
      in turn, walking at most `fuel` links. */
  function ChainFrom(next: map<Path, Path>, t: Path, fuel: nat): seq<Member>
    decreases fuel
  {
    if fuel == 0 || t !in next then [Payload(t)]
    else [Payload(t)] + ChainFrom(next, next[t], fuel - 1)
  }

  /** The members added for one file of a packed package. (A chain that never
      ends makes `pack` loop forever; `Pack` excludes it.) */
  function FileMembers(next: map<Path, Path>, p: Path): seq<Member>
  {
    ChainFrom(next, p, |next|)
  }

  lemma {:induction false} ChainFromAt(next: map<Path, Path>, t: Path, fuel: nat, k: nat)
    requires k <= Steps(next, t, fuel)
    ensures |ChainFrom(next, t, fuel)| == Steps(next, t, fuel) + 1
    ensures ChainFrom(next, t, fuel)[k] == Payload(Follow(next, t, k))
    decreases fuel
  {
    if fuel > 0 && t in next {
      ChainFromAt(next, next[t], fuel - 1, if k > 0 then k - 1 else 0);
    }
  }

  /** A chain of `n` links ends, and `ChainLength` counts it. */
  lemma ChainLengthOf(next: map<Path, Path>, p: Path, n: nat)
    requires IsChainLength(next, p, n)
    ensures ChainEnds(next, p) && ChainLength(next, p) == n
  {
    assert Follow(next, p, n) !in next;
    ChainEndsIff(next, p);
    StepsIsChainLength(next, p, |next|);
    ChainLengthUnique(next, p, n, ChainLength(next, p));
  }

  /** One step of the walk: a link contributes its resolved target next. */
  lemma ChainFromStep(next: map<Path, Path>, t: Path, fuel: nat, done: seq<Member>)
    requires t in next && Follow(next, t, fuel) !in next
    ensures fuel > 0 && Follow(next, next[t], fuel - 1) !in next
    ensures done + ChainFrom(next, t, fuel)[1..] == (done + [Payload(next[t])]) + ChainFrom(next, next[t], fuel - 1)[1..]
  {
  }

  /** For one packed file: the file itself first, then each link target
      resolved against the directory of the previous link, stopping at the
      first target that is not a link. */
  lemma FileMembersShape(next: map<Path, Path>, p: Path, n: nat)
    requires IsChainLength(next, p, n)
    ensures ChainEnds(next, p)
    ensures var ms := FileMembers(next, p);
      && |ms| == n + 1
      && ms[0] == Payload(p)
      && (forall k :: 0 <= k < n ==> ms[k].name in next && ms[k + 1] == Payload(next[ms[k].name]))
      && ms[n].name !in next
  {
    ChainLengthOf(next, p, n);
    var ms := FileMembers(next, p);
    ChainFromAt(next, p, |next|, 0);
    ChainFromAt(next, p, |next|, n);
    forall k | 0 <= k < n
      ensures ms[k].name in next && ms[k + 1] == Payload(next[ms[k].name])
    {
      ChainFromAt(next, p, |next|, k);
      ChainFromAt(next, p, |next|, k + 1);
      FollowStep(next, p, k);
    }
  }

  // ---------------------------------------------------------------------
  // The payload
  // ---------------------------------------------------------------------

  /** The members contributed by each element of `xs`, one element after
      another. */
  function Flatten<T>(f: T -> seq<Member>, xs: seq<T>): seq<Member>
  {
    if |xs| == 0 then [] else Flatten(f, xs[..|xs| - 1]) + f(xs[|xs| - 1])
  }

  lemma FlattenNext<T>(f: T -> seq<Member>, xs: seq<T>, i: nat)
    requires i < |xs|
    ensures Flatten(f, xs[..i + 1]) == Flatten(f, xs[..i]) + f(xs[i])
  {
    assert xs[..i + 1][..i] == xs[..i];
  }

  /** Flattening keeps the order of the elements. */
  lemma {:induction false} FlattenAppend<T>(f: T -> seq<Member>, a: seq<T>, b: seq<T>)
    ensures Flatten(f, a + b) == Flatten(f, a) + Flatten(f, b)
    decreases |b|
  {
    if |b| == 0 {
      assert a + b == a;
    } else {
      var b' := b[..|b| - 1];
      assert (a + b)[..|a + b| - 1] == a + b';
      FlattenAppend(f, a, b');
    }
  }

  /** A member of the flattened list comes from some element, and every
      member of every element is in it. */
  lemma {:induction false} FlattenContain<T>(f: T -> seq<Member>, xs: seq<T>, m: Member)
    ensures m in Flatten(f, xs) <==> exists j :: 0 <= j < |xs| && m in f(xs[j])
    decreases |xs|
  {
    if |xs| > 0 {
      var init := xs[..|xs| - 1];
      FlattenContain(f, init, m);
      if exists j :: 0 <= j < |xs| && m in f(xs[j]) {
        var j :| 0 <= j < |xs| && m in f(xs[j]);
        if j < |xs| - 1 {
          assert init[j] == xs[j];
        }
      }
    }
  }

  ghost predicate FilesChainsEnd(next: map<Path, Path>, files: seq<FileEntry>)
  {
    forall j {:trigger files[j]} :: 0 <= j < |files| ==> ChainEnds(next, files[j].path)
  }

  /** Every file of every packed package leads to a chain that ends. */
  ghost predicate PackagesChainsEnd(next: map<Path, Path>, pkgs: seq<Package>)
  {
    forall i {:trigger pkgs[i]} :: 0 <= i < |pkgs| && pkgs[i].packfiles ==> FilesChainsEnd(next, pkgs[i].files)
  }

  /** The members for the files of a packed package, file by file. */
  function FilesPayload(next: map<Path, Path>, files: seq<FileEntry>): seq<Member>
  {
    Flatten((f: FileEntry) => FileMembers(next, f.path), files)
  }

  function PackageMembers(next: map<Path, Path>, p: Package): seq<Member>
  {
    if p.packfiles then FilesPayload(next, p.files) else []
  }

  /** The members for all packages, package by package. */
  function PackagesPayload(next: map<Path, Path>, pkgs: seq<Package>): seq<Member>
  {
    Flatten((p: Package) => PackageMembers(next, p), pkgs)
  }

  /** The files that belong to no package, each stored as it is. */
  function OtherPayload(files: seq<FileEntry>): seq<Member>
  {
    Flatten((f: FileEntry) => [Payload(f.path)], files)
  }

  /** The archive `pack` writes, member by member. */
  function PackMembers(directory: Path, fs: FileSystem, cfg: LoadedConfig): seq<Member>
  {
    [VersionMember(), ConfigMember(directory)]
    + (if TraceFile(directory) in fs.regularFiles then [TraceMember(directory)] else [])
    + PackagesPayload(Resolve(fs.links), cfg.packages)
    + OtherPayload(cfg.otherFiles)
  }

  // ---------------------------------------------------------------------
  // What the payload is made of
  // ---------------------------------------------------------------------

  /** `q` is reached from `start` by following links only. */
  ghost predicate OnChain(next: map<Path, Path>, start: Path, q: Path)
  {
    exists k: nat :: (forall j: nat :: j < k ==> Follow(next, start, j) in next) && q == Follow(next, start, k)
  }

  /** The members for one packed file are exactly the paths on its chain. */
  lemma FileMembersContain(next: map<Path, Path>, p: Path, m: Member)
    requires ChainEnds(next, p)
    ensures m in FileMembers(next, p) <==> m.source == File(m.name) && OnChain(next, p, m.name)
  {
    StepsIsChainLength(next, p, |next|);
    var n := ChainLength(next, p);
    var ms := FileMembers(next, p);
    ChainFromAt(next, p, |next|, 0);
    if m in ms {
      var i :| 0 <= i < |ms| && ms[i] == m;
      ChainFromAt(next, p, |next|, i);
      assert m.name == Follow(next, p, i);
    }
    if m.source == File(m.name) && OnChain(next, p, m.name) {
      var k: nat :| (forall j: nat :: j < k ==> Follow(next, p, j) in next) && m.name == Follow(next, p, k);
      assert k <= n;
      ChainFromAt(next, p, |next|, k);
      assert ms[k] == m;
    }
  }

  /** A payload member taken from the packages belongs to the chain of some
      file of a package whose files are packed; nothing comes from the other
      packages. */
  lemma PackagesPayloadContain(next: map<Path, Path>, pkgs: seq<Package>, m: Member)
    requires PackagesChainsEnd(next, pkgs)
    ensures m in PackagesPayload(next, pkgs) <==>
              exists i, j :: 0 <= i < |pkgs| && pkgs[i].packfiles && 0 <= j < |pkgs[i].files| &&
                m.source == File(m.name) && OnChain(next, pkgs[i].files[j].path, m.name)
  {
    FlattenContain((p: Package) => PackageMembers(next, p), pkgs, m);
    forall i | 0 <= i < |pkgs| && pkgs[i].packfiles
      ensures m in PackageMembers(next, pkgs[i]) <==>
                exists j :: 0 <= j < |pkgs[i].files| &&
                  m.source == File(m.name) && OnChain(next, pkgs[i].files[j].path, m.name)
    {
      var files := pkgs[i].files;
      FlattenContain((f: FileEntry) => FileMembers(next, f.path), files, m);
      forall j | 0 <= j < |files|
        ensures m in FileMembers(next, files[j].path) <==>
                  m.source == File(m.name) && OnChain(next, files[j].path, m.name)
      {
        FileMembersContain(next, files[j].path, m);
      }
    }
  }

  /** Payload order follows package order. */
  lemma PackagesPayloadAppend(next: map<Path, Path>, a: seq<Package>, b: seq<Package>)
    ensures PackagesPayload(next, a + b) == PackagesPayload(next, a) + PackagesPayload(next, b)
  {
    FlattenAppend((p: Package) => PackageMembers(next, p), a, b);
  }

  /** Within a package, payload order follows file order. */
  lemma FilesPayloadAppend(next: map<Path, Path>, a: seq<FileEntry>, b: seq<FileEntry>)
    ensures FilesPayload(next, a + b) == FilesPayload(next, a) + FilesPayload(next, b)
  {
    FlattenAppend((f: FileEntry) => FileMembers(next, f.path), a, b);
  }

  /** The other files are added as listed, each once, without following links. */
  lemma {:induction false} OtherPayloadAt(files: seq<FileEntry>, i: nat)
    requires i < |files|
    ensures |OtherPayload(files)| == |files|
    ensures OtherPayload(files)[i] == Payload(files[i].path)
    decreases |files|
  {
    var init := files[..|files| - 1];
    assert OtherPayload(files) == OtherPayload(init) + [Payload(files[|files| - 1].path)];
    if i < |files| - 1 {
      OtherPayloadAt(init, i);
    } else if |files| > 1 {
      OtherPayloadAt(init, 0);
    }
  }

  /** The layout of the archive: version marker with its fixed text, then the
      configuration, then the trace exactly when the directory holds one,
      then the packages' payload, then the other files. */
  lemma PackMembersLayout(directory: Path, fs: FileSystem, cfg: LoadedConfig)
    ensures var ms := PackMembers(directory, fs, cfg);
      var h := if TraceFile(directory) in fs.regularFiles then 3 else 2;
      var pp := PackagesPayload(Resolve(fs.links), cfg.packages);
      && |ms| == h + |pp| + |cfg.otherFiles|
      && ms[0] == Member("METADATA/version", Text("REPROZIP VERSION 1\n"))
      && ms[1] == Member("METADATA/config.yml", File(Paths.Join(directory, "config.yml")))
      && (TraceFile(directory) in fs.regularFiles ==>
            ms[2] == Member("METADATA/trace.sqlite3", File(Paths.Join(directory, "trace.sqlite3"))))
      && ms[h..h + |pp|] == pp
      && (forall i :: 0 <= i < |cfg.otherFiles| ==> ms[h + |pp| + i] == Payload(cfg.otherFiles[i].path))
  {
    var ms := PackMembers(directory, fs, cfg);
    var h := if TraceFile(directory) in fs.regularFiles then 3 else 2;
    var pp := PackagesPayload(Resolve(fs.links), cfg.packages);
    var op := OtherPayload(cfg.otherFiles);
    assert ms == ms[..h] + pp + op;
    if |cfg.otherFiles| > 0 {
      OtherPayloadAt(cfg.otherFiles, 0);
    }
    forall i | 0 <= i < |cfg.otherFiles|
      ensures ms[h + |pp| + i] == Payload(cfg.otherFiles[i].path)
    {
      OtherPayloadAt(cfg.otherFiles, i);
    }
  }

  // ---------------------------------------------------------------------
  // The command
  // ---------------------------------------------------------------------

  /** `tar.add(t)` for a file of a packed package, then `tar.add` of every
      link target along its chain. */
  method AddFile(members: seq<Member>, links: map<Path, Path>, ghost next: map<Path, Path>, p: Path)
    returns (members': seq<Member>)
    requires Resolves(links, next)
    requires ChainEnds(next, p)
    ensures members' == members + FileMembers(next, p)
  {
    var t := p;
    members' := members + [Member(t, File(t))];
    ghost var fuel: nat := |next|;
    while t in links
      invariant Follow(next, t, fuel) !in next
      invariant members' + ChainFrom(next, t, fuel)[1..] == members + FileMembers(next, p)
      decreases fuel
    {
      assert ResolvedAt(links, next, t);
      ChainFromStep(next, t, fuel, members');
      fuel := fuel - 1;
      t := ReadLinkTarget(links, next, t);
      members' := members' + [Member(t, File(t))];
    }
  }

  /** `os.path.join(os.path.dirname(t), os.readlink(t))` */
  method ReadLinkTarget(links: map<Path, Path>, ghost next: map<Path, Path>, t: Path) returns (r: Path)
    requires t in links && ResolvedAt(links, next, t)
    ensures t in next && r == next[t]
  {
    r := Paths.Join(Paths.Dirname(t), links[t]);
  }

  /** The files of one packed package, in order, each with its chain. */
  method AddFiles(members: seq<Member>, links: map<Path, Path>, ghost next: map<Path, Path>, files: seq<FileEntry>)
    returns (members': seq<Member>)
    requires Resolves(links, next)
    requires FilesChainsEnd(next, files)
    ensures members' == members + FilesPayload(next, files)
  {
    members' := members;
    for j := 0 to |files|
      invariant members' == members + FilesPayload(next, files[..j])
    {
      members' := AddFile(members', links, next, files[j].path);
      FlattenNext((f: FileEntry) => FileMembers(next, f.path), files, j);
    }
    assert files[..|files|] == files;
  }

  /** The files that belong to no package, added as they are. */
  method AddOthers(members: seq<Member>, others: seq<FileEntry>) returns (members': seq<Member>)
    ensures members' == members + OtherPayload(others)
  {
    members' := members;
    for k := 0 to |others|
      invariant members' == members + OtherPayload(others[..k])
    {
      members' := members' + [Member(others[k].path, File(others[k].path))];
      assert others[..k + 1][..k] == others[..k];
    }
    assert others[..|others|] == others;
  }

  /** The packages in configuration order; a package whose files are not to
      be packed contributes nothing. */
  method AddPackages(members: seq<Member>, links: map<Path, Path>, ghost next: map<Path, Path>, pkgs: seq<Package>)
    returns (members': seq<Member>)
    requires Resolves(links, next)
    requires PackagesChainsEnd(next, pkgs)
    ensures members' == members + PackagesPayload(next, pkgs)
  {
    members' := members;
    for i := 0 to |pkgs|
      invariant members' == members + PackagesPayload(next, pkgs[..i])
    {
      var pkg := pkgs[i];
      FlattenNext((p: Package) => PackageMembers(next, p), pkgs, i);
      if pkg.packfiles {
        assert FilesChainsEnd(next, pkg.files);
        members' := AddFiles(members', links, next, pkg.files);
      }
    }
    assert pkgs[..|pkgs|] == pkgs;
  }

  /** Everything `pack` adds once both guards have passed. */
  method WriteArchive(directory: Path, configfile: Path, fs: FileSystem, cfg: LoadedConfig)
    returns (members: seq<Member>)
    requires configfile == ConfigFile(directory)
    requires PackagesChainsEnd(Resolve(fs.links), cfg.packages)
    ensures members == PackMembers(directory, fs, cfg)
  {
    members := [Member("METADATA/version", Text(VersionText)), Member("METADATA/config.yml", File(configfile))];
    var trace := Paths.Join(directory, "trace.sqlite3");
    if trace in fs.regularFiles {
      members := members + [Member("METADATA/trace.sqlite3", File(trace))];
    }

    ResolveResolves(fs.links);
    members := AddPackages(members, fs.links, Resolve(fs.links), cfg.packages);
    members := AddOthers(members, cfg.otherFiles);
  }

  // ---------------------------------------------------------------------
  // Paths that `tar.add` cannot read
  // ---------------------------------------------------------------------

  /** `tar.add` reads a path with `lstat`: a regular file, a link (even one
      whose target is missing) or any other existing path can be added. */
  predicate Present(fs: FileSystem, p: Path)
  {
    p in fs.existing || p in fs.regularFiles || p in fs.links
  }

  /** The path of the first member whose file `tar.add` cannot read. */
  function FirstAbsent(fs: FileSystem, ms: seq<Member>): Option<Path>
  {
    if |ms| == 0 then None
    else if ms[0].source.File? && !Present(fs, ms[0].source.path) then Some(ms[0].source.path)
    else FirstAbsent(fs, ms[1..])
  }

  /** Nothing is missing exactly when every file member can be read; otherwise
      the path named is the first member that cannot. */
  lemma {:induction false} FirstAbsentSpec(fs: FileSystem, ms: seq<Member>)
    ensures FirstAbsent(fs, ms).None? <==>
      forall i :: 0 <= i < |ms| && ms[i].source.File? ==> Present(fs, ms[i].source.path)
    ensures FirstAbsent(fs, ms).Some? ==>
      exists i :: 0 <= i < |ms| && ms[i].source == File(FirstAbsent(fs, ms).value)
        && !Present(fs, FirstAbsent(fs, ms).value)
        && forall j :: 0 <= j < i && ms[j].source.File? ==> Present(fs, ms[j].source.path)
    decreases |ms|
  {
    if |ms| > 0 {
      FirstAbsentSpec(fs, ms[1..]);
      if !(ms[0].source.File? && !Present(fs, ms[0].source.path)) {
        if FirstAbsent(fs, ms[1..]).Some? {
          var i :| 0 <= i < |ms[1..]| && ms[1..][i].source == File(FirstAbsent(fs, ms[1..]).value)
            && !Present(fs, FirstAbsent(fs, ms[1..]).value)
            && forall j :: 0 <= j < i && ms[1..][j].source.File? ==> Present(fs, ms[1..][j].source.path);
          assert ms[i + 1] == ms[1..][i];
          forall j | 0 <= j < i + 1 && ms[j].source.File?
            ensures Present(fs, ms[j].source.path)
          {
            if j > 0 {
              assert ms[j] == ms[1..][j - 1];
            }
          }
        } else {
          forall i | 0 <= i < |ms| && ms[i].source.File?
            ensures Present(fs, ms[i].source.path)
          {
            if i > 0 {
              assert ms[i] == ms[1..][i - 1];
            }
          }
        }
      }
    }
  }

  /** The members in the order `tar.add` receives them, up to the first one
      it cannot read. */
  method FindAbsent(fs: FileSystem, ms: seq<Member>) returns (r: Option<Path>)
    ensures r == FirstAbsent(fs, ms)
  {
    var i := 0;
    while i < |ms|
      invariant i <= |ms|
      invariant FirstAbsent(fs, ms) == FirstAbsent(fs, ms[i..])
    {
      assert ms[i..][1..] == ms[i + 1..];
      if ms[i].source.File? && !Present(fs, ms[i].source.path) {
        return Some(ms[i].source.path);
      }
      i := i + 1;
    }
    return None;
  }

  /** `pack(target, directory)`, with `cfg` standing for what `load_config`
      reads from `directory/config.yml`. It never returns when a chain of
      links is a cycle, hence the precondition on the run that gets past the
      two guards. Adding a path that cannot be read raises. */
  method Pack(target: Path, directory: Path, fs: FileSystem, cfg: LoadedConfig)
    returns (r: Result<seq<Member>, PackError>)
    requires target !in fs.existing && ConfigFile(directory) in fs.regularFiles ==>
               PackagesChainsEnd(Resolve(fs.links), cfg.packages)
    ensures target in fs.existing ==> r == Failure(TargetExists)
    ensures target !in fs.existing && ConfigFile(directory) !in fs.regularFiles ==> r == Failure(ConfigMissing)
    ensures target !in fs.existing && ConfigFile(directory) in fs.regularFiles ==>
      var missing := FirstAbsent(fs, PackMembers(directory, fs, cfg));
      && (missing.Some? ==> r == Failure(AddMissing(missing.value)))
      && (missing.None? ==> r == Success(PackMembers(directory, fs, cfg)))
    ensures r.Success? <==>
      target !in fs.existing && ConfigFile(directory) in fs.regularFiles
      && FirstAbsent(fs, PackMembers(directory, fs, cfg)).None?
  {
    if target in fs.existing {
      return Failure(TargetExists);
    }
    var configfile := Paths.Join(directory, "config.yml");
    if configfile !in fs.regularFiles {
      return Failure(ConfigMissing);
    }

    var members := WriteArchive(directory, configfile, fs, cfg);
    var missing := FindAbsent(fs, members);
    if missing.Some? {
      return Failure(AddMissing(missing.value));
    }
    r := Success(members);
  }

  /** A packed file whose link points at a path that does not exist makes
      packing fail on that path. */
  lemma DanglingLinkFails(target: Path, directory: Path, fs: FileSystem, cfg: LoadedConfig, i: nat, j: nat)
    requires target !in fs.existing && ConfigFile(directory) in fs.regularFiles
    requires PackagesChainsEnd(Resolve(fs.links), cfg.packages)
    requires i < |cfg.packages| && cfg.packages[i].packfiles && j < |cfg.packages[i].files|
    requires cfg.packages[i].files[j].path in fs.links
    requires !Present(fs, Resolve(fs.links)[cfg.packages[i].files[j].path])
    ensures FirstAbsent(fs, PackMembers(directory, fs, cfg)).Some?
  {
    var next := Resolve(fs.links);
    var p := cfg.packages[i].files[j].path;
    var m := Payload(next[p]);
    assert m in PackagesPayload(next, cfg.packages) by {
      assert OnChain(next, p, m.name) by {
        FollowStep(next, p, 0);
        assert (forall k: nat :: k < 1 ==> Follow(next, p, k) in next) && m.name == Follow(next, p, 1);
      }
      PackagesPayloadContain(next, cfg.packages, m);
    }
    var ms := PackMembers(directory, fs, cfg);
    assert m in ms;
    FirstAbsentSpec(fs, ms);
  }
}
