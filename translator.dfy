/** Translators turn a package link into an installed distribution.
    A chain tries its translators in order and keeps the first that
    resolves the link; the egg translator fetches a prebuilt egg into the
    install cache; the source translator fetches, builds and distils a
    source package, releasing its temporary directories on every exit.
    The fetcher, Installer, Distiller, pkg_resources and the Platform
    predicates are collaborators whose outcomes are given as inputs. */
module Translator {
  import opened TranslatorTypes
  import opened Scratch

  /** The one package the Installer builds in non-strict mode. */
  const BootstrapDistribution := "distribute"

  /** The fields every concrete translator is constructed with. */
  datatype Config = Config(
    installCache: string,
    platform: Platform,
    python: PythonVersion,
    connTimeout: Option<nat>)

  /** A translator: the two concrete strategies, a chain of translators,
      or any other TranslatorBase subclass, known only by name. */
  datatype Strategy =
    | Egg(config: Config)
    | Source(config: Config)
    | Chained(translators: seq<Strategy>)
    | Custom(name: string)

  /** An argument handed to the chain's constructor: a falsy value, a
      translator, or a truthy object of some other type. */
  datatype Arg = Falsy | Tx(strategy: Strategy) | NotTranslator(typeName: string)

  /** The running interpreter and the Platform compatibility predicates. */
  datatype Host = Host(
    current: Platform,
    python: PythonVersion,
    compatible: (Platform, Platform) -> bool,
    versionCompatible: (PythonVersion, PythonVersion) -> bool,
    distributionCompatible: (Link, PythonVersion, Platform) -> bool)

  /** What the collaborators of one source translation do: fetch (which
      unpacks into a fresh directory when it returns), the Installer
      constructor, installer.distribution(), and the distiller writing
      into a cache directory. */
  datatype SourceRun = SourceRun(
    fetch: Step,
    construct: Step,
    distribution: Result<BuiltDist>,
    distill: (BuiltDist, string) -> Result<Artifact>)

  /** What fetching an egg into a given location yields. */
  datatype EggRun = EggRun(fetch: string -> Result<Artifact>)

  /** Everything outside the translators for one translate call. */
  datatype World = World(
    host: Host,
    source: (Config, Link) -> SourceRun,
    egg: (Config, Link) -> EggRun,
    custom: (string, Link) -> Outcome)

  /** The chain's verdict and how many of its translators it consulted. */
  datatype Run = Run(outcome: Outcome, consulted: nat)

  // ---------------------------------------------------------------------
  // Construction

  /** `install_cache or safe_mkdtemp()`, the temporary directory that
      safe_mkdtemp would create being given as `mkdtemp`. */
  function NewConfig(installCache: Option<string>, mkdtemp: string, platform: Platform,
                     python: PythonVersion, connTimeout: Option<nat>): (c: Config)
    ensures installCache.Some? && installCache.value != "" ==> c.installCache == installCache.value
    ensures installCache.None? || installCache.value == "" ==> c.installCache == mkdtemp
    ensures c.platform == platform && c.python == python && c.connTimeout == connTimeout
  {
    var cache := if installCache.Some? && installCache.value != "" then installCache.value else mkdtemp;
    Config(cache, platform, python, connTimeout)
  }

  /** `filter(None, translators)`: the truthy arguments, in order. */
  function Kept(args: seq<Arg>): (kept: seq<Arg>)
    ensures forall i | 0 <= i < |kept| :: !kept[i].Falsy?
    ensures |kept| <= |args|
  {
    if args == [] then []
    else (if args[0].Falsy? then [] else [args[0]]) + Kept(args[1..])
  }

  function ValueErrorMessage(typeName: string): string
  {
    "Expected a sequence of translators, got " + typeName + " instead."
  }

  /** The index of the first argument that is a truthy non-translator,
      or the number of arguments when there is none. */
  function FirstNonTranslator(args: seq<Arg>): (k: nat)
    ensures k <= |args|
    ensures forall j | 0 <= j < k :: !args[j].NotTranslator?
    ensures k < |args| ==> args[k].NotTranslator?
  {
    if args == [] then 0
    else if args[0].NotTranslator? then 0
    else 1 + FirstNonTranslator(args[1..])
  }

  /** The isinstance check over the kept arguments: the translators they
      hold, or a ValueError naming the first argument that is not one. */
  function CheckTranslators(kept: seq<Arg>): (r: Result<seq<Strategy>>)
    requires forall i | 0 <= i < |kept| :: !kept[i].Falsy?
    ensures r.Ok? <==> forall i | 0 <= i < |kept| :: kept[i].Tx?
    ensures r.Ok? ==> |r.value| == |kept| && forall i | 0 <= i < |kept| :: kept[i] == Tx(r.value[i])
    ensures r.Err? ==>
      FirstNonTranslator(kept) < |kept| &&
      r.error == ValueError(ValueErrorMessage(kept[FirstNonTranslator(kept)].typeName))
  {
    if kept == [] then Ok([])
    else if kept[0].NotTranslator? then Err(ValueError(ValueErrorMessage(kept[0].typeName)))
    else
      match CheckTranslators(kept[1..])
      case Err(e) => Err(e)
      case Ok(rest) => Ok([kept[0].strategy] + rest)
  }

  /** The ValueError names the first argument that is no translator:
      filtering removes only falsy arguments. */
  lemma {:induction false} KeptFirstOffender(args: seq<Arg>)
    requires CheckTranslators(Kept(args)).Err?
    ensures FirstNonTranslator(args) < |args|
    ensures CheckTranslators(Kept(args)).error ==
      ValueError(ValueErrorMessage(args[FirstNonTranslator(args)].typeName))
  {
    var tail := Kept(args[1..]);
    if args[0].NotTranslator? {
      assert Kept(args) == [args[0]] + tail;
    } else if args[0].Falsy? {
      assert Kept(args) == tail;
      KeptFirstOffender(args[1..]);
    } else {
      assert Kept(args) == [args[0]] + tail;
      assert Kept(args)[1..] == tail;
      KeptFirstOffender(args[1..]);
    }
  }

  /** Filtering keeps exactly the arguments that are not falsy. */
  lemma {:induction false} KeptMembers(args: seq<Arg>, x: Arg)
    ensures x in Kept(args) <==> x in args && !x.Falsy?
  {
    if args != [] {
      KeptMembers(args[1..], x);
      assert args == [args[0]] + args[1..];
    }
  }

  /** ChainedTranslator(*translators): drops the falsy arguments, then
      fails with ValueError on the first kept one that is no translator. */
  function NewChain(args: seq<Arg>): (r: Result<Strategy>)
    ensures r.Ok? <==> forall i | 0 <= i < |args| :: !args[i].NotTranslator?
    ensures r.Ok? ==> r.value.Chained?
    ensures r.Err? ==>
      FirstNonTranslator(args) < |args| &&
      r.error == ValueError(ValueErrorMessage(args[FirstNonTranslator(args)].typeName))
  {
    var kept := Kept(args);
    match CheckTranslators(kept)
    case Err(e) =>
      KeptFirstOffender(args);
      Err(e)
    case Ok(ts) =>
      forall i | 0 <= i < |args| ensures !args[i].NotTranslator? {
        KeptMembers(args, args[i]);
        if !args[i].Falsy? {
          var j :| 0 <= j < |kept| && kept[j] == args[i];
          assert kept[j].Tx?;
        }
      }
      Ok(Chained(ts))
  }

  /** The chain holds exactly the translators among the arguments. */
  lemma NewChainMembers(args: seq<Arg>, s: Strategy)
    requires NewChain(args).Ok?
    ensures s in NewChain(args).value.translators <==> Tx(s) in args
  {
    var kept := Kept(args);
    var ts := CheckTranslators(kept).value;
    KeptMembers(args, Tx(s));
    if s in ts {
      var i :| 0 <= i < |ts| && ts[i] == s;
      assert kept[i] == Tx(s);
    }
    if Tx(s) in kept {
      var i :| 0 <= i < |kept| && kept[i] == Tx(s);
      assert ts[i] == s;
    }
  }

  // ---------------------------------------------------------------------
  // dist_from_egg

  /** os.path.join of a directory and a relative name. */
  function JoinPath(dir: string, name: string): (p: string)
    ensures |p| >= |name| && p[|p| - |name|..] == name
    ensures |p| >= |dir| && p[..|dir|] == dir
    ensures dir != "" && dir[|dir| - 1] != '/' ==> p == dir + "/" + name
    ensures dir == "" || dir[|dir| - 1] == '/' ==> p == dir + name
  {
    if dir == "" || dir[|dir| - 1] == '/' then dir + name else dir + "/" + name
  }

  /** A directory egg is read through PathMetadata on its EGG-INFO,
      anything else through zipimport, which refuses a non-archive. */
  function DistFromEgg(egg: Artifact): (r: Result<Distribution>)
    ensures r.Ok? <==> egg.layout != NotAnArchive
    ensures r.Ok? ==> r.value.location == egg.path
    ensures r.Ok? ==> (r.value.metadata.PathMetadata? <==> egg.layout == Directory)
    ensures r.Ok? && egg.layout == Directory ==>
      r.value.metadata.path == egg.path && r.value.metadata.eggInfo == JoinPath(egg.path, "EGG-INFO")
    ensures r.Ok? && egg.layout == ZipArchive ==> r.value.metadata.archive == egg.path
  {
    match egg.layout
    case Directory => Ok(Distribution(egg.path, PathMetadata(egg.path, JoinPath(egg.path, "EGG-INFO"))))
    case ZipArchive => Ok(Distribution(egg.path, EggMetadata(egg.path)))
    case NotAnArchive => Err(OtherError("ZipImportError", egg.path))
  }

  function FromEgg(egg: Artifact): Outcome
  {
    match DistFromEgg(egg)
    case Ok(d) => Resolved(d)
    case Err(e) => Raised(e)
  }

  // ---------------------------------------------------------------------
  // EggTranslator

  /** The cheap gates of EggTranslator.translate, checked before fetching. */
  predicate EggApplies(c: Config, link: Link, host: Host)
  {
    link.kind.EggLink? && host.distributionCompatible(link, c.python, c.platform)
  }

  /** EggTranslator.translate: a URLError from fetch is a soft failure,
      any other exception propagates. */
  function EggTranslate(c: Config, link: Link, host: Host, run: EggRun): (r: Outcome)
    ensures r.NotResolved? <==>
      !EggApplies(c, link, host) || (run.fetch(c.installCache).Err? && run.fetch(c.installCache).error.URLError?)
    ensures r.Resolved? <==>
      EggApplies(c, link, host) && run.fetch(c.installCache).Ok? &&
      run.fetch(c.installCache).value.layout != NotAnArchive
    ensures r.Resolved? ==> r.dist.location == run.fetch(c.installCache).value.path
    ensures r.Raised? ==> !r.error.URLError?
    ensures (EggApplies(c, link, host) && run.fetch(c.installCache).Err? &&
             !run.fetch(c.installCache).error.URLError?) ==> r == Raised(run.fetch(c.installCache).error)
    ensures (EggApplies(c, link, host) && run.fetch(c.installCache).Ok?) ==>
      r == FromEgg(run.fetch(c.installCache).value)
  {
    if !link.kind.EggLink? then NotResolved
    else if !host.distributionCompatible(link, c.python, c.platform) then NotResolved
    else
      match run.fetch(c.installCache)
      case Err(e) => if e.URLError? then NotResolved else Raised(e)
      case Ok(egg) => FromEgg(egg)
  }

  // ---------------------------------------------------------------------
  // SourceTranslator

  /** The cheap gates of SourceTranslator.translate, checked before fetching. */
  predicate SourceApplies(c: Config, link: Link, host: Host)
  {
    link.kind.SourceLink? &&
    host.compatible(host.current, c.platform) &&
    host.versionCompatible(host.python, c.python)
  }

  /** Whether the Installer is asked to build strictly. */
  predicate Strict(link: Link)
  {
    link.name != BootstrapDistribution
  }

  /** The outcome of the try block of SourceTranslator.translate: fetch,
      build and distil, where only an InstallFailure from
      installer.distribution() is turned into a falsy result. */
  function TryOutcome(c: Config, run: SourceRun): (r: Outcome)
    ensures r.NotResolved? <==>
      run.fetch.Completed? && run.construct.Completed? &&
      run.distribution.Err? && run.distribution.error.InstallFailure?
    ensures r.Resolved? ==>
      run.fetch.Completed? && run.construct.Completed? && run.distribution.Ok? &&
      run.distill(run.distribution.value, c.installCache).Ok? &&
      r.dist.location == run.distill(run.distribution.value, c.installCache).value.path
    ensures run.fetch.Threw? ==> r == Raised(run.fetch.error)
    ensures run.fetch.Completed? && run.construct.Threw? ==> r == Raised(run.construct.error)
    ensures (run.fetch.Completed? && run.construct.Completed? && run.distribution.Err? &&
             !run.distribution.error.InstallFailure?) ==> r == Raised(run.distribution.error)
    ensures (run.fetch.Completed? && run.construct.Completed? && run.distribution.Ok? &&
             run.distill(run.distribution.value, c.installCache).Err?) ==>
      r == Raised(run.distill(run.distribution.value, c.installCache).error)
    ensures (run.fetch.Completed? && run.construct.Completed? && run.distribution.Ok? &&
             run.distill(run.distribution.value, c.installCache).Ok?) ==>
      r == FromEgg(run.distill(run.distribution.value, c.installCache).value)
  {
    if run.fetch.Threw? then Raised(run.fetch.error)
    else if run.construct.Threw? then Raised(run.construct.error)
    else
      match run.distribution
      case Err(e) => if e.InstallFailure? then NotResolved else Raised(e)
      case Ok(built) =>
        match run.distill(built, c.installCache)
        case Err(e) => Raised(e)
        case Ok(egg) => FromEgg(egg)
  }

  /** The outcome of SourceTranslator.translate. */
  function SourceOutcome(c: Config, link: Link, host: Host, run: SourceRun): (r: Outcome)
    ensures !SourceApplies(c, link, host) ==> r.NotResolved?
    ensures SourceApplies(c, link, host) ==> r == TryOutcome(c, run)
  {
    if SourceApplies(c, link, host) then TryOutcome(c, run) else NotResolved
  }

  /** How many temporary directories the try block makes: the unpack
      directory when fetch returns, the build directory when the Installer
      constructor returns too. */
  function TryFresh(run: SourceRun): nat
  {
    if run.fetch.Threw? then 0 else if run.construct.Threw? then 1 else 2
  }

  /** How many temporary directories SourceTranslator.translate makes. */
  function SourceFresh(c: Config, link: Link, host: Host, run: SourceRun): nat
  {
    if SourceApplies(c, link, host) then TryFresh(run) else 0
  }

  /** The unpack directory fetch creates when it returns. */
  function UnpackOf(run: SourceRun, next: nat): Option<Resource>
  {
    if run.fetch.Completed? then Some(Resource(next, UnpackDir)) else None
  }

  /** The build directory of an Installer whose constructor returned. */
  function InstallerOf(run: SourceRun, next: nat): Option<Resource>
  {
    if run.fetch.Completed? && run.construct.Completed? then Some(Resource(next + 1, BuildDir)) else None
  }

  function AsSet(r: Option<Resource>): set<Resource>
  {
    if r.Some? then {r.value} else {}
  }

  /** The events of the try block: the fetch, the unpack directory it
      creates, the Installer once its constructor returned and its build
      directory, the distiller call. It starts with the fetch and releases
      nothing. */
  function TryEvents(c: Config, link: Link, run: SourceRun, next: nat): (r: seq<Event>)
    ensures |r| > TryFresh(run) && r[0] == FetchCalled(link)
    ensures forall i | 0 <= i < |r| :: !r[i].Released?
  {
    var unpack := Resource(next, UnpackDir);
    var build := Resource(next + 1, BuildDir);
    if run.fetch.Threw? then [FetchCalled(link)]
    else if run.construct.Threw? then [FetchCalled(link), Acquired(unpack)]
    else if run.distribution.Err? then
      [FetchCalled(link), Acquired(unpack), InstallerCreated(unpack, Strict(link)), Acquired(build)]
    else
      [FetchCalled(link), Acquired(unpack), InstallerCreated(unpack, Strict(link)), Acquired(build),
       DistillCalled(run.distribution.value, c.installCache)]
  }

  /** The events of the finally block: installer cleanup, then removal of
      the unpack directory, each only for what was acquired. It releases as
      many directories as the try block made, and does nothing else. */
  function FinallyEvents(run: SourceRun, next: nat): (r: seq<Event>)
    ensures |r| == TryFresh(run)
    ensures forall i | 0 <= i < |r| :: r[i].Released?
  {
    (if InstallerOf(run, next).Some? then [Released(InstallerOf(run, next).value)] else []) +
    (if UnpackOf(run, next).Some? then [Released(UnpackOf(run, next).value)] else [])
  }

  /** The events of SourceTranslator.translate when the next fresh
      resource identity is `next`. */
  function SourceEvents(c: Config, link: Link, host: Host, run: SourceRun, next: nat): (r: seq<Event>)
    ensures !SourceApplies(c, link, host) ==> r == []
    ensures SourceApplies(c, link, host) ==> |r| > 2 * SourceFresh(c, link, host, run) && r[0] == FetchCalled(link)
    ensures forall i | |r| - SourceFresh(c, link, host, run) <= i < |r| :: r[i].Released?
  {
    if SourceApplies(c, link, host) then TryEvents(c, link, run, next) + FinallyEvents(run, next) else []
  }

  /** The try block of SourceTranslator.translate: it leaves live exactly
      the directories it acquired, and reports them to the finally block. */
  method TryBlock(c: Config, link: Link, run: SourceRun, fs: TempFiles)
    returns (out: Outcome, unpack: Option<Resource>, installer: Option<Resource>)
    requires fs.Valid()
    modifies fs
    ensures fs.Valid() && fs.initial == old(fs.initial) && fs.next == old(fs.next) + TryFresh(run)
    ensures out == TryOutcome(c, run)
    ensures unpack == UnpackOf(run, old(fs.next)) && installer == InstallerOf(run, old(fs.next))
    ensures fs.live == old(fs.live) + AsSet(unpack) + AsSet(installer)
    ensures forall r | r in AsSet(unpack) + AsSet(installer) :: r !in old(fs.live)
    ensures fs.log == old(fs.log) + TryEvents(c, link, run, old(fs.next))
  {
    unpack, installer := None, None;
    fs.Record(FetchCalled(link));
    if run.fetch.Threw? {
      out := Raised(run.fetch.error);
      return;
    }
    var dir := fs.Acquire(UnpackDir);
    unpack := Some(dir);
    if run.construct.Threw? {
      out := Raised(run.construct.error);
      return;
    }
    fs.Record(InstallerCreated(dir, link.name != BootstrapDistribution));
    var build := fs.Acquire(BuildDir);
    installer := Some(build);
    match run.distribution
    case Err(e) =>
      out := if e.InstallFailure? then NotResolved else Raised(e);
    case Ok(built) =>
      fs.Record(DistillCalled(built, c.installCache));
      match run.distill(built, c.installCache)
      case Err(e) =>
        out := Raised(e);
      case Ok(egg) =>
        out := FromEgg(egg);
  }

  /** SourceTranslator.translate against the process's temporary files:
      the gates, then the try block, then a finally that cleans up the
      installer and removes the unpack directory, each only if acquired. */
  method SourceTranslate(c: Config, link: Link, host: Host, run: SourceRun, fs: TempFiles)
    returns (out: Outcome)
    requires fs.Valid()
    modifies fs
    ensures fs.Valid()
    ensures out == SourceOutcome(c, link, host, run)
    ensures fs.live == old(fs.live) && fs.initial == old(fs.initial)
    ensures fs.log == old(fs.log) + SourceEvents(c, link, host, run, old(fs.next))
    ensures fs.next == old(fs.next) + SourceFresh(c, link, host, run)
  {
    if !link.kind.SourceLink? {
      return NotResolved;
    }
    if !host.compatible(host.current, c.platform) {
      return NotResolved;
    }
    if !host.versionCompatible(host.python, c.python) {
      return NotResolved;
    }
    ghost var logBefore := fs.log;
    var unpack, installer;
    out, unpack, installer := TryBlock(c, link, run, fs);
    ghost var logTry := fs.log;
    // finally:
    if installer.Some? {
      fs.Release(installer.value);
    }
    if unpack.Some? {
      fs.Release(unpack.value);
    }
    assert fs.log == logTry + FinallyEvents(run, old(fs.next));
  }

  // ---------------------------------------------------------------------
  // ChainedTranslator

  /** What one translator's translate call returns. A built-in translator
      returns a falsy result for a link of another kind, and an empty chain
      for every link. */
  function Translate(s: Strategy, link: Link, w: World): (r: Outcome)
    decreases s, 1
    ensures s.Egg? && !link.kind.EggLink? ==> r.NotResolved?
    ensures s.Source? && !link.kind.SourceLink? ==> r.NotResolved?
    ensures s.Chained? && s.translators == [] ==> r.NotResolved?
  {
    match s
    case Egg(c) => EggTranslate(c, link, w.host, w.egg(c, link))
    case Source(c) => SourceOutcome(c, link, w.host, w.source(c, link))
    case Chained(ts) => RunChain(ts, link, w).outcome
    case Custom(name) => w.custom(name, link)
  }

  /** ChainedTranslator.translate over `ts`: the first translator whose
      result is truthy decides, an exception propagates at once, and no
      translator after the deciding one is consulted. */
  function RunChain(ts: seq<Strategy>, link: Link, w: World): (r: Run)
    decreases ts, 0
    ensures r.consulted <= |ts|
    ensures ts != [] ==> 1 <= r.consulted
    ensures forall i | 0 <= i < r.consulted - 1 :: Translate(ts[i], link, w).NotResolved?
    ensures !r.outcome.NotResolved? ==> 0 < r.consulted && r.outcome == Translate(ts[r.consulted - 1], link, w)
    ensures r.consulted < |ts| ==> !r.outcome.NotResolved?
    ensures r.outcome.NotResolved? ==> forall i | 0 <= i < |ts| :: Translate(ts[i], link, w).NotResolved?
  {
    if ts == [] then Run(NotResolved, 0)
    else
      var first := Translate(ts[0], link, w);
      if first.NotResolved? then
        var rest := RunChain(ts[1..], link, w);
        assert forall i | 1 <= i < |ts| :: ts[i] == ts[1..][i - 1];
        Run(rest.outcome, rest.consulted + 1)
      else Run(first, 1)
  }

  /** What a translate call leaves in the process's temporary files: the
      events it logs, and the next fresh identity after it. */
  datatype Trace = Trace(events: seq<Event>, next: nat)

  /** The class a translator's translate call is logged under. */
  function ClassName(s: Strategy): string
  {
    match s
    case Egg(_) => "EggTranslator"
    case Source(_) => "SourceTranslator"
    case Chained(_) => "ChainedTranslator"
    case Custom(name) => name
  }

  /** The trace of one translator's translate call, started with `next` as
      the next fresh identity: the call itself, then what its body does. A
      chain's trace is that of the translators it consulted, one after
      another. */
  function Effects(s: Strategy, link: Link, w: World, next: nat): (r: Trace)
    decreases s, 1, 0
    ensures r.next >= next
    ensures |r.events| > 0 && r.events[0] == TranslateCalled(ClassName(s), link)
  {
    var body :=
      match s
      case Egg(c) => Trace(if EggApplies(c, link, w.host) then [FetchCalled(link)] else [], next)
      case Source(c) =>
        var run := w.source(c, link);
        Trace(SourceEvents(c, link, w.host, run, next), next + SourceFresh(c, link, w.host, run))
      case Chained(ts) => PrefixEffects(ts, RunChain(ts, link, w).consulted, link, w, next)
      case Custom(_) => Trace([], next);
    Trace([TranslateCalled(ClassName(s), link)] + body.events, body.next)
  }

  /** The trace of running the first k translators of ts one after another. */
  function PrefixEffects(ts: seq<Strategy>, k: nat, link: Link, w: World, next: nat): (r: Trace)
    requires k <= |ts|
    decreases ts, 0, k
    ensures r.next >= next
  {
    if k == 0 then Trace([], next)
    else
      var before := PrefixEffects(ts, k - 1, link, w, next);
      var last := Effects(ts[k - 1], link, w, before.next);
      Trace(before.events + last.events, last.next)
  }

  /** One step of the chain's loop: the suffix at i either is decided by
      translator i or passes on to the suffix after it. */
  lemma RunChainStep(ts: seq<Strategy>, i: nat, link: Link, w: World)
    requires i < |ts|
    ensures var r := RunChain(ts[i..], link, w);
      if Translate(ts[i], link, w).NotResolved? then
        r == Run(RunChain(ts[i + 1..], link, w).outcome, RunChain(ts[i + 1..], link, w).consulted + 1)
      else r == Run(Translate(ts[i], link, w), 1)
  {
    assert ts[i..][0] == ts[i] && ts[i..][1..] == ts[i + 1..];
  }

  /** Running one more translator extends the trace of a prefix. */
  lemma PrefixEffectsStep(ts: seq<Strategy>, i: nat, link: Link, w: World, next: nat, log: seq<Event>)
    requires i < |ts|
    ensures var before := PrefixEffects(ts, i, link, w, next);
      var last := Effects(ts[i], link, w, before.next);
      log + PrefixEffects(ts, i + 1, link, w, next).events == log + before.events + last.events &&
      PrefixEffects(ts, i + 1, link, w, next).next == last.next
  {
  }

  /** Runs a translator against the process's temporary files. */
  method Execute(s: Strategy, link: Link, w: World, fs: TempFiles) returns (out: Outcome)
    requires fs.Valid()
    modifies fs
    decreases s, 1
    ensures fs.Valid()
    ensures out == Translate(s, link, w)
    ensures fs.live == old(fs.live)
    ensures fs.log == old(fs.log) + Effects(s, link, w, old(fs.next)).events
    ensures fs.next == Effects(s, link, w, old(fs.next)).next
  {
    fs.Record(TranslateCalled(ClassName(s), link));
    match s
    case Egg(c) =>
      if EggApplies(c, link, w.host) {
        fs.Record(FetchCalled(link));
      }
      out := EggTranslate(c, link, w.host, w.egg(c, link));
    case Source(c) =>
      out := SourceTranslate(c, link, w.host, w.source(c, link), fs);
    case Chained(ts) =>
      out := ExecuteChain(ts, link, w, fs);
    case Custom(name) =>
      out := w.custom(name, link);
  }

  /** The loop of ChainedTranslator.translate, returning early on the
      first truthy result: only the translators RunChain consulted leave
      anything in the log, and every temporary resource a translator
      created is gone when it returns. */
  method ExecuteChain(ts: seq<Strategy>, link: Link, w: World, fs: TempFiles) returns (out: Outcome)
    requires fs.Valid()
    modifies fs
    decreases ts, 0
    ensures fs.Valid()
    ensures out == RunChain(ts, link, w).outcome
    ensures fs.live == old(fs.live)
    ensures fs.log == old(fs.log) + PrefixEffects(ts, RunChain(ts, link, w).consulted, link, w, old(fs.next)).events
    ensures fs.next == PrefixEffects(ts, RunChain(ts, link, w).consulted, link, w, old(fs.next)).next
  {
    ghost var log0, next0, run := fs.log, fs.next, RunChain(ts, link, w);
    var i := 0;
    while i < |ts|
      invariant 0 <= i <= |ts|
      invariant fs.Valid() && fs.live == old(fs.live)
      invariant RunChain(ts[i..], link, w).outcome == run.outcome
      invariant run.consulted == i + RunChain(ts[i..], link, w).consulted
      invariant fs.log == log0 + PrefixEffects(ts, i, link, w, next0).events
      invariant fs.next == PrefixEffects(ts, i, link, w, next0).next
    {
      var dist := Execute(ts[i], link, w, fs);
      RunChainStep(ts, i, link, w);
      PrefixEffectsStep(ts, i, link, w, next0, log0);
      if !dist.NotResolved? {
        assert run.consulted == i + 1;
        return dist;
      }
      i := i + 1;
    }
    assert ts[i..] == [];
    return NotResolved;
  }

  // ---------------------------------------------------------------------
  // Translator.default

  /** Translator.default: a chain of an egg translator and then a source
      translator, built with the same arguments. Each constructor makes
      its own temporary cache when none is given (`eggTemp`, `sourceTemp`). */
  function Default(installCache: Option<string>, platform: Platform, python: PythonVersion,
                   connTimeout: Option<nat>, eggTemp: string, sourceTemp: string): (d: Strategy)
    ensures d == Chained([Egg(NewConfig(installCache, eggTemp, platform, python, connTimeout)),
                          Source(NewConfig(installCache, sourceTemp, platform, python, connTimeout))])
  {
    var egg := Egg(NewConfig(installCache, eggTemp, platform, python, connTimeout));
    var source := Source(NewConfig(installCache, sourceTemp, platform, python, connTimeout));
    var args := [Tx(egg), Tx(source)];
    assert Kept(args) == args by {
      assert args[1..] == [Tx(source)] && [Tx(source)][1..] == [];
    }
    var chain := NewChain(args);
    assert chain.Ok?;
    chain.value
  }
}
