/** What the translators promise, stated over the whole input space:
    how the chain is built and how it decides, the order of the default
    chain, and the resource discipline of the source translator. */
module TranslatorLemmas {
  import opened TranslatorTypes
  import opened Scratch
  import opened Translator

  // ---------------------------------------------------------------------
  // ChainedTranslator construction

  /** Filtering keeps the order of the arguments it keeps. */
  lemma {:induction false} KeptAppend(a: seq<Arg>, b: seq<Arg>)
    ensures Kept(a + b) == Kept(a) + Kept(b)
    decreases |a|
  {
    if a == [] {
      assert a + b == b;
    } else {
      assert (a + b)[0] == a[0] && (a + b)[1..] == a[1..] + b;
      KeptAppend(a[1..], b);
    }
  }

  /** A falsy argument anywhere leaves the chain exactly as without it:
      ChainedTranslator(None, t, None) is ChainedTranslator(t). */
  lemma NewChainIgnoresFalsy(a: seq<Arg>, b: seq<Arg>)
    ensures NewChain(a + [Falsy] + b) == NewChain(a + b)
  {
    KeptAppend(a + [Falsy], b);
    KeptAppend(a, [Falsy]);
    KeptAppend(a, b);
    assert Kept([Falsy]) == [];
    assert Kept(a) + [] == Kept(a);
  }

  /** The translators among the arguments, in order: a reference
      definition independent of the two-phase construction. */
  function Strategies(args: seq<Arg>): seq<Strategy>
  {
    if args == [] then []
    else (if args[0].Tx? then [args[0].strategy] else []) + Strategies(args[1..])
  }

  /** Taking the translators of a concatenation concatenates them. */
  lemma {:induction false} StrategiesAppend(a: seq<Arg>, b: seq<Arg>)
    ensures Strategies(a + b) == Strategies(a) + Strategies(b)
    decreases |a|
  {
    if a == [] {
      assert a + b == b;
    } else {
      assert (a + b)[0] == a[0] && (a + b)[1..] == a[1..] + b;
      StrategiesAppend(a[1..], b);
    }
  }

  /** A chain built without error holds exactly the translators among its
      arguments, in the order they were passed. */
  lemma {:induction false} NewChainIsStrategies(args: seq<Arg>)
    requires forall i | 0 <= i < |args| :: !args[i].NotTranslator?
    ensures NewChain(args) == Ok(Chained(Strategies(args)))
    decreases |args|
  {
    if args == [] {
      assert Kept(args) == [];
    } else {
      var rest := args[1..];
      assert forall i | 0 <= i < |rest| :: rest[i] == args[i + 1];
      NewChainIsStrategies(rest);
      var kr := Kept(rest);
      assert CheckTranslators(kr) == Ok(Strategies(rest));
      if args[0].Falsy? {
        assert Kept(args) == kr;
        assert Strategies(args) == Strategies(rest);
      } else {
        assert Kept(args) == [args[0]] + kr;
        assert Kept(args)[1..] == kr;
        assert Strategies(args) == [args[0].strategy] + Strategies(rest);
        assert CheckTranslators(Kept(args)) == Ok([args[0].strategy] + Strategies(rest));
      }
    }
  }

  /** The chain over `a + b` holds the translators of `a` followed by
      those of `b`. */
  lemma NewChainKeepsOrder(a: seq<Arg>, b: seq<Arg>)
    requires NewChain(a + b).Ok?
    ensures NewChain(a).Ok? && NewChain(b).Ok?
    ensures NewChain(a + b).value.translators == NewChain(a).value.translators + NewChain(b).value.translators
  {
    assert forall i | 0 <= i < |a| :: a[i] == (a + b)[i];
    assert forall i | 0 <= i < |b| :: b[i] == (a + b)[|a| + i];
    NewChainIsStrategies(a);
    NewChainIsStrategies(b);
    NewChainIsStrategies(a + b);
    StrategiesAppend(a, b);
  }

  /** A single translator makes a chain of just that translator. */
  lemma NewChainSingle(s: Strategy)
    ensures NewChain([Tx(s)]) == Ok(Chained([s]))
  {
    assert [Tx(s)][1..] == [];
    assert Kept([Tx(s)]) == [Tx(s)] + Kept([]);
    assert CheckTranslators([Tx(s)]) == Ok([s] + []);
    assert [s] + [] == [s];
  }

  // ---------------------------------------------------------------------
  // ChainedTranslator.translate

  /** Running a chain over a concatenation: the first part decides if it
      can, and then nothing of the second part is consulted. */
  lemma {:induction false} RunChainAppend(ts: seq<Strategy>, rest: seq<Strategy>, link: Link, w: World)
    ensures RunChain(ts + rest, link, w).outcome ==
      if RunChain(ts, link, w).outcome.NotResolved? then RunChain(rest, link, w).outcome
      else RunChain(ts, link, w).outcome
    ensures !RunChain(ts, link, w).outcome.NotResolved? ==> RunChain(ts + rest, link, w) == RunChain(ts, link, w)
    ensures RunChain(ts, link, w).outcome.NotResolved? ==>
      RunChain(ts + rest, link, w).consulted == |ts| + RunChain(rest, link, w).consulted
    decreases |ts|
  {
    if ts == [] {
      assert ts + rest == rest;
    } else {
      assert (ts + rest)[0] == ts[0] && (ts + rest)[1..] == ts[1..] + rest;
      RunChainAppend(ts[1..], rest, link, w);
    }
  }

  /** The translator at index k decides the chain when every translator
      before it returned a falsy result; those after it are not consulted. */
  lemma FirstDecisiveWins(ts: seq<Strategy>, k: nat, link: Link, w: World)
    requires k < |ts|
    requires forall i | 0 <= i < k :: Translate(ts[i], link, w).NotResolved?
    requires !Translate(ts[k], link, w).NotResolved?
    ensures RunChain(ts, link, w) == Run(Translate(ts[k], link, w), k + 1)
  {
  }

  /** A chain nested as the first member of another acts as if its
      translators were spliced in. */
  lemma ChainFlatten(inner: seq<Strategy>, rest: seq<Strategy>, link: Link, w: World)
    ensures Translate(Chained([Chained(inner)] + rest), link, w) == Translate(Chained(inner + rest), link, w)
  {
    RunChainAppend(inner, rest, link, w);
    var ts := [Chained(inner)] + rest;
    assert ts[0] == Chained(inner) && ts[1..] == rest;
  }

  /** The trace of the first k translators does not depend on what follows
      them. */
  lemma {:induction false} PrefixEffectsAppend(ts: seq<Strategy>, rest: seq<Strategy>, k: nat,
                                               link: Link, w: World, next: nat)
    requires k <= |ts|
    ensures PrefixEffects(ts + rest, k, link, w, next) == PrefixEffects(ts, k, link, w, next)
    decreases k
  {
    if k > 0 {
      PrefixEffectsAppend(ts, rest, k - 1, link, w, next);
      assert (ts + rest)[k - 1] == ts[k - 1];
    }
  }

  /** Once the first translators of a chain decide, the translators after
      them are never run: the chain's log and fresh identities are those of
      the deciding part alone. */
  lemma DecidedChainIgnoresRest(ts: seq<Strategy>, rest: seq<Strategy>, link: Link, w: World, next: nat)
    requires !RunChain(ts, link, w).outcome.NotResolved?
    ensures Effects(Chained(ts + rest), link, w, next) == Effects(Chained(ts), link, w, next)
  {
    RunChainAppend(ts, rest, link, w);
    PrefixEffectsAppend(ts, rest, RunChain(ts, link, w).consulted, link, w, next);
  }

  /** A chain whose translators all return a falsy result runs every one of
      them, in order. */
  lemma UndecidedChainRunsAll(ts: seq<Strategy>, link: Link, w: World, next: nat)
    requires RunChain(ts, link, w).outcome.NotResolved?
    ensures Effects(Chained(ts), link, w, next).events ==
      [TranslateCalled("ChainedTranslator", link)] + PrefixEffects(ts, |ts|, link, w, next).events
    ensures Effects(Chained(ts), link, w, next).next == PrefixEffects(ts, |ts|, link, w, next).next
  {
  }

  /** Three mock translators where the second resolves: the chain returns
      the second's result, and the log shows the chain, the first and the
      second called, and the third never invoked. */
  lemma MockChainStopsAtSecond(link: Link, w: World, next: nat, d: Distribution)
    requires w.custom("A", link) == NotResolved && w.custom("B", link) == Resolved(d)
    ensures Translate(Chained([Custom("A"), Custom("B"), Custom("C")]), link, w) == Resolved(d)
    ensures Effects(Chained([Custom("A"), Custom("B"), Custom("C")]), link, w, next).events ==
      [TranslateCalled("ChainedTranslator", link), TranslateCalled("A", link), TranslateCalled("B", link)]
  {
    var ts := [Custom("A"), Custom("B"), Custom("C")];
    FirstDecisiveWins(ts, 1, link, w);
  }

  // ---------------------------------------------------------------------
  // Translator.default

  /** The default chain holds an egg translator and then a source
      translator with the same platform, interpreter and timeout; they
      share the cache when one is given. */
  lemma DefaultOrder(installCache: Option<string>, platform: Platform, python: PythonVersion,
                     connTimeout: Option<nat>, eggTemp: string, sourceTemp: string)
    ensures var d := Default(installCache, platform, python, connTimeout, eggTemp, sourceTemp);
      d.Chained? && |d.translators| == 2 &&
      d.translators[0].Egg? && d.translators[1].Source? &&
      d.translators[0].config.platform == platform == d.translators[1].config.platform &&
      d.translators[0].config.python == python == d.translators[1].config.python &&
      d.translators[0].config.connTimeout == connTimeout == d.translators[1].config.connTimeout &&
      (installCache.Some? && installCache.value != "" ==>
         d.translators[0].config == d.translators[1].config &&
         d.translators[0].config.installCache == installCache.value)
  {
    var egg := Egg(NewConfig(installCache, eggTemp, platform, python, connTimeout));
    var source := Source(NewConfig(installCache, sourceTemp, platform, python, connTimeout));
    NewChainSingle(egg);
    NewChainSingle(source);
    assert [Tx(egg), Tx(source)] == [Tx(egg)] + [Tx(source)];
    NewChainKeepsOrder([Tx(egg)], [Tx(source)]);
  }

  /** Without a truthy install_cache each translator of the default chain
      works in the temporary directory its own constructor made; two
      safe_mkdtemp calls give two distinct directories, so the caches differ. */
  lemma DefaultSeparateCaches(installCache: Option<string>, platform: Platform, python: PythonVersion,
                              connTimeout: Option<nat>, eggTemp: string, sourceTemp: string)
    requires installCache.None? || installCache.value == ""
    requires eggTemp != sourceTemp
    ensures var d := Default(installCache, platform, python, connTimeout, eggTemp, sourceTemp);
      d.translators[0].config.installCache == eggTemp &&
      d.translators[1].config.installCache == sourceTemp &&
      d.translators[0].config.installCache != d.translators[1].config.installCache
  {
  }

  /** When both translators of the default chain could resolve a link the
      egg wins; the source translator runs only after a falsy egg result. */
  lemma DefaultPrefersEgg(installCache: Option<string>, platform: Platform, python: PythonVersion,
                          connTimeout: Option<nat>, eggTemp: string, sourceTemp: string,
                          link: Link, w: World)
    ensures var d := Default(installCache, platform, python, connTimeout, eggTemp, sourceTemp);
      d.Chained? && |d.translators| == 2 &&
      var egg := Translate(d.translators[0], link, w);
      RunChain(d.translators, link, w) ==
        if egg.NotResolved? then Run(Translate(d.translators[1], link, w), 2) else Run(egg, 1)
  {
    DefaultOrder(installCache, platform, python, connTimeout, eggTemp, sourceTemp);
    var d := Default(installCache, platform, python, connTimeout, eggTemp, sourceTemp);
    var ts := d.translators;
    assert ts[1..][1..] == [];
    assert ts[1..][0] == ts[1];
  }

  // ---------------------------------------------------------------------
  // EggTranslator.translate

  /** A link that is no egg, or an incompatible one, is turned down
      whatever fetching it would do: fetch is not consulted. */
  lemma EggGateSkipsFetch(c: Config, link: Link, host: Host, run1: EggRun, run2: EggRun)
    requires !EggApplies(c, link, host)
    ensures EggTranslate(c, link, host, run1) == EggTranslate(c, link, host, run2) == NotResolved
  {
  }

  // ---------------------------------------------------------------------
  // SourceTranslator.translate

  /** A link that is no source link, or a platform or interpreter that is
      not compatible, gives a falsy result with no fetch and no files. */
  lemma SourceGateSkipsFetch(c: Config, link: Link, host: Host, run: SourceRun, next: nat)
    requires !SourceApplies(c, link, host)
    ensures SourceOutcome(c, link, host, run).NotResolved?
    ensures SourceEvents(c, link, host, run, next) == []
  {
  }

  /** Fetch is called exactly when the gates pass. */
  lemma SourceFetchesIffApplies(c: Config, link: Link, host: Host, run: SourceRun, next: nat)
    ensures FetchCalled(link) in SourceEvents(c, link, host, run, next) <==> SourceApplies(c, link, host)
  {
  }

  /** The try block makes the unpack directory exactly when fetch returned,
      and the Installer with its build directory exactly when its
      constructor returned too. */
  lemma TryEventsAcquires(c: Config, link: Link, run: SourceRun, next: nat)
    ensures Acquired(Resource(next, UnpackDir)) in TryEvents(c, link, run, next) <==> run.fetch.Completed?
    ensures Acquired(Resource(next + 1, BuildDir)) in TryEvents(c, link, run, next) <==>
      run.fetch.Completed? && run.construct.Completed?
    ensures InstallerCreated(Resource(next, UnpackDir), Strict(link)) in TryEvents(c, link, run, next) <==>
      run.fetch.Completed? && run.construct.Completed?
  {
    var ev := TryEvents(c, link, run, next);
    if run.fetch.Completed? {
      assert ev[1] == Acquired(Resource(next, UnpackDir));
      if run.construct.Completed? {
        assert ev[2] == InstallerCreated(Resource(next, UnpackDir), Strict(link));
        assert ev[3] == Acquired(Resource(next + 1, BuildDir));
      }
    }
  }

  /** The exact events of each exit path of SourceTranslator.translate. */
  lemma SourceEventsCases(c: Config, link: Link, host: Host, run: SourceRun, next: nat)
    requires SourceApplies(c, link, host)
    ensures var u := Resource(next, UnpackDir);
      var b := Resource(next + 1, BuildDir);
      var ev := SourceEvents(c, link, host, run, next);
      (run.fetch.Threw? ==> ev == [FetchCalled(link)]) &&
      (run.fetch.Completed? && run.construct.Threw? ==>
         ev == [FetchCalled(link), Acquired(u), Released(u)]) &&
      (run.fetch.Completed? && run.construct.Completed? && run.distribution.Err? ==>
         ev == [FetchCalled(link), Acquired(u), InstallerCreated(u, Strict(link)), Acquired(b),
                Released(b), Released(u)]) &&
      (run.fetch.Completed? && run.construct.Completed? && run.distribution.Ok? ==>
         ev == [FetchCalled(link), Acquired(u), InstallerCreated(u, Strict(link)), Acquired(b),
                DistillCalled(run.distribution.value, c.installCache), Released(b), Released(u)])
  {
  }

  /** Replaying the events of one source translation leaves the live
      resources as they were, on every exit path. */
  lemma SourceEventsBalanced(c: Config, link: Link, host: Host, run: SourceRun, next: nat,
                             live: set<Resource>)
    requires forall r | r in live :: r.id < next
    ensures Replay(live, SourceEvents(c, link, host, run, next)) == live
  {
    var ev := SourceEvents(c, link, host, run, next);
    var u := Resource(next, UnpackDir);
    var b := Resource(next + 1, BuildDir);
    assert u !in live && b !in live;
    if SourceApplies(c, link, host) {
      SourceEventsCases(c, link, host, run, next);
      var f := [FetchCalled(link), Acquired(u)];
      assert Replay(live, [FetchCalled(link)]) == live by {
        ReplaySingle(live, FetchCalled(link));
      }
      if run.fetch.Completed? {
        assert Replay(live, f) == live + {u} by {
          ReplayPair(live, FetchCalled(link), Acquired(u));
        }
        if run.construct.Threw? {
          assert ev == f + [Released(u)];
          ReplayConcat(live, f, [Released(u)]);
          ReplaySingle(live + {u}, Released(u));
        } else {
          var head := f + [InstallerCreated(u, Strict(link))];
          assert Replay(live, head) == live + {u} by {
            ReplayConcat(live, f, [InstallerCreated(u, Strict(link))]);
            ReplaySingle(live + {u}, InstallerCreated(u, Strict(link)));
          }
          var mid := if run.distribution.Ok? then [Acquired(b), DistillCalled(run.distribution.value, c.installCache)]
                     else [Acquired(b)];
          assert Replay(live + {u}, mid) == live + {u} + {b} by {
            if run.distribution.Ok? {
              ReplayPair(live + {u}, Acquired(b), DistillCalled(run.distribution.value, c.installCache));
            } else {
              ReplaySingle(live + {u}, Acquired(b));
            }
          }
          var tail := [Released(b), Released(u)];
          assert Replay(live + {u} + {b}, tail) == live by {
            ReplayPair(live + {u} + {b}, Released(b), Released(u));
          }
          assert ev == head + mid + tail;
          ReplayConcat(live, head, mid);
          ReplayConcat(live, head + mid, tail);
        }
      }
    }
  }

  /** The finally block only releases what the try block acquired. */
  lemma SourceReleasesOnlyAcquired(c: Config, link: Link, host: Host, run: SourceRun, next: nat)
    ensures ReleasesOnlyAcquired(SourceEvents(c, link, host, run, next))
  {
    var ev := SourceEvents(c, link, host, run, next);
    if SourceApplies(c, link, host) {
      SourceEventsCases(c, link, host, run, next);
      forall i | 0 <= i < |ev| && ev[i].Released?
        ensures exists j | 0 <= j < i :: ev[j] == Acquired(ev[i].resource)
      {
        if ev[i].resource.role == UnpackDir {
          assert ev[1] == Acquired(ev[i].resource);
        } else {
          assert ev[3] == Acquired(ev[i].resource);
        }
      }
    }
  }

  /** The installer is cleaned up before the unpack directory is removed. */
  lemma SourceCleanupOrder(c: Config, link: Link, host: Host, run: SourceRun, next: nat, i: nat, j: nat)
    requires i < |SourceEvents(c, link, host, run, next)| && j < |SourceEvents(c, link, host, run, next)|
    requires SourceEvents(c, link, host, run, next)[i] == Released(Resource(next + 1, BuildDir))
    requires SourceEvents(c, link, host, run, next)[j] == Released(Resource(next, UnpackDir))
    ensures i < j
  {
  }

  /** The Installer builds strictly for every package but distribute, and
      it is created exactly when fetch and the Installer constructor returned. */
  lemma SourceStrictMode(c: Config, link: Link, host: Host, run: SourceRun, next: nat)
    ensures forall e | e in SourceEvents(c, link, host, run, next) && e.InstallerCreated? ::
      e.strict <==> link.name != "distribute"
    ensures InstallerCreated(Resource(next, UnpackDir), link.name != "distribute") in SourceEvents(c, link, host, run, next)
      <==> SourceApplies(c, link, host) && run.fetch.Completed? && run.construct.Completed?
  {
  }
}
