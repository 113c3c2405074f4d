# Link-to-distribution translators, modelled in Dafny

This project models `src/python/twitter/common/python/translator.py`: the
translators that turn a package link into an installed distribution.

- `ChainedTranslator` keeps the truthy constructor arguments in order and
  refuses, with `ValueError`, any kept one that is not a translator. Its
  `translate` returns the first truthy result and consults no translator
  after that one.
- `EggTranslator` accepts only egg links that are compatible with its
  platform and interpreter. It fetches the egg into the install cache. A
  `URLError` from that fetch gives a falsy result; any other exception
  propagates.
- `SourceTranslator` accepts only source links, and only on a compatible
  platform and interpreter. It fetches and unpacks the link, builds it with
  an `Installer` (strict for every package except `distribute`), and
  distils the result into the install cache. Only an
  `Installer.InstallFailure` from `installer.distribution()` gives a falsy
  result. In its `finally` block it cleans up the installer and then
  removes the unpack directory, each only if it was acquired.
- `Translator.default` builds a chain of an egg translator followed by a
  source translator with the same arguments.

Files:

- `types.dfy` (module `TranslatorTypes`): links, artifacts, distributions,
  the exception classes that matter (`URLError`, `InstallFailure`,
  `ValueError`, any other), and `Outcome`. An outcome is a distribution, a
  falsy return, or a propagated exception.
- `scratch.dfy` (module `Scratch`): the class `TempFiles`. It holds the live
  temporary directories, the next fresh identity and a log of observable
  events. `Valid()` ties the live set to a replay of the log.
- `translator.dfy` (module `Translator`): the operations.
  - Construction: `NewConfig`, `Kept`, `FirstNonTranslator`,
    `CheckTranslators`, `NewChain`.
  - `dist_from_egg`: `JoinPath`, `DistFromEgg`.
  - The egg translator: `EggTranslate`.
  - The source translator: the specification functions `TryOutcome`,
    `SourceOutcome`, `TryEvents`, `FinallyEvents`, `SourceEvents`, and the
    methods `TryBlock` and `SourceTranslate`. The methods are proved
    against those functions.
  - The chain: the specification `RunChain`, the dispatch `Translate`, the
    trace functions `Effects` and `PrefixEffects` (what a call logs and how
    many directories it makes), and the methods `Execute` and
    `ExecuteChain`, which run the `for` loop with its early return.
  - `Default`.
- `translator_lemmas.dfy` (module `TranslatorLemmas`): the properties.

The collaborators are inputs, not code. They are `link.fetch`, `Installer`,
`Distiller`, `pkg_resources`, `Platform.compatible`,
`Platform.version_compatible` and `Platform.distribution_compatible`.
- `Host` holds the running platform and interpreter and the three
  compatibility predicates.
- `SourceRun` says what fetch, the `Installer` constructor,
  `installer.distribution()` and the distiller do on one call.
- `EggRun` says what fetching an egg into a location yields.
- `World` gives these per translator configuration and link. It also gives
  the outcome of any other `TranslatorBase` subclass (`Custom`).

With `install_cache=None`, each translator's constructor calls
`safe_mkdtemp()` itself (lines 64 and 98), so the two translators of the
default chain do not share a cache. `Default` therefore takes one temporary
directory per translator, and `DefaultOrder` promises a shared cache only
when a truthy `install_cache` is given.

## Model

| member | source | states |
|---|---|---|
| `Translator.NewConfig` | src/python/twitter/common/python/translator.py:62-67 | the cache is `install_cache` when truthy and otherwise the freshly made temporary directory; platform, interpreter and timeout are kept as given |
| `Translator.Kept` | src/python/twitter/common/python/translator.py:40 | `filter(None, ...)` leaves no falsy argument and never more arguments than it was given |
| `Translator.KeptMembers` | src/python/twitter/common/python/translator.py:40 | an argument survives filtering exactly when it was passed and is not falsy |
| `Translator.FirstNonTranslator` | src/python/twitter/common/python/translator.py:41-43 | the position of the first truthy non-translator: every earlier argument is not one, and it is one unless it is past the end |
| `Translator.CheckTranslators` | src/python/twitter/common/python/translator.py:41-43 | succeeds iff every kept argument is a translator, then yields them one for one; otherwise fails with the ValueError message naming the first kept argument that is not a translator |
| `Translator.KeptFirstOffender` | src/python/twitter/common/python/translator.py:40-43 | when the isinstance loop fails, the ValueError names the first truthy non-translator among all the arguments, because filtering removes only falsy ones |
| `Translator.NewChain` | src/python/twitter/common/python/translator.py:39-43 | construction succeeds iff no argument is a truthy non-translator, and then yields a chain; on failure the ValueError names the first offending argument |
| `Translator.NewChainMembers` | src/python/twitter/common/python/translator.py:39-43 | a chain built without error holds a translator exactly when it was among the arguments |
| `Translator.JoinPath` | src/python/twitter/common/python/translator.py:54 | `os.path.join(egg_path, 'EGG-INFO')` starts with the directory, ends with the name, and inserts `/` unless the directory already ends with one |
| `Translator.DistFromEgg` | src/python/twitter/common/python/translator.py:52-58 | a directory egg gets PathMetadata over its EGG-INFO, a zipped egg gets EggMetadata; the distribution lives at the egg's path; a non-archive raises |
| `Translator.EggTranslate` | src/python/twitter/common/python/translator.py:103-114 | falsy iff the link is not an egg link, is incompatible, or its fetch raised URLError; any other error from fetch propagates unchanged; a fetched egg gives exactly `dist_from_egg(egg)`, resolved iff it is readable, located at the fetched path |
| `Translator.TryOutcome` | src/python/twitter/common/python/translator.py:77-87 | falsy only on an InstallFailure from `installer.distribution()`; errors from fetch, the Installer constructor, the build and the distiller propagate unchanged; when all four return, the result is exactly `dist_from_egg` of the distilled artifact (resolved, or its ZipImportError) |
| `Translator.SourceOutcome` | src/python/twitter/common/python/translator.py:69-87 | a failed gate (kind, platform, interpreter version) gives a falsy result; otherwise the outcome is that of the try block |
| `Translator.TryEvents` | src/python/twitter/common/python/translator.py:77-87 | the try block's events on each path (a definition): it starts with the fetch, has more events than the directories it makes, and releases nothing |
| `Translator.FinallyEvents` | src/python/twitter/common/python/translator.py:88-92 | the finally block only releases, and releases as many directories as the try block made |
| `Translator.SourceEvents` | src/python/twitter/common/python/translator.py:69-92 | a failed gate logs nothing; otherwise the call starts with the fetch and ends with one release per directory it made |
| `Translator.TryBlock` | src/python/twitter/common/python/translator.py:78-87 | yields the try block's outcome; the unpack directory is acquired iff fetch returned and the build directory iff the Installer was constructed; both are fresh; the log grows by the try block's events and the fresh identity advances by exactly the directories made |
| `Translator.SourceTranslate` | src/python/twitter/common/python/translator.py:69-92 | the outcome is `SourceOutcome`; the live temporary directories are those before the call on every exit; the log grows by exactly `SourceEvents` and the fresh identity by the directories made |
| `Translator.Translate` | src/python/twitter/common/python/translator.py:47 | the dispatch `tx.translate(link)`: the egg and source translators turn down a link of another kind, and an empty chain turns down every link |
| `Translator.Effects` | src/python/twitter/common/python/translator.py:45-49 | the trace of one translate call (a definition): every call is logged first under its class name, then an egg translator logs its fetch when its gates pass, a source translator its events and directories, a chain the traces of the translators it consulted, in order; the fresh identity never goes back |
| `Translator.PrefixEffects` | src/python/twitter/common/python/translator.py:46-47 | the trace of running the first k translators one after another never moves the fresh identity back |
| `Translator.RunChain` | src/python/twitter/common/python/translator.py:45-49 | consults translators in order and stops at the first non-falsy one; every earlier one was falsy; the result is that translator's result (including a propagated error); if the chain is falsy, every translator was falsy |
| `Translator.Execute` | src/python/twitter/common/python/translator.py:47 | running any translator against the temporary files yields its specified outcome, leaves the live set unchanged, and logs exactly its trace `Effects` |
| `Translator.ExecuteChain` | src/python/twitter/common/python/translator.py:45-49 | the loop with its early return yields the `RunChain` outcome, leaves the live set unchanged, and logs exactly the traces of the `RunChain`-consulted translators: a translator after the deciding one is never run |
| `Scratch.TempFiles.Acquire` | src/python/twitter/common/python/translator.py:79-81 | creating the unpack or build directory adds one fresh, previously dead resource to the live set and logs it |
| `Scratch.TempFiles.Release` | src/python/twitter/common/python/translator.py:88-92 | cleanup or rmtree removes exactly that live resource and logs it |
| `TranslatorLemmas.KeptAppend` | src/python/twitter/common/python/translator.py:40 | filtering distributes over concatenation, so it keeps the arguments' order |
| `TranslatorLemmas.StrategiesAppend` | src/python/twitter/common/python/translator.py:40 | the reference list of translators among the arguments distributes over concatenation |
| `TranslatorLemmas.NewChainIsStrategies` | src/python/twitter/common/python/translator.py:39-43 | filtering then checking yields exactly the translators among the arguments, in their order, whenever no truthy non-translator is present |
| `TranslatorLemmas.NewChainIgnoresFalsy` | src/python/twitter/common/python/translator.py:39-40 | a falsy argument anywhere gives the same chain, or the same error, as without it |
| `TranslatorLemmas.NewChainKeepsOrder` | src/python/twitter/common/python/translator.py:39-43 | the chain over `a + b` holds the translators of `a` followed by those of `b` |
| `TranslatorLemmas.NewChainSingle` | src/python/twitter/common/python/translator.py:39-43 | a single translator argument makes a chain of just that translator |
| `TranslatorLemmas.RunChainAppend` | src/python/twitter/common/python/translator.py:45-49 | over `ts + rest`, `ts` decides if it can and then nothing of `rest` is consulted; otherwise `rest` decides |
| `TranslatorLemmas.FirstDecisiveWins` | src/python/twitter/common/python/translator.py:45-49 | if translators 0..k-1 are falsy and k is not, the chain returns k's result having consulted exactly k+1 translators |
| `TranslatorLemmas.PrefixEffectsAppend` | src/python/twitter/common/python/translator.py:45-49 | the trace of the first k translators does not depend on the translators after them |
| `TranslatorLemmas.DecidedChainIgnoresRest` | src/python/twitter/common/python/translator.py:45-49 | once the first translators decide, appending more translators changes neither the log nor the fresh identity: they are never run |
| `TranslatorLemmas.UndecidedChainRunsAll` | src/python/twitter/common/python/translator.py:45-49 | a chain whose result is falsy runs every translator, in order |
| `TranslatorLemmas.MockChainStopsAtSecond` | src/python/twitter/common/python/translator.py:45-49 | of three translators where the second resolves, the chain returns the second's result and the log shows the first two called and the third never invoked |
| `TranslatorLemmas.ChainFlatten` | src/python/twitter/common/python/translator.py:34-49 | a chain nested as the first member of another behaves as if its translators were spliced in |
| `Translator.Default` | src/python/twitter/common/python/translator.py:117-125 | `Translator.default` is the chain of an egg translator and then a source translator, each configured from the same arguments with its own temporary directory standing in for a missing cache |
| `TranslatorLemmas.DefaultOrder` | src/python/twitter/common/python/translator.py:117-125 | the default chain is an egg translator then a source translator with the same platform, interpreter and timeout; the two share the cache when a truthy one is given |
| `TranslatorLemmas.DefaultSeparateCaches` | src/python/twitter/common/python/translator.py:117-125 | without a truthy `install_cache` each translator caches in the directory its own `safe_mkdtemp()` made (lines 64, 98), so the two caches differ |
| `TranslatorLemmas.DefaultPrefersEgg` | src/python/twitter/common/python/translator.py:121-125 | the default chain returns the egg result whenever it is truthy or raises, consulting one translator; only after a falsy egg result does the source result decide |
| `TranslatorLemmas.EggGateSkipsFetch` | src/python/twitter/common/python/translator.py:105-108 | a non-egg or incompatible link is turned down whatever fetch would do |
| `TranslatorLemmas.SourceGateSkipsFetch` | src/python/twitter/common/python/translator.py:71-76 | a failed gate gives a falsy result with no event at all: no fetch and no directory |
| `TranslatorLemmas.SourceFetchesIffApplies` | src/python/twitter/common/python/translator.py:71-79 | fetch is called exactly when all three gates pass |
| `TranslatorLemmas.TryEventsAcquires` | src/python/twitter/common/python/translator.py:77-81 | the unpack directory is made exactly when fetch returned; the Installer and its build directory exactly when its constructor returned too |
| `TranslatorLemmas.SourceEventsCases` | src/python/twitter/common/python/translator.py:77-92 | the exact event sequence of each exit path: fetch raised, Installer constructor raised, build failed or raised, build succeeded |
| `TranslatorLemmas.SourceEventsBalanced` | src/python/twitter/common/python/translator.py:77-92 | replaying a source translation's events leaves any set of older live resources unchanged, on every path |
| `TranslatorLemmas.SourceReleasesOnlyAcquired` | src/python/twitter/common/python/translator.py:88-92 | every release in the finally block is of a resource acquired earlier in the same call |
| `TranslatorLemmas.SourceCleanupOrder` | src/python/twitter/common/python/translator.py:89-92 | installer cleanup precedes removal of the unpack directory |
| `TranslatorLemmas.SourceStrictMode` | src/python/twitter/common/python/translator.py:81 | the Installer is strict exactly when the link's name is not `distribute`, and it exists (its constructor returned) exactly when the gates pass and fetch and the constructor returned |
| `Scratch.ReplayConcat` | src/python/twitter/common/python/translator.py:88-92 | the live set after two logs is the live set after their concatenation, which lets the per-call balance compose across calls |

## Left out

- Networking, timeouts and the Python 2/3 `urllib` shim (lines 21-24, 79, 110). The fetch outcome is an input, and `connTimeout` is carried in the configuration but influences nothing modelled.
- The internals of `Installer` and `Distiller` (lines 81, 84, 87). Their outcomes are inputs. The strict flag is recorded in the `InstallerCreated` event but does not select an outcome.
- `Installer.cleanup()` and `safe_rmtree` are taken never to raise. An exception raised inside the `finally` block is not modelled.
- `pkg_resources` metadata parsing inside `dist_from_egg`. Only the directory-versus-file branch and the `zipimport` refusal of a non-archive are modelled.
- DistFromEgg: the location is the egg's path as given. `Distribution.from_filename` passes it through `normalize_path` first, so the model's location equals the source's only up to that normalization.
- `Platform.compatible`, `Platform.version_compatible`, `Platform.distribution_compatible`, `Platform.current()` and `Platform.python()` as called inside `translate` (lines 73, 75, 107). They are the predicates and values in `Host`.
- The constructor defaults `platform=Platform.current()` and `python=Platform.python()` (lines 62, 96, 119) are evaluated once, when the class is defined. `NewConfig` and `Default` take platform and interpreter explicitly and never fall back to the `Host` values, so these defaults are not modelled.
- `TRACER` timing and logging (lines 80, 82, 112). They have no behavioural effect.
- Temporary directories are identities in a set. `safe_mkdtemp` for the install cache (lines 64, 98) is a directory name handed to `NewConfig`. No file contents are modelled.
- Writes into the install cache by the distiller and the egg fetch are only recorded as the `DistillCalled` event or as the fetch location. The persistent cache itself is not modelled.
- Return values: every falsy value a translator returns is `NotResolved`. The chain returns `None` in that case, which is also `NotResolved`.
- Fetch for a source link is taken to return a non-empty path whenever it returns. So `if unpack_path` reads as "fetch returned".
- Another `TranslatorBase` subclass (`Custom`) is taken to leave the temporary files alone. Its outcome is an input.
- Installer objects are taken to be truthy: `if installer:` (line 89) reads as "the `Installer` constructor returned", just as `if unpack_path:` reads as "fetch returned".
- Collaborator outcomes are functions of the translator's configuration and the link (`World`). Two translators with equal configuration in one chain therefore always agree: a second identical translator after a falsy first one is falsy too. A collaborator whose answer changes between calls (a flaky network, a cache filled by the first call) is not modelled.
- A translator object that is itself falsy (one defining `__len__` or `__bool__`) is not modelled. A translator argument is always truthy.
