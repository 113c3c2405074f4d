/** Temporary filesystem resources a translate call creates and must
    release: the directory fetch unpacks a source link into, and the build
    directory an Installer works in. Only their identity is modelled. */
module Scratch {
  import opened TranslatorTypes

  datatype Role = UnpackDir | BuildDir

  datatype Resource = Resource(id: nat, role: Role)

  /** What a translate call does that can be observed from outside. */
  datatype Event =
    | TranslateCalled(translator: string, link: Link)
    | FetchCalled(link: Link)
    | Acquired(resource: Resource)
    | InstallerCreated(unpack: Resource, strict: bool)
    | DistillCalled(dist: BuiltDist, into: string)
    | Released(resource: Resource)

  /** The effect of one event on the set of live resources. */
  function Apply(live: set<Resource>, e: Event): set<Resource>
  {
    match e
    case Acquired(r) => live + {r}
    case Released(r) => live - {r}
    case _ => live
  }

  /** The live resources after a sequence of events, replayed in order. */
  function Replay(live: set<Resource>, events: seq<Event>): set<Resource>
    decreases |events|
  {
    if events == [] then live
    else Apply(Replay(live, events[..|events| - 1]), events[|events| - 1])
  }

  /** Replaying two logs one after the other is replaying their concatenation. */
  lemma {:induction false} ReplayConcat(live: set<Resource>, a: seq<Event>, b: seq<Event>)
    ensures Replay(live, a + b) == Replay(Replay(live, a), b)
    decreases |b|
  {
    if b == [] {
      assert a + b == a;
    } else {
      var n := |b| - 1;
      assert (a + b)[..|a + b| - 1] == a + b[..n];
      ReplayConcat(live, a, b[..n]);
    }
  }

  /** Replaying one event applies it. */
  lemma ReplaySingle(live: set<Resource>, x: Event)
    ensures Replay(live, [x]) == Apply(live, x)
  {
    assert [x][..0] == [];
  }

  /** Replaying two events applies them in order. */
  lemma ReplayPair(live: set<Resource>, x: Event, y: Event)
    ensures Replay(live, [x, y]) == Apply(Apply(live, x), y)
  {
    assert [x, y][..1] == [x];
    ReplaySingle(live, x);
  }

  /** Every release in the log is of a resource acquired earlier in it. */
  ghost predicate ReleasesOnlyAcquired(events: seq<Event>)
  {
    forall i | 0 <= i < |events| && events[i].Released? ::
      exists j | 0 <= j < i :: events[j] == Acquired(events[i].resource)
  }

  /** The temporary directories of the process: those now live, the next
      fresh identity, and the log of everything the translators did. */
  class TempFiles {
    var live: set<Resource>
    var next: nat
    var log: seq<Event>
    ghost var initial: set<Resource>

    /** Identities below next are the only ones in use, and the live set is
        what the log leaves behind. */
    ghost predicate Valid()
      reads this
    {
      (forall r | r in live :: r.id < next) &&
      (forall r | r in initial :: r.id < next) &&
      live == Replay(initial, log)
    }

    constructor (existing: set<Resource>, next: nat)
      requires forall r | r in existing :: r.id < next
      ensures Valid() && live == existing && log == [] && this.next == next
    {
      live := existing;
      this.next := next;
      log := [];
      initial := existing;
    }

    /** A fresh directory is created (safe_mkdtemp, or fetch unpacking). */
    method Acquire(role: Role) returns (r: Resource)
      requires Valid()
      modifies this
      ensures Valid()
      ensures r == Resource(old(next), role) && r !in old(live)
      ensures live == old(live) + {r} && next == old(next) + 1
      ensures log == old(log) + [Acquired(r)] && initial == old(initial)
    {
      r := Resource(next, role);
      log := log + [Acquired(r)];
      assert log[..|log| - 1] == old(log);
      live := live + {r};
      next := next + 1;
    }

    /** A live directory is removed (safe_rmtree, Installer.cleanup). */
    method Release(r: Resource)
      requires Valid() && r in live
      modifies this
      ensures Valid()
      ensures live == old(live) - {r} && next == old(next)
      ensures log == old(log) + [Released(r)] && initial == old(initial)
    {
      log := log + [Released(r)];
      assert log[..|log| - 1] == old(log);
      live := live - {r};
    }

    /** A call that creates or removes nothing is recorded. */
    method Record(e: Event)
      requires Valid() && !e.Acquired? && !e.Released?
      modifies this
      ensures Valid()
      ensures live == old(live) && next == old(next)
      ensures log == old(log) + [e] && initial == old(initial)
    {
      log := log + [e];
      assert log[..|log| - 1] == old(log);
    }
  }
}
