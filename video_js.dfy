/**
 * The VideoJS component instance: its refs (`playerRef`, `containerRef`), the
 * runs of its mount effect, and its reconcile effect, as explicit steps that a
 * host (React) interleaves on one thread.
 */
module VideoJsComponent {
  import opened Wrappers
  import opened Js
  import opened Fingerprint
  import opened Reconciler
  import opened Dom
  import opened Lifecycle

  /** One run of the mount effect: the options its setup closure captured and its own `mounted` flag. */
  datatype EffectRun = EffectRun(options: Options, mounted: bool)

  /** The dependencies `[optionsKey, debug]` the reconcile effect last ran with. */
  datatype Deps = Deps(key: Key, debug: bool)

  /** How a resumed setup ended. */
  datatype SetupOutcome =
    | Skipped                 // returned at a guard: nothing attached, nothing created
    | Failed                  // rejected and logged: failed import, missing options, or a throwing constructor
    | Acquired(player: Player)

  /** The held player, as a set. */
  function Held(ref: Option<Player>): set<Player> {
    if ref.Some? then {ref.value} else {}
  }

  class VideoJs {
    /** Every run of the mount effect so far, oldest first. */
    var runs: seq<EffectRun>
    /** `playerRef.current`. */
    var playerRef: Option<Player>
    /** `containerRef.current`: `None` while the ref is null, otherwise the container's children. */
    var container: Option<seq<VideoElement>>
    /** The dependencies of the reconcile effect's last run; `None` before its first. */
    var lastDeps: Option<Deps>
    /** Every call made into the player library so far. */
    var trace: seq<Call>
    /** How many players the library has handed out; the next one gets this number. */
    var constructed: nat

    /** The held player is exactly the live one, and the trace follows the player protocol. */
    ghost predicate Valid()
      reads this
    {
      && Protocol(trace)
      && Live(trace) == Held(playerRef)
      && (forall p | p in CreatedIn(trace) :: p.id < constructed)
    }

    /** A fresh component: both refs null, no effect run yet, no call made. */
    constructor ()
      ensures Valid()
      ensures runs == [] && playerRef == None && container == None && lastDeps == None
      ensures trace == [] && constructed == 0
    {
      runs := [];
      playerRef := None;
      container := None;
      lastDeps := None;
      trace := [];
      constructed := 0;
    }

    /** React commits the container `<div>` and points `containerRef` at it. */
    method AttachContainer()
      requires Valid()
      modifies this`container
      ensures Valid() && container == Some([])
    {
      container := Some([]);
    }

    /** React detaches `containerRef` (it becomes null). */
    method DetachContainer()
      requires Valid()
      modifies this`container
      ensures Valid() && container == None
    {
      container := None;
    }

    /** The mount effect starts a run: its `mounted` flag is true and its setup is in flight. */
    method Mount(options: Options) returns (run: nat)
      requires Valid()
      modifies this`runs
      ensures Valid()
      ensures run == |old(runs)| && runs == old(runs) + [EffectRun(options, true)]
    {
      run := |runs|;
      runs := runs + [EffectRun(options, true)];
    }

    /** The guards the setup of `run` must pass after its imports: still mounted, a container, no held player. */
    predicate SetupProceeds(run: nat)
      reads this
      requires run < |runs|
    {
      runs[run].mounted && container.Some? && playerRef.None?
    }

    /**
     * The setup of `run` continues once its dynamic imports have settled
     * (`imported` is false when importing the library failed). A run that was
     * torn down, a null container or an already held player make it return
     * without attaching an element or calling the constructor. Otherwise it
     * appends the host element built from the run's options and calls the
     * constructor once, holding the player it returns.
     */
    method ResumeSetup(run: nat, imported: bool, constructorThrows: bool) returns (outcome: SetupOutcome)
      requires Valid() && run < |runs|
      modifies this`container, this`playerRef, this`trace, this`constructed
      ensures Valid()
      ensures !imported || !old(SetupProceeds(run)) || runs[run].options.Missing? ==>
        && container == old(container) && playerRef == old(playerRef)
        && trace == old(trace) && constructed == old(constructed)
        && outcome == if imported && old(SetupProceeds(run)) then Failed
                      else if imported then Skipped
                      else Failed
      ensures imported && old(SetupProceeds(run)) && runs[run].options.Record? ==>
        var o := runs[run].options;
        var el := BuildVideoElement(o).value;
        var p := Player(old(constructed));
        && container == Some(old(container).value + [el])
        && (constructorThrows ==>
              && playerRef == None && trace == old(trace) + [CreateFailed(el, o)]
              && constructed == old(constructed) && outcome == Failed)
        && (!constructorThrows ==>
              && playerRef == Some(p) && trace == old(trace) + [Created(p, el, o)]
              && constructed == old(constructed) + 1 && outcome == Acquired(p))
    {
      if !imported {
        return Failed;
      }
      if !runs[run].mounted || container.None? {
        return Skipped;
      }
      if playerRef.Some? {
        return Skipped;
      }
      var o := runs[run].options;
      var built := BuildVideoElement(o);
      if built.None? {
        return Failed;
      }
      var el := built.value;
      container := Some(container.value + [el]);
      if constructorThrows {
        Extend(trace, CreateFailed(el, o));
        trace := trace + [CreateFailed(el, o)];
        return Failed;
      }
      var p := Player(constructed);
      Extend(trace, Created(p, el, o));
      trace := trace + [Created(p, el, o)];
      playerRef := Some(p);
      constructed := constructed + 1;
      outcome := Acquired(p);
    }

    /**
     * The cleanup of `run`: its `mounted` flag becomes false; a held player is
     * disposed once and the reference cleared; the container, if attached, is
     * emptied. Nothing is disposed when no player is held.
     */
    method Teardown(run: nat)
      requires Valid() && run < |runs|
      modifies this`runs, this`playerRef, this`trace, this`container
      ensures Valid()
      ensures runs == old(runs)[run := old(runs[run]).(mounted := false)]
      ensures playerRef == None && Live(trace) == {}
      ensures trace == old(trace) + if old(playerRef).Some? then [Dispose(old(playerRef).value)] else []
      ensures container == if old(container).Some? then Some([]) else None
    {
      runs := runs[run := runs[run].(mounted := false)];
      if playerRef.Some? {
        var p := playerRef.value;
        Extend(trace, Dispose(p));
        assert Live(trace + [Dispose(p)]) == {p} - {p};
        trace := trace + [Dispose(p)];
        playerRef := None;
      }
      if container.Some? {
        container := Some([]);
      }
    }

    /**
     * A render with `options` and `debug`. The reconcile effect runs only when
     * `[optionsKey, debug]` differs from its last run; it then makes the calls
     * of `Ops` on the held player, stopping after the call at `throwAt` if that
     * one throws, and does nothing when no player is held.
     */
    method Reconcile(options: Options, debug: bool, caps: PlayerCaps, throwAt: Option<nat>) returns (ran: bool)
      requires Valid()
      modifies this`lastDeps, this`trace
      ensures Valid()
      ensures lastDeps == Some(Deps(OptionsKey(options), debug))
      ensures ran <==> old(lastDeps) != Some(Deps(OptionsKey(options), debug))
      ensures trace == old(trace) +
        if ran && playerRef.Some? then Invocations(playerRef.value, Attempted(Ops(OptionsKey(options), caps), throwAt))
        else []
    {
      var deps := Deps(OptionsKey(options), debug);
      ran := lastDeps != Some(deps);
      lastDeps := Some(deps);
      if ran && playerRef.Some? {
        var calls := Invocations(playerRef.value, Attempted(Ops(deps.key, caps), throwAt));
        InvocationsKeepProtocol(trace, playerRef.value, Attempted(Ops(deps.key, caps), throwAt));
        trace := trace + calls;
      }
    }
  }

  /** Unmounting while the imports are pending: no element attached, nothing created, nothing disposed. */
  method UnmountBeforeSetupResumes(options: Options) returns (calls: seq<Call>, children: Option<seq<VideoElement>>)
    ensures calls == [] && children == Some([])
  {
    var c := new VideoJs();
    c.AttachContainer();
    var run := c.Mount(options);
    c.Teardown(run);
    var outcome := c.ResumeSetup(run, true, false);
    calls, children := c.trace, c.container;
  }

  /**
   * A mount, cleanup and second mount before either setup resumes (as React's
   * strict mode does): the first run's setup finds its own `mounted` flag
   * false, and the second creates the one player, with its options.
   */
  method RemountBeforeSetupResumes(options: Options) returns (calls: seq<Call>, children: Option<seq<VideoElement>>)
    requires options.Record?
    ensures |calls| == 1 && calls[0].Created? && calls[0].options == options
    ensures children == Some([calls[0].element])
  {
    var c := new VideoJs();
    c.AttachContainer();
    var first := c.Mount(options);
    c.Teardown(first);
    var second := c.Mount(options);
    var skipped := c.ResumeSetup(first, true, false);
    assert c.trace == [] && c.container == Some([]);
    var acquired := c.ResumeSetup(second, true, false);
    var el := BuildVideoElement(options).value;
    assert [] + [el] == [el];
    assert c.container == Some([el]) && c.trace[0].element == el;
    calls, children := c.trace, c.container;
  }

  /**
   * A render whose reconcile effect runs before setup resumes, then setup,
   * then a render with the same options: the first reconcile finds no player
   * and the second does not run, because the player is not one of its
   * dependencies, so the only call is the constructor with the options.
   */
  method ReconcileBeforeSetupResumes(options: Options, caps: PlayerCaps) returns (calls: seq<Call>)
    requires options.Record?
    ensures |calls| == 1 && calls[0].Created? && calls[0].options == options
  {
    var c := new VideoJs();
    c.AttachContainer();
    var run := c.Mount(options);
    var ranFirst := c.Reconcile(options, false, caps, None);
    assert c.trace == [];
    var acquired := c.ResumeSetup(run, true, false);
    assert |c.trace| == 1 && c.trace[0].Created? && c.trace[0].options == options;
    var ranAgain := c.Reconcile(options, false, caps, None);
    calls := c.trace;
  }

  /**
   * A render with new options while the imports are pending. The mount effect
   * captured the first options; the reconcile effect runs for the new key,
   * finds no player, and records the new key as its last dependencies. Setup
   * then creates the player with the first options, and a later render with
   * the new options does not re-run the reconcile effect: the new options are
   * never applied to the player.
   */
  method OptionsChangedBeforeSetupResumes(first: Options, next: Options, caps: PlayerCaps)
    returns (calls: seq<Call>, ranAgain: bool)
    requires first.Record? && OptionsKey(first) != OptionsKey(next)
    ensures |calls| == 1 && calls[0].Created? && calls[0].options == first
    ensures !ranAgain
  {
    var c := new VideoJs();
    c.AttachContainer();
    var run := c.Mount(first);
    var ranFirst := c.Reconcile(first, false, caps, None);
    var ranNext := c.Reconcile(next, false, caps, None);
    assert c.trace == [];
    var acquired := c.ResumeSetup(run, true, false);
    assert |c.trace| == 1 && c.trace[0].Created? && c.trace[0].options == first;
    ranAgain := c.Reconcile(next, false, caps, None);
    calls := c.trace;
  }
}
