/**
 * The per-frame write-queue drain of the ExtDataCore plugin. Each frame the host calls
 * OnFrame while the hook is subscribed (`armed`); a call persists at most one queued
 * job, and once the queue is empty it clears both batch flags and unsubscribes itself.
 */
module Core {
  import opened Storage

  /** Everything OnFrame reads or changes, apart from the storage backend. */
  datatype DrainState = DrainState(
    savingQueue: seq<Write>,
    savingAllPlayersData: bool,
    savingAllPluginsData: bool,
    stopped: bool,
    armed: bool)

  /** One call of OnFrame: the state after it and the writes it made. */
  function OnFrameStep(s: DrainState): (r: (DrainState, seq<Write>))
    ensures |r.1| <= 1 && r.1 + r.0.savingQueue == s.savingQueue
    ensures r.0.stopped == s.stopped
    ensures r.1 == [] ==> !s.stopped ==> !r.0.armed && !r.0.savingAllPlayersData && !r.0.savingAllPluginsData
  {
    if s.stopped then (s, [])
    else if s.savingQueue != [] then (s.(savingQueue := s.savingQueue[1..]), [s.savingQueue[0]])
    else (s.(savingAllPlayersData := false, savingAllPluginsData := false, armed := false), [])
  }

  /** One frame of the host: the hook runs only while it is subscribed. */
  function Tick(s: DrainState): (DrainState, seq<Write>) {
    if s.armed then OnFrameStep(s) else (s, [])
  }

  /** `n` frames in a row: the final state and every write made, in order. */
  function RunTicks(s: DrainState, n: nat): (DrainState, seq<Write>)
    decreases n
  {
    if n == 0 then (s, [])
    else
      var (s1, w1) := Tick(s);
      var (s2, w2) := RunTicks(s1, n - 1);
      (s2, w1 + w2)
  }

  /** A frame never writes more than one job. */
  lemma {:induction false} AtMostOneWritePerTick(s: DrainState, n: nat)
    ensures |RunTicks(s, n).1| <= n
    decreases n
  {
    if n > 0 {
      AtMostOneWritePerTick(Tick(s).0, n - 1);
    }
  }

  /**
   * While armed and not stopped, k frames (k at most the queue length) persist exactly
   * the first k jobs in enqueue order and leave the rest queued; flags and subscription
   * are untouched.
   */
  lemma {:induction false} DrainsInOrder(s: DrainState, k: nat)
    requires s.armed && !s.stopped && k <= |s.savingQueue|
    ensures RunTicks(s, k) == (s.(savingQueue := s.savingQueue[k..]), s.savingQueue[..k])
    decreases k
  {
    if k > 0 {
      var s1 := s.(savingQueue := s.savingQueue[1..]);
      assert Tick(s) == (s1, [s.savingQueue[0]]);
      DrainsInOrder(s1, k - 1);
      assert s1.savingQueue[k - 1..] == s.savingQueue[k..];
      assert [s.savingQueue[0]] + s1.savingQueue[..k - 1] == s.savingQueue[..k];
    }
  }

  /** Frames compose: running a + b frames is running a frames, then b more. */
  lemma {:induction false} RunTicksSplit(s: DrainState, a: nat, b: nat)
    ensures RunTicks(s, a + b) ==
      (RunTicks(RunTicks(s, a).0, b).0, RunTicks(s, a).1 + RunTicks(RunTicks(s, a).0, b).1)
    decreases a
  {
    if a == 0 {
      assert RunTicks(s, 0).1 + RunTicks(s, b).1 == RunTicks(s, b).1;
    } else {
      var (s1, w1) := Tick(s);
      RunTicksSplit(s1, a - 1, b);
      var (sa, wa) := RunTicks(s1, a - 1);
      var (sb, wb) := RunTicks(sa, b);
      assert RunTicks(s, a + b) == (sb, w1 + (wa + wb));
      assert RunTicks(s, a) == (sa, w1 + wa);
      assert w1 + (wa + wb) == (w1 + wa) + wb;
    }
  }

  /**
   * A queue of N jobs is drained after N frames, and the frame after that clears both
   * batch flags and unsubscribes, writing nothing more.
   */
  lemma DrainCompletes(s: DrainState)
    requires s.armed && !s.stopped
    ensures RunTicks(s, |s.savingQueue| + 1) ==
      (s.(savingQueue := [], savingAllPlayersData := false, savingAllPluginsData := false, armed := false),
       s.savingQueue)
  {
    var n := |s.savingQueue|;
    var none: seq<Write> := [];
    RunTicksSplit(s, n, 1);
    DrainsInOrder(s, n);
    assert s.savingQueue[..n] == s.savingQueue && s.savingQueue[n..] == none;
    var drained := s.(savingQueue := none);
    assert RunTicks(drained, 1) ==
      (drained.(savingAllPlayersData := false, savingAllPluginsData := false, armed := false), none + none);
    assert s.savingQueue + (none + none) == s.savingQueue;
  }

  /** Once unsubscribed, frames change nothing. */
  lemma {:induction false} IdleWhileDisarmed(s: DrainState, n: nat)
    requires !s.armed
    ensures RunTicks(s, n) == (s, [])
    decreases n
  {
    if n > 0 {
      IdleWhileDisarmed(s, n - 1);
      var none: seq<Write> := [];
      assert Tick(s) == (s, none);
      assert RunTicks(s, n) == (s, none + none);
      assert none + none == none;
    }
  }

  /** While stopped, frames change nothing: queue, flags and subscription stay as they are. */
  lemma {:induction false} FrozenWhileStopped(s: DrainState, n: nat)
    requires s.stopped
    ensures RunTicks(s, n) == (s, [])
    decreases n
  {
    if n > 0 {
      FrozenWhileStopped(s, n - 1);
      var none: seq<Write> := [];
      assert Tick(s) == (s, none);
      assert RunTicks(s, n) == (s, none + none);
      assert none + none == none;
    }
  }

  class ExtDataCore {
    var savingQueue: seq<Write>
    var savingAllPlayersData: bool
    var savingAllPluginsData: bool
    var stopped: bool
    var armed: bool
    const fs: DataFileSystem

    function State(): DrainState
      reads this
    {
      DrainState(savingQueue, savingAllPlayersData, savingAllPluginsData, stopped, armed)
    }

    /**
     * A freshly registered plugin. The queue, the batch flags and `stopped` belong to the
     * data manager and keep the values they already had; with `autoUpdate` (the extension's
     * AutoUpdateExtension setting) the update check sets `stopped`. The host subscribes
     * every hook the plugin declares, so OnFrame starts out subscribed until Loaded runs.
     */
    constructor (fs: DataFileSystem, autoUpdate: bool, savingQueue: seq<Write>,
                 savingAllPlayersData: bool, savingAllPluginsData: bool, stopped: bool)
      ensures this.fs == fs
      ensures State() == DrainState(savingQueue, savingAllPlayersData, savingAllPluginsData,
                                    stopped || autoUpdate, true)
    {
      this.fs := fs;
      this.savingQueue := savingQueue;
      this.savingAllPlayersData, this.savingAllPluginsData := savingAllPlayersData, savingAllPluginsData;
      this.stopped := stopped;
      armed := true;
      if autoUpdate {
        this.stopped := true;
      }
    }

    method Loaded()
      modifies this`armed
      ensures State() == old(State()).(armed := false)
    {
      armed := false;
    }

    method Unload()
      modifies this`stopped
      ensures State() == old(State()).(stopped := true)
    {
      stopped := true;
    }

    /** Subscribes OnFrame again; doing so when already subscribed changes nothing. */
    method EnableSaving()
      modifies this`armed
      ensures State() == old(State()).(armed := true)
    {
      armed := true;
    }

    method OnFrame()
      modifies this, fs
      ensures State() == OnFrameStep(old(State())).0
      ensures fs.Logged(OnFrameStep(old(State())).1)
      ensures old(stopped) ==> State() == old(State())
      ensures !old(stopped) && old(savingQueue) != [] ==>
        savingQueue == old(savingQueue)[1..] && fs.Logged([old(savingQueue)[0]]) &&
        savingAllPlayersData == old(savingAllPlayersData) &&
        savingAllPluginsData == old(savingAllPluginsData) && armed == old(armed)
      ensures !old(stopped) && old(savingQueue) == [] ==>
        !savingAllPlayersData && !savingAllPluginsData && !armed && fs.Logged([])
    {
      if stopped {
        return;
      }
      if |savingQueue| != 0 {
        var save := savingQueue[0];
        savingQueue := savingQueue[1..];
        fs.WriteObject(save.path, save.data);
        return;
      }
      if savingAllPlayersData {
        savingAllPlayersData := false;
      }
      if savingAllPluginsData {
        savingAllPluginsData := false;
      }
      armed := false;
    }
  }
}
