/** The idle supervisor of views.py: the `last_heartbeat` timestamp, the
    `/heartbeat` handler that refreshes it, and the background
    `shutdown_checker` loop that, every ten seconds, compares the idle gap
    with IDLE_TIMEOUT and calls `shutdown_server` once before leaving the
    loop. Time is an integer number of seconds; the two concurrent tasks
    are replayed as one sequential trace. */
module IdleSupervisor {

  const IdleTimeout: int := 300
  const CheckInterval: int := 10

  /** The checker's guard: strictly more than IdleTimeout since the last
      heartbeat. */
  predicate IdleExceeded(now: int, lastHeartbeat: int) {
    now - lastHeartbeat > IdleTimeout
  }

  class Supervisor {
    /** The global `last_heartbeat`. */
    var lastHeartbeat: int
    /** The checker has called shutdown_server and left its loop. */
    var shutDown: bool
    /** How many SIGTERMs shutdown_server has raised. */
    var signalsRaised: nat

    ghost predicate Valid()
      reads this
    {
      signalsRaised == if shutDown then 1 else 0
    }

    /** Module load: `last_heartbeat = time.time()`. */
    constructor (startTime: int)
      ensures Valid()
      ensures lastHeartbeat == startTime && !shutDown
    {
      lastHeartbeat := startTime;
      shutDown := false;
      signalsRaised := 0;
    }

    /** GET /heartbeat at time `now`. */
    method Heartbeat(now: int) returns (status: string)
      modifies this`lastHeartbeat
      ensures lastHeartbeat == now
      ensures status == "alive"
    {
      lastHeartbeat := now;
      status := "alive";
    }

    /** shutdown_server: raise SIGTERM. */
    method ShutdownServer()
      modifies this`signalsRaised
      ensures signalsRaised == old(signalsRaised) + 1
    {
      signalsRaised := signalsRaised + 1;
    }

    /** The body of one loop iteration after its sleep: if the idle gap
        exceeds the timeout, shut down and leave the loop. Once the loop
        has been left, nothing more is checked. */
    method Check(now: int) returns (fired: bool)
      requires Valid()
      modifies this`shutDown, this`signalsRaised
      ensures Valid()
      ensures fired <==> !old(shutDown) && IdleExceeded(now, lastHeartbeat)
      ensures shutDown <==> old(shutDown) || fired
    {
      fired := false;
      if !shutDown && now - lastHeartbeat > IdleTimeout {
        ShutdownServer();
        shutDown := true;
        fired := true;
      }
    }
  }

  /** A heartbeat at `t` followed by a check at `now`: the check fires
      exactly when now - t > IdleTimeout, so no check up to t + 300 does. */
  method HeartbeatThenCheck(sup: Supervisor, t: int, now: int) returns (fired: bool)
    requires sup.Valid() && !sup.shutDown
    modifies sup
    ensures sup.Valid() && sup.lastHeartbeat == t
    ensures fired <==> now - t > IdleTimeout
    ensures now <= t + IdleTimeout ==> !fired && !sup.shutDown
  {
    var status := sup.Heartbeat(t);
    fired := sup.Check(now);
  }

  /** How many heartbeats at the front of the trace have arrived by time
      `t`: the leading run of timestamps no later than `t`. */
  function ArrivedBy(beats: seq<int>, t: int): (n: nat)
    ensures n <= |beats|
    ensures forall j :: 0 <= j < n ==> beats[j] <= t
    ensures n < |beats| ==> beats[n] > t
  {
    if beats == [] || beats[0] > t then 0 else 1 + ArrivedBy(beats[1..], t)
  }

  /** `last_heartbeat` as the checker reads it at time `t`. */
  function LastBeat(init: int, beats: seq<int>, t: int): (last: int)
    ensures last == init || (last in beats && last <= t)
  {
    var n := ArrivedBy(beats, t);
    if n == 0 then init else beats[n - 1]
  }

  /** The guard is strict, and a gap that exceeds the timeout still
      exceeds it at every later check. */
  lemma IdleGuardStrict(last: int, now: int, later: int)
    ensures !IdleExceeded(last + IdleTimeout, last)
    ensures IdleExceeded(last + IdleTimeout + 1, last)
    ensures IdleExceeded(now, last) && now <= later ==> IdleExceeded(later, last)
  {
  }

  /** Whether the k-th check (k >= 1, at start + 10k) fires. */
  predicate IdleAt(start: int, init: int, beats: seq<int>, k: nat) {
    var now := start + CheckInterval * k;
    IdleExceeded(now, LastBeat(init, beats, now))
  }

  /** Hands the checker every heartbeat that has arrived by `now`, in
      order, starting after the first `i` already delivered. */
  method DeliverHeartbeats(sup: Supervisor, ghost init: int, beats: seq<int>, i: nat, now: int)
    returns (i': nat)
    requires i <= |beats|
    requires forall j :: 0 <= j < i ==> beats[j] <= now
    requires sup.lastHeartbeat == if i == 0 then init else beats[i - 1]
    modifies sup`lastHeartbeat
    ensures i <= i' == ArrivedBy(beats, now)
    ensures sup.lastHeartbeat == LastBeat(init, beats, now)
  {
    i' := i;
    while i' < |beats| && beats[i'] <= now
      invariant i <= i' <= |beats|
      invariant forall j :: 0 <= j < i' ==> beats[j] <= now
      invariant sup.lastHeartbeat == if i' == 0 then init else beats[i' - 1]
    {
      var status := sup.Heartbeat(beats[i']);
      i' := i' + 1;
    }
    assert ArrivedBy(beats, now) == i';
  }

  /** shutdown_checker replayed against a trace of heartbeat timestamps in
      arrival order, for at most `fuel` iterations: sleep 10, deliver the
      heartbeats that have arrived, check. `checks` are the times of the
      checks made. The loop stops at the first check that fires, which
      calls shutdown_server exactly once; a check that does not fire
      changes nothing and the loop goes on. */
  method ShutdownChecker(sup: Supervisor, start: int, beats: seq<int>, fuel: nat)
    returns (checks: seq<int>, fired: bool)
    requires sup.Valid() && !sup.shutDown
    modifies sup
    ensures sup.Valid()
    ensures fired == sup.shutDown
    ensures sup.signalsRaised == if fired then 1 else 0
    ensures |checks| <= fuel
    ensures forall j :: 0 <= j < |checks| ==> checks[j] == start + CheckInterval * (j + 1)
    ensures forall k :: 1 <= k < |checks| ==> !IdleAt(start, old(sup.lastHeartbeat), beats, k)
    ensures fired ==> |checks| >= 1 && IdleAt(start, old(sup.lastHeartbeat), beats, |checks|)
    ensures !fired ==> |checks| == fuel
    ensures !fired ==> forall k :: 1 <= k <= fuel ==> !IdleAt(start, old(sup.lastHeartbeat), beats, k)
  {
    ghost var init := sup.lastHeartbeat;
    checks := [];
    fired := false;
    var i := 0;
    while !fired && |checks| < fuel
      invariant sup.Valid() && fired == sup.shutDown
      invariant |checks| <= fuel
      invariant forall j :: 0 <= j < |checks| ==> checks[j] == start + CheckInterval * (j + 1)
      invariant forall k :: 1 <= k < |checks| ==> !IdleAt(start, init, beats, k)
      invariant |checks| == 0 ==> !fired
      invariant |checks| >= 1 ==> (fired <==> IdleAt(start, init, beats, |checks|))
      invariant 0 <= i <= |beats|
      invariant forall j :: 0 <= j < i ==> beats[j] <= start + CheckInterval * |checks|
      invariant sup.lastHeartbeat == if i == 0 then init else beats[i - 1]
    {
      var now := start + CheckInterval * (|checks| + 1);
      i := DeliverHeartbeats(sup, init, beats, i, now);
      fired := sup.Check(now);
      checks := checks + [now];
    }
  }

  /** With timestamps in time order, the checker compares against the
      latest heartbeat that has arrived. */
  lemma LastBeatIsLatest(init: int, beats: seq<int>, t: int)
    requires forall a, b :: 0 <= a <= b < |beats| ==> beats[a] <= beats[b]
    ensures forall j :: 0 <= j < |beats| && beats[j] <= t ==> beats[j] <= LastBeat(init, beats, t) <= t
  {
    var n := ArrivedBy(beats, t);
    forall j | 0 <= j < |beats| && beats[j] <= t
      ensures beats[j] <= LastBeat(init, beats, t) <= t
    {
      assert j < n;
    }
  }

  /** A heartbeat at t0+50 after the clock started at t0: the check at
      t0+340 (idle 290) and the one at t0+350 (idle exactly 300) do not
      fire; the one at t0+360 (idle 310) does. */
  lemma HeartbeatExample(t0: int)
    ensures !IdleAt(t0, t0, [t0 + 50], 34)
    ensures !IdleAt(t0, t0, [t0 + 50], 35)
    ensures IdleAt(t0, t0, [t0 + 50], 36)
  {
    assert ArrivedBy([t0 + 50], t0 + 340) == 1;
    assert ArrivedBy([t0 + 50], t0 + 350) == 1;
    assert ArrivedBy([t0 + 50], t0 + 360) == 1;
  }

  /** Once no heartbeat is later than `last`, every check after
      last + IdleTimeout fires. */
  lemma IdleAfterLastHeartbeat(start: int, init: int, beats: seq<int>, last: int, k: nat)
    requires init <= last
    requires forall j :: 0 <= j < |beats| ==> beats[j] <= last
    requires start + CheckInterval * k > last + IdleTimeout
    ensures IdleAt(start, init, beats, k)
  {
    var now := start + CheckInterval * k;
    var n := ArrivedBy(beats, now);
    assert LastBeat(init, beats, now) <= last by {
      if n > 0 {
        assert beats[n - 1] <= last;
      }
    }
  }
}
