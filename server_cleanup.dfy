// The periodic sweep of the current bot (src/main/.../ServerCleanup.java):
// every server idle for longer than the configured number of days gets its
// stop message hidden and is killed, and the core channel hears how many.
// The sweep walks the live server list while killing takes servers off
// it; the model gives that walk as written, over the staleness of each
// listed server, and the sweep the code evidently intends, over a snapshot.
module ServerCleanup {
  import opened Wrappers
  import opened JavaText
  import Functions
  import ZandronumServer
  import Registry

  type Server = ZandronumServer.Server

  /** No activity for longer than `interval` whole days before `now`. */
  predicate IsStale(s: Server, now: int, interval: int)
    reads s
  {
    now - s.runtime.lastActivity > ZandronumServer.DayMilliseconds * interval
  }

  function StaleFlags(l: seq<Server>, now: int, interval: int): (r: seq<bool>)
    reads l
    ensures |r| == |l| && forall i :: 0 <= i < |l| ==> r[i] == IsStale(l[i], now, interval)
    ensures Registry.Consistent(l, r)
  {
    seq(|l|, i reads l requires 0 <= i < |l| => IsStale(l[i], now, interval))
  }

  /** The stale servers, in list order. */
  function StaleServers(l: seq<Server>, now: int, interval: int): (r: seq<Server>)
    reads l
    ensures forall i :: 0 <= i < |r| ==> r[i] in l && IsStale(r[i], now, interval)
    ensures forall i :: 0 <= i < |l| && IsStale(l[i], now, interval) ==> l[i] in r
  {
    Registry.Select(l, StaleFlags(l, now, interval))
  }

  /** The servers with recent activity, in list order. */
  function FreshServers(l: seq<Server>, now: int, interval: int): (r: seq<Server>)
    reads l
    ensures forall i :: 0 <= i < |r| ==> r[i] in l && !IsStale(r[i], now, interval)
    ensures forall i :: 0 <= i < |l| && !IsStale(l[i], now, interval) ==> l[i] in r
  {
    Registry.Reject(l, StaleFlags(l, now, interval))
  }

  /** The core channel message: sent only when something was killed. */
  function Report(killed: nat, interval: int): (r: Option<string>)
    ensures r.Some? <==> killed > 0
  {
    if killed > 0 then
      Some(Functions.Pluralize("Killed " + IntToString(killed) + " inactive server{s} (inactive for "
                               + IntToString(interval) + " days.", killed))
    else None
  }

  /** A server the sweep went through: stop message hidden, nothing else changed. */
  twostate predicate Hidden(s: Server)
    reads s
  {
    s.runtime == old(s.runtime).(hideStopMessage := true) && s.options == old(s.options) && s.userId == old(s.userId)
  }

  // ------------------------------------------------------------ as written

  /**
   * How a walk over the live list ends: past the last element, with the
   * staleness of the servers still listed, or with a
   * ConcurrentModificationException.
   */
  datatype LiveWalk = Finished(killed: nat, remaining: seq<bool>) | Concurrent(killed: nat)

  /**
   * The for-each over bot.servers, a LinkedList whose iterator has a
   * cursor `next` and notices a change of the list in next(): hasNext()
   * is `next < size`, and a server killed (taken off the list) makes the
   * following next() throw. `list` holds whether each listed server is
   * stale; every process is taken to be initialized, so a kill removes.
   */
  function LiveSweep(list: seq<bool>, next: nat, killed: nat, modified: bool): (r: LiveWalk)
    decreases |list| - next
  {
    if next >= |list| then Finished(killed, list)
    else if modified then Concurrent(killed)
    else if list[next] then LiveSweep(list[..next] + list[next + 1..], next + 1, killed + 1, true)
    else LiveSweep(list, next + 1, killed, false)
  }

  /** The walk as written kills at most one server, however many are stale. */
  lemma {:induction false} LiveSweepKillsAtMostOne(list: seq<bool>, next: nat, killed: nat, modified: bool)
    ensures modified ==> LiveSweep(list, next, killed, modified).killed == killed
    ensures killed <= LiveSweep(list, next, killed, modified).killed <= killed + 1
    decreases |list| - next
  {
    if next < |list| && !modified {
      if list[next] {
        LiveSweepKillsAtMostOne(list[..next] + list[next + 1..], next + 1, killed + 1, true);
      } else {
        LiveSweepKillsAtMostOne(list, next + 1, killed, false);
      }
    }
  }

  /** Two stale servers: the first is killed and the second is skipped. */
  lemma TwoStaleKeepsOne()
    ensures LiveSweep([true, true], 0, 0, false) == Finished(1, [true])
  {
    assert [true, true][..0] + [true, true][1..] == [true];
  }

  /** Three stale servers: the first is killed, then the walk throws and nothing is reported. */
  lemma ThreeStaleThrows()
    ensures LiveSweep([true, true, true], 0, 0, false) == Concurrent(1)
  {
    assert [true, true, true][..0] + [true, true, true][1..] == [true, true];
  }

  // ------------------------------------------------------------ corrected

  /** The TimerTask: the bot's server list and cfg_data.cleanup_interval. */
  class Cleanup {
    const registry: Registry.Registry
    const interval: int

    constructor (registry: Registry.Registry, interval: int)
      ensures this.registry == registry && this.interval == interval
    {
      this.registry := registry;
      this.interval := interval;
    }

    /**
     * run(), over a snapshot of the list: every stale server is hidden and
     * taken off the list, the fresh ones stay in order, and the report
     * counts the stale ones.
     */
    method Run(now: int) returns (killed: nat, report: Option<string>)
      modifies registry, registry.servers
      ensures killed == old(|StaleServers(registry.servers, now, interval)|)
      ensures registry.servers == old(FreshServers(registry.servers, now, interval))
      ensures forall s :: s in old(StaleServers(registry.servers, now, interval)) ==> Hidden(s)
      ensures forall s :: s in old(registry.servers) && !old(IsStale(s, now, interval)) ==> unchanged(s)
      ensures report == Report(killed, interval)
    {
      var stale := StaleServers(registry.servers, now, interval);
      Registry.RemoveEachSelect(registry.servers, StaleFlags(registry.servers, now, interval));
      HideEach(stale);
      killed := |stale|;
      report := Report(killed, interval);
    }

    /** Each stale server in turn: hide its stop message, then kill it off the list. */
    method HideEach(targets: seq<Server>)
      modifies registry, targets
      ensures registry.servers == Registry.RemoveEach(old(registry.servers), targets)
      ensures forall s :: s in targets ==> Hidden(s)
    {
      ghost var before := registry.servers;
      ghost var done: set<Server> := {};
      var i := 0;
      while i < |targets|
        invariant 0 <= i <= |targets|
        invariant done == set j | 0 <= j < i :: targets[j]
        invariant registry.servers == Registry.RemoveEach(before, targets[..i])
        invariant forall s :: s in done ==> Hidden(s)
        invariant forall s :: s in targets && s !in done ==> unchanged(s)
      {
        HideStep(targets[i]);
        Registry.RemoveEachStep(before, targets, i);
        done := done + {targets[i]};
        i := i + 1;
      }
      assert targets[..i] == targets;
    }

    method HideStep(s: Server)
      modifies registry, s
      ensures registry.servers == Registry.RemoveFirst(old(registry.servers), s)
      ensures Hidden(s)
    {
      s.runtime := s.runtime.(hideStopMessage := true);
      registry.Remove(s);
    }
  }
}
