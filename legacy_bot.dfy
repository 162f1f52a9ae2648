// The IRC bot of the earlier generation (src/org Bot.java): its list of
// running servers and the per-version lists, the lookups on them, and the
// commands that host, switch hosting off and on, sweep idle servers,
// toggle a server's flags and shut the bot down.
//
// The MySQL answers (the slot limit), Functions.getUserName and the clock
// are parameters; IRC messages are reduced to the outcome that decides
// which message is sent.
module LegacyBot {
  import opened Wrappers
  import opened JavaText
  import LA = LegacyAccountType
  import ZandronumServer
  import Registry
  import LegacyServer

  type Server = LegacyServer.Server

  // --------------------------------------------------------------- lookups

  /** getServer, specified: the first server in list order on `port`. */
  function FirstOnPort(l: seq<Server>, port: int): (r: Option<Server>)
    reads l
    ensures r.None? <==> forall i :: 0 <= i < |l| ==> l[i].port != port
    ensures r.Some? ==> exists i :: 0 <= i < |l| && l[i] == r.value && r.value.port == port
                                    && forall j :: 0 <= j < i ==> l[j].port != port
  {
    if |l| == 0 then None
    else if l[0].port == port then Some(l[0])
    else
      var r := FirstOnPort(l[1..], port);
      assert forall i :: 0 <= i < |l[1..]| ==> l[1..][i] == l[i + 1];
      r
  }

  /** Whether `s` was hosted by the user called `userName`, ignoring case. */
  predicate HostedBy(s: Server, userName: string, getUserName: string -> string)
    reads s
  {
    EqualsIgnoreCase(getUserName(s.ircHostname), userName)
  }

  /** getUserServers, specified: the servers hosted by one user, in list order. */
  function UserServers(l: seq<Server>, userName: string, getUserName: string -> string): (r: seq<Server>)
    reads l
    ensures |r| <= |l|
    ensures forall i :: 0 <= i < |r| ==> r[i] in l && HostedBy(r[i], userName, getUserName)
    ensures forall i :: 0 <= i < |l| && HostedBy(l[i], userName, getUserName) ==> l[i] in r
  {
    if |l| == 0 then []
    else if HostedBy(l[0], userName, getUserName) then [l[0]] + UserServers(l[1..], userName, getUserName)
    else UserServers(l[1..], userName, getUserName)
  }

  // ---------------------------------------------------------------- hosting

  datatype HostDecision =
    | Disabled
    | NotRegistered
    | LimitReached(slots: int)
    /** Server.handleHostCommand is called, with auto-restart read off the message. */
    | Launch(autoRestart: bool)

  /** The two spellings of the auto-restart option processHost looks for. */
  predicate AsksAutoRestart(message: string)
  {
    Contains(message, "autorestart=true") || Contains(message, "autorestart=on")
  }

  // ------------------------------------------------------------ .killinactive

  datatype SweepOutcome =
    | SweepNotPermitted
    | SweepUsage
    | NotNumeric
    | NotPositive
    | NothingRunning
    | Swept(ports: seq<int>)

  /** Idle for longer than `days` whole days and not protected. */
  predicate IsIdle(s: Server, now: int, days: int)
    reads s
  {
    now - s.lastActivity > ZandronumServer.DayMilliseconds * days && !s.protectedServer
  }

  /** Which servers of the snapshot are idle. */
  function IdleFlags(l: seq<Server>, now: int, days: int): (r: seq<bool>)
    reads l
    ensures |r| == |l| && forall i :: 0 <= i < |l| ==> r[i] == IsIdle(l[i], now, days)
    ensures Registry.Consistent(l, r)
  {
    seq(|l|, i reads l requires 0 <= i < |l| => IsIdle(l[i], now, days))
  }

  /** The snapshot's idle servers, in order: the ones .killinactive stops. */
  function IdleServers(l: seq<Server>, now: int, days: int): (r: seq<Server>)
    reads l
    ensures forall i :: 0 <= i < |r| ==> r[i] in l && IsIdle(r[i], now, days)
    ensures forall i :: 0 <= i < |l| && IsIdle(l[i], now, days) ==> l[i] in r
  {
    Registry.Select(l, IdleFlags(l, now, days))
  }

  /** The snapshot's other servers, in order: the ones .killinactive leaves. */
  function BusyServers(l: seq<Server>, now: int, days: int): (r: seq<Server>)
    reads l
    ensures forall i :: 0 <= i < |r| ==> r[i] in l && !IsIdle(r[i], now, days)
    ensures forall i :: 0 <= i < |l| && !IsIdle(l[i], now, days) ==> l[i] in r
  {
    Registry.Reject(l, IdleFlags(l, now, days))
  }

  /** The ports of a list of servers, in order. */
  function PortsOf(l: seq<Server>): (r: seq<int>)
    reads l
    ensures |r| == |l| && forall j :: 0 <= j < |l| ==> r[j] == l[j].port
  {
    seq(|l|, j reads l requires 0 <= j < |l| => l[j].port)
  }

  /**
   * A server the sweep went through: stop message hidden, marked being
   * killed, auto-restart off, and nothing else changed.
   */
  twostate predicate Stopping(s: Server)
    reads s
  {
    s.hideStopMessage && s.beingKilled && !s.autoRestart
    && s.settings == old(s.settings) && s.port == old(s.port) && s.tempPort == old(s.tempPort)
    && s.rconPassword == old(s.rconPassword) && s.protectedServer == old(s.protectedServer)
    && s.lastActivity == old(s.lastActivity) && s.timeStarted == old(s.timeStarted)
  }

  // ------------------------------------------------- .autorestart and .protect

  datatype FlagOutcome =
    | FlagNotPermitted
    | FlagUsage
    /** A port that is not a number: nothing is said. */
    | FlagIgnored
    /** No server on the port: getServer's null is dereferenced and the command throws. */
    | NoServerThrows
    | Toggled(value: bool)

  /** The port a flag command names, when it names one. */
  predicate NamesPort(keywords: seq<string>)
  {
    |keywords| == 2 && IsInteger(keywords[1])
  }

  /** A server whose auto-restart flag was flipped, and nothing else. */
  twostate predicate AutoRestartFlipped(s: Server)
    reads s
  {
    s.autoRestart == !old(s.autoRestart) && s.protectedServer == old(s.protectedServer)
    && s.settings == old(s.settings) && s.port == old(s.port) && s.hideStopMessage == old(s.hideStopMessage)
    && s.beingKilled == old(s.beingKilled) && s.lastActivity == old(s.lastActivity)
  }

  /** A server whose protection was flipped, and nothing else. */
  twostate predicate ProtectionFlipped(s: Server)
    reads s
  {
    s.protectedServer == !old(s.protectedServer) && s.autoRestart == old(s.autoRestart)
    && s.settings == old(s.settings) && s.port == old(s.port) && s.hideStopMessage == old(s.hideStopMessage)
    && s.beingKilled == old(s.beingKilled) && s.lastActivity == old(s.lastActivity)
  }

  // ------------------------------------------------------------- .terminate

  /** The confirmation window, in whole seconds after terminateTimestamp. */
  const ConfirmSeconds: nat := 5

  datatype TerminateOutcome =
    | TerminateNotPermitted
    /** The warning; the next call inside the window shuts the bot down. */
    | Warned
    /** quitServer and System.exit. */
    | Exit
    /** A counter other than 0 or 1: nothing happens (no call sequence leads here). */
    | TerminateIgnored

  /** The state .terminate keeps: the confirmation count and when the window opened. */
  datatype Confirmation = Confirmation(times: int, timestamp: nat)

  /**
   * One .terminate by an operator at `now` (milliseconds): the count
   * starts over when more than five whole seconds separate `now` from the
   * window's opening; a count of 0 warns, a count of 1 exits.
   */
  function TerminateStep(c: Confirmation, now: nat): (r: (Confirmation, TerminateOutcome))
  {
    var c1 := if now / 1000 > c.timestamp / 1000 + ConfirmSeconds then Confirmation(0, now) else c;
    if now / 1000 <= c1.timestamp / 1000 + ConfirmSeconds then
      if c1.times == 0 then (c1.(times := 1), Warned)
      else if c1.times == 1 then (c1, Exit)
      else (c1, TerminateIgnored)
    else (c1, TerminateIgnored)
  }

  /** The count only ever holds 0 or 1. */
  predicate CountValid(c: Confirmation)
  {
    c.times == 0 || c.times == 1
  }

  /** A step keeps the count at 0 or 1, and never ends in the unreachable outcome. */
  lemma TerminateStepKeepsCount(c: Confirmation, now: nat)
    requires CountValid(c)
    ensures CountValid(TerminateStep(c, now).0)
    ensures TerminateStep(c, now).1 != TerminateIgnored
  {
  }

  /** The bot only exits when the count was already 1 and the window is still open. */
  lemma ExitNeedsConfirmation(c: Confirmation, now: nat)
    ensures TerminateStep(c, now).1 == Exit <==>
              c.times == 1 && now / 1000 <= c.timestamp / 1000 + ConfirmSeconds
  {
  }

  /** Calling after the window has closed always warns first, whatever the count. */
  lemma LateCallWarns(c: Confirmation, now: nat)
    requires now / 1000 > c.timestamp / 1000 + ConfirmSeconds
    ensures TerminateStep(c, now) == (Confirmation(1, now), Warned)
  {
  }

  /**
   * Two calls in a row from a fresh count: the first warns, the second
   * exits exactly when it falls inside the window the first one left.
   */
  lemma {:induction false} TwoCallsExit(c: Confirmation, now1: nat, now2: nat)
    requires c.times == 0 && now1 <= now2
    ensures TerminateStep(c, now1).1 == Warned
    ensures var c2 := TerminateStep(c, now1).0;
            TerminateStep(c2, now2).1 == Exit <==> now2 / 1000 <= c2.timestamp / 1000 + ConfirmSeconds
  {
    var c2 := TerminateStep(c, now1).0;
    ExitNeedsConfirmation(c2, now2);
  }

  class Bot {
    /** servers: the running servers in the order they started. */
    var servers: seq<Server>
    /** vSHashmap: the servers started per version name. */
    var vSHashmap: map<string, seq<Server>>
    var botEnabled: bool
    var terminateConfirmationTimes: int
    var terminateTimestamp: nat

    /** The bot starts enabled, with no servers and an empty list for each version of the catalog. */
    constructor (versionNames: seq<string>, now: nat)
      ensures servers == [] && botEnabled
      ensures vSHashmap == map n | n in versionNames :: []
      ensures terminateConfirmationTimes == 0 && terminateTimestamp == now
    {
      servers := [];
      vSHashmap := map n | n in versionNames :: [];
      botEnabled := true;
      terminateConfirmationTimes := 0;
      terminateTimestamp := now;
    }

    function Confirm(): Confirmation
      reads this
    {
      Confirmation(terminateConfirmationTimes, terminateTimestamp)
    }

    /**
     * removeServerFromLinkedList: walk the list and drop the first entry
     * that is this very object; the per-version lists are left alone.
     */
    method RemoveServerFromLinkedList(s: Server)
      modifies this
      ensures servers == Registry.RemoveFirst(old(servers), s)
      ensures vSHashmap == old(vSHashmap) && botEnabled == old(botEnabled) && Confirm() == old(Confirm())
    {
      var l := servers;
      var i := 0;
      while i < |l|
        invariant 0 <= i <= |l| && servers == l
        invariant s !in l[..i]
        invariant vSHashmap == old(vSHashmap) && botEnabled == old(botEnabled) && Confirm() == old(Confirm())
      {
        if l[i] == s {
          Registry.RemoveFirstFound(l, i, s);
          servers := l[..i] + l[i + 1..];
          return;
        }
        assert l[..i + 1] == l[..i] + [l[i]];
        i := i + 1;
      }
      assert l[..i] == l;
    }

    /** getServer: the first server on `port`, None for null. */
    method GetServer(port: int) returns (r: Option<Server>)
      ensures r == FirstOnPort(servers, port)
    {
      var i := 0;
      while i < |servers|
        invariant 0 <= i <= |servers|
        invariant FirstOnPort(servers, port) == FirstOnPort(servers[i..], port)
      {
        if servers[i].port == port {
          return Some(servers[i]);
        }
        assert servers[i..][1..] == servers[i + 1..];
        i := i + 1;
      }
      return None;
    }

    /** getUserServers: None (null) when no server runs, else the user's servers in order. */
    method GetUserServers(userName: string, getUserName: string -> string) returns (r: Option<seq<Server>>)
      ensures r.None? <==> |servers| == 0
      ensures r.Some? ==> r.value == UserServers(servers, userName, getUserName)
    {
      if |servers| == 0 {
        return None;
      }
      var found := [];
      var i := 0;
      while i < |servers|
        invariant 0 <= i <= |servers|
        invariant UserServers(servers, userName, getUserName) == found + UserServers(servers[i..], userName, getUserName)
      {
        assert servers[i..][1..] == servers[i + 1..];
        if EqualsIgnoreCase(getUserName(servers[i].ircHostname), userName) {
          found := found + [servers[i]];
        }
        i := i + 1;
      }
      return Some(found);
    }

    /**
     * processHost: hosting needs the bot enabled (or an admin), a
     * registered user and a free slot; with no server running at all the
     * user holds none.
     */
    method ProcessHost(userLevel: int, hostname: string, message: string, slots: int, getUserName: string -> string)
      returns (d: HostDecision)
      ensures d == Disabled <==> !botEnabled && !LA.IsAccountTypeOf(userLevel, LA.Admin)
      ensures d == NotRegistered <==>
                (botEnabled || LA.IsAccountTypeOf(userLevel, LA.Admin)) && !LA.IsAccountTypeOf(userLevel, LA.Registered)
      ensures d.Launch? <==>
                (botEnabled || LA.IsAccountTypeOf(userLevel, LA.Admin)) && LA.IsAccountTypeOf(userLevel, LA.Registered)
                && slots > |UserServers(servers, getUserName(hostname), getUserName)|
      ensures d.Launch? ==> d.autoRestart == AsksAutoRestart(message)
      ensures d.LimitReached? ==> d.slots == slots
    {
      if botEnabled || LA.IsAccountTypeOf(userLevel, LA.Admin) {
        if LA.IsAccountTypeOf(userLevel, LA.Registered) {
          var autoRestart := Contains(message, "autorestart=true") || Contains(message, "autorestart=on");
          var mine := GetUserServers(getUserName(hostname), getUserName);
          var userServers := if mine.None? then 0 else |mine.value|;
          if slots > userServers {
            d := Launch(autoRestart);
          } else {
            d := LimitReached(slots);
          }
        } else {
          d := NotRegistered;
        }
      } else {
        d := Disabled;
      }
    }

    /** processOff: only an admin turns hosting off, and only while it is on. */
    method ProcessOff(userLevel: int) returns (changed: bool)
      modifies this
      ensures changed <==> old(botEnabled) && LA.IsAccountTypeOf(userLevel, LA.Admin)
      ensures botEnabled == (old(botEnabled) && !changed)
      ensures servers == old(servers) && vSHashmap == old(vSHashmap) && Confirm() == old(Confirm())
    {
      changed := false;
      if botEnabled {
        if LA.IsAccountTypeOf(userLevel, LA.Admin) {
          botEnabled := false;
          changed := true;
        }
      }
    }

    /** processOn: only an admin turns hosting on, and only while it is off. */
    method ProcessOn(userLevel: int) returns (changed: bool)
      modifies this
      ensures changed <==> !old(botEnabled) && LA.IsAccountTypeOf(userLevel, LA.Admin)
      ensures botEnabled == (old(botEnabled) || changed)
      ensures servers == old(servers) && vSHashmap == old(vSHashmap) && Confirm() == old(Confirm())
    {
      changed := false;
      if !botEnabled {
        if LA.IsAccountTypeOf(userLevel, LA.Admin) {
          botEnabled := true;
          changed := true;
        }
      }
    }

    /**
     * processKillInactive: a moderator's `.killinactive <days>` stops every
     * unprotected server whose last activity is more than that many days
     * before `now`; the rest stay, in order.
     */
    method ProcessKillInactive(userLevel: int, keywords: seq<string>, now: int) returns (r: SweepOutcome)
      modifies this, servers
      ensures r == SweepNotPermitted <==> !LA.IsAccountTypeOf(userLevel, LA.Moderator)
      ensures r == SweepUsage <==> LA.IsAccountTypeOf(userLevel, LA.Moderator) && |keywords| < 2
      ensures r == NotNumeric <==>
                LA.IsAccountTypeOf(userLevel, LA.Moderator) && |keywords| >= 2 && !IsInteger(keywords[1])
      ensures r == NotPositive <==>
                LA.IsAccountTypeOf(userLevel, LA.Moderator) && |keywords| >= 2 && IsInteger(keywords[1])
                && ParseInt(keywords[1]).value <= 0
      ensures r == NothingRunning <==>
                LA.IsAccountTypeOf(userLevel, LA.Moderator) && |keywords| >= 2 && IsInteger(keywords[1])
                && ParseInt(keywords[1]).value > 0 && |old(servers)| == 0
      ensures r.Swept? ==>
                var days := ParseInt(keywords[1]).value;
                var idle := old(IdleServers(servers, now, days));
                r.ports == old(PortsOf(idle))
                && servers == old(BusyServers(servers, now, days))
                && (forall s :: s in idle ==> Stopping(s))
      ensures !r.Swept? ==> servers == old(servers)
      ensures forall s :: s in old(servers) && (r.Swept? ==> !old(IsIdle(s, now, ParseInt(keywords[1]).value)))
                ==> unchanged(s)
      ensures vSHashmap == old(vSHashmap) && botEnabled == old(botEnabled) && Confirm() == old(Confirm())
    {
      if !LA.IsAccountTypeOf(userLevel, LA.Moderator) {
        return SweepNotPermitted;
      }
      if |keywords| < 2 {
        return SweepUsage;
      }
      if !IsInteger(keywords[1]) {
        return NotNumeric;
      }
      var days := ParseInt(keywords[1]).value;
      if days <= 0 {
        return NotPositive;
      }
      if |servers| == 0 {
        return NothingRunning;
      }
      var ports := SweepIdle(now, days);
      r := Swept(ports);
    }

    /**
     * The sweep once the day count is accepted, over a copy of the list:
     * which servers are idle does not depend on the kills, so they are
     * picked first and then stopped in list order.
     */
    method SweepIdle(now: int, days: int) returns (ports: seq<int>)
      modifies this, servers
      ensures ports == old(PortsOf(IdleServers(servers, now, days)))
      ensures servers == old(BusyServers(servers, now, days))
      ensures forall s :: s in old(IdleServers(servers, now, days)) ==> Stopping(s)
      ensures forall s :: s in old(servers) && !old(IsIdle(s, now, days)) ==> unchanged(s)
      ensures vSHashmap == old(vSHashmap) && botEnabled == old(botEnabled) && Confirm() == old(Confirm())
    {
      var idle := IdleServers(servers, now, days);
      Registry.RemoveEachSelect(servers, IdleFlags(servers, now, days));
      ports := PortsOf(idle);
      KillEach(idle);
    }

    /** For each server of a snapshot in order: the three flags, then terminateServer's removal. */
    method KillEach(targets: seq<Server>)
      modifies this, targets
      ensures servers == Registry.RemoveEach(old(servers), targets)
      ensures forall s :: s in targets ==> Stopping(s)
      ensures vSHashmap == old(vSHashmap) && botEnabled == old(botEnabled) && Confirm() == old(Confirm())
    {
      ghost var before := servers;
      ghost var done: set<Server> := {};
      var i := 0;
      while i < |targets|
        invariant 0 <= i <= |targets|
        invariant done == set j | 0 <= j < i :: targets[j]
        invariant servers == Registry.RemoveEach(before, targets[..i])
        invariant forall s :: s in done ==> Stopping(s)
        invariant forall s :: s in targets && s !in done ==> unchanged(s)
        invariant vSHashmap == old(vSHashmap) && botEnabled == old(botEnabled) && Confirm() == old(Confirm())
      {
        KillStep(targets[i]);
        Registry.RemoveEachStep(before, targets, i);
        done := done + {targets[i]};
        i := i + 1;
      }
      assert targets[..i] == targets;
    }

    /** One idle server: hidden, being killed, no restart, off the list. */
    method KillStep(s: Server)
      modifies this, s
      ensures servers == Registry.RemoveFirst(old(servers), s)
      ensures Stopping(s)
      ensures vSHashmap == old(vSHashmap) && botEnabled == old(botEnabled) && Confirm() == old(Confirm())
    {
      s.hideStopMessage := true;
      s.beingKilled := true;
      s.autoRestart := false;
      RemoveServerFromLinkedList(s);
    }

    /** toggleAutoRestart: a moderator flips auto-restart on the server at the named port. */
    method ToggleAutoRestart(userLevel: int, keywords: seq<string>) returns (r: FlagOutcome)
      modifies servers
      ensures r == FlagNotPermitted <==> !LA.IsAccountTypeOf(userLevel, LA.Moderator)
      ensures r == FlagUsage <==> LA.IsAccountTypeOf(userLevel, LA.Moderator) && |keywords| != 2
      ensures r == FlagIgnored <==>
                LA.IsAccountTypeOf(userLevel, LA.Moderator) && |keywords| == 2 && !IsInteger(keywords[1])
      ensures r == NoServerThrows <==>
                LA.IsAccountTypeOf(userLevel, LA.Moderator) && NamesPort(keywords)
                && old(FirstOnPort(servers, ParseInt(keywords[1]).value)).None?
      ensures r.Toggled? ==>
                var s := old(FirstOnPort(servers, ParseInt(keywords[1]).value)).value;
                AutoRestartFlipped(s) && r.value == s.autoRestart
                && forall t :: t in old(servers) && t != s ==> unchanged(t)
      ensures !r.Toggled? ==> forall t :: t in old(servers) ==> unchanged(t)
    {
      if !LA.IsAccountTypeOf(userLevel, LA.Moderator) {
        return FlagNotPermitted;
      }
      if |keywords| != 2 {
        return FlagUsage;
      }
      if !IsInteger(keywords[1]) {
        return FlagIgnored;
      }
      var found := GetServer(ParseInt(keywords[1]).value);
      if found.None? {
        return NoServerThrows;
      }
      var s := found.value;
      s.autoRestart := !s.autoRestart;
      r := Toggled(s.autoRestart);
    }

    /** protectServer: a moderator flips the protection of the server at the named port. */
    method ProtectServer(userLevel: int, keywords: seq<string>) returns (r: FlagOutcome)
      modifies servers
      ensures r == FlagNotPermitted <==> !LA.IsAccountTypeOf(userLevel, LA.Moderator)
      ensures r == FlagUsage <==> LA.IsAccountTypeOf(userLevel, LA.Moderator) && |keywords| != 2
      ensures r == FlagIgnored <==>
                LA.IsAccountTypeOf(userLevel, LA.Moderator) && |keywords| == 2 && !IsInteger(keywords[1])
      ensures r == NoServerThrows <==>
                LA.IsAccountTypeOf(userLevel, LA.Moderator) && NamesPort(keywords)
                && old(FirstOnPort(servers, ParseInt(keywords[1]).value)).None?
      ensures r.Toggled? ==>
                var s := old(FirstOnPort(servers, ParseInt(keywords[1]).value)).value;
                ProtectionFlipped(s) && r.value == s.protectedServer
                && forall t :: t in old(servers) && t != s ==> unchanged(t)
      ensures !r.Toggled? ==> forall t :: t in old(servers) ==> unchanged(t)
    {
      if !LA.IsAccountTypeOf(userLevel, LA.Moderator) {
        return FlagNotPermitted;
      }
      if |keywords| != 2 {
        return FlagUsage;
      }
      if !IsInteger(keywords[1]) {
        return FlagIgnored;
      }
      var found := GetServer(ParseInt(keywords[1]).value);
      if found.None? {
        return NoServerThrows;
      }
      var s := found.value;
      s.protectedServer := !s.protectedServer;
      r := Toggled(s.protectedServer);
    }

    /** The .terminate case of onMessage, with the clock read as `now`. */
    method Terminate(userLevel: int, now: nat) returns (r: TerminateOutcome)
      modifies this
      ensures !LA.IsAccountTypeOf(userLevel, LA.Operator) ==> r == TerminateNotPermitted && Confirm() == old(Confirm())
      ensures LA.IsAccountTypeOf(userLevel, LA.Operator) ==> (Confirm(), r) == TerminateStep(old(Confirm()), now)
      ensures servers == old(servers) && vSHashmap == old(vSHashmap) && botEnabled == old(botEnabled)
    {
      if !LA.IsAccountTypeOf(userLevel, LA.Operator) {
        return TerminateNotPermitted;
      }
      if now / 1000 > terminateTimestamp / 1000 + ConfirmSeconds {
        terminateConfirmationTimes := 0;
        terminateTimestamp := now;
      }
      r := TerminateIgnored;
      if now / 1000 <= terminateTimestamp / 1000 + ConfirmSeconds {
        if terminateConfirmationTimes == 0 {
          terminateConfirmationTimes := terminateConfirmationTimes + 1;
          r := Warned;
        } else if terminateConfirmationTimes == 1 {
          r := Exit;
        }
      }
    }
  }
}
