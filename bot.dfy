// The command handlers of the current bot (src/main/.../Bot.java): the
// member's role, the host gate, the kill commands, the rcon text a .send
// or .sendall carries, and the startup wad list. Chat replies are reduced
// to outcome values; the database (slot counts) and the file system are
// parameters.
module Bot {
  import opened Wrappers
  import opened JavaText
  import Functions
  import AT = AccountType
  import ZandronumServer
  import Registry

  type Server = ZandronumServer.Server
  type Runtime = ZandronumServer.Runtime

  // ------------------------------------------------------------ roles

  /** getRole: the highest level any of the member's role names reads as, NONE without one. */
  function RoleOf(names: seq<string>): (r: AT.AccountType)
    ensures forall i :: 0 <= i < |names| ==> AT.IsAccountTypeOf(r, AT.FromString(names[i]))
    ensures |names| == 0 ==> r == AT.None
    ensures |names| > 0 ==> exists x :: x in names && r == AT.FromString(x)
  {
    if |names| == 0 then AT.None
    else
      var rest := RoleOf(names[1..]);
      var here := AT.FromString(names[0]);
      assert forall i :: 1 <= i < |names| ==> names[i] == names[1..][i - 1];
      if AT.Ordinal(here) >= AT.Ordinal(rest) then here else rest
  }

  /**
   * The roles come as a set: the level depends only on which names the
   * member holds, not on their order or repetition.
   */
  lemma RoleOfSameNames(a: seq<string>, b: seq<string>)
    requires forall x :: x in a <==> x in b
    ensures RoleOf(a) == RoleOf(b)
  {
    var ra, rb := RoleOf(a), RoleOf(b);
    if |a| > 0 {
      var x :| x in a && ra == AT.FromString(x);
      var y :| y in b && rb == AT.FromString(y);
      var j :| 0 <= j < |b| && b[j] == x;
      var k :| 0 <= k < |a| && a[k] == y;
      AT.IsAccountTypeOfOrders(ra, rb, ra);
    }
  }

  /** A member holding one role's title has exactly that role. */
  lemma RoleOfTitle(t: AT.AccountType, others: seq<string>)
    requires forall i :: 0 <= i < |others| ==> AT.IsAccountTypeOf(t, AT.FromString(others[i]))
    ensures RoleOf([AT.Title(t)] + others) == t
  {
    AT.FromStringTitle(t);
    var names := [AT.Title(t)] + others;
    var r := RoleOf(names);
    var x :| x in names && r == AT.FromString(x);
    var i :| 0 <= i < |names| && names[i] == x;
    if i > 0 {
      assert names[i] == others[i - 1];
    }
    AT.IsAccountTypeOfOrders(r, t, r);
  }

  // ------------------------------------------------------------ rcon text

  /** replaceAll("^\\s+", ""): the leading whitespace removed. */
  function StripLeading(s: string): (r: string)
    ensures |r| <= |s| && r == s[|s| - |r|..]
    ensures r == "" || !IsRegexSpace(r[0])
    ensures forall i :: 0 <= i < |s| - |r| ==> IsRegexSpace(s[i])
  {
    if |s| > 0 && IsRegexSpace(s[0]) then StripLeading(s[1..]) else s
  }

  /** The text before the first ';', or all of it. */
  function BeforeSemicolon(s: string): string
  {
    s[..if ';' in s then IndexOf(s, ';') else |s|]
  }

  /**
   * entireMessage.split(";")[0] with the leading whitespace removed. A
   * message made only of semicolons splits to no pieces at all, and the
   * indexing throws: None.
   */
  function FirstStatement(entire: string): (r: Option<string>)
    ensures r.None? <==> entire != "" && forall i :: 0 <= i < |entire| ==> entire[i] == ';'
    ensures r.Some? ==> r.value == StripLeading(BeforeSemicolon(entire))
    ensures r.Some? ==> ';' !in r.value
  {
    SplitHead(entire, ';');
    var pieces := Split(entire, ';');
    if |pieces| == 0 then None else Some(StripLeading(pieces[0]))
  }

  /** What goes to the server's console: the command word and its arguments. */
  datatype Rcon = Rcon(command: string, args: string)

  /**
   * The statement split at single spaces: the first word is the command,
   * the remaining words joined back with single spaces are the arguments.
   */
  function Words(statement: string): (r: Rcon)
    requires statement == "" || !IsRegexSpace(statement[0])
    ensures r.command == BeforeSpace(statement)
  {
    SplitHead(statement, ' ');
    var words := Split(statement, ' ');
    Rcon(words[0], Join(words[1..], " "))
  }

  function BeforeSpace(s: string): string
  {
    s[..if ' ' in s then IndexOf(s, ' ') else |s|]
  }

  /** The commands whose arguments are sent as one quoted string. */
  predicate QuotesArguments(command: string)
  {
    EqualsIgnoreCase(command, "sv_hostname") || EqualsIgnoreCase(command, "echo") || EqualsIgnoreCase(command, "say")
  }

  /** Non-empty arguments of a quoting command are escaped and wrapped in double quotes. */
  function Quoted(r: Rcon): (q: Rcon)
    ensures q.command == r.command
  {
    if r.args != "" && QuotesArguments(r.command) then r.(args := "\"" + Functions.Escaped(r.args) + "\"") else r
  }

  /** For sv_hostname, every "$brand" becomes the configured hostname base. */
  function Branded(r: Rcon, hostnameBase: string): (b: Rcon)
    ensures b.command == r.command
    ensures !EqualsIgnoreCase(r.command, "sv_hostname") ==> b == r
  {
    if EqualsIgnoreCase(r.command, "sv_hostname") then r.(args := Replace(r.args, "$brand", hostnameBase)) else r
  }

  /** The text .send passes to one server, None where the source throws. */
  function ShapeSend(entire: string, hostnameBase: string): Option<Rcon>
  {
    var statement := FirstStatement(entire);
    if statement.None? then None else Some(Quoted(Branded(Words(statement.value), hostnameBase)))
  }

  /** The two console lines written for a command: the echo, then the command. */
  function EchoLine(r: Rcon, sender: string): string
  {
    "echo \"-> " + r.command + " " + Functions.Escaped(r.args) + " (RCON by " + sender + ")\";\n"
  }

  function CommandLine(r: Rcon): string
  {
    r.command + " " + r.args + ";\n"
  }

  /** What one server's console receives for a command. */
  function ConsoleLines(r: Rcon, sender: string): seq<string>
  {
    [EchoLine(r, sender), CommandLine(r)]
  }

  /** A command without ';' in its parts ends the line with its only ';'. */
  lemma OneStatementPerLine(r: Rcon)
    requires ';' !in r.command && ';' !in r.args
    ensures var line := CommandLine(r);
            forall i :: 0 <= i < |line| && line[i] == ';' ==> i == |line| - 2
  {
  }

  /** The commands .sendall refuses when they carry arguments. */
  predicate RefusedForAll(command: string)
  {
    EqualsIgnoreCase(command, "sv_hostname") || EqualsIgnoreCase(command, "sv_website") || EqualsIgnoreCase(command, "logfile")
  }

  datatype Broadcast = Malformed | Refused(command: string) | SendToAll(rcon: Rcon)

  /** The text .sendall passes to every server: no brand, and three commands refused. */
  function ShapeSendAll(entire: string): Broadcast
  {
    var statement := FirstStatement(entire);
    if statement.None? then Malformed
    else
      var r := Words(statement.value);
      if r.args != "" && RefusedForAll(r.command) then Refused(r.command) else SendToAll(Quoted(r))
  }

  /**
   * Only one statement reaches the console: neither the command nor its
   * arguments hold a ';' (as long as the hostname base holds none).
   */
  lemma SingleStatement(entire: string, hostnameBase: string)
    requires ';' !in hostnameBase
    ensures ShapeSend(entire, hostnameBase).Some? ==>
            ';' !in ShapeSend(entire, hostnameBase).value.command && ';' !in ShapeSend(entire, hostnameBase).value.args
  {
    var statement := FirstStatement(entire);
    if statement.Some? {
      var w := Words(statement.value);
      WordsKeepOut(statement.value, ';');
      BrandedKeepsOut(w, hostnameBase, ';');
      QuotedKeepsOut(Branded(w, hostnameBase), ';');
    }
  }

  lemma WordsKeepOut(s: string, c: char)
    requires s == "" || !IsRegexSpace(s[0])
    requires c !in s && c != ' '
    ensures c !in Words(s).command && c !in Words(s).args
  {
    SplitHead(s, ' ');
    SplitKeepsOut(s, ' ', c);
    var words := Split(s, ' ');
    JoinKeepsOut(words[1..], " ", c);
  }

  lemma BrandedKeepsOut(r: Rcon, hostnameBase: string, c: char)
    requires c !in r.command && c !in r.args && c !in hostnameBase
    ensures c !in Branded(r, hostnameBase).command && c !in Branded(r, hostnameBase).args
  {
    if EqualsIgnoreCase(r.command, "sv_hostname") {
      ReplaceKeepsOut(r.args, "$brand", hostnameBase, c);
    }
  }

  lemma QuotedKeepsOut(r: Rcon, c: char)
    requires c !in r.command && c !in r.args && c != '\\' && c != '"'
    ensures c !in Quoted(r).command && c !in Quoted(r).args
  {
    Functions.EscapedKeepsOut(r.args, c);
  }

  /** The command word starts with no whitespace. */
  lemma CommandTrimmed(entire: string, hostnameBase: string)
    ensures ShapeSend(entire, hostnameBase).Some? ==>
            var c := ShapeSend(entire, hostnameBase).value.command;
            c == "" || !IsRegexSpace(c[0])
  {
    var statement := FirstStatement(entire);
    if statement.Some? {
      var s := statement.value;
      assert ShapeSend(entire, hostnameBase).value.command == BeforeSpace(s);
      if s != "" && ' ' in s {
        assert IndexOf(s, ' ') != 0;
      }
    }
  }

  /** Quoted arguments read back, after the console's unescaping, as the arguments. */
  lemma QuotedReadsBack(r: Rcon)
    requires r.args != "" && QuotesArguments(r.command)
    ensures var q := Quoted(r).args;
            |q| >= 2 && q[0] == '"' && q[|q| - 1] == '"' && Functions.Unescape(q[1..|q| - 1]) == r.args
  {
    var q := Quoted(r).args;
    assert q[1..|q| - 1] == Functions.Escaped(r.args);
    Functions.UnescapeEscaped(r.args);
  }

  /**
   * What .sendall broadcasts is exactly what .send would send to one
   * server: the only command .send brands is sv_hostname, and .sendall
   * sends that one only without arguments.
   */
  lemma BroadcastIsSend(entire: string, hostnameBase: string)
    ensures ShapeSendAll(entire).SendToAll? ==> ShapeSend(entire, hostnameBase) == Some(ShapeSendAll(entire).rcon)
    ensures ShapeSendAll(entire).SendToAll? && EqualsIgnoreCase(ShapeSendAll(entire).rcon.command, "sv_hostname")
            ==> ShapeSendAll(entire).rcon.args == ""
  {
    var statement := FirstStatement(entire);
    if statement.Some? {
      var r := Words(statement.value);
      if !(r.args != "" && RefusedForAll(r.command)) {
        assert ShapeSendAll(entire) == SendToAll(Quoted(r));
        if EqualsIgnoreCase(r.command, "sv_hostname") {
          assert r.args == "";
          assert Branded(r, hostnameBase) == r;
        } else {
          assert Branded(r, hostnameBase) == r;
        }
      }
    }
  }

  // ------------------------------------------------------------ the bot

  datatype HostDecision = Disabled | LimitReached(slots: int) | Launch(autoRestart: bool)

  datatype KillOutcome =
    | Usage
    | NoServers
    | ImproperPort
    | NoSuchServer
    | NotOwner
    | Killed(target: Server, byOwner: bool)
    | Ignored

  datatype SweepOutcome =
    | SweepUsage
    | NotNumeric
    | NotPositive
    | NothingRunning
    | UnknownVersion
    | Swept(ports: seq<int>)

  datatype WadOutcome = Missing | AlreadyListed(entry: string) | Added | Removed | NotListed

  /** The runtime flags every kill command sets. */
  function Stopped(rt: Runtime): Runtime
  {
    rt.(hideStopMessage := true, beingKilled := true)
  }

  /** Setting the kill flags a second time changes nothing. */
  lemma StoppedTwice(rt: Runtime)
    ensures Stopped(Stopped(rt)) == Stopped(rt)
  {
  }

  /**
   * A server the sweeping kill went through: stop message hidden, marked
   * being killed, auto-restart off, and nothing else changed.
   */
  twostate predicate Stopping(s: Server)
    reads s
  {
    s.runtime == Stopped(old(s.runtime)) && s.options == old(s.options).(autoRestart := false) && s.userId == old(s.userId)
  }

  /** The ports of a list of servers, in order. */
  function PortsOf(l: seq<Server>): (r: seq<int>)
    reads l
    ensures |r| == |l| && forall j :: 0 <= j < |l| ==> r[j] == l[j].runtime.port
  {
    seq(|l|, j reads l requires 0 <= j < |l| => l[j].runtime.port)
  }

  /** Idle for longer than `days` whole days and not protected. */
  predicate IsIdle(s: Server, now: int, days: int)
    reads s
  {
    now - s.runtime.lastActivity > ZandronumServer.DayMilliseconds * days && !s.runtime.protectedServer
  }

  /** Which servers of the snapshot are idle. */
  function IdleFlags(l: seq<Server>, now: int, days: int): (r: seq<bool>)
    reads l
    ensures |r| == |l| && forall i :: 0 <= i < |l| ==> r[i] == IsIdle(l[i], now, days)
    ensures Registry.Consistent(l, r)
  {
    seq(|l|, i reads l requires 0 <= i < |l| => IsIdle(l[i], now, days))
  }

  /** The snapshot's idle servers, in order: the ones .killinactive stops. */
  function IdleServers(l: seq<Server>, now: int, days: int): (r: seq<Server>)
    reads l
    ensures forall i :: 0 <= i < |r| ==> r[i] in l && IsIdle(r[i], now, days)
    ensures forall i :: 0 <= i < |l| && IsIdle(l[i], now, days) ==> l[i] in r
  {
    Registry.Select(l, IdleFlags(l, now, days))
  }

  /** The snapshot's other servers, in order: the ones .killinactive leaves. */
  function BusyServers(l: seq<Server>, now: int, days: int): (r: seq<Server>)
    reads l
    ensures forall i :: 0 <= i < |r| ==> r[i] in l && !IsIdle(r[i], now, days)
    ensures forall i :: 0 <= i < |l| && !IsIdle(l[i], now, days) ==> l[i] in r
  {
    Registry.Reject(l, IdleFlags(l, now, days))
  }

  /** No two entries name the same wad, ignoring case. */
  predicate DistinctIgnoringCase(l: seq<string>)
  {
    forall i, j :: 0 <= i < j < |l| ==> !EqualsIgnoreCase(l[i], l[j])
  }

  /** The first entry equal to `w`, ignoring case. */
  function FindIgnoringCase(l: seq<string>, w: string): (r: Option<nat>)
    ensures r.None? <==> forall i :: 0 <= i < |l| ==> !EqualsIgnoreCase(l[i], w)
    ensures r.Some? ==> r.value < |l| && EqualsIgnoreCase(l[r.value], w)
                        && forall i :: 0 <= i < r.value ==> !EqualsIgnoreCase(l[i], w)
  {
    if |l| == 0 then None
    else if EqualsIgnoreCase(l[0], w) then Some(0)
    else
      var r := FindIgnoringCase(l[1..], w);
      assert forall i :: 1 <= i < |l| ==> l[i] == l[1..][i - 1];
      if r.None? then None else Some(r.value + 1)
  }

  datatype SendOutcome =
    | SendUsage
    | PortNotNumber
    | NoServerOnPort
    | NotHoster
    | Thrown
    | Sent(target: Server, lines: seq<string>)

  /**
   * The wad list as written keeps an entry listed in other case: the
   * lookup finds "DOOM2.WAD" for "doom2.wad", the exact removal does not.
   */
  lemma DeleteKeepsOtherCase()
    ensures FindIgnoringCase(["DOOM2.WAD"], "doom2.wad") == Some(0)
    ensures Registry.RemoveFirst(["DOOM2.WAD"], "doom2.wad") == ["DOOM2.WAD"]
  {
    assert EqualsIgnoreCase("DOOM2.WAD", "doom2.wad");
  }

  /** A wad added to the list is found at the end, and deleting it gives back the list. */
  lemma AddThenDelete(l: seq<string>, w: string)
    requires FindIgnoringCase(l, w).None?
    ensures FindIgnoringCase(l + [w], w) == Some(|l|)
    ensures (l + [w])[..|l|] + (l + [w])[|l| + 1..] == l
  {
    var k := FindIgnoringCase(l + [w], w);
    assert (l + [w])[|l|] == w;
    assert forall i :: 0 <= i < |l| ==> (l + [w])[i] == l[i];
  }

  class Bot {
    /** The running servers. */
    const registry: Registry.Registry
    /** vSHashmap: the servers of each version, one empty list per version at start. */
    const byVersion: map<string, seq<Server>>
    /** cfg_data.bot_hostname_base. */
    const hostnameBase: string
    /** cfg_data.bot_extra_wads: wads added to every server. */
    var extraWads: seq<string>
    /** Whether hosting is open to everyone. */
    var botEnabled: bool

    constructor (registry: Registry.Registry, versions: seq<string>, hostnameBase: string, extraWads: seq<string>)
      ensures this.registry == registry && this.hostnameBase == hostnameBase && this.extraWads == extraWads
      ensures byVersion == map v | v in versions :: []
      ensures botEnabled
    {
      this.registry := registry;
      this.byVersion := map v | v in versions :: [];
      this.hostnameBase := hostnameBase;
      this.extraWads := extraWads;
      this.botEnabled := true;
    }

    /** Every server of the per-version lists. */
    ghost function VersionServers(): set<Server>
    {
      set v, s | v in byVersion && s in byVersion[v] :: s
    }

    /**
     * processHost: hosting is open when the bot is enabled or the user is
     * an ADMIN, and then only below the user's slot count; auto-restart is
     * asked for in the message text.
     */
    method ProcessHost(level: AT.AccountType, userId: string, message: string, slots: int)
      returns (d: HostDecision)
      ensures d.Launch? <==> (botEnabled || AT.IsAccountTypeOf(level, AT.Admin))
                             && slots > |Registry.OwnedBy(registry.servers, userId)|
      ensures d == Disabled <==> !botEnabled && !AT.IsAccountTypeOf(level, AT.Admin)
      ensures d.LimitReached? ==> d.slots == slots
      ensures d.Launch? ==> d.autoRestart == (Contains(message, "autorestart=true") || Contains(message, "autorestart=on"))
    {
      if botEnabled || AT.IsAccountTypeOf(level, AT.Admin) {
        var autoRestart := Contains(message, "autorestart=true") || Contains(message, "autorestart=on");
        var mine := registry.GetUserServers(userId);
        if slots > |mine| {
          d := Launch(autoRestart);
        } else {
          d := LimitReached(slots);
        }
      } else {
        d := Disabled;
      }
    }

    /**
     * addExtraWad: a wad that exists and is not listed yet, ignoring case,
     * goes at the end of the startup list.
     */
    method AddExtraWad(wad: string, exists_: bool) returns (outcome: WadOutcome)
      modifies this
      ensures outcome == Missing <==> !exists_
      ensures outcome == Added <==> exists_ && FindIgnoringCase(old(extraWads), wad).None?
      ensures outcome.AlreadyListed? ==>
                exists_ && FindIgnoringCase(old(extraWads), wad).Some?
                && outcome.entry == old(extraWads)[FindIgnoringCase(old(extraWads), wad).value]
      ensures extraWads == if outcome == Added then old(extraWads) + [wad] else old(extraWads)
      ensures DistinctIgnoringCase(old(extraWads)) ==> DistinctIgnoringCase(extraWads)
      ensures botEnabled == old(botEnabled)
    {
      if !exists_ {
        return Missing;
      }
      var i := 0;
      while i < |extraWads|
        invariant 0 <= i <= |extraWads|
        invariant forall j :: 0 <= j < i ==> !EqualsIgnoreCase(extraWads[j], wad)
      {
        if EqualsIgnoreCase(extraWads[i], wad) {
          return AlreadyListed(extraWads[i]);
        }
        i := i + 1;
      }
      extraWads := extraWads + [wad];
      outcome := Added;
    }

    /**
     * deleteExtraWad as written: the entry is found ignoring case, but the
     * removal asks for the typed name exactly, so an entry listed in other
     * case is reported removed and stays.
     */
    method DeleteExtraWadAsWritten(wad: string) returns (outcome: WadOutcome)
      modifies this
      ensures outcome == Removed <==> FindIgnoringCase(old(extraWads), wad).Some?
      ensures outcome != Removed ==> outcome == NotListed
      ensures extraWads == if outcome == Removed then Registry.RemoveFirst(old(extraWads), wad) else old(extraWads)
      ensures botEnabled == old(botEnabled)
    {
      var i := 0;
      while i < |extraWads|
        invariant 0 <= i <= |extraWads|
        invariant forall j :: 0 <= j < i ==> !EqualsIgnoreCase(extraWads[j], wad)
      {
        if EqualsIgnoreCase(extraWads[i], wad) {
          extraWads := Registry.RemoveFirst(extraWads, wad);
          return Removed;
        }
        i := i + 1;
      }
      outcome := NotListed;
    }

    /** deleteExtraWad, corrected: the entry that matched is the one removed. */
    method DeleteExtraWad(wad: string) returns (outcome: WadOutcome)
      modifies this
      ensures outcome == Removed <==> FindIgnoringCase(old(extraWads), wad).Some?
      ensures outcome != Removed ==> outcome == NotListed
      ensures outcome == Removed ==>
                var k := FindIgnoringCase(old(extraWads), wad).value;
                extraWads == old(extraWads)[..k] + old(extraWads)[k + 1..]
      ensures outcome != Removed ==> extraWads == old(extraWads)
      ensures DistinctIgnoringCase(old(extraWads)) ==>
                DistinctIgnoringCase(extraWads) && FindIgnoringCase(extraWads, wad).None?
      ensures botEnabled == old(botEnabled)
    {
      var i := 0;
      while i < |extraWads|
        invariant 0 <= i <= |extraWads|
        invariant forall j :: 0 <= j < i ==> !EqualsIgnoreCase(extraWads[j], wad)
      {
        if EqualsIgnoreCase(extraWads[i], wad) {
          extraWads := extraWads[..i] + extraWads[i + 1..];
          return Removed;
        }
        i := i + 1;
      }
      outcome := NotListed;
    }

    /**
     * sendCommand: `.send <port> <command>` from the server's owner (exact
     * id) or a MODERATOR; the first statement of the text, shaped, goes to
     * that server's console.
     */
    method SendCommand(level: AT.AccountType, keywords: seq<string>, callerId: string, sender: string)
      returns (r: SendOutcome)
      ensures r == SendUsage <==> |keywords| <= 2
      ensures r == PortNotNumber <==> |keywords| > 2 && !IsInteger(keywords[1])
      ensures r == NoServerOnPort <==>
                |keywords| > 2 && IsInteger(keywords[1])
                && FirstOnPortOf(ParseInt(keywords[1]).value).None?
      ensures r == NotHoster <==>
                |keywords| > 2 && IsInteger(keywords[1]) && FirstOnPortOf(ParseInt(keywords[1]).value).Some?
                && !Permitted(FirstOnPortOf(ParseInt(keywords[1]).value).value, level, callerId)
      ensures r.Sent? || r == Thrown <==>
                |keywords| > 2 && IsInteger(keywords[1]) && FirstOnPortOf(ParseInt(keywords[1]).value).Some?
                && Permitted(FirstOnPortOf(ParseInt(keywords[1]).value).value, level, callerId)
      ensures r.Sent? || r == Thrown ==>
                var shaped := ShapeSend(Join(keywords[2..], " "), hostnameBase);
                (r == Thrown <==> shaped.None?)
                && (r.Sent? ==> r.target == FirstOnPortOf(ParseInt(keywords[1]).value).value
                                && r.lines == ConsoleLines(shaped.value, sender))
    {
      if |keywords| <= 2 {
        return SendUsage;
      }
      if !IsInteger(keywords[1]) {
        return PortNotNumber;
      }
      var server := registry.GetServer(ParseInt(keywords[1]).value);
      if server.None? {
        return NoServerOnPort;
      }
      var s := server.value;
      if !(s.userId == callerId || AT.IsAccountTypeOf(level, AT.Moderator)) {
        return NotHoster;
      }
      var shaped := ShapeSend(Join(keywords[2..], " "), hostnameBase);
      if shaped.None? {
        return Thrown;
      }
      r := Sent(s, ConsoleLines(shaped.value, sender));
    }

    function FirstOnPortOf(port: int): Option<Server>
      reads this, registry, registry.servers
    {
      Registry.FirstOnPort(registry.servers, port)
    }

    /** Who may send to a server: its owner (exact id) or a MODERATOR. */
    predicate Permitted(s: Server, level: AT.AccountType, callerId: string)
      reads s
    {
      s.userId == callerId || AT.IsAccountTypeOf(level, AT.Moderator)
    }

    /** The running servers in list order, visited one by one. */
    method EveryServer() returns (visited: seq<Server>)
      ensures visited == registry.servers
    {
      visited := [];
      var i := 0;
      while i < |registry.servers|
        invariant 0 <= i <= |registry.servers|
        invariant visited == registry.servers[..i]
      {
        visited := visited + [registry.servers[i]];
        i := i + 1;
      }
    }

    /**
     * sendCommandAll: `.sendall <command>`: the same two lines go to every
     * running server, in list order, unless the command is refused.
     */
    method SendCommandAll(keywords: seq<string>, sender: string)
      returns (b: Option<Broadcast>, recipients: seq<Server>, lines: seq<string>)
      ensures b.None? <==> |keywords| <= 1
      ensures b.Some? ==> b.value == ShapeSendAll(Join(keywords[1..], " "))
      ensures recipients == (if b.Some? && b.value.SendToAll? then registry.servers else [])
      ensures lines == (if b.Some? && b.value.SendToAll? then ConsoleLines(b.value.rcon, sender) else [])
    {
      recipients, lines := [], [];
      if |keywords| <= 1 {
        return None, recipients, lines;
      }
      var shaped := ShapeSendAll(Join(keywords[1..], " "));
      b := Some(shaped);
      if shaped.SendToAll? {
        lines := ConsoleLines(shaped.rcon, sender);
        recipients := EveryServer();
      }
    }

    /**
     * The kill sequence of .killall, .killmine, .killversion and
     * .killinactive, for each server of a snapshot in order: hide the stop
     * message, mark it being killed, turn auto-restart off, and take it off
     * the list.
     */
    method KillEach(targets: seq<Server>)
      modifies registry, targets
      ensures registry.servers == Registry.RemoveEach(old(registry.servers), targets)
      ensures forall s :: s in targets ==> Stopping(s)
    {
      var reg := registry;
      ghost var before := reg.servers;
      ghost var done: set<Server> := {};
      var i := 0;
      while i < |targets|
        invariant 0 <= i <= |targets|
        invariant done == set j | 0 <= j < i :: targets[j]
        invariant reg.servers == Registry.RemoveEach(before, targets[..i])
        invariant forall s :: s in done ==> Stopping(s)
        invariant forall s :: s in targets && s !in done ==> unchanged(s)
      {
        StoppedTwice(old(targets[i].runtime));
        KillStep(targets[i]);
        Registry.RemoveEachStep(before, targets, i);
        done := done + {targets[i]};
        i := i + 1;
      }
      assert targets[..i] == targets;
    }

    /** One server of a sweep: its flags, then Server.killServer's removal from the list. */
    method KillStep(s: Server)
      modifies registry, s
      ensures registry.servers == Registry.RemoveFirst(old(registry.servers), s)
      ensures Stopping(s)
    {
      s.runtime := Stopped(s.runtime);
      s.options := s.options.(autoRestart := false);
      registry.Remove(s);
    }

    /** The flags .kill sets on its target, and its removal from the list. */
    method KillOne(s: Server, byOwner: bool)
      modifies registry, s
      ensures s.runtime == old(s.runtime).(beingKilled := true,
                                           beingKilledByOwner := old(s.runtime.beingKilledByOwner) || byOwner)
      ensures s.options == old(s.options).(autoRestart := false)
      ensures s.userId == old(s.userId)
      ensures registry.servers == Registry.RemoveFirst(old(registry.servers), s)
    {
      s.runtime := s.runtime.(beingKilled := true);
      if byOwner {
        s.runtime := s.runtime.(beingKilledByOwner := true);
      }
      s.options := s.options.(autoRestart := false);
      registry.Remove(s);
    }

    /** Who may kill a server: its owner (ignoring case) or a MODERATOR. */
    predicate MayKill(s: Server, level: AT.AccountType, callerId: string)
      reads s
    {
      EqualsIgnoreCase(s.userId, callerId) || AT.IsAccountTypeOf(level, AT.Moderator)
    }

    /**
     * processKill: `.kill <port>` from a REGISTERED user stops the first
     * server on that port when the caller may kill it; the owner's kill is
     * marked as such. The moderator-only branch after it is never taken,
     * since every MODERATOR is REGISTERED.
     */
    method ProcessKill(level: AT.AccountType, keywords: seq<string>, callerId: string) returns (r: KillOutcome)
      modifies registry, registry.servers
      ensures r == Usage <==> |keywords| != 2
      ensures r == NoServers <==> |keywords| == 2 && old(|registry.servers|) == 0
      ensures r == Ignored <==>
                |keywords| == 2 && old(|registry.servers|) > 0 && !AT.IsAccountTypeOf(level, AT.Registered)
      ensures r == ImproperPort <==>
                |keywords| == 2 && old(|registry.servers|) > 0 && AT.IsAccountTypeOf(level, AT.Registered)
                && !IsInteger(keywords[1])
      ensures r == NoSuchServer <==>
                |keywords| == 2 && old(|registry.servers|) > 0 && AT.IsAccountTypeOf(level, AT.Registered)
                && IsInteger(keywords[1]) && old(FirstOnPortOf(ParseInt(keywords[1]).value)).None?
      ensures r == NotOwner <==>
                |keywords| == 2 && old(|registry.servers|) > 0 && AT.IsAccountTypeOf(level, AT.Registered)
                && IsInteger(keywords[1]) && old(FirstOnPortOf(ParseInt(keywords[1]).value)).Some?
                && !old(MayKill(FirstOnPortOf(ParseInt(keywords[1]).value).value, level, callerId))
      ensures r.Killed? ==>
                && |keywords| == 2 && IsInteger(keywords[1])
                && old(FirstOnPortOf(ParseInt(keywords[1]).value)) == Some(r.target)
                && old(MayKill(r.target, level, callerId))
                && r.byOwner == old(EqualsIgnoreCase(r.target.userId, callerId))
                && r.target.runtime == old(r.target.runtime).(beingKilled := true,
                                                              beingKilledByOwner := old(r.target.runtime.beingKilledByOwner) || r.byOwner)
                && r.target.options == old(r.target.options).(autoRestart := false)
                && registry.servers == Registry.RemoveFirst(old(registry.servers), r.target)
      ensures !r.Killed? ==> registry.servers == old(registry.servers)
      ensures forall s :: s in old(registry.servers) && !(r.Killed? && s == r.target) ==> unchanged(s)
    {
      if |keywords| != 2 {
        return Usage;
      }
      if |registry.servers| == 0 {
        return NoServers;
      }
      if !AT.IsAccountTypeOf(level, AT.Registered) {
        return Ignored;
      }
      if !IsInteger(keywords[1]) {
        return ImproperPort;
      }
      var server := registry.GetServer(ParseInt(keywords[1]).value);
      if server.None? {
        return NoSuchServer;
      }
      var s := server.value;
      if !MayKill(s, level, callerId) {
        return NotOwner;
      }
      var byOwner := EqualsIgnoreCase(s.userId, callerId);
      KillOne(s, byOwner);
      r := Killed(s, byOwner);
    }

    /** processKillAll: every running server is stopped and the list ends empty. */
    method ProcessKillAll() returns (killed: nat)
      modifies registry, registry.servers
      ensures killed == |old(registry.servers)|
      ensures registry.servers == []
      ensures forall s :: s in old(registry.servers) ==> Stopping(s)
    {
      var snapshot := registry.servers;
      killed := |snapshot|;
      if killed > 0 {
        KillEach(snapshot);
        Registry.RemoveEachAll(snapshot);
      }
    }

    /**
     * processKillMine: the caller's servers (exact id) are stopped and
     * their ports reported; everybody else's stay, in order.
     */
    method ProcessKillMine(callerId: string) returns (ports: seq<int>)
      modifies registry, registry.servers
      ensures ports == old(PortsOf(Registry.OwnedBy(registry.servers, callerId)))
      ensures registry.servers == old(Registry.NotOwnedBy(registry.servers, callerId))
      ensures forall s :: s in old(registry.servers) && old(s.userId) == callerId ==> Stopping(s)
      ensures forall s :: s in old(registry.servers) && old(s.userId) != callerId ==> unchanged(s)
    {
      var mine := registry.GetUserServers(callerId);
      Registry.RemoveEachOwned(registry.servers, callerId);
      ports := PortsOf(mine);
      if |mine| > 0 {
        KillEach(mine);
      }
    }

    /** The per-version lists are as the constructor left them. */
    predicate VersionListsEmpty()
      reads this
    {
      forall v :: v in byVersion ==> byVersion[v] == []
    }

    /**
     * processKillVersion: the servers listed for one version are stopped.
     * Nothing in this generation fills the lists, so it never stops one.
     */
    method ProcessKillVersion(keywords: seq<string>) returns (r: SweepOutcome)
      modifies registry, VersionServers()
      ensures r == SweepUsage <==> |keywords| != 2
      ensures r == UnknownVersion <==> |keywords| == 2 && keywords[1] !in byVersion
      ensures r.Swept? ==> |keywords| == 2 && keywords[1] in byVersion && |byVersion[keywords[1]]| > 0
      ensures VersionListsEmpty() ==> !r.Swept? && registry.servers == old(registry.servers)
    {
      if |keywords| != 2 {
        return SweepUsage;
      }
      if keywords[1] !in byVersion {
        return UnknownVersion;
      }
      var snapshot := byVersion[keywords[1]];
      assert forall s :: s in snapshot ==> s in VersionServers();
      if |snapshot| < 1 {
        return NothingRunning;
      }
      r := Swept(PortsOf(snapshot));
      KillEach(snapshot);
    }

    /**
     * processKillInactive: `.killinactive <days>` stops every unprotected
     * server whose last activity is more than that many days before `now`;
     * the rest stay, in order.
     */
    method ProcessKillInactive(keywords: seq<string>, now: int) returns (r: SweepOutcome)
      modifies registry, registry.servers
      ensures r == SweepUsage <==> |keywords| < 2
      ensures r == NotNumeric <==> |keywords| >= 2 && !IsInteger(keywords[1])
      ensures r == NotPositive <==> |keywords| >= 2 && IsInteger(keywords[1]) && ParseInt(keywords[1]).value <= 0
      ensures r == NothingRunning <==>
                |keywords| >= 2 && IsInteger(keywords[1]) && ParseInt(keywords[1]).value > 0
                && |old(registry.servers)| == 0
      ensures r.Swept? ==>
                var days := ParseInt(keywords[1]).value;
                var idle := old(IdleServers(registry.servers, now, days));
                r.ports == old(PortsOf(idle))
                && registry.servers == old(BusyServers(registry.servers, now, days))
                && (forall s :: s in idle ==> Stopping(s))
      ensures !r.Swept? ==> registry.servers == old(registry.servers)
      ensures forall s :: s in old(registry.servers) && (r.Swept? ==> !old(IsIdle(s, now, ParseInt(keywords[1]).value)))
                ==> unchanged(s)
    {
      if |keywords| < 2 {
        return SweepUsage;
      }
      if !IsInteger(keywords[1]) {
        return NotNumeric;
      }
      var days := ParseInt(keywords[1]).value;
      if days <= 0 {
        return NotPositive;
      }
      if |registry.servers| == 0 {
        return NothingRunning;
      }
      var ports := SweepIdle(now, days);
      r := Swept(ports);
    }

    /** The sweep of .killinactive once the day count is accepted. */
    method SweepIdle(now: int, days: int) returns (ports: seq<int>)
      modifies registry, registry.servers
      ensures ports == old(PortsOf(IdleServers(registry.servers, now, days)))
      ensures registry.servers == old(BusyServers(registry.servers, now, days))
      ensures forall s :: s in old(IdleServers(registry.servers, now, days)) ==> Stopping(s)
      ensures forall s :: s in old(registry.servers) && !old(IsIdle(s, now, days)) ==> unchanged(s)
    {
      var idle := IdleServers(registry.servers, now, days);
      Registry.RemoveEachSelect(registry.servers, IdleFlags(registry.servers, now, days));
      ports := PortsOf(idle);
      KillEach(idle);
    }
  }
}
