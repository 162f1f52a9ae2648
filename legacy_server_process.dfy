// The thread that runs one game server in the earlier generation
// (src/org ServerProcess.java): the argument vector it hands to the
// executable, what it does with each line the server prints, and what
// happens when the output ends, including the auto-restart check.
//
// MySQL (the wad page and the ban list), Server.isIwad and the clock reach
// the model as parameters; the log file, the IRC messages' wording and the
// process handle are left out.
module LegacyServerProcess {
  import opened Wrappers
  import opened JavaText
  import opened Arguments
  import Functions
  import ServerProcess
  import Registry
  import LegacyServer
  import LegacyBot

  type Settings = LegacyServer.Settings

  /**
   * The bot's configuration fields the process reads, with
   * MySQL.createWadPage, MySQL.checkBanned and Server.isIwad as functions.
   */
  datatype Config = Config(
    cfgDirectory: string, iwadDirectory: string, wadDirectory: string,
    banlistDirectory: string, adminlistDirectory: string, whitelistDirectory: string,
    extraWads: seq<string>, hostnameBase: string, ircRelay: bool, maxRestarts: int,
    isIwad: string -> bool, createWadPage: string -> string, checkBanned: string -> Option<string>)

  // ------------------------------------------------------ the argument vector

  const WadPageLink := "http://allfearthesentinel.net/wadpage?key="

  /** The port the server is asked for: the previous one on a restart, else the lowest. */
  function RequestedPort(tempPort: int, minPort: int): int
  {
    if tempPort != 0 then tempPort else minPort
  }

  /** The wad page key: made from the host command's own wads, before any are added. */
  function WadPageKey(st: Settings, cfg: Config): string
  {
    cfg.createWadPage(Join(st.wads, ","))
  }

  /** The pairs before the wads: port, the global config, the wad page, the iwad. */
  function Opening(st: Settings, tempPort: int, cfg: Config, minPort: int): seq<Pair>
  {
    [("-port", IntToString(RequestedPort(tempPort, minPort))),
     ("+exec", cfg.cfgDirectory + "global.cfg"),
     ("+sv_website", WadPageLink + WadPageKey(st, cfg))]
    + (if st.iwad.Some? then [("-iwad", cfg.iwadDirectory + st.iwad.value)] else [])
  }

  /** The wad list before de-duplication: the version's data wads first, the extra wads last. */
  function StartupWads(st: Settings, cfg: Config): seq<string>
  {
    ServerProcess.StartupWadsOf(st.skulltagData, st.version.data, st.wads, cfg.extraWads)
  }

  /** One wad's "-file" pair: iwads from the iwad directory, the rest from the wad directory. */
  function FileArg(w: string, cfg: Config): Pair
  {
    ("-file", (if cfg.isIwad(w) then cfg.iwadDirectory else cfg.wadDirectory) + w)
  }

  function FileArgs(ws: seq<string>, cfg: Config): seq<Pair>
    decreases |ws|
  {
    if |ws| == 0 then [] else FileArgs(ws[..|ws| - 1], cfg) + [FileArg(ws[|ws| - 1], cfg)]
  }

  function OptFileArgs(ws: seq<string>, cfg: Config): seq<Pair>
    decreases |ws|
  {
    if |ws| == 0 then []
    else OptFileArgs(ws[..|ws| - 1], cfg) + [("-optfile", cfg.wadDirectory + ws[|ws| - 1])]
  }

  /** The user config, executed after the wads. */
  function ConfigArgs(st: Settings, cfg: Config): seq<Pair>
  {
    if st.config.Some? then [("+exec", cfg.cfgDirectory + st.config.value)] else []
  }

  /** The skill (3 when unset) and the game mode, switched on with no reset of any other mode. */
  function ModeArgs(st: Settings): seq<Pair>
  {
    [("+skill", IntToString(if st.skill != -1 then st.skill else 3))]
    + (if st.gamemode.Some? then [("+" + st.gamemode.value, " 1")] else [])
  }

  /** Each numeric flag set is passed only when it is positive. */
  function FlagArgs(st: Settings): seq<Pair>
  {
    ServerProcess.Flag("+dmflags", st.dmflags) + ServerProcess.Flag("+dmflags2", st.dmflags2)
    + ServerProcess.Flag("+dmflags3", st.dmflags3) + ServerProcess.Flag("+compatflags", st.compatflags)
    + ServerProcess.Flag("+compatflags2", st.compatflags2)
  }

  /** The two switches and the hostname with the brand in front. */
  function SwitchArgs(st: Settings, cfg: Config): seq<Pair>
  {
    ServerProcess.Optional(st.instagib, ("+instagib", "1"))
    + ServerProcess.Optional(st.buckshot, ("+buckshot", "1"))
    + (if st.servername.Some? then [("+sv_hostname", cfg.hostnameBase + " " + st.servername.value)] else [])
  }

  /** The RCON password and the ban, admin and whitelist files, all keyed by the server id. */
  function Secrets(serverId: string, cfg: Config): seq<Pair>
  {
    [("+sv_rconpassword", serverId),
     ("+sv_banfile", cfg.banlistDirectory + serverId + ".txt"),
     ("+sv_adminlistfile", cfg.adminlistDirectory + serverId + ".txt"),
     ("+sv_banexemptionfile", cfg.whitelistDirectory + serverId + ".txt")]
  }

  /** The wads, then the user config. */
  function WadArgs(fileWads: seq<string>, st: Settings, cfg: Config): seq<Pair>
  {
    FileArgs(fileWads, cfg) + ConfigArgs(st, cfg)
  }

  /** The pairs after the wads and the user config. */
  function GameArgs(st: Settings, cfg: Config): seq<Pair>
  {
    OptFileArgs(st.optwads, cfg) + ModeArgs(st) + FlagArgs(st) + SwitchArgs(st, cfg)
  }

  /** The game settings, then the pairs keyed by the server id. */
  function TailArgs(st: Settings, cfg: Config): seq<Pair>
  {
    GameArgs(st, cfg) + Secrets(st.serverId, cfg)
  }

  /**
   * Every pair processServerRunCommand adds, in order. `fileWads` is the
   * de-duplicated wad list (its order is HashSet order, chosen by the caller).
   */
  function Parameters(st: Settings, tempPort: int, cfg: Config, minPort: int, fileWads: seq<string>): seq<Pair>
  {
    Opening(st, tempPort, cfg, minPort) + WadArgs(fileWads, st, cfg) + TailArgs(st, cfg)
  }

  /** The argument vector: the executable, then the pairs. */
  function RunCommand(st: Settings, tempPort: int, cfg: Config, minPort: int, fileWads: seq<string>): seq<string>
  {
    [st.version.path] + Flatten(Parameters(st, tempPort, cfg, minPort, fileWads))
  }

  /**
   * The executable comes first, then "-port" with the previous port (or
   * the lowest one), then the global config; everything after the
   * executable comes in pairs, so the length is odd.
   */
  lemma RunCommandShape(st: Settings, tempPort: int, cfg: Config, minPort: int, fileWads: seq<string>)
    ensures var argv := RunCommand(st, tempPort, cfg, minPort, fileWads);
            && |argv| % 2 == 1
            && argv[0] == st.version.path
            && argv[1] == "-port" && argv[2] == IntToString(if tempPort != 0 then tempPort else minPort)
            && argv[3] == "+exec" && argv[4] == cfg.cfgDirectory + "global.cfg"
  {
    var ps := Parameters(st, tempPort, cfg, minPort, fileWads);
    assert ps[0] == ("-port", IntToString(RequestedPort(tempPort, minPort)));
    assert ps[1] == ("+exec", cfg.cfgDirectory + "global.cfg");
    FlattenIndex(ps, 0);
    FlattenIndex(ps, 1);
  }

  /**
   * The last four pairs: the RCON password is the server id, and the ban,
   * admin and whitelist files are named after it.
   */
  lemma SecretsLast(st: Settings, tempPort: int, cfg: Config, minPort: int, fileWads: seq<string>)
    ensures var ps := Parameters(st, tempPort, cfg, minPort, fileWads);
            && |ps| >= 4
            && ps[|ps| - 4] == ("+sv_rconpassword", st.serverId)
            && ps[|ps| - 3] == ("+sv_banfile", cfg.banlistDirectory + st.serverId + ".txt")
            && ps[|ps| - 2] == ("+sv_adminlistfile", cfg.adminlistDirectory + st.serverId + ".txt")
            && ps[|ps| - 1] == ("+sv_banexemptionfile", cfg.whitelistDirectory + st.serverId + ".txt")
  {
    var ps := Parameters(st, tempPort, cfg, minPort, fileWads);
    var front := Opening(st, tempPort, cfg, minPort) + WadArgs(fileWads, st, cfg) + GameArgs(st, cfg);
    assert ps == front + Secrets(st.serverId, cfg);
  }

  /** Skill -1 (unset) is passed as 3; any other skill as itself. */
  lemma SkillArgument(st: Settings)
    ensures st.skill == -1 ==> ("+skill", "3") in ModeArgs(st)
    ensures st.skill != -1 ==> ("+skill", IntToString(st.skill)) in ModeArgs(st)
  {
    assert ModeArgs(st)[0] == ("+skill", IntToString(if st.skill != -1 then st.skill else 3));
  }

  /** A flag set appears exactly when it is positive, with its decimal value. */
  lemma FlagArgument(st: Settings, n: string, v: string)
    ensures (n, v) in FlagArgs(st) <==>
            (|| (n == "+dmflags" && st.dmflags > 0 && v == IntToString(st.dmflags))
             || (n == "+dmflags2" && st.dmflags2 > 0 && v == IntToString(st.dmflags2))
             || (n == "+dmflags3" && st.dmflags3 > 0 && v == IntToString(st.dmflags3))
             || (n == "+compatflags" && st.compatflags > 0 && v == IntToString(st.compatflags))
             || (n == "+compatflags2" && st.compatflags2 > 0 && v == IntToString(st.compatflags2)))
  {
  }

  /** Every wad pair is a "-file" pair, one per listed wad. */
  lemma {:induction false} FileArgsSpec(ws: seq<string>, cfg: Config)
    ensures |FileArgs(ws, cfg)| == |ws|
    ensures forall i :: 0 <= i < |ws| ==> FileArgs(ws, cfg)[i] == FileArg(ws[i], cfg)
    ensures forall q :: q in FileArgs(ws, cfg) ==> q.0 == "-file"
    decreases |ws|
  {
    if |ws| > 0 {
      FileArgsSpec(ws[..|ws| - 1], cfg);
    }
  }

  /** Every optional wad pair is an "-optfile" pair. */
  lemma {:induction false} OptFileArgsOptions(ws: seq<string>, cfg: Config)
    ensures forall q :: q in OptFileArgs(ws, cfg) ==> q.0 == "-optfile"
    decreases |ws|
  {
    if |ws| > 0 {
      OptFileArgsOptions(ws[..|ws| - 1], cfg);
    }
  }

  /**
   * Unlike the current bot, no mode is switched off: any "+cooperative"
   * pair on the command line is the game mode itself, switched on.
   */
  lemma NoCooperativeReset(st: Settings, tempPort: int, cfg: Config, minPort: int, fileWads: seq<string>, p: Pair)
    requires p in Parameters(st, tempPort, cfg, minPort, fileWads) && p.0 == "+cooperative"
    ensures p == ("+cooperative", " 1") && st.gamemode == Some("cooperative")
  {
    FileArgsSpec(fileWads, cfg);
    OptFileArgsOptions(st.optwads, cfg);
    var a := Opening(st, tempPort, cfg, minPort);
    var b := FileArgs(fileWads, cfg);
    var c := ConfigArgs(st, cfg);
    var g := GameArgs(st, cfg);
    var d := Secrets(st.serverId, cfg);
    assert Parameters(st, tempPort, cfg, minPort, fileWads) == a + (b + c) + (g + d);
    assert p !in a && p !in b && p !in c && p !in d;
    assert p in g;
    assert p !in OptFileArgs(st.optwads, cfg);
    assert p !in FlagArgs(st) && p !in SwitchArgs(st, cfg);
    assert p in ModeArgs(st);
    assert ("+" + st.gamemode.value)[1..] == st.gamemode.value;
  }

  // --------------------------------------------------- one line of output

  const AlternatePortPrefix := "Server using alternate port "
  const UdpInitialized := "UDP Initialized."
  const BanReason := " perm \"You have been banned from TSPG. If you feel that this is an error, please visit irc.zandronum.com #tspg-<nodename>\""

  datatype Notice =
    | PortParseError
    | BindParseError
    | Started(port: int)
    | Relayed(text: string)

  datatype Effect =
    | Say(notice: Notice)
    /** bot.servers gains this server. */
    | Register
    /** The version's list in vSHashmap gains this server. */
    | RegisterVersion
    /** A console command written to the server. */
    | Console(command: string)

  /** What a line may change: the port, run()'s port text, the RCON password, the activity time. */
  datatype LineState = LineState(port: int, portText: string, rconPassword: string, lastActivity: int)

  /** A line's effect; `aborted` when an exception ends run() without the end-of-output handling. */
  datatype LineResult = LineResult(st: LineState, effects: seq<Effect>, aborted: bool)

  /** Take a port text: on an integer the port changes, otherwise the bot warns. */
  function TakePort(st: LineState, t: string, error: Notice): (r: (LineState, seq<Effect>))
    ensures r.0.rconPassword == st.rconPassword && r.0.lastActivity == st.lastActivity && r.0.portText == t
    ensures IsInteger(t) <==> r.0.port == ParseInt(t).GetOr(st.port) && r.1 == []
    ensures !IsInteger(t) ==> r.0.port == st.port && r.1 == [Say(error)]
  {
    if IsInteger(t) then (st.(portText := t, port := ParseInt(t).value), [])
    else (st.(portText := t), [Say(error)])
  }

  /** "Server using alternate port N.": the prefix and every '.' deleted, then trimmed. */
  function AlternatePortText(l: string): string
  {
    ServerProcess.DeleteThrough(l, AlternatePortPrefix, ".")
  }

  /**
   * The two port notices, with the bind failure read the corrected way:
   * the prefix is deleted together with the port the line itself names.
   * PortStageAsWritten is the reading run() does, which misses the first
   * bind failure.
   */
  function PortStage(st: LineState, l: string): (r: (LineState, seq<Effect>))
    ensures r.0.rconPassword == st.rconPassword && r.0.lastActivity == st.lastActivity
    ensures Register !in r.1 && RegisterVersion !in r.1
  {
    if StartsWith(l, AlternatePortPrefix) then TakePort(st, AlternatePortText(l), PortParseError)
    else if StartsWith(l, ServerProcess.BindFailurePrefix) then TakePort(st, ServerProcess.BindPortText(l), BindParseError)
    else (st, [])
  }

  /** "UDP Initialized." (any case): the server is listed, then listed under its version. */
  function UdpStage(st: LineState, l: string): seq<Effect>
  {
    if EqualsIgnoreCase(l, UdpInitialized) then [Register, RegisterVersion, Say(Started(st.port))] else []
  }

  /**
   * A "CONNECTION" line: the address is the text before ':' in the last
   * word; a banned address gets an addban. None when that word is only
   * colons and the split leaves nothing to index.
   */
  function BanStage(keywords: seq<string>, cfg: Config): (r: Option<seq<Effect>>)
    requires |keywords| > 0
    ensures r.None? <==> keywords[0] == "CONNECTION" && |Split(keywords[|keywords| - 1], ':')| == 0
    ensures r.Some? && r.value != [] ==>
              && keywords[0] == "CONNECTION"
              && var address := Split(keywords[|keywords| - 1], ':')[0];
              && cfg.checkBanned(address).Some?
              && r.value == [Console("addban " + cfg.checkBanned(address).value + BanReason)]
  {
    if keywords[0] == "CONNECTION" then
      var parts := Split(keywords[|keywords| - 1], ':');
      if |parts| == 0 then None
      else
        var banned := cfg.checkBanned(parts[0]);
        Some(if banned.Some? then [Console("addban " + banned.value + BanReason)] else [])
    else Some([])
  }

  /** String.indexOf(String, int): the first place at or after `from` (0 when negative) where `t` starts, or -1. */
  function IndexOfFrom(s: string, t: string, from: int): (r: int)
    requires |t| > 0
    ensures r == -1 || (0 <= r && from <= r && r + |t| <= |s| && s[r..r + |t|] == t)
    decreases |s| - (if from < 0 then 0 else from)
  {
    var k := if from < 0 then 0 else from;
    if k + |t| > |s| then -1
    else if s[k..k + |t|] == t then k
    else IndexOfFrom(s, t, k + 1)
  }

  const IrcMarker := "!irc "

  /** The relayed text: the port, the part before the colon, and the message from "!irc " on. */
  function RelayText(l: string, comma: nat, irc: nat, port: int): string
    requires comma <= |l| && irc <= |l|
  {
    IntToString(port) + " | " + l[..comma] + ":" + l[irc..]
  }

  /** The chat relay as written: it needs "!irc " at index 1 of a line that starts with "CHAT". */
  function ChatRelayAsWritten(l: string, keywords: seq<string>, port: int, relay: bool): seq<Effect>
    requires |keywords| > 0
  {
    if keywords[0] == "CHAT" && relay then
      var comma := IndexOf(l, ':');
      var irc := IndexOfFrom(l, IrcMarker, comma);
      if comma != -1 && irc == 1 then [Say(Relayed(RelayText(l, comma, irc, port)))] else []
    else []
  }

  /** The chat relay, corrected: any "!irc " after the colon is relayed. */
  function ChatRelay(l: string, keywords: seq<string>, port: int, relay: bool): (r: seq<Effect>)
    requires |keywords| > 0
    ensures forall e :: e in r ==> e.Say? && e.notice.Relayed?
    ensures r != [] ==> keywords[0] == "CHAT" && relay && ':' in l
  {
    if keywords[0] == "CHAT" && relay then
      var comma := IndexOf(l, ':');
      var irc := IndexOfFrom(l, IrcMarker, comma);
      if comma != -1 && irc != -1 then [Say(Relayed(RelayText(l, comma, irc, port)))] else []
    else []
  }

  /**
   * As written the relay never fires: the first word is "CHAT", so the
   * colon is at index 4 or later and "!irc " is found no earlier than it.
   */
  lemma ChatRelayAsWrittenNeverFires(l: string, port: int, relay: bool)
    requires |Split(l, ' ')| > 0
    ensures ChatRelayAsWritten(l, Split(l, ' '), port, relay) == []
  {
    var keywords := Split(l, ' ');
    SplitHead(l, ' ');
    if keywords[0] == "CHAT" && relay {
      var comma := IndexOf(l, ':');
      assert l[..4] == "CHAT";
      assert forall i :: 0 <= i < 4 ==> l[i] == "CHAT"[i] && l[i] != ':';
      assert comma == -1 || comma >= 4;
    }
  }

  /** The first occurrence of `c` is at `k` when `s[k]` is `c` and nothing before it is. */
  lemma IndexOfAt(s: string, c: char, k: nat)
    requires k < |s| && s[k] == c && c !in s[..k]
    ensures IndexOf(s, c) == k
  {
    assert s[k] in s;
  }

  /** The search from `from` stops at `k` when `t` starts there and nowhere in between. */
  lemma {:induction false} IndexOfFromAt(s: string, t: string, from: nat, k: nat)
    requires |t| > 0 && from <= k && k + |t| <= |s| && s[k..k + |t|] == t
    requires forall j :: from <= j < k ==> s[j] != t[0]
    ensures IndexOfFrom(s, t, from) == k
    decreases k - from
  {
    if from < k {
      assert s[from..from + |t|][0] == s[from];
      IndexOfFromAt(s, t, from + 1, k);
    }
  }

  /** Corrected, a chat line naming "!irc " after its colon is relayed with its sender and message. */
  lemma ChatRelayFires(name: string, text: string, port: int)
    requires ':' !in name && ' ' !in name
    ensures var l := ("CHAT " + name) + ": " + (IrcMarker + text);
            && |Split(l, ' ')| > 0
            && ChatRelay(l, Split(l, ' '), port, true)
                 == [Say(Relayed(IntToString(port) + " | " + ("CHAT " + name) + ":" + (IrcMarker + text)))]
  {
    var sender := "CHAT " + name;
    var rest := IrcMarker + text;
    var l := sender + ": " + rest;
    var comma := |sender|;
    assert l[..4] == "CHAT" && l[4] == ' ';
    IndexOfAt(l, ' ', 4);
    SplitHead(l, ' ');
    assert Split(l, ' ')[0] == "CHAT";
    assert l[..comma] == sender && l[comma] == ':';
    assert ':' !in sender;
    IndexOfAt(l, ':', comma);
    assert l[comma + 2..] == rest;
    assert l[comma + 2..comma + 7] == IrcMarker;
    IndexOfFromAt(l, IrcMarker, comma, comma + 2);
    assert RelayText(l, comma, comma + 2, port) == IntToString(port) + " | " + sender + ":" + rest;
  }

  /** An RCON password echo: `-> sv_rconpassword X ...` or `"sv_rconpassword" X ...` (quotes removed). */
  function RconStage(st: LineState, keywords: seq<string>): (r: LineState)
    ensures r.port == st.port && r.portText == st.portText && r.lastActivity == st.lastActivity
  {
    if |keywords| > 3 then
      if keywords[0] == "->" && EqualsIgnoreCase(keywords[1], "sv_rconpassword") then st.(rconPassword := keywords[2])
      else if EqualsIgnoreCase(keywords[0], "\"sv_rconpassword\"") then st.(rconPassword := RemoveChar(keywords[2], '"'))
      else st
    else st
  }

  /** A player joining or leaving marks the server active at `now`. */
  function ActivityStage(st: LineState, l: string, now: int): LineState
  {
    if EndsWith(l, "has connected.") || EndsWith(l, "disconnected.") then st.(lastActivity := now) else st
  }

  /**
   * The checks on the line's words: bans, the chat relay, the RCON
   * password, then the activity time. A line of spaces only has no first
   * word and throws, as does a "CONNECTION" line whose last word is only
   * colons; either way nothing changes.
   */
  function WordStage(st: LineState, l: string, cfg: Config, now: int): (r: LineResult)
    ensures forall e :: e in r.effects ==> e.Console? || e.Say?
    ensures r.aborted ==> r.st == st && r.effects == []
    ensures r.st.port == st.port && r.st.portText == st.portText
  {
    var keywords := Split(l, ' ');
    if |keywords| == 0 then LineResult(st, [], true)
    else
      var ban := BanStage(keywords, cfg);
      if ban.None? then LineResult(st, [], true)
      else
        var relay := ChatRelay(l, keywords, st.port, cfg.ircRelay);
        LineResult(ActivityStage(RconStage(st, keywords), l, now), ban.value + relay, false)
  }

  /**
   * One pass of the read loop: the port notices, the start notice, then
   * the word checks. `catalogued` says whether vSHashmap has a list for
   * the server's version; without one the start notice throws after the
   * server is listed.
   */
  function Step(st: LineState, l: string, cfg: Config, now: int, catalogued: bool): LineResult
  {
    var (s1, e1) := PortStage(st, l);
    if EqualsIgnoreCase(l, UdpInitialized) && !catalogued then LineResult(s1, e1 + [Register], true)
    else
      var e2 := UdpStage(s1, l);
      var w := WordStage(s1, l, cfg, now);
      LineResult(w.st, e1 + e2 + w.effects, w.aborted)
  }

  /** Only the start notice lists the server, and then under its version too. */
  lemma RegisterOnlyOnStart(st: LineState, l: string, cfg: Config, now: int)
    ensures Register in Step(st, l, cfg, now, true).effects <==> EqualsIgnoreCase(l, UdpInitialized)
    ensures RegisterVersion in Step(st, l, cfg, now, true).effects <==> EqualsIgnoreCase(l, UdpInitialized)
  {
    var (s1, e1) := PortStage(st, l);
    var e2 := UdpStage(s1, l);
    var w := WordStage(s1, l, cfg, now);
    assert Step(st, l, cfg, now, true).effects == e1 + e2 + w.effects;
    assert EqualsIgnoreCase(l, UdpInitialized) ==> e2[0] == Register && e2[1] == RegisterVersion;
  }

  /** A line of spaces only throws before any word-based check, and changes nothing. */
  lemma SpacesOnlyLineThrows(st: LineState, n: nat, cfg: Config, now: int, catalogued: bool)
    requires n > 0
    ensures var l := seq(n, _ => ' ');
            Step(st, l, cfg, now, catalogued) == LineResult(st, [], true)
  {
    var l := seq(n, _ => ' ');
    SplitHead(l, ' ');
    assert !StartsWith(l, AlternatePortPrefix) by {
      if |l| >= |AlternatePortPrefix| {
        assert l[..|AlternatePortPrefix|][0] == ' ';
      }
    }
    assert !StartsWith(l, ServerProcess.BindFailurePrefix) by {
      if |l| >= |ServerProcess.BindFailurePrefix| {
        assert l[..|ServerProcess.BindFailurePrefix|][0] == ' ';
      }
    }
    assert !EqualsIgnoreCase(l, UdpInitialized) by {
      if |l| == |UdpInitialized| {
        assert ToLower(l)[0] == ' ';
      }
    }
  }

  /** A password echo of the first form stores the third word as it is. */
  lemma RconEcho(st: LineState, keywords: seq<string>)
    requires |keywords| > 3 && keywords[0] == "->" && EqualsIgnoreCase(keywords[1], "sv_rconpassword")
    ensures RconStage(st, keywords).rconPassword == keywords[2]
  {
  }

  /** Only a join or a leave moves the activity time, and then to `now`. */
  lemma ActivityOnlyOnJoinOrLeave(st: LineState, l: string, cfg: Config, now: int, catalogued: bool)
    requires !Step(st, l, cfg, now, catalogued).aborted
    ensures var r := Step(st, l, cfg, now, catalogued);
            r.st.lastActivity == (if EndsWith(l, "has connected.") || EndsWith(l, "disconnected.") then now else st.lastActivity)
  {
  }

  /**
   * The two port notices as run() reads them: the bind failure deletes the
   * prefix followed by the port text of an earlier line, which is empty
   * unless an alternate-port line came first. Every other line is read as
   * PortStage reads it.
   */
  function PortStageAsWritten(st: LineState, l: string): (r: (LineState, seq<Effect>))
    ensures r.0.rconPassword == st.rconPassword && r.0.lastActivity == st.lastActivity
    ensures !StartsWith(l, ServerProcess.BindFailurePrefix) || StartsWith(l, AlternatePortPrefix) ==> r == PortStage(st, l)
  {
    if StartsWith(l, AlternatePortPrefix) then TakePort(st, AlternatePortText(l), PortParseError)
    else if StartsWith(l, ServerProcess.BindFailurePrefix) then
      TakePort(st, ServerProcess.BindPortTextAsWritten(l, st.portText), BindParseError)
    else (st, [])
  }

  /** A bind-failure notice is no alternate-port notice. */
  lemma BindNoticeIsBindFailure(n1: nat, n2: nat)
    ensures StartsWith(ServerProcess.BindNotice(n1, n2), ServerProcess.BindFailurePrefix)
    ensures !StartsWith(ServerProcess.BindNotice(n1, n2), AlternatePortPrefix)
  {
    var l := ServerProcess.BindNotice(n1, n2);
    var p := ServerProcess.BindFailurePrefix;
    assert l == p + (NatToString(n1) + ServerProcess.BindingTo + NatToString(n2) + " instead...");
    assert l[..|p|] == p;
    assert l[0] == 'N';
  }

  /**
   * As written, a bind-failure notice with no port text before it is not
   * read: the port stays what it was and the bot warns, so the start
   * notice that follows announces that stale port.
   */
  lemma BindNoticeAsWrittenKeepsPort(st: LineState, n1: nat, n2: nat)
    requires st.portText == ""
    ensures PortStageAsWritten(st, ServerProcess.BindNotice(n1, n2)).0.port == st.port
    ensures PortStageAsWritten(st, ServerProcess.BindNotice(n1, n2)).1 == [Say(BindParseError)]
    ensures UdpStage(PortStageAsWritten(st, ServerProcess.BindNotice(n1, n2)).0, UdpInitialized)
            == [Register, RegisterVersion, Say(Started(st.port))]
  {
    BindNoticeIsBindFailure(n1, n2);
    ServerProcess.BindNoticeAsWrittenMisses(n1, n2);
  }

  /** Corrected, the same notice sets the port the server binds, without a warning. */
  lemma BindNoticeSetsPort(st: LineState, n1: nat, n2: nat)
    requires InInt32(n2)
    ensures PortStage(st, ServerProcess.BindNotice(n1, n2)).0.port == n2
    ensures PortStage(st, ServerProcess.BindNotice(n1, n2)).1 == []
    ensures UdpStage(PortStage(st, ServerProcess.BindNotice(n1, n2)).0, UdpInitialized)
            == [Register, RegisterVersion, Say(Started(n2))]
  {
    BindNoticeIsBindFailure(n1, n2);
    ServerProcess.BindNoticeReadsNewPort(n1, n2);
  }

  // ------------------------------------------------------- end of output

  datatype Outcome = Quiet | StoppedByKill | Crashed | NotStarted

  /**
   * The report at the end of the output: nothing when the stop message is
   * hidden; otherwise no port means the server never started, and a
   * server with a port either was being killed or crashed.
   */
  function EndOfStream(hideStopMessage: bool, port: int, beingKilled: bool): Outcome
  {
    if hideStopMessage then Quiet
    else if port != 0 then (if beingKilled then StoppedByKill else Crashed)
    else NotStarted
  }

  datatype Restart =
    | NoRestart
    /** processHost is called again for the same port. */
    | Restarting(port: int)
    /** cfg_data is dereferenced while null and the exception ends run(). */
    | RestartThrows

  /**
   * The auto-restart check as written. Both branches read max_restarts
   * through the process's own cfg_data: the condition once auto-restart is
   * on and the server had a port, and the else branch's debug text in
   * every other case. `cfgData` is that field's max_restarts, None while
   * the field is null; this class never assigns it.
   */
  function RestartAsWritten(autoRestart: bool, port: int, restarts: int, cfgData: Option<int>): Restart
  {
    if autoRestart && port != 0 then
      if cfgData.None? then RestartThrows
      else if restarts < cfgData.value then Restarting(port) else NoRestart
    else if cfgData.None? then RestartThrows
    else NoRestart
  }

  /** The auto-restart check, corrected to read max_restarts from the bot's configuration. */
  function RestartCheck(autoRestart: bool, port: int, restarts: int, maxRestarts: int): (r: Restart)
    ensures !r.RestartThrows?
  {
    if autoRestart && port != 0 && restarts < maxRestarts then Restarting(port) else NoRestart
  }

  /** As written, with cfg_data null, the check throws on every path and no server is restarted. */
  lemma RestartAsWrittenNeverRestarts(autoRestart: bool, port: int, restarts: int)
    ensures RestartAsWritten(autoRestart, port, restarts, None) == RestartThrows
  {
  }

  /** Had cfg_data been set, the check as written would be the corrected one. */
  lemma RestartAsWrittenWithConfig(autoRestart: bool, port: int, restarts: int, maxRestarts: int)
    ensures RestartAsWritten(autoRestart, port, restarts, Some(maxRestarts)) == RestartCheck(autoRestart, port, restarts, maxRestarts)
  {
  }

  /**
   * The two disagree on a crashed server with auto-restart on and restarts
   * to spare, and on a server without auto-restart, where the corrected
   * check passes quietly.
   */
  lemma RestartDiffers()
    ensures RestartAsWritten(true, 10666, 0, None) == RestartThrows
    ensures RestartCheck(true, 10666, 0, 3) == Restarting(10666)
    ensures RestartAsWritten(false, 10666, 0, None) == RestartThrows
    ensures RestartCheck(false, 10666, 0, 3) == NoRestart
  {
  }

  /**
   * Corrected, a restart happens exactly when auto-restart is on, the
   * server had a port and restarts are left; then the count stays within
   * the limit.
   */
  lemma RestartWithinLimit(autoRestart: bool, port: int, restarts: int, maxRestarts: int)
    ensures RestartCheck(autoRestart, port, restarts, maxRestarts).Restarting? <==>
              autoRestart && port != 0 && restarts < maxRestarts
    ensures RestartCheck(autoRestart, port, restarts, maxRestarts).Restarting? ==>
              restarts + 1 <= maxRestarts && RestartCheck(autoRestart, port, restarts, maxRestarts).port == port
  {
  }

  class Process {
    const server: LegacyServer.Server
    const bot: LegacyBot.Bot

    /** serverRunCommands. */
    var commands: seq<string>
    /** The executable and the pairs added so far, for the proofs. */
    ghost var executable: string
    ghost var added: seq<Pair>
    /** run()'s portNumber: the last port text read from the output. */
    var portText: string
    /** How many times this process has restarted its server. */
    var restarts: int
    /** Whether the child process is still there. */
    var alive: bool

    /** The constructor, before processServerRunCommand runs. */
    constructor (server: LegacyServer.Server, bot: LegacyBot.Bot)
      ensures this.server == server && this.bot == bot
      ensures commands == [] && added == [] && portText == "" && restarts == 0 && !alive
    {
      this.server := server;
      this.bot := bot;
      commands, executable, added, portText, restarts, alive := [], "", [], "", 0, false;
    }

    /** The executable first, then the pairs added so far. */
    ghost predicate Arranged()
      reads this
    {
      commands == [executable] + Flatten(added)
    }

    /** The fields building the command line leaves alone. */
    twostate predicate Kept()
      reads this
    {
      executable == old(executable) && portText == old(portText) && restarts == old(restarts) && alive == old(alive)
    }

    /** addParameter: the option, then its value. */
    method AddParameter(parameter: string, argument: string)
      requires Arranged()
      modifies this
      ensures Arranged() && Kept()
      ensures added == old(added) + [(parameter, argument)]
    {
      FlattenSnoc(added, (parameter, argument));
      commands := commands + [parameter, argument];
      added := added + [(parameter, argument)];
    }

    /** The previous port when there is one, else the lowest port. */
    method AddPort(tempPort: int, minPort: int)
      requires Arranged()
      modifies this
      ensures Arranged() && Kept()
      ensures added == old(added) + [("-port", IntToString(RequestedPort(tempPort, minPort)))]
    {
      if tempPort != 0 {
        AddParameter("-port", IntToString(tempPort));
      } else {
        AddParameter("-port", IntToString(minPort));
      }
    }

    method AddIwad(st: Settings, cfg: Config)
      requires Arranged()
      modifies this
      ensures Arranged() && Kept()
      ensures added == old(added) + (if st.iwad.Some? then [("-iwad", cfg.iwadDirectory + st.iwad.value)] else [])
    {
      if st.iwad.Some? {
        AddParameter("-iwad", cfg.iwadDirectory + st.iwad.value);
      }
    }

    method AddOpening(st: Settings, tempPort: int, cfg: Config, minPort: int)
      requires Arranged()
      modifies this
      ensures Arranged() && Kept()
      ensures added == old(added) + Opening(st, tempPort, cfg, minPort)
    {
      ghost var start := added;
      AddPort(tempPort, minPort);
      AddParameter("+exec", cfg.cfgDirectory + "global.cfg");
      var key := cfg.createWadPage(Join(st.wads, ","));
      AddParameter("+sv_website", WadPageLink + key);
      ghost var fixed := added;
      AddIwad(st, cfg);
      assert fixed == start + Opening(st, tempPort, cfg, minPort)[..3];
    }

    method AddFiles(ws: seq<string>, cfg: Config)
      requires Arranged()
      modifies this
      ensures Arranged() && Kept()
      ensures added == old(added) + FileArgs(ws, cfg)
    {
      for i := 0 to |ws|
        invariant Arranged() && Kept()
        invariant added == old(added) + FileArgs(ws[..i], cfg)
      {
        assert ws[..i + 1][..i] == ws[..i];
        if cfg.isIwad(ws[i]) {
          AddParameter("-file", cfg.iwadDirectory + ws[i]);
        } else {
          AddParameter("-file", cfg.wadDirectory + ws[i]);
        }
      }
      assert ws[..|ws|] == ws;
    }

    method AddConfig(st: Settings, cfg: Config)
      requires Arranged()
      modifies this
      ensures Arranged() && Kept()
      ensures added == old(added) + ConfigArgs(st, cfg)
    {
      if st.config.Some? {
        AddParameter("+exec", cfg.cfgDirectory + st.config.value);
      }
    }

    method AddOptFiles(ws: seq<string>, cfg: Config)
      requires Arranged()
      modifies this
      ensures Arranged() && Kept()
      ensures added == old(added) + OptFileArgs(ws, cfg)
    {
      for i := 0 to |ws|
        invariant Arranged() && Kept()
        invariant added == old(added) + OptFileArgs(ws[..i], cfg)
      {
        assert ws[..i + 1][..i] == ws[..i];
        AddParameter("-optfile", cfg.wadDirectory + ws[i]);
      }
      assert ws[..|ws|] == ws;
    }

    method AddModeArgs(st: Settings)
      requires Arranged()
      modifies this
      ensures Arranged() && Kept()
      ensures added == old(added) + ModeArgs(st)
    {
      AddParameter("+skill", IntToString(if st.skill != -1 then st.skill else 3));
      if st.gamemode.Some? {
        AddParameter("+" + st.gamemode.value, " 1");
      }
    }

    /** One flag set, passed only when positive. */
    method AddFlag(name: string, value: int)
      requires Arranged()
      modifies this
      ensures Arranged() && Kept()
      ensures added == old(added) + ServerProcess.Flag(name, value)
    {
      if value > 0 {
        AddParameter(name, IntToString(value));
      }
    }

    method AddFlags(st: Settings)
      requires Arranged()
      modifies this
      ensures Arranged() && Kept()
      ensures added == old(added) + FlagArgs(st)
    {
      ghost var start := added;
      ghost var f1 := ServerProcess.Flag("+dmflags", st.dmflags);
      ghost var f2 := ServerProcess.Flag("+dmflags2", st.dmflags2);
      ghost var f3 := ServerProcess.Flag("+dmflags3", st.dmflags3);
      ghost var f4 := ServerProcess.Flag("+compatflags", st.compatflags);
      ghost var f5 := ServerProcess.Flag("+compatflags2", st.compatflags2);
      AddFlag("+dmflags", st.dmflags);
      AddFlag("+dmflags2", st.dmflags2);
      Extend(start, f1, f2);
      AddFlag("+dmflags3", st.dmflags3);
      Extend(start, f1 + f2, f3);
      AddFlag("+compatflags", st.compatflags);
      Extend(start, f1 + f2 + f3, f4);
      AddFlag("+compatflags2", st.compatflags2);
      Extend(start, f1 + f2 + f3 + f4, f5);
    }

    method AddSwitch(c: bool, name: string)
      requires Arranged()
      modifies this
      ensures Arranged() && Kept()
      ensures added == old(added) + ServerProcess.Optional(c, (name, "1"))
    {
      if c {
        AddParameter(name, "1");
      }
    }

    method AddSwitches(st: Settings, cfg: Config)
      requires Arranged()
      modifies this
      ensures Arranged() && Kept()
      ensures added == old(added) + SwitchArgs(st, cfg)
    {
      ghost var start := added;
      ghost var a := ServerProcess.Optional(st.instagib, ("+instagib", "1"));
      ghost var b := ServerProcess.Optional(st.buckshot, ("+buckshot", "1"));
      ghost var c := if st.servername.Some? then [("+sv_hostname", cfg.hostnameBase + " " + st.servername.value)] else [];
      AddSwitch(st.instagib, "+instagib");
      AddSwitch(st.buckshot, "+buckshot");
      Extend(start, a, b);
      if st.servername.Some? {
        AddParameter("+sv_hostname", cfg.hostnameBase + " " + st.servername.value);
      }
      Extend(start, a + b, c);
    }

    method AddGameArgs(st: Settings, cfg: Config)
      requires Arranged()
      modifies this
      ensures Arranged() && Kept()
      ensures added == old(added) + GameArgs(st, cfg)
    {
      ghost var start := added;
      AddOptFiles(st.optwads, cfg);
      AddModeArgs(st);
      Extend(start, OptFileArgs(st.optwads, cfg), ModeArgs(st));
      AddFlags(st);
      Extend(start, OptFileArgs(st.optwads, cfg) + ModeArgs(st), FlagArgs(st));
      AddSwitches(st, cfg);
      Extend(start, OptFileArgs(st.optwads, cfg) + ModeArgs(st) + FlagArgs(st), SwitchArgs(st, cfg));
    }

    method AddSecrets(serverId: string, cfg: Config)
      requires Arranged()
      modifies this
      ensures Arranged() && Kept()
      ensures added == old(added) + Secrets(serverId, cfg)
    {
      AddParameter("+sv_rconpassword", serverId);
      AddParameter("+sv_banfile", cfg.banlistDirectory + serverId + ".txt");
      AddParameter("+sv_adminlistfile", cfg.adminlistDirectory + serverId + ".txt");
      AddParameter("+sv_banexemptionfile", cfg.whitelistDirectory + serverId + ".txt");
    }

    /** The wads, then the user config. */
    method AddWadsAndConfig(fileWads: seq<string>, st: Settings, cfg: Config)
      requires Arranged()
      modifies this
      ensures Arranged() && Kept()
      ensures added == old(added) + WadArgs(fileWads, st, cfg)
    {
      ghost var start := added;
      AddFiles(fileWads, cfg);
      AddConfig(st, cfg);
      Extend(start, FileArgs(fileWads, cfg), ConfigArgs(st, cfg));
    }

    /** The game settings, then the pairs keyed by the server id. */
    method AddTail(st: Settings, cfg: Config)
      requires Arranged()
      modifies this
      ensures Arranged() && Kept()
      ensures added == old(added) + TailArgs(st, cfg)
    {
      ghost var start := added;
      AddGameArgs(st, cfg);
      AddSecrets(st.serverId, cfg);
      Extend(start, GameArgs(st, cfg), Secrets(st.serverId, cfg));
    }

    /** The argument vector of processServerRunCommand, built pair by pair. */
    method BuildCommand(st: Settings, tempPort: int, cfg: Config, minPort: int) returns (fileWads: seq<string>)
      modifies this
      ensures Functions.NoDuplicates(fileWads)
      ensures forall w :: w in fileWads <==> w in StartupWads(st, cfg)
      ensures commands == RunCommand(st, tempPort, cfg, minPort, fileWads)
      ensures Arranged() && portText == old(portText) && restarts == old(restarts) && alive == old(alive)
    {
      commands, executable, added := [st.version.path], st.version.path, [];
      AddOpening(st, tempPort, cfg, minPort);
      fileWads := ServerProcess.StartupWadList(st.skulltagData, st.version.data, st.wads, cfg.extraWads);
      AddWadsAndConfig(fileWads, st, cfg);
      AddTail(st, cfg);
      ghost var o := Opening(st, tempPort, cfg, minPort);
      assert [] + o == o;
      assert added == Parameters(st, tempPort, cfg, minPort, fileWads);
      assert executable == st.version.path;
    }

    /**
     * processServerRunCommand: the argument vector, the server's wad list
     * replaced by the de-duplicated one, and the RCON password set to the
     * server id.
     */
    method ProcessServerRunCommand(cfg: Config, minPort: int) returns (fileWads: seq<string>)
      modifies this, server
      ensures Functions.NoDuplicates(fileWads)
      ensures forall w :: w in fileWads <==> w in StartupWads(old(server.settings), cfg)
      ensures commands == RunCommand(old(server.settings), old(server.tempPort), cfg, minPort, fileWads)
      ensures server.settings == old(server.settings).(wads := fileWads)
      ensures server.rconPassword == old(server.settings.serverId)
      ensures server.port == old(server.port) && server.tempPort == old(server.tempPort)
      ensures server.lastActivity == old(server.lastActivity) && server.autoRestart == old(server.autoRestart)
      ensures portText == old(portText) && restarts == old(restarts) && alive == old(alive)
    {
      fileWads := BuildCommand(server.settings, server.tempPort, cfg, minPort);
      server.settings := server.settings.(wads := fileWads);
      server.rconPassword := server.settings.serverId;
    }

    /** The start of run(): the start time and the first activity are now. */
    method Start(now: int)
      modifies server, this
      ensures server.timeStarted == now && server.lastActivity == now && alive
      ensures server.settings == old(server.settings) && server.port == old(server.port)
      ensures server.rconPassword == old(server.rconPassword) && portText == old(portText)
    {
      server.timeStarted := now;
      server.lastActivity := now;
      alive := true;
    }

    function State(): LineState
      reads this, server
    {
      LineState(server.port, portText, server.rconPassword, server.lastActivity)
    }

    method HandlePort(l: string) returns (effects: seq<Effect>)
      modifies server, this
      ensures (State(), effects) == PortStage(old(State()), l)
      ensures server.settings == old(server.settings) && restarts == old(restarts) && alive == old(alive)
    {
      effects := [];
      if StartsWith(l, AlternatePortPrefix) {
        portText := AlternatePortText(l);
        if IsInteger(portText) {
          server.port := ParseInt(portText).value;
        } else {
          effects := [Say(PortParseError)];
        }
      } else if StartsWith(l, ServerProcess.BindFailurePrefix) {
        portText := ServerProcess.BindPortText(l);
        if IsInteger(portText) {
          server.port := ParseInt(portText).value;
        } else {
          effects := [Say(BindParseError)];
        }
      }
    }

    method HandleWords(l: string, cfg: Config, now: int) returns (effects: seq<Effect>, aborted: bool)
      modifies server
      ensures LineResult(State(), effects, aborted) == WordStage(old(State()), l, cfg, now)
      ensures server.settings == old(server.settings)
    {
      var keywords := Split(l, ' ');
      if |keywords| == 0 {
        return [], true;
      }
      var ban := BanStage(keywords, cfg);
      if ban.None? {
        return [], true;
      }
      aborted := false;
      var relay := ChatRelay(l, keywords, server.port, cfg.ircRelay);
      if |keywords| > 3 {
        if keywords[0] == "->" && EqualsIgnoreCase(keywords[1], "sv_rconpassword") {
          server.rconPassword := keywords[2];
        } else if EqualsIgnoreCase(keywords[0], "\"sv_rconpassword\"") {
          server.rconPassword := RemoveChar(keywords[2], '"');
        }
      }
      if EndsWith(l, "has connected.") || EndsWith(l, "disconnected.") {
        server.lastActivity := now;
      }
      effects := ban.value + relay;
    }

    /**
     * The start notice: the server joins bot.servers, then its version's
     * list; the second step throws when the version has no list.
     */
    method HandleStart(l: string) returns (effects: seq<Effect>, aborted: bool)
      modifies bot
      ensures var catalogued := server.settings.version.name in old(bot.vSHashmap);
              && (aborted <==> EqualsIgnoreCase(l, UdpInitialized) && !catalogued)
              && effects == (if aborted then [Register] else UdpStage(State(), l))
      ensures bot.servers == old(bot.servers) + (if EqualsIgnoreCase(l, UdpInitialized) then [server] else [])
      ensures var name := server.settings.version.name;
              bot.vSHashmap == if EqualsIgnoreCase(l, UdpInitialized) && name in old(bot.vSHashmap)
                               then old(bot.vSHashmap)[name := old(bot.vSHashmap)[name] + [server]]
                               else old(bot.vSHashmap)
      ensures bot.botEnabled == old(bot.botEnabled)
    {
      effects, aborted := [], false;
      if EqualsIgnoreCase(l, UdpInitialized) {
        var name := server.settings.version.name;
        bot.servers := bot.servers + [server];
        if name !in bot.vSHashmap {
          return [Register], true;
        }
        bot.vSHashmap := bot.vSHashmap[name := bot.vSHashmap[name] + [server]];
        effects := [Register, RegisterVersion, Say(Started(server.port))];
      }
    }

    /**
     * One pass of the read loop. The start notice appends the server to
     * bot.servers and then to its version's list; when the version has no
     * list the second step throws and run() ends there.
     */
    method HandleLine(l: string, cfg: Config, now: int) returns (effects: seq<Effect>, aborted: bool)
      modifies server, this, bot
      ensures LineResult(State(), effects, aborted)
                == Step(old(State()), l, cfg, now, old(server.settings.version.name in bot.vSHashmap))
      ensures bot.servers == old(bot.servers) + (if EqualsIgnoreCase(l, UdpInitialized) then [server] else [])
      ensures var name := old(server.settings.version.name);
              bot.vSHashmap == if EqualsIgnoreCase(l, UdpInitialized) && name in old(bot.vSHashmap)
                               then old(bot.vSHashmap)[name := old(bot.vSHashmap)[name] + [server]]
                               else old(bot.vSHashmap)
      ensures server.settings == old(server.settings) && restarts == old(restarts) && alive == old(alive)
      ensures bot.botEnabled == old(bot.botEnabled)
    {
      var e1 := HandlePort(l);
      var e2;
      e2, aborted := HandleStart(l);
      if aborted {
        return e1 + e2, true;
      }
      var e3;
      e3, aborted := HandleWords(l, cfg, now);
      effects := e1 + e2 + e3;
    }

    /**
     * The end of the output: the report the flags call for, the server
     * off the list, then the auto-restart check (corrected to read the
     * bot's max_restarts); a restart counts once and remembers the port.
     */
    method EndOfOutput(cfg: Config) returns (outcome: Outcome, restart: Restart)
      modifies bot, this, server
      ensures outcome == EndOfStream(old(server.hideStopMessage), old(server.port), old(server.beingKilled))
      ensures bot.servers == Registry.RemoveFirst(old(bot.servers), server)
      ensures bot.vSHashmap == old(bot.vSHashmap)
      ensures restart == RestartCheck(old(server.autoRestart), old(server.port), old(restarts), cfg.maxRestarts)
      ensures restarts == old(restarts) + (if restart.Restarting? then 1 else 0)
      ensures server.tempPort == (if restart.Restarting? then old(server.port) else old(server.tempPort))
      ensures server.port == old(server.port) && server.settings == old(server.settings)
      ensures !alive
    {
      outcome := EndOfStream(server.hideStopMessage, server.port, server.beingKilled);
      alive := false;
      bot.RemoveServerFromLinkedList(server);
      restart := NoRestart;
      if server.autoRestart && server.port != 0 && restarts < cfg.maxRestarts {
        restarts := restarts + 1;
        server.tempPort := server.port;
        restart := Restarting(server.port);
      }
    }

    /** terminateServer: off the list first, then the process is killed. */
    method TerminateServer()
      modifies bot, this
      ensures bot.servers == Registry.RemoveFirst(old(bot.servers), server)
      ensures bot.vSHashmap == old(bot.vSHashmap)
      ensures !alive && commands == old(commands) && restarts == old(restarts)
    {
      bot.RemoveServerFromLinkedList(server);
      alive := false;
    }
  }
}
