// The thread that runs one game server (src/main ServerProcess.java): the
// argument vector it hands to the executable, what it does with each line
// the server prints, what it reports when the output ends, and how a kill
// takes the server off the registry.
//
// The regular expressions that recognise players and console echoes, the
// MySQL lookups, the IPIntel query and the rank test for the hostname
// echo reach the model as functions supplied by the caller; the clock is
// a parameter.
module ServerProcess {
  import opened Wrappers
  import opened JavaText
  import opened Arguments
  import Functions
  import ZandronumServer
  import Registry

  type Draft = ZandronumServer.Draft
  type Runtime = ZandronumServer.Runtime

  /**
   * The configuration file's fields the process reads (constants here),
   * with Functions.absolutePath and MySQL.createWadPage as functions.
   */
  datatype Config = Config(
    logDirectory: string, cfgDirectory: string, iwadDirectory: string, wadDirectory: string,
    banlistDirectory: string, adminlistDirectory: string, whitelistDirectory: string,
    extraWads: seq<string>, hostnameBase: string, websiteLink: string, serviceShort: string,
    ipintelEnabled: bool,
    absolutePath: string -> string, createWadPage: string -> string)

  // ------------------------------------------------------ the argument vector

  /** The port the server is asked for: the previous one on a restart, else the lowest. */
  function RequestedPort(d: Draft, minPort: int): int
  {
    if d.tempPort != 0 then d.tempPort else minPort
  }

  /** The pairs before the wads: log directory, owner, port, the global config, the iwad. */
  function Opening(d: Draft, userId: string, cfg: Config, minPort: int): seq<Pair>
  {
    [("-crashout", cfg.absolutePath(cfg.logDirectory)),
     ("-owner", userId),
     ("-port", IntToString(RequestedPort(d, minPort))),
     ("+exec", cfg.absolutePath(cfg.cfgDirectory + "global.cfg")),
     ("+sv_usemasters", "0")]
    + (if d.iwad.Some? then [("-iwad", cfg.absolutePath(cfg.iwadDirectory + d.iwad.value))] else [])
  }

  /**
   * The wad list before de-duplication, in both generations: the version's
   * data wads first (when the server asks for them), the extra wads last.
   */
  function StartupWadsOf(skulltagData: bool, data: string, wads: seq<string>, extraWads: seq<string>): seq<string>
  {
    (if skulltagData then Split(data, ' ') else []) + wads + extraWads
  }

  function StartupWads(d: Draft, cfg: Config): seq<string>
  {
    StartupWadsOf(d.skulltagData, d.version.data, d.wads, cfg.extraWads)
  }

  /** One wad's "-file" pair: iwads from the iwad directory, blank names skipped. */
  function FileArg(w: string, cfg: Config): seq<Pair>
  {
    if ZandronumServer.IsIwad(w) then [("-file", cfg.absolutePath(cfg.iwadDirectory + w))]
    else if Trim(w) != "" then [("-file", cfg.absolutePath(cfg.wadDirectory + w))]
    else []
  }

  function FileArgs(ws: seq<string>, cfg: Config): seq<Pair>
    decreases |ws|
  {
    if |ws| == 0 then [] else FileArgs(ws[..|ws| - 1], cfg) + FileArg(ws[|ws| - 1], cfg)
  }

  function OptFileArgs(ws: seq<string>, cfg: Config): seq<Pair>
    decreases |ws|
  {
    if |ws| == 0 then []
    else OptFileArgs(ws[..|ws| - 1], cfg) + [("-optfile", cfg.absolutePath(cfg.wadDirectory + ws[|ws| - 1]))]
  }

  /**
   * The game mode pairs, with the condition as written: no string is both
   * "cooperative" and "survival", so the reset is never skipped.
   */
  function GamemodeArgs(gamemode: Option<string>): seq<Pair>
  {
    if gamemode.None? then []
    else
      var g := gamemode.value;
      (if g != "cooperative" || g != "survival" then [("+cooperative", " 0")] else [])
      + [("+" + g, " 1")]
  }

  /** A pair that is added only under a condition. */
  function Optional(c: bool, p: Pair): seq<Pair>
  {
    if c then [p] else []
  }

  /** A numeric flag set, in decimal, passed only when it is positive. */
  function Flag(name: string, value: int): seq<Pair>
  {
    Optional(value > 0, (name, IntToString(value)))
  }

  /** Each numeric flag set is passed only when it is positive. */
  function FlagArgs(d: Draft): seq<Pair>
  {
    Flag("+dmflags", d.dmflags) + Flag("+dmflags2", d.dmflags2) + Flag("+zadmflags", d.zadmflags)
    + Flag("+compatflags", d.compatflags) + Flag("+zacompatflags", d.zacompatflags)
  }

  /** The map when there is one, the skill (3 when unset), the game mode. */
  function ModeArgs(d: Draft): seq<Pair>
  {
    (if d.mapName.Some? then [("+map", d.mapName.value)] else [])
    + [("+skill", IntToString(if d.skill != -1 then d.skill else 3))]
    + GamemodeArgs(d.gamemode)
  }

  /** The two switches, the user config and the hostname with the brand in front. */
  function SwitchArgs(d: Draft, cfg: Config): seq<Pair>
  {
    Optional(d.instagib, ("+instagib", "1"))
    + Optional(d.buckshot, ("+buckshot", "1"))
    + (if d.config.Some? then [("+exec", cfg.absolutePath(cfg.cfgDirectory + d.config.value))] else [])
    + (if d.servername.Some? then [("+sv_hostname", cfg.hostnameBase + " " + d.servername.value)] else [])
  }

  function GameArgs(d: Draft, cfg: Config): seq<Pair>
  {
    ModeArgs(d) + FlagArgs(d) + SwitchArgs(d, cfg)
  }

  /** The passwords and the owner's list files. */
  function Secrets(rcon: string, password: string, userId: string, cfg: Config): seq<Pair>
  {
    [("+sv_rconpassword", rcon),
     ("+sv_password", password),
     ("+sv_joinpassword", password),
     ("+sv_banfile", cfg.absolutePath(cfg.banlistDirectory + userId + ".txt")),
     ("+sv_adminlistfile", cfg.absolutePath(cfg.adminlistDirectory + userId + ".txt")),
     ("+sv_banexemptionfile", cfg.absolutePath(cfg.whitelistDirectory + userId + ".txt"))]
  }

  /** The wad page link and the closing "-host". */
  function Closing(cfg: Config, key: string): seq<Pair>
  {
    [("+sv_website", cfg.websiteLink + "/wadpage?key=" + key), ("-host", "")]
  }

  /**
   * Every pair processServerRunCommand adds, in order. `fileWads` is the
   * de-duplicated wad list (its order is HashSet order, chosen by the
   * caller) and `key` the wad page's key.
   */
  function Parameters(d: Draft, userId: string, rcon: string, password: string, cfg: Config,
                      minPort: int, fileWads: seq<string>, key: string): seq<Pair>
  {
    Opening(d, userId, cfg, minPort) + FileArgs(fileWads, cfg) + OptFileArgs(d.optwads, cfg)
    + GameArgs(d, cfg) + Secrets(rcon, password, userId, cfg) + Closing(cfg, key)
  }

  /** The argument vector: the executable, then the pairs. */
  function RunCommand(d: Draft, userId: string, rcon: string, password: string, cfg: Config,
                      minPort: int, fileWads: seq<string>, key: string): seq<string>
  {
    [d.version.path] + Flatten(Parameters(d, userId, rcon, password, cfg, minPort, fileWads, key))
  }

  /**
   * The executable comes first, everything after it comes in pairs, so
   * the length is odd, and the vector ends with "-host" and an empty value.
   */
  lemma RunCommandShape(d: Draft, userId: string, rcon: string, password: string, cfg: Config,
                        minPort: int, fileWads: seq<string>, key: string)
    ensures var argv := RunCommand(d, userId, rcon, password, cfg, minPort, fileWads, key);
            && |argv| % 2 == 1
            && argv[0] == d.version.path
            && argv[|argv| - 2] == "-host" && argv[|argv| - 1] == ""
  {
    var front := Opening(d, userId, cfg, minPort) + FileArgs(fileWads, cfg) + OptFileArgs(d.optwads, cfg)
                 + GameArgs(d, cfg) + Secrets(rcon, password, userId, cfg);
    var website := ("+sv_website", cfg.websiteLink + "/wadpage?key=" + key);
    assert Parameters(d, userId, rcon, password, cfg, minPort, fileWads, key) == front + [website, ("-host", "")];
    EndsWithHost(front, website);
  }

  /** Pairs that end with ("-host", "") flatten to a list ending with "-host" and "". */
  lemma EndsWithHost(front: seq<Pair>, website: Pair)
    ensures var f := Flatten(front + [website, ("-host", "")]);
            f[|f| - 2] == "-host" && f[|f| - 1] == ""
  {
    var ps := front + [website, ("-host", "")];
    FlattenIndex(ps, |ps| - 1);
  }

  /** The argument pairs start with the opening pairs. */
  lemma OpeningFirst(d: Draft, userId: string, rcon: string, password: string, cfg: Config,
                     minPort: int, fileWads: seq<string>, key: string)
    ensures var ps := Parameters(d, userId, rcon, password, cfg, minPort, fileWads, key);
            |Opening(d, userId, cfg, minPort)| <= |ps| && ps[..|Opening(d, userId, cfg, minPort)|] == Opening(d, userId, cfg, minPort)
  {
  }

  /**
   * The opening pairs in place: the port is the previous port when there
   * is one and the lowest port otherwise, and the global config is
   * executed as the fourth pair, before any user config.
   */
  lemma OpeningOrder(d: Draft, userId: string, rcon: string, password: string, cfg: Config,
                     minPort: int, fileWads: seq<string>, key: string)
    ensures var ps := Parameters(d, userId, rcon, password, cfg, minPort, fileWads, key);
            && ps[1] == ("-owner", userId)
            && ps[2] == ("-port", IntToString(if d.tempPort != 0 then d.tempPort else minPort))
            && ps[3] == ("+exec", cfg.absolutePath(cfg.cfgDirectory + "global.cfg"))
            && (d.config.Some? ==>
                  exists j :: 3 < j < |ps| && ps[j] == ("+exec", cfg.absolutePath(cfg.cfgDirectory + d.config.value)))
  {
    var ps := Parameters(d, userId, rcon, password, cfg, minPort, fileWads, key);
    OpeningFirst(d, userId, rcon, password, cfg, minPort, fileWads, key);
    var opening := Opening(d, userId, cfg, minPort);
    assert ps[1] == ps[..|opening|][1] && ps[2] == ps[..|opening|][2] && ps[3] == ps[..|opening|][3];
    if d.config.Some? {
      var front := opening + FileArgs(fileWads, cfg) + OptFileArgs(d.optwads, cfg);
      var game := GameArgs(d, cfg);
      var pre := ModeArgs(d) + FlagArgs(d) + Optional(d.instagib, ("+instagib", "1"))
                 + Optional(d.buckshot, ("+buckshot", "1"));
      assert game[|pre|] == ("+exec", cfg.absolutePath(cfg.cfgDirectory + d.config.value));
      assert ps[|front| + |pre|] == game[|pre|];
    }
  }

  /** Skill -1 (unset) is passed as 3; any other skill as itself. */
  lemma SkillArgument(d: Draft, cfg: Config)
    ensures ("+skill", "3") in GameArgs(d, cfg) <== d.skill == -1
    ensures d.skill != -1 ==> ("+skill", IntToString(d.skill)) in GameArgs(d, cfg)
  {
    var pre := if d.mapName.Some? then [("+map", d.mapName.value)] else [];
    assert GameArgs(d, cfg)[|pre|] == ("+skill", IntToString(if d.skill != -1 then d.skill else 3));
  }

  /** A flag set appears exactly when it is positive, with its decimal value. */
  lemma FlagArgument(d: Draft, n: string, v: string)
    ensures (n, v) in FlagArgs(d) <==>
            (|| (n == "+dmflags" && d.dmflags > 0 && v == IntToString(d.dmflags))
             || (n == "+dmflags2" && d.dmflags2 > 0 && v == IntToString(d.dmflags2))
             || (n == "+zadmflags" && d.zadmflags > 0 && v == IntToString(d.zadmflags))
             || (n == "+compatflags" && d.compatflags > 0 && v == IntToString(d.compatflags))
             || (n == "+zacompatflags" && d.zacompatflags > 0 && v == IntToString(d.zacompatflags)))
  {
  }

  /**
   * Whatever the game mode, even "cooperative" or "survival", the
   * cooperative reset comes first and the mode itself follows.
   */
  lemma CooperativeAlwaysReset(g: string)
    ensures GamemodeArgs(Some(g)) == [("+cooperative", " 0"), ("+" + g, " 1")]
    ensures GamemodeArgs(None) == []
  {
  }

  /**
   * A "-file" pair is there exactly for a listed wad that is an iwad
   * (from the iwad directory) or a non-blank other wad (from the wad
   * directory).
   */
  lemma {:induction false} FileArgsSpec(ws: seq<string>, cfg: Config, p: Pair)
    ensures p in FileArgs(ws, cfg) <==>
            exists w :: w in ws && p in FileArg(w, cfg)
    ensures forall q :: q in FileArgs(ws, cfg) ==> q.0 == "-file"
    decreases |ws|
  {
    if |ws| > 0 {
      var init := ws[..|ws| - 1];
      FileArgsSpec(init, cfg, p);
      assert ws == init + [ws[|ws| - 1]];
      if p in FileArgs(ws, cfg) && p !in FileArgs(init, cfg) {
        assert p in FileArg(ws[|ws| - 1], cfg);
      }
      if exists w :: w in ws && p in FileArg(w, cfg) {
        var w :| w in ws && p in FileArg(w, cfg);
        if w != ws[|ws| - 1] {
          assert w in init;
        }
      }
      forall q | q in FileArgs(ws, cfg)
        ensures q.0 == "-file"
      {
        FileArgsSpec(init, cfg, q);
      }
    }
  }

  /** What the wad page and the file pairs are built from, and the passwords. */
  lemma PasswordArguments(rcon: string, password: string, userId: string, cfg: Config)
    ensures ("+sv_rconpassword", rcon) in Secrets(rcon, password, userId, cfg)
    ensures ("+sv_password", password) in Secrets(rcon, password, userId, cfg)
    ensures ("+sv_joinpassword", password) in Secrets(rcon, password, userId, cfg)
  {
    assert Secrets(rcon, password, userId, cfg)[0] == ("+sv_rconpassword", rcon);
  }

  // --------------------------------------------------- one line of output

  const AlternatePortPrefix := "using alternate port "
  const BindFailurePrefix := "NETWORK_Construct: Couldn't bind to "
  const BindingTo := ". Binding to "
  const AddressPrefix := "Bound to IP: "
  const Sentinel := "========== Odamex Server Initialized =========="
  const JoinedSuffix := "joined the game."

  /**
   * The recognisers run on each line: a connecting player (name and IP),
   * a PlayerInfo row (name and IP), and the console echoes of
   * sv_hostname, sv_rconpassword, sv_joinpassword and sv_password.
   */
  datatype Matchers = Matchers(
    connected: string -> Option<(string, string)>,
    playerInfo: string -> Option<(string, string)>,
    hostname: string -> Option<string>,
    rconPassword: string -> Option<string>,
    joinPassword: string -> Option<string>,
    connectPassword: string -> Option<string>)

  /**
   * The outside answers a line may need: the ban whitelist, the global
   * ban list (the banned address, or None), the ban reason, and whether a
   * user level counts as VIP or above.
   */
  datatype Lookups = Lookups(
    whitelisted: string -> bool,
    banned: string -> Option<string>,
    reason: string -> string,
    atLeastVip: int -> bool)

  datatype Secret = Rcon | Join | Connect

  /** What the bot says about a line, without the wording. */
  datatype Notice =
    | PortParseError
    | BindParseError
    | Started
    | HostnameChanged(before: string, after: string)
    | PasswordTooShort(which: Secret)
    | PasswordChanged(which: Secret, value: string)

  /** What a line makes the process do besides updating the server. */
  datatype Effect =
    | Register
    | Say(notice: Notice)
    | Console(command: string)
    | Screen(ip: string, name: string)

  /**
   * Everything a line may change: the server's options (its hostname),
   * rcon password, recovering flag and runtime fields, and the port text
   * the loop keeps from line to line.
   */
  datatype LineState = LineState(
    options: Draft, rconPassword: string, recovering: bool, runtime: Runtime, portText: string)

  /** Everything after the first ']' (the whole line when there is none), trimmed. */
  function Strip(line: string): string
  {
    Trim(line[IndexOf(line, ']') + 1..])
  }

  /** Take a port text: on an integer the port changes, otherwise the bot warns. */
  function TakePort(st: LineState, t: string, error: Notice): (r: (LineState, seq<Effect>))
    ensures r.0.options == st.options && r.0.rconPassword == st.rconPassword && r.0.recovering == st.recovering
    ensures r.0.runtime == st.runtime.(port := r.0.runtime.port)
    ensures Register !in r.1
  {
    if IsInteger(t) then (st.(portText := t, runtime := st.runtime.(port := ParseInt(t).value)), [])
    else (st.(portText := t), [Say(error)])
  }

  /** Delete every `target`, then every `tail`, then trim: how both port notices are read. */
  function DeleteThrough(l: string, target: string, tail: string): string
    requires |target| > 0 && |tail| > 0
  {
    Trim(Replace(Replace(l, target, ""), tail, ""))
  }

  function AlternatePortText(l: string): string
  {
    DeleteThrough(l, AlternatePortPrefix, ".")
  }

  /**
   * The bind-failure notice as written: it deletes the prefix followed by
   * the port text of an earlier line, which is empty unless an
   * alternate-port line came first.
   */
  function BindPortTextAsWritten(l: string, portText: string): string
  {
    DeleteThrough(l, BindFailurePrefix + portText + BindingTo, " instead...")
  }

  /** The digits at the front of a text. */
  function LeadingDigits(s: string): (r: string)
    ensures AllDigits(r) && |r| <= |s| && r == s[..|r|]
    ensures |r| < |s| ==> !IsDigit(s[|r|])
  {
    if |s| == 0 || !IsDigit(s[0]) then "" else [s[0]] + LeadingDigits(s[1..])
  }

  /** The bind-failure notice, corrected: delete the prefix with the port the line itself names. */
  function BindPortText(l: string): string
  {
    var attempted := if StartsWith(l, BindFailurePrefix) then LeadingDigits(l[|BindFailurePrefix|..]) else "";
    DeleteThrough(l, BindFailurePrefix + attempted + BindingTo, " instead...")
  }

  /** The two port notices; the bind failure is only looked at when the first does not apply. */
  function PortStage(st: LineState, l: string): (r: (LineState, seq<Effect>))
    ensures r.0.options == st.options && r.0.rconPassword == st.rconPassword && r.0.recovering == st.recovering
    ensures r.0.runtime == st.runtime.(port := r.0.runtime.port)
    ensures Register !in r.1
  {
    if StartsWith(l, AlternatePortPrefix) then TakePort(st, AlternatePortText(l), PortParseError)
    else if StartsWith(l, BindFailurePrefix) then TakePort(st, BindPortText(l), BindParseError)
    else (st, [])
  }

  function AddressStage(st: LineState, l: string): (r: LineState)
    ensures r == st.(runtime := st.runtime.(address := r.runtime.address))
  {
    if StartsWith(l, AddressPrefix) then st.(runtime := st.runtime.(address := Trim(Replace(l, AddressPrefix, ""))))
    else st
  }

  /** The start-up sentinel registers the server, announces it unless recovering, and ends recovery. */
  function SentinelStage(st: LineState, l: string): (r: (LineState, seq<Effect>))
    ensures r.0 == st.(recovering := r.0.recovering)
    ensures (Register in r.1) <==> EqualsIgnoreCase(l, Sentinel)
  {
    if EqualsIgnoreCase(l, Sentinel) then
      (st.(recovering := false), [Register] + (if !st.recovering then [Say(Started)] else []))
    else (st, [])
  }

  /** The ban command written to the server's console. */
  function Addban(ip: string, serviceShort: string, reason: string): string
  {
    "addban " + ip + " perm " + "\"\\ciBanned from all " + serviceShort + " servers: " + reason + "\";\n"
  }

  /**
   * A player seen on the line (a PlayerInfo row wins over a connect
   * message) is screened and banned unless whitelisted.
   */
  function PlayerStage(l: string, m: Matchers, look: Lookups, cfg: Config): seq<Effect>
  {
    var info := m.playerInfo(l);
    var player := if info.Some? then info else m.connected(l);
    if player.None? || look.whitelisted(player.value.1) then []
    else
      var (name, ip) := player.value;
      (if cfg.ipintelEnabled && info.None? then [Screen(ip, name)] else [])
      + (if look.banned(ip).Some? then [Console(Addban(ip, cfg.serviceShort, look.reason(look.banned(ip).value)))] else [])
  }

  /** No visible character: the blank test of the echo handlers. */
  predicate IsRegexBlank(s: string)
  {
    forall i :: 0 <= i < |s| ==> IsRegexSpace(s[i])
  }

  /** One leading and one trailing double quote removed. */
  function Unquote(s: string): string
  {
    var a := if |s| > 0 && s[0] == '"' then s[1..] else s;
    if |a| > 0 && a[|a| - 1] == '"' then a[..|a| - 1] else a
  }

  /**
   * A hostname echo stores the new hostname; when it is not blank and
   * differs, a user below VIP gets it forced back with the brand in front,
   * and the change is announced.
   */
  function HostnameStage(st: LineState, l: string, m: Matchers, look: Lookups, cfg: Config,
                         userLevel: int): (r: (LineState, seq<Effect>))
    ensures r.0 == st.(options := st.options.(servername := r.0.options.servername))
    ensures Register !in r.1
  {
    var echo := m.hostname(l);
    if echo.None? then (st, [])
    else
      var name := Unquote(echo.value);
      var st' := st.(options := st.options.(servername := Some(name)));
      if IsRegexBlank(name) || st.options.servername == Some(name) then (st', [])
      else
        var before := st.options.servername.GetOr("");
        (st', (if !look.atLeastVip(userLevel)
               then [Console("sv_hostname \"" + cfg.hostnameBase + " " + Functions.Escaped(name) + "\";\n")]
               else [])
              + [Say(HostnameChanged(before, name))])
  }

  function Password(st: LineState, which: Secret): string
  {
    match which
    case Rcon => st.rconPassword
    case Join => st.runtime.joinPassword
    case Connect => st.runtime.connectPassword
  }

  function WithPassword(st: LineState, which: Secret, v: string): (r: LineState)
    ensures Password(r, which) == v
  {
    match which
    case Rcon => st.(rconPassword := v)
    case Join => st.(runtime := st.runtime.(joinPassword := v))
    case Connect => st.(runtime := st.runtime.(connectPassword := v))
  }

  /**
   * A password echo stores the value first; a non-blank value shorter
   * than five characters is reported as refused, and a long enough new
   * value is announced.
   */
  function PasswordStage(st: LineState, which: Secret, echo: Option<string>): (r: (LineState, seq<Effect>))
    ensures r.0.options == st.options && r.0.portText == st.portText && r.0.recovering == st.recovering
    ensures r.0.runtime.port == st.runtime.port && r.0.runtime.address == st.runtime.address
    ensures r.0.runtime.lastActivity == st.runtime.lastActivity
    ensures Register !in r.1
  {
    if echo.None? then (st, [])
    else
      var v := echo.value;
      var st' := WithPassword(st, which, v);
      if IsRegexBlank(v) then (st', [])
      else if |v| < 5 then (st', [Say(PasswordTooShort(which))])
      else if Password(st, which) != v then (st', [Say(PasswordChanged(which, v))])
      else (st', [])
  }

  function ActivityStage(st: LineState, l: string, now: int): LineState
  {
    if EndsWith(l, JoinedSuffix) then st.(runtime := st.runtime.(lastActivity := now)) else st
  }

  /**
   * The server's own notices: the port lines, the address line and the
   * start-up sentinel. None of them touches the options or the activity
   * time.
   */
  function Notices(st: LineState, l: string): (r: (LineState, seq<Effect>))
    ensures r.0.options == st.options && r.0.rconPassword == st.rconPassword
    ensures r.0.runtime.lastActivity == st.runtime.lastActivity
    ensures r.0.runtime.joinPassword == st.runtime.joinPassword
    ensures r.0.runtime.connectPassword == st.runtime.connectPassword
    ensures (Register in r.1) <==> EqualsIgnoreCase(l, Sentinel)
  {
    var (s1, e1) := PortStage(st, l);
    var (s3, e3) := SentinelStage(AddressStage(s1, l), l);
    (s3, e1 + e3)
  }

  /**
   * The console echoes: the hostname and the three passwords. They change
   * neither the port, the address, the recovery flag nor the activity time.
   */
  function Echoes(st: LineState, l: string, m: Matchers, look: Lookups, cfg: Config,
                  userLevel: int): (r: (LineState, seq<Effect>))
    ensures r.0.portText == st.portText && r.0.recovering == st.recovering
    ensures r.0.runtime.port == st.runtime.port && r.0.runtime.address == st.runtime.address
    ensures r.0.runtime.lastActivity == st.runtime.lastActivity
    ensures Register !in r.1
  {
    var (s5, e5) := HostnameStage(st, l, m, look, cfg, userLevel);
    var (s6, e6) := PasswordStage(s5, Rcon, m.rconPassword(l));
    var (s7, e7) := PasswordStage(s6, Join, m.joinPassword(l));
    var (s8, e8) := PasswordStage(s7, Connect, m.connectPassword(l));
    (s8, e5 + e6 + e7 + e8)
  }

  /** One pass of the read loop, on the line with its time prefix already stripped. */
  function StepStripped(st: LineState, l: string, m: Matchers, look: Lookups, cfg: Config,
                        userLevel: int, now: int): (LineState, seq<Effect>)
  {
    var (s3, notices) := Notices(st, l);
    var screening := PlayerStage(l, m, look, cfg);
    var (s8, echoes) := Echoes(s3, l, m, look, cfg, userLevel);
    (ActivityStage(s8, l, now), notices + screening + echoes)
  }

  /** One pass of the read loop. */
  function Step(st: LineState, line: string, m: Matchers, look: Lookups, cfg: Config,
                userLevel: int, now: int): (LineState, seq<Effect>)
  {
    StepStripped(st, Strip(line), m, look, cfg, userLevel, now)
  }

  /**
   * A line made of the target, a number and the tail reads as the number:
   * the target goes, the tail goes, and the digits stay.
   */
  lemma DeleteThroughFront(target: string, d: string, tail: string)
    requires |target| > 0 && |tail| > 0 && |tail| < |target|
    requires |d| > 0 && AllDigits(d) && !IsDigit(target[0]) && !IsDigit(tail[0])
    ensures DeleteThrough(target + d + tail, target, tail) == d
  {
    assert target + d + tail == target + (d + tail);
    ReplaceAtFront(target, d + tail, "");
    assert target[0] !in d;
    ReplaceSkipsPrefix(d, tail, target, "");
    ReplaceAbsentShort(tail, tail, target, "");
    assert Replace(target + d + tail, target, "") == d + tail;
    assert tail[0] !in d;
    ReplaceSkipsPrefix(d, tail, tail, "");
    ReplaceAtFront(tail, "", "");
    assert tail + "" == tail;
    assert Replace(d + tail, tail, "") == d;
    TrimUnchanged(d);
  }

  /**
   * A line that does not begin with the target keeps its first character
   * through both deletions and the trim, when that character is neither
   * trimmable nor where the tail begins.
   */
  lemma DeleteThroughMisses(l: string, target: string, tail: string)
    requires |target| > 0 && |tail| > 0 && |l| > 0
    requires |l| < |target| || l[..|target|] != target
    requires tail[0] != l[0] && !IsTrimmable(l[0])
    ensures |DeleteThrough(l, target, tail)| > 0 && DeleteThrough(l, target, tail)[0] == l[0]
  {
    var r1 := Replace(l, target, "");
    assert r1[0] == l[0];
    assert r1 == [r1[0]] + r1[1..];
    ReplaceSkipsPrefix([r1[0]], r1[1..], tail, "");
    var r2 := Replace(r1, tail, "");
    assert r2[0] == l[0];
    TrimKeepsFirst(r2);
  }

  /** A text starting with something other than a sign or a digit is no integer. */
  lemma NotIntegerFromFirst(t: string)
    requires |t| > 0 && !IsDigit(t[0]) && t[0] != '-' && t[0] != '+'
    ensures !IsInteger(t)
  {
  }

  /** "using alternate port N." sets the port to N. */
  lemma AlternatePortNotice(n: nat)
    requires InInt32(n)
    ensures AlternatePortText(AlternatePortPrefix + NatToString(n) + ".") == NatToString(n)
    ensures ParseInt(AlternatePortText(AlternatePortPrefix + NatToString(n) + ".")) == Some(n)
  {
    DeleteThroughFront(AlternatePortPrefix, NatToString(n), ".");
    ParseIntToString(n);
  }

  /** A port text that is not an integer leaves the port alone and warns. */
  lemma NonIntegerPortKept(st: LineState, t: string, error: Notice)
    requires !IsInteger(t)
    ensures TakePort(st, t, error).0.runtime == st.runtime
    ensures TakePort(st, t, error).1 == [Say(error)]
  {
  }

  /** The bind-failure notice: prefix, attempted port, ". Binding to ", new port, " instead...". */
  function BindNotice(n1: nat, n2: nat): string
  {
    BindFailurePrefix + NatToString(n1) + BindingTo + NatToString(n2) + " instead..."
  }

  /**
   * As written, the first bind-failure notice (no alternate-port line
   * before it, so the remembered text is empty) keeps its prefix: the
   * text starts with 'N', is no integer, and the port is not taken.
   */
  lemma BindNoticeAsWrittenMisses(n1: nat, n2: nat)
    ensures |BindPortTextAsWritten(BindNotice(n1, n2), "")| > 0
    ensures BindPortTextAsWritten(BindNotice(n1, n2), "")[0] == 'N'
    ensures !IsInteger(BindPortTextAsWritten(BindNotice(n1, n2), ""))
  {
    var l := BindNotice(n1, n2);
    var target := BindFailurePrefix + "" + BindingTo;
    var k := |BindFailurePrefix|;
    assert l[k] == NatToString(n1)[0];
    assert target[k] == '.';
    assert |l| < |target| || l[..|target|] != target by {
      if |l| >= |target| {
        assert l[..|target|][k] != target[k];
      }
    }
    assert l[0] == 'N';
    DeleteThroughMisses(l, target, " instead...");
    NotIntegerFromFirst(BindPortTextAsWritten(l, ""));
  }

  /** Corrected, the notice yields the port the server actually binds. */
  lemma BindNoticeReadsNewPort(n1: nat, n2: nat)
    requires InInt32(n2)
    ensures BindPortText(BindNotice(n1, n2)) == NatToString(n2)
    ensures ParseInt(BindPortText(BindNotice(n1, n2))) == Some(n2)
  {
    var d1 := NatToString(n1);
    var d2 := NatToString(n2);
    var tail := " instead...";
    Regroup(BindFailurePrefix, d1, BindingTo, d2, tail);
    var l := BindNotice(n1, n2);
    AttemptedPort(BindFailurePrefix, d1, BindingTo + d2 + tail);
    DeleteThroughFront(BindFailurePrefix + d1 + BindingTo, d2, tail);
    ParseIntToString(n2);
  }

  /** The ways of grouping the five parts of a bind-failure notice agree. */
  lemma Regroup(p: string, d1: string, m: string, d2: string, tail: string)
    ensures p + d1 + m + d2 + tail == p + d1 + (m + d2 + tail)
    ensures p + d1 + m + d2 + tail == (p + d1 + m) + d2 + tail
  {
  }

  /** The digits right after the prefix are the attempted port. */
  lemma AttemptedPort(p: string, d: string, rest: string)
    requires AllDigits(d) && |rest| > 0 && !IsDigit(rest[0])
    ensures StartsWith(p + d + rest, p) && (p + d + rest)[|p|..] == d + rest
    ensures LeadingDigits((p + d + rest)[|p|..]) == d
  {
    assert (p + d + rest)[|p|..] == d + rest;
    LeadingDigitsOf(d, rest);
  }

  lemma LeadingDigitsOf(d: string, s: string)
    requires AllDigits(d) && |s| > 0 && !IsDigit(s[0])
    ensures LeadingDigits(d + s) == d
  {
    if |d| > 0 {
      assert (d + s)[1..] == d[1..] + s;
      LeadingDigitsOf(d[1..], s);
    } else {
      assert d + s == s;
    }
  }

  /**
   * The sentinel, in any letter case, registers the server and ends
   * recovery; the start is announced only when the server was not
   * recovering. No other line registers it.
   */
  lemma SentinelRegisters(st: LineState, l: string)
    ensures Register in SentinelStage(st, l).1 <==> EqualsIgnoreCase(l, Sentinel)
    ensures Say(Started) in SentinelStage(st, l).1 <==> EqualsIgnoreCase(l, Sentinel) && !st.recovering
    ensures SentinelStage(st, l).0.recovering == (st.recovering && !EqualsIgnoreCase(l, Sentinel))
    ensures SentinelStage(st, l).0.runtime == st.runtime
  {
  }

  /**
   * The stored password is always the echoed value; a notice about it
   * comes only for a non-blank value, a refusal exactly when it is
   * shorter than five characters, an announcement exactly when it is
   * long enough and new.
   */
  lemma PasswordEcho(st: LineState, which: Secret, v: string)
    ensures Password(PasswordStage(st, which, Some(v)).0, which) == v
    ensures (PasswordStage(st, which, Some(v)).1 == [Say(PasswordTooShort(which))])
            <==> !IsRegexBlank(v) && |v| < 5
    ensures (PasswordStage(st, which, Some(v)).1 == [Say(PasswordChanged(which, v))])
            <==> !IsRegexBlank(v) && |v| >= 5 && Password(st, which) != v
  {
  }

  /**
   * A banned player who is not whitelisted gets an addban with the ban
   * reason; a whitelisted one, or one not on the ban list, never does.
   */
  lemma BanCheck(l: string, m: Matchers, look: Lookups, cfg: Config)
    ensures var info := m.playerInfo(l);
            var player := if info.Some? then info else m.connected(l);
            (exists c :: Console(c) in PlayerStage(l, m, look, cfg))
              <==> player.Some? && !look.whitelisted(player.value.1) && look.banned(player.value.1).Some?
  {
    var info := m.playerInfo(l);
    var player := if info.Some? then info else m.connected(l);
    if player.Some? && !look.whitelisted(player.value.1) && look.banned(player.value.1).Some? {
      var ip := player.value.1;
      var c := Addban(ip, cfg.serviceShort, look.reason(look.banned(ip).value));
      assert Console(c) in PlayerStage(l, m, look, cfg);
    }
  }

  /** The last activity time moves only on a "joined the game." line. */
  lemma ActivityOnlyOnJoin(st: LineState, l: string, m: Matchers, look: Lookups, cfg: Config,
                           userLevel: int, now: int)
    ensures StepStripped(st, l, m, look, cfg, userLevel, now).0.runtime.lastActivity
            == if EndsWith(l, JoinedSuffix) then now else st.runtime.lastActivity
  {
    var (s3, _) := Notices(st, l);
    var (s8, _) := Echoes(s3, l, m, look, cfg, userLevel);
    assert s8.runtime.lastActivity == st.runtime.lastActivity;
  }

  // ------------------------------------------------------ end of output

  /** What the bot reports when the server's output ends. */
  datatype Outcome = Quiet | StoppedByOwner | StoppedByOther | Crashed | FailedToStart

  function EndOfStream(rt: Runtime, recovering: bool): Outcome
  {
    if rt.hideStopMessage then Quiet
    else if rt.port != 0 then
      if rt.beingKilled then (if rt.beingKilledByOwner then StoppedByOwner else StoppedByOther)
      else Crashed
    else if !recovering then FailedToStart
    else Quiet
  }

  /**
   * A server that got a port and was not being killed crashed; one that
   * never got a port failed to start unless it was recovering; the
   * hide flag silences everything.
   */
  lemma EndOfStreamCases(rt: Runtime, recovering: bool)
    ensures EndOfStream(rt, recovering) == Quiet <==> rt.hideStopMessage || (rt.port == 0 && recovering)
    ensures EndOfStream(rt, recovering) == Crashed <==> !rt.hideStopMessage && rt.port != 0 && !rt.beingKilled
    ensures EndOfStream(rt, recovering) == FailedToStart <==> !rt.hideStopMessage && rt.port == 0 && !recovering
    ensures EndOfStream(rt, recovering) in {StoppedByOwner, StoppedByOther}
            <==> !rt.hideStopMessage && rt.port != 0 && rt.beingKilled
  {
  }

  // ------------------------------------------------------------ the thread

  /**
   * The wad list a server starts with, in both generations: the version's
   * data wads inserted in front (in their order), the extra wads appended,
   * then de-duplicated.
   */
  method StartupWadList(skulltagData: bool, data: string, serverWads: seq<string>, extraWads: seq<string>)
    returns (fileWads: seq<string>)
    ensures Functions.NoDuplicates(fileWads)
    ensures forall w :: w in fileWads <==> w in StartupWadsOf(skulltagData, data, serverWads, extraWads)
  {
    var wads := serverWads;
    if skulltagData {
      var pieces := Split(data, ' ');
      for z := 0 to |pieces|
        invariant wads == pieces[..z] + serverWads
      {
        assert pieces[..z + 1] == pieces[..z] + [pieces[z]];
        wads := wads[..z] + [pieces[z]] + wads[z..];
      }
      assert pieces[..|pieces|] == pieces;
    }
    assert wads + extraWads == StartupWadsOf(skulltagData, data, serverWads, extraWads);
    fileWads := Functions.RemoveDuplicateWads(wads + extraWads);
  }

  class Process {
    const server: ZandronumServer.Server
    const manager: Registry.Registry

    /** serverRunCommands. */
    var commands: seq<string>
    /** The executable and the pairs added so far, for the proofs. */
    ghost var executable: string
    ghost var added: seq<Pair>
    /** run()'s portNumber: the last port text read from the output. */
    var portText: string
    /** Whether the child process is still there. */
    var alive: bool

    constructor (server: ZandronumServer.Server, manager: Registry.Registry)
      ensures this.server == server && this.manager == manager
      ensures commands == [] && added == [] && portText == "" && !alive
    {
      this.server := server;
      this.manager := manager;
      commands, executable, added, portText, alive := [], "", [], "", false;
    }

    /** The executable first, then the pairs added so far. */
    ghost predicate Arranged()
      reads this
    {
      commands == [executable] + Flatten(added)
    }

    /** addParameter: the option, then its value. */
    method AddParameter(parameter: string, argument: string)
      requires Arranged()
      modifies this
      ensures Arranged()
      ensures added == old(added) + [(parameter, argument)]
      ensures executable == old(executable) && portText == old(portText) && alive == old(alive)
    {
      FlattenSnoc(added, (parameter, argument));
      commands := commands + [parameter, argument];
      added := added + [(parameter, argument)];
    }

    /** The configured port when one was asked for, else the lowest port. */
    method AddPort(d: Draft, minPort: int)
      requires Arranged()
      modifies this
      ensures Arranged() && executable == old(executable)
      ensures added == old(added) + [("-port", IntToString(RequestedPort(d, minPort)))]
      ensures portText == old(portText) && alive == old(alive)
    {
      if d.tempPort != 0 {
        AddParameter("-port", IntToString(d.tempPort));
      } else {
        AddParameter("-port", IntToString(minPort));
      }
    }

    method AddOpening(d: Draft, userId: string, cfg: Config, minPort: int)
      requires Arranged()
      modifies this
      ensures Arranged() && executable == old(executable)
      ensures added == old(added) + Opening(d, userId, cfg, minPort)
      ensures portText == old(portText) && alive == old(alive)
    {
      ghost var start := added;
      ghost var fixed := Opening(d, userId, cfg, minPort)[..5];
      AddParameter("-crashout", cfg.absolutePath(cfg.logDirectory));
      AddParameter("-owner", userId);
      AddPort(d, minPort);
      AddParameter("+exec", cfg.absolutePath(cfg.cfgDirectory + "global.cfg"));
      AddParameter("+sv_usemasters", "0");
      assert added == start + fixed;
      if d.iwad.Some? {
        AddParameter("-iwad", cfg.absolutePath(cfg.iwadDirectory + d.iwad.value));
      }
    }

    /** One wad's "-file" pair, if it gets one. */
    method AddFile(w: string, cfg: Config)
      requires Arranged()
      modifies this
      ensures Arranged() && executable == old(executable)
      ensures added == old(added) + FileArg(w, cfg)
      ensures portText == old(portText) && alive == old(alive)
    {
      if ZandronumServer.IsIwad(w) {
        AddParameter("-file", cfg.absolutePath(cfg.iwadDirectory + w));
      } else if Trim(w) != "" {
        AddParameter("-file", cfg.absolutePath(cfg.wadDirectory + w));
      }
    }

    method AddFiles(ws: seq<string>, cfg: Config)
      requires Arranged()
      modifies this
      ensures Arranged() && executable == old(executable)
      ensures added == old(added) + FileArgs(ws, cfg)
      ensures portText == old(portText) && alive == old(alive)
    {
      for i := 0 to |ws|
        invariant Arranged() && executable == old(executable)
        invariant added == old(added) + FileArgs(ws[..i], cfg)
        invariant portText == old(portText) && alive == old(alive)
      {
        assert ws[..i + 1][..i] == ws[..i];
        AddFile(ws[i], cfg);
      }
      assert ws[..|ws|] == ws;
    }

    method AddOptFiles(ws: seq<string>, cfg: Config)
      requires Arranged()
      modifies this
      ensures Arranged() && executable == old(executable)
      ensures added == old(added) + OptFileArgs(ws, cfg)
      ensures portText == old(portText) && alive == old(alive)
    {
      for i := 0 to |ws|
        invariant Arranged() && executable == old(executable)
        invariant added == old(added) + OptFileArgs(ws[..i], cfg)
        invariant portText == old(portText) && alive == old(alive)
      {
        assert ws[..i + 1][..i] == ws[..i];
        AddParameter("-optfile", cfg.absolutePath(cfg.wadDirectory + ws[i]));
      }
      assert ws[..|ws|] == ws;
    }

    /** One flag set, passed only when positive. */
    method AddFlag(name: string, value: int)
      requires Arranged()
      modifies this
      ensures Arranged() && executable == old(executable)
      ensures added == old(added) + Optional(value > 0, (name, IntToString(value)))
      ensures portText == old(portText) && alive == old(alive)
    {
      if value > 0 {
        AddParameter(name, IntToString(value));
      }
    }

    method AddFlags(d: Draft)
      requires Arranged()
      modifies this
      ensures Arranged() && executable == old(executable)
      ensures added == old(added) + FlagArgs(d)
      ensures portText == old(portText) && alive == old(alive)
    {
      ghost var start := added;
      ghost var f1 := Optional(d.dmflags > 0, ("+dmflags", IntToString(d.dmflags)));
      ghost var f2 := Optional(d.dmflags2 > 0, ("+dmflags2", IntToString(d.dmflags2)));
      ghost var f3 := Optional(d.zadmflags > 0, ("+zadmflags", IntToString(d.zadmflags)));
      ghost var f4 := Optional(d.compatflags > 0, ("+compatflags", IntToString(d.compatflags)));
      ghost var f5 := Optional(d.zacompatflags > 0, ("+zacompatflags", IntToString(d.zacompatflags)));
      AddFlag("+dmflags", d.dmflags);
      AddFlag("+dmflags2", d.dmflags2);
      Extend(start, f1, f2);
      AddFlag("+zadmflags", d.zadmflags);
      Extend(start, f1 + f2, f3);
      AddFlag("+compatflags", d.compatflags);
      Extend(start, f1 + f2 + f3, f4);
      AddFlag("+zacompatflags", d.zacompatflags);
      Extend(start, f1 + f2 + f3 + f4, f5);
    }

    /** The game mode switched on, after the (always) reset of cooperative. */
    method AddGamemode(g: Option<string>)
      requires Arranged()
      modifies this
      ensures Arranged() && executable == old(executable)
      ensures added == old(added) + GamemodeArgs(g)
      ensures portText == old(portText) && alive == old(alive)
    {
      if g.Some? {
        if g.value != "cooperative" || g.value != "survival" {
          AddParameter("+cooperative", " 0");
        }
        AddParameter("+" + g.value, " 1");
      }
    }

    method AddModeArgs(d: Draft)
      requires Arranged()
      modifies this
      ensures Arranged() && executable == old(executable)
      ensures added == old(added) + ModeArgs(d)
      ensures portText == old(portText) && alive == old(alive)
    {
      ghost var start := added;
      ghost var m := if d.mapName.Some? then [("+map", d.mapName.value)] else [];
      ghost var k := [("+skill", IntToString(if d.skill != -1 then d.skill else 3))];
      if d.mapName.Some? {
        AddParameter("+map", d.mapName.value);
      }
      assert added == start + m;
      AddParameter("+skill", IntToString(if d.skill != -1 then d.skill else 3));
      Extend(start, m, k);
      AddGamemode(d.gamemode);
      Extend(start, m + k, GamemodeArgs(d.gamemode));
    }

    method AddSwitches(d: Draft, cfg: Config)
      requires Arranged()
      modifies this
      ensures Arranged() && executable == old(executable)
      ensures added == old(added) + SwitchArgs(d, cfg)
      ensures portText == old(portText) && alive == old(alive)
    {
      ghost var start := added;
      ghost var s1 := Optional(d.instagib, ("+instagib", "1"));
      ghost var s2 := Optional(d.buckshot, ("+buckshot", "1"));
      ghost var s3 := if d.config.Some? then [("+exec", cfg.absolutePath(cfg.cfgDirectory + d.config.value))] else [];
      ghost var s4 := if d.servername.Some? then [("+sv_hostname", cfg.hostnameBase + " " + d.servername.value)] else [];
      if d.instagib {
        AddParameter("+instagib", "1");
      }
      assert added == start + s1;
      if d.buckshot {
        AddParameter("+buckshot", "1");
      }
      Extend(start, s1, s2);
      if d.config.Some? {
        AddParameter("+exec", cfg.absolutePath(cfg.cfgDirectory + d.config.value));
      }
      Extend(start, s1 + s2, s3);
      if d.servername.Some? {
        AddParameter("+sv_hostname", cfg.hostnameBase + " " + d.servername.value);
      }
      Extend(start, s1 + s2 + s3, s4);
    }

    method AddGameArgs(d: Draft, cfg: Config)
      requires Arranged()
      modifies this
      ensures Arranged() && executable == old(executable)
      ensures added == old(added) + GameArgs(d, cfg)
      ensures portText == old(portText) && alive == old(alive)
    {
      ghost var start := added;
      AddModeArgs(d);
      AddFlags(d);
      Extend(start, ModeArgs(d), FlagArgs(d));
      AddSwitches(d, cfg);
      Extend(start, ModeArgs(d) + FlagArgs(d), SwitchArgs(d, cfg));
    }

    method AddSecrets(rcon: string, password: string, userId: string, cfg: Config)
      requires Arranged()
      modifies this
      ensures Arranged() && executable == old(executable)
      ensures added == old(added) + Secrets(rcon, password, userId, cfg)
      ensures portText == old(portText) && alive == old(alive)
    {
      AddParameter("+sv_rconpassword", rcon);
      AddParameter("+sv_password", password);
      AddParameter("+sv_joinpassword", password);
      AddParameter("+sv_banfile", cfg.absolutePath(cfg.banlistDirectory + userId + ".txt"));
      AddParameter("+sv_adminlistfile", cfg.absolutePath(cfg.adminlistDirectory + userId + ".txt"));
      AddParameter("+sv_banexemptionfile", cfg.absolutePath(cfg.whitelistDirectory + userId + ".txt"));
    }

    /**
     * processServerRunCommand: the data wads go in front of the server's
     * wads and the extra wads behind, the list is de-duplicated and each
     * entry becomes a "-file" pair; the wad page is made from the wads
     * and optional wads together; join and connect passwords become the
     * server password. The returned list is the de-duplicated wad list
     * the "-file" pairs were made from.
     */
    method ProcessServerRunCommand(cfg: Config, minPort: int) returns (fileWads: seq<string>)
      modifies this, server
      ensures Functions.NoDuplicates(fileWads)
      ensures forall w :: w in fileWads <==> w in StartupWads(old(server.options), cfg)
      ensures server.options == old(server.options).(wads := server.options.wads)
      ensures Functions.NoDuplicates(server.options.wads)
      ensures forall w :: w in server.options.wads <==> w in fileWads || w in old(server.options.optwads)
      ensures commands == RunCommand(old(server.options), server.userId, server.rconPassword,
                                     server.serverPassword, cfg, minPort, fileWads,
                                     cfg.createWadPage(JavaText.Join(server.options.wads, ",")))
      ensures server.runtime == old(server.runtime).(joinPassword := server.serverPassword,
                                                     connectPassword := server.serverPassword)
      ensures server.rconPassword == old(server.rconPassword) && server.serverPassword == old(server.serverPassword)
      ensures server.userId == old(server.userId) && server.recovering == old(server.recovering)
      ensures server.serverId == old(server.serverId) && server.Requester() == old(server.Requester())
      ensures portText == old(portText) && alive == old(alive)
    {
      var d := server.options;
      var pageWads;
      fileWads, pageWads := BuildCommand(d, server.userId, server.rconPassword, server.serverPassword, cfg, minPort);
      server.options := server.options.(wads := pageWads);
      server.runtime := server.runtime.(joinPassword := server.serverPassword,
                                        connectPassword := server.serverPassword);
    }

    /**
     * The argument vector of processServerRunCommand, built pair by pair;
     * `fileWads` is what server.wads holds while the "-file" pairs are
     * added and `pageWads` what it holds at the end.
     */
    method BuildCommand(d: Draft, userId: string, rcon: string, password: string, cfg: Config, minPort: int)
      returns (fileWads: seq<string>, pageWads: seq<string>)
      modifies this
      ensures Functions.NoDuplicates(fileWads)
      ensures forall w :: w in fileWads <==> w in StartupWads(d, cfg)
      ensures Functions.NoDuplicates(pageWads)
      ensures forall w :: w in pageWads <==> w in fileWads || w in d.optwads
      ensures commands == RunCommand(d, userId, rcon, password, cfg, minPort, fileWads,
                                     cfg.createWadPage(JavaText.Join(pageWads, ",")))
      ensures Arranged() && portText == old(portText) && alive == old(alive)
    {
      commands, executable, added := [d.version.path], d.version.path, [];
      AddOpening(d, userId, cfg, minPort);
      assert added == Opening(d, userId, cfg, minPort);

      fileWads := StartupWadList(d.skulltagData, d.version.data, d.wads, cfg.extraWads);
      AddBody(d, fileWads, rcon, password, userId, cfg);
      ghost var body := added;

      pageWads := Functions.RemoveDuplicateWads(fileWads + d.optwads);
      var key := cfg.createWadPage(JavaText.Join(pageWads, ","));
      AddParameter("+sv_website", cfg.websiteLink + "/wadpage?key=" + key);
      AddParameter("-host", "");
      Extend(body, [("+sv_website", cfg.websiteLink + "/wadpage?key=" + key)], [("-host", "")]);
      assert added == Parameters(d, userId, rcon, password, cfg, minPort, fileWads, key);
    }

    /** The pairs between the opening and the wad page: files, game settings, passwords. */
    method AddBody(d: Draft, fileWads: seq<string>, rcon: string, password: string, userId: string, cfg: Config)
      requires Arranged()
      modifies this
      ensures Arranged() && executable == old(executable)
      ensures added == old(added) + FileArgs(fileWads, cfg) + OptFileArgs(d.optwads, cfg)
                       + GameArgs(d, cfg) + Secrets(rcon, password, userId, cfg)
      ensures portText == old(portText) && alive == old(alive)
    {
      AddFiles(fileWads, cfg);
      AddOptFiles(d.optwads, cfg);
      AddGameArgs(d, cfg);
      AddSecrets(rcon, password, userId, cfg);
    }

    /** What a line may change, read off the server and the loop. */
    function State(): LineState
      reads this, server
    {
      LineState(server.options, server.rconPassword, server.recovering, server.runtime, portText)
    }

    /** The start of run(): the start time and the first activity are now. */
    method Start(now: int)
      modifies server, this
      ensures server.runtime == old(server.runtime).(timeStarted := now, lastActivity := now)
      ensures server.options == old(server.options) && server.recovering == old(server.recovering)
      ensures server.rconPassword == old(server.rconPassword)
      ensures portText == old(portText) && alive
    {
      server.runtime := server.runtime.(timeStarted := now, lastActivity := now);
      alive := true;
    }

    method HandlePort(l: string) returns (effects: seq<Effect>)
      modifies server, this
      ensures (State(), effects) == PortStage(old(State()), l)
      ensures server.serverId == old(server.serverId) && server.serverPassword == old(server.serverPassword)
      ensures server.userId == old(server.userId) && server.userLevel == old(server.userLevel)
      ensures alive == old(alive)
    {
      effects := [];
      if StartsWith(l, AlternatePortPrefix) {
        portText := AlternatePortText(l);
        if IsInteger(portText) {
          server.runtime := server.runtime.(port := ParseInt(portText).value);
        } else {
          effects := [Say(PortParseError)];
        }
      } else if StartsWith(l, BindFailurePrefix) {
        portText := BindPortText(l);
        if IsInteger(portText) {
          server.runtime := server.runtime.(port := ParseInt(portText).value);
        } else {
          effects := [Say(BindParseError)];
        }
      }
    }

    method HandleSentinel(l: string) returns (effects: seq<Effect>)
      modifies server, manager
      ensures (State(), effects) == SentinelStage(old(State()), l)
      ensures manager.servers == old(manager.servers) + (if EqualsIgnoreCase(l, Sentinel) then [server] else [])
      ensures server.serverId == old(server.serverId) && server.serverPassword == old(server.serverPassword)
      ensures server.userId == old(server.userId) && server.userLevel == old(server.userLevel)
    {
      effects := [];
      if EqualsIgnoreCase(l, Sentinel) {
        manager.Add(server);
        effects := [Register] + (if !server.recovering then [Say(Started)] else []);
        server.recovering := false;
      }
    }

    method HandlePassword(which: Secret, echo: Option<string>) returns (effects: seq<Effect>)
      modifies server
      ensures (State(), effects) == PasswordStage(old(State()), which, echo)
      ensures server.serverId == old(server.serverId) && server.serverPassword == old(server.serverPassword)
      ensures server.userId == old(server.userId) && server.userLevel == old(server.userLevel)
    {
      effects := [];
      if echo.Some? {
        var v := echo.value;
        var before := Password(State(), which);
        match which {
          case Rcon => server.rconPassword := v;
          case Join => server.runtime := server.runtime.(joinPassword := v);
          case Connect => server.runtime := server.runtime.(connectPassword := v);
        }
        if !IsRegexBlank(v) {
          if |v| < 5 {
            effects := [Say(PasswordTooShort(which))];
          } else if before != v {
            effects := [Say(PasswordChanged(which, v))];
          }
        }
      }
    }

    method HandleHostname(l: string, m: Matchers, look: Lookups, cfg: Config) returns (effects: seq<Effect>)
      modifies server
      ensures (State(), effects) == HostnameStage(old(State()), l, m, look, cfg, server.userLevel)
      ensures server.serverId == old(server.serverId) && server.serverPassword == old(server.serverPassword)
      ensures server.userId == old(server.userId) && server.userLevel == old(server.userLevel)
    {
      effects := [];
      var echo := m.hostname(l);
      if echo.Some? {
        var before := server.options.servername;
        var name := Unquote(echo.value);
        server.options := server.options.(servername := Some(name));
        if !IsRegexBlank(name) && before != Some(name) {
          if !look.atLeastVip(server.userLevel) {
            var escaped := Functions.EscapeQuotes(name);
            effects := [Console("sv_hostname \"" + cfg.hostnameBase + " " + escaped + "\";\n")];
          }
          effects := effects + [Say(HostnameChanged(before.GetOr(""), name))];
        }
      }
    }

    /** The port, address and sentinel lines. */
    method HandleNotices(l: string) returns (effects: seq<Effect>)
      modifies server, this, manager
      ensures (State(), effects) == Notices(old(State()), l)
      ensures manager.servers == old(manager.servers) + (if EqualsIgnoreCase(l, Sentinel) then [server] else [])
      ensures server.serverId == old(server.serverId) && server.serverPassword == old(server.serverPassword)
      ensures server.userId == old(server.userId) && server.userLevel == old(server.userLevel)
      ensures alive == old(alive)
    {
      var e1 := HandlePort(l);
      if StartsWith(l, AddressPrefix) {
        server.runtime := server.runtime.(address := Trim(Replace(l, AddressPrefix, "")));
      }
      var e3 := HandleSentinel(l);
      effects := e1 + e3;
    }

    /** The hostname and password echoes. */
    method HandleEchoes(l: string, m: Matchers, look: Lookups, cfg: Config) returns (effects: seq<Effect>)
      modifies server
      ensures (State(), effects) == Echoes(old(State()), l, m, look, cfg, server.userLevel)
      ensures server.serverId == old(server.serverId) && server.serverPassword == old(server.serverPassword)
      ensures server.userId == old(server.userId) && server.userLevel == old(server.userLevel)
    {
      var e5 := HandleHostname(l, m, look, cfg);
      var e6 := HandlePassword(Rcon, m.rconPassword(l));
      var e7 := HandlePassword(Join, m.joinPassword(l));
      var e8 := HandlePassword(Connect, m.connectPassword(l));
      effects := e5 + e6 + e7 + e8;
    }

    /**
     * One pass of the read loop: strip the time prefix, then the port and
     * address notices, the sentinel (which registers the server), the
     * player check, the hostname and password echoes, and the activity
     * time.
     */
    method HandleLine(line: string, m: Matchers, look: Lookups, cfg: Config, now: int)
      returns (effects: seq<Effect>)
      modifies server, this, manager
      ensures (State(), effects) == Step(old(State()), line, m, look, cfg, server.userLevel, now)
      ensures manager.servers == old(manager.servers) + (if EqualsIgnoreCase(Strip(line), Sentinel) then [server] else [])
      ensures server.serverId == old(server.serverId) && server.serverPassword == old(server.serverPassword)
      ensures server.userId == old(server.userId) && server.userLevel == old(server.userLevel)
      ensures alive == old(alive)
    {
      var l := Trim(line[IndexOf(line, ']') + 1..]);
      var notices := HandleNotices(l);
      var screening := PlayerStage(l, m, look, cfg);
      var echoes := HandleEchoes(l, m, look, cfg);
      if EndsWith(l, JoinedSuffix) {
        server.runtime := server.runtime.(lastActivity := now);
      }
      effects := notices + screening + echoes;
    }

    /**
     * The end of the output: the report the flags call for, and the
     * server leaves the registry whatever happened.
     */
    method EndOfOutput() returns (outcome: Outcome)
      modifies manager, this
      ensures outcome == EndOfStream(server.runtime, server.recovering)
      ensures manager.servers == Registry.RemoveFirst(old(manager.servers), server)
      ensures !alive
    {
      outcome := EndOfStream(server.runtime, server.recovering);
      manager.Remove(server);
      alive := false;
    }

    /** terminateServer: off the registry first, then the process is killed. */
    method TerminateServer()
      modifies manager, this
      ensures manager.servers == Registry.RemoveFirst(old(manager.servers), server)
      ensures !alive && commands == old(commands) && portText == old(portText)
    {
      manager.Remove(server);
      alive := false;
    }
  }
}
