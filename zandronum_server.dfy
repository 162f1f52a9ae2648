// The lenient ".host" handler of the Zandronum generation
// (src/main/java/org/bestever/bebot/Server.java): the option aliases, the
// fold of key=value options into a fresh Server, the wad checks that follow
// and the split of the server id into the two passwords.
module ZandronumServer {
  import opened Wrappers
  import opened JavaText
  import opened Versions
  import Functions

  /** FLAGS_ERROR: 0xFFFFFFFF read as a Java int. */
  const FlagsError: int := -1

  // ---------------------------------------------------------- alias tables

  /** handleTrue: on, true, yes and enable, in any case; anything else is false. */
  predicate HandleTrue(s: string)
  {
    var k := ToLower(s);
    k == "on" || k == "true" || k == "yes" || k == "enable"
  }

  /** handleSkill: a number from 0 to 4, or -1 for anything else. */
  function HandleSkill(skill: string): (r: int)
    ensures -1 <= r <= 4
    ensures r != -1 <==> ParseInt(skill).Some? && 0 <= ParseInt(skill).value <= 4
    ensures r != -1 ==> ParseInt(skill) == Some(r)
  {
    if !IsInteger(skill) || ParseInt(skill).value > 4 || ParseInt(skill).value < 0 then -1
    else ParseInt(skill).value
  }

  /**
   * handleGameFlags: a non-negative number is the flag value, a negative one
   * is FLAGS_ERROR, and text that is not a number silently becomes 0.
   */
  function HandleGameFlags(keyword: string): (r: int)
    ensures r == FlagsError <==> ParseInt(keyword).Some? && ParseInt(keyword).value < 0
    ensures r != FlagsError ==> r >= 0
    ensures ParseInt(keyword).None? ==> r == 0
    ensures ParseInt(keyword).Some? && ParseInt(keyword).value >= 0 ==> r == ParseInt(keyword).value
  {
    var flag := if IsInteger(keyword) then ParseInt(keyword).value else 0;
    if flag >= 0 then flag else FlagsError
  }

  /** The names getIwad can answer. */
  const IwadNames: set<string> :=
    {"doom2.wad", "doom.wad", "tnt.wad", "plutonia.wad", "heretic.wad", "hexen.wad",
     "strife1.wad", "doom1.wad", "harm1.wad", "hacx.wad", "chex3.wad", "megagame.wad",
     "freedm.wad", "freedoom2.wad", "freedoom1.wad", "nerve.wad", "fakeiwad.wad",
     "rott_tc_full.pk3", "doom_complete.pk3", "action2.wad"}

  /** The getIwad switch on already lower-cased text. */
  function IwadOfLower(k: string): (r: Option<string>)
  {
    if k == "doom2" || k == "doom2.wad" then Some("doom2.wad")
    else if k == "doom" || k == "doom.wad" then Some("doom.wad")
    else if k == "tnt" || k == "tnt.wad" then Some("tnt.wad")
    else if k == "plutonia" || k == "plutonia.wad" then Some("plutonia.wad")
    else if k == "heretic" || k == "heretic.wad" then Some("heretic.wad")
    else if k == "hexen" || k == "hexen.wad" then Some("hexen.wad")
    else if k == "strife1" || k == "strife1.wad" then Some("strife1.wad")
    else if k == "sharewaredoom" || k == "doom1" || k == "doom1.wad" then Some("doom1.wad")
    else if k == "harmony" || k == "harm1" || k == "harmony.wad" || k == "harm1.wad" then Some("harm1.wad")
    else if k == "hacx" || k == "hacx.wad" then Some("hacx.wad")
    else if k == "chex3" || k == "chex3.wad" then Some("chex3.wad")
    else if k == "megaman" || k == "megagame" || k == "megagame.wad" then Some("megagame.wad")
    else if k == "freedm" || k == "freedm.wad" then Some("freedm.wad")
    else if k == "freedoom" || k == "freedoom.wad" || k == "freedoom2" || k == "freedoom2.wad" then Some("freedoom2.wad")
    else if k == "freedoom1" || k == "freedoom1.wad" then Some("freedoom1.wad")
    else if k == "nerve" || k == "nerve.wad" then Some("nerve.wad")
    else if k == "fakeiwad" || k == "fakeiwad.wad" then Some("fakeiwad.wad")
    else if k == "rott" || k == "rotttc" || k == "rotttcfull" || k == "rott_tc" || k == "rott_tc_full"
         || k == "rott_tc_full.pk3" then Some("rott_tc_full.pk3")
    else if k == "doom_complete" || k == "doom_complete.pk3" then Some("doom_complete.pk3")
    else if k == "action2" || k == "action2.wad" then Some("action2.wad")
    else None
  }

  /** getIwad: the alias table, ignoring case; None stands for null. */
  function GetIwad(s: string): (r: Option<string>)
  {
    IwadOfLower(ToLower(s))
  }

  /** getIwad answers only names from its own table. */
  lemma GetIwadNames(s: string)
    ensures GetIwad(s).Some? ==> GetIwad(s).value in IwadNames
  {
  }

  /** Every name getIwad answers is an alias of itself, checked a few table rows at a time. */
  lemma IwadNamesFixed(t: string)
    requires t in IwadNames
    ensures IwadOfLower(t) == Some(t)
  {
    if t in {"doom2.wad", "doom.wad", "tnt.wad", "plutonia.wad", "heretic.wad"} {
    } else if t in {"hexen.wad", "strife1.wad", "doom1.wad", "harm1.wad", "hacx.wad"} {
      IwadRowsFixed2(t);
    } else if t in {"chex3.wad", "megagame.wad", "freedm.wad"} {
      IwadRowsFixed3(t);
    } else if t in {"freedoom2.wad", "freedoom1.wad"} {
      IwadRowsFixed4(t);
    } else if t in {"nerve.wad", "fakeiwad.wad"} {
      IwadRowsFixed5(t);
    } else if t in {"rott_tc_full.pk3", "doom_complete.pk3"} {
      IwadRowsFixed6(t);
    } else {
      IwadRowsFixed7(t);
    }
  }

  lemma IwadRowsFixed2(t: string)
    requires t in {"hexen.wad", "strife1.wad", "doom1.wad", "harm1.wad", "hacx.wad"}
    ensures IwadOfLower(t) == Some(t)
  {
  }

  lemma IwadRowsFixed3(t: string)
    requires t in {"chex3.wad", "megagame.wad", "freedm.wad"}
    ensures IwadOfLower(t) == Some(t)
  {
  }

  lemma IwadRowsFixed4(t: string)
    requires t in {"freedoom2.wad", "freedoom1.wad"}
    ensures IwadOfLower(t) == Some(t)
  {
  }

  lemma IwadRowsFixed5(t: string)
    requires t in {"nerve.wad", "fakeiwad.wad"}
    ensures IwadOfLower(t) == Some(t)
  {
  }

  lemma IwadRowsFixed6(t: string)
    requires t in {"rott_tc_full.pk3", "doom_complete.pk3"}
    ensures IwadOfLower(t) == Some(t)
  {
  }

  lemma IwadRowsFixed7(t: string)
    requires t in {"action2.wad"}
    ensures IwadOfLower(t) == Some(t)
  {
  }

  /** getIwad is idempotent: feeding an answer back gives the same answer. */
  lemma GetIwadIdempotent(s: string)
    ensures GetIwad(s).Some? ==> GetIwad(GetIwad(s).value) == GetIwad(s)
  {
    var r := GetIwad(s);
    GetIwadNames(s);
    if r.Some? {
      IwadNamesLower(r.value);
      ToLowerOfLower(r.value);
      IwadNamesFixed(r.value);
    }
  }

  lemma IwadNamesLower(t: string)
    requires t in IwadNames
    ensures IsLowerAscii(t)
  {
    if t in {"doom2.wad", "doom.wad", "tnt.wad", "plutonia.wad", "heretic.wad", "hexen.wad", "strife1.wad"} {
      IwadNamesLower1(t);
    } else if t in {"doom1.wad", "harm1.wad", "hacx.wad", "chex3.wad", "megagame.wad", "freedm.wad"} {
      IwadNamesLower2(t);
    } else {
      IwadNamesLower3(t);
    }
  }

  lemma IwadNamesLower1(t: string)
    requires t in {"doom2.wad", "doom.wad", "tnt.wad", "plutonia.wad", "heretic.wad", "hexen.wad", "strife1.wad"}
    ensures IsLowerAscii(t)
  {
  }

  lemma IwadNamesLower2(t: string)
    requires t in {"doom1.wad", "harm1.wad", "hacx.wad", "chex3.wad", "megagame.wad", "freedm.wad"}
    ensures IsLowerAscii(t)
  {
  }

  lemma IwadNamesLower3(t: string)
    requires t in {"freedoom2.wad", "freedoom1.wad", "nerve.wad", "fakeiwad.wad",
                   "rott_tc_full.pk3", "doom_complete.pk3", "action2.wad"}
    ensures IsLowerAscii(t)
  {
  }

  /** Every spelling getGamemode knows. */
  const GamemodeAliases: set<string> :=
    {"deathmatch", "dm", "ffa", "ctf", "capturetheflag", "tdm", "teamdm", "tdeathmatch",
     "teamdeathmatch", "term", "terminator", "pos", "possession", "tpos", "teampossession",
     "lms", "lastmanstanding", "tlms", "teamlms", "teamlastmanstanding", "skulltag", "st",
     "duel", "teamgame", "domination", "dom", "coop", "co-op", "cooperative", "survival",
     "inv", "invasion", "ofctf", "oneflagctf"}

  /** The names getGamemode can answer. */
  const GameModes: set<string> :=
    {"deathmatch", "ctf", "teamplay", "terminator", "possession", "teampossession",
     "lastmanstanding", "teamlms", "skulltag", "duel", "teamgame", "domination",
     "cooperative", "survival", "invasion", "oneflagctf"}

  /** The getGamemode switch on already lower-cased text; unknown names are cooperative. */
  function GamemodeOfLower(k: string): (r: string)
  {
    if k == "deathmatch" || k == "dm" || k == "ffa" then "deathmatch"
    else if k == "ctf" || k == "capturetheflag" then "ctf"
    else if k == "tdm" || k == "teamdm" || k == "tdeathmatch" || k == "teamdeathmatch" then "teamplay"
    else if k == "term" || k == "terminator" then "terminator"
    else if k == "pos" || k == "possession" then "possession"
    else if k == "tpos" || k == "teampossession" then "teampossession"
    else if k == "lms" || k == "lastmanstanding" then "lastmanstanding"
    else if k == "tlms" || k == "teamlms" || k == "teamlastmanstanding" then "teamlms"
    else if k == "skulltag" || k == "st" then "skulltag"
    else if k == "duel" then "duel"
    else if k == "teamgame" then "teamgame"
    else if k == "domination" || k == "dom" then "domination"
    else if k == "coop" || k == "co-op" || k == "cooperative" then "cooperative"
    else if k == "survival" then "survival"
    else if k == "inv" || k == "invasion" then "invasion"
    else if k == "ofctf" || k == "oneflagctf" then "oneflagctf"
    else "cooperative"
  }

  /** getGamemode: never null; what it does not know becomes cooperative. */
  function GetGamemode(s: string): (r: string)
  {
    GamemodeOfLower(ToLower(s))
  }

  /** getGamemode answers only the modes it knows, cooperative for anything else. */
  lemma GetGamemodeNames(s: string)
    ensures GetGamemode(s) in GameModes
    ensures ToLower(s) !in GamemodeAliases ==> GetGamemode(s) == "cooperative"
  {
    if ToLower(s) !in GamemodeAliases {
      UnknownGamemode(ToLower(s));
    }
  }

  lemma UnknownGamemode(k: string)
    requires k !in GamemodeAliases
    ensures GamemodeOfLower(k) == "cooperative"
  {
  }

  /**
   * Every answer of getGamemode is an alias of itself except "teamplay":
   * that name is not in the table, so it would read back as cooperative.
   */
  lemma GameModesFixed(t: string)
    requires t in GameModes
    ensures GetGamemode(t) == (if t == "teamplay" then "cooperative" else t)
  {
    GameModesLower(t);
    ToLowerOfLower(t);
    if t in {"deathmatch", "ctf", "teamplay", "terminator", "possession", "teampossession"} {
      GameModeRowsFixed1(t);
    } else if t in {"lastmanstanding", "teamlms", "skulltag"} {
      GameModeRowsFixed2(t);
    } else if t in {"duel", "teamgame"} {
      GameModeRowsFixed3(t);
    } else if t in {"domination"} {
      GameModeRowsFixed4(t);
    } else if t in {"cooperative"} {
      GameModeRowsFixed8(t);
    } else if t in {"survival"} {
      GameModeRowsFixed5(t);
    } else if t in {"invasion"} {
      GameModeRowsFixed6(t);
    } else {
      GameModeRowsFixed7(t);
    }
  }

  lemma GameModeRowsFixed1(t: string)
    requires t in {"deathmatch", "ctf", "teamplay", "terminator", "possession", "teampossession"}
    ensures GamemodeOfLower(t) == (if t == "teamplay" then "cooperative" else t)
  {
  }

  lemma GameModeRowsFixed2(t: string)
    requires t in {"lastmanstanding", "teamlms", "skulltag"}
    ensures GamemodeOfLower(t) == t
  {
  }

  lemma GameModeRowsFixed3(t: string)
    requires t in {"duel", "teamgame"}
    ensures GamemodeOfLower(t) == t
  {
  }

  lemma GameModeRowsFixed4(t: string)
    requires t in {"domination"}
    ensures GamemodeOfLower(t) == t
  {
  }

  lemma GameModeRowsFixed8(t: string)
    requires t in {"cooperative"}
    ensures GamemodeOfLower(t) == t
  {
  }

  lemma GameModeRowsFixed5(t: string)
    requires t in {"survival"}
    ensures GamemodeOfLower(t) == t
  {
  }

  lemma GameModeRowsFixed6(t: string)
    requires t in {"invasion"}
    ensures GamemodeOfLower(t) == t
  {
  }

  lemma GameModeRowsFixed7(t: string)
    requires t in {"oneflagctf"}
    ensures GamemodeOfLower(t) == t
  {
  }

  lemma GameModesLower(t: string)
    requires t in GameModes
    ensures IsLowerAscii(t)
  {
  }

  /** The alias switches read only the case-folded text. */
  lemma AliasesIgnoreCase(a: string, b: string)
    requires EqualsIgnoreCase(a, b)
    ensures HandleTrue(a) == HandleTrue(b)
    ensures GetIwad(a) == GetIwad(b)
    ensures GetGamemode(a) == GetGamemode(b)
  {
  }

  /** isIwad: the wads that go to the iwad directory. */
  predicate IsIwad(wad: string)
  {
    ToLower(wad) in
      {"doom2.wad", "doom.wad", "tnt.wad", "heretic.wad", "hexen.wad", "hexdd.wad",
       "strife1.wad", "doom1.wad", "harmony.wad", "harm1.wad", "hacx.wad", "chex3.wad",
       "megagame.wad", "freedm.wad", "nerve.wad", "fakeiwad.wad", "rott_tc_full.pk3",
       "doom_complete.pk3", "action2.wad", "freedoom1.wad", "freedoom2.wad"}
  }

  /** Every getIwad answer but plutonia.wad is an iwad by isIwad's own list. */
  lemma GetIwadIsIwad(s: string)
    ensures GetIwad(s).Some? && GetIwad(s).value != "plutonia.wad" ==> IsIwad(GetIwad(s).value)
  {
    var r := GetIwad(s);
    GetIwadNames(s);
    if r.Some? {
      IwadNamesLower(r.value);
      ToLowerOfLower(r.value);
    }
  }

  // --------------------------------------------------------------- addWads

  /** addWads, specified: the comma-separated pieces, trimmed and lower-cased, empty ones kept. */
  function WadList(wad: string): (r: seq<string>)
    ensures |r| == |Split(wad, ',')|
    ensures forall i :: 0 <= i < |r| ==> ',' !in r[i]
  {
    var pieces := Split(wad, ',');
    seq(|pieces|, i requires 0 <= i < |pieces| => LowerTrimNoComma(pieces[i]))
  }

  function LowerTrimNoComma(piece: string): (r: string)
    requires ',' !in piece
    ensures ',' !in r && r == ToLower(Trim(piece))
  {
    TrimSpec(piece);
    assert forall i :: 0 <= i < |Trim(piece)| ==> Trim(piece)[i] in piece;
    ToLower(Trim(piece))
  }

  /** addWads rewrites the split array in place. */
  method AddWads(wad: string) returns (wads: array<string>)
    ensures fresh(wads) && wads[..] == WadList(wad)
  {
    var pieces := Split(wad, ',');
    wads := new string[|pieces|](i requires 0 <= i < |pieces| => pieces[i]);
    for i := 0 to wads.Length
      invariant forall j :: 0 <= j < i ==> wads[j] == ToLower(Trim(pieces[j]))
      invariant forall j :: i <= j < wads.Length ==> wads[j] == pieces[j]
    {
      wads[i] := ToLower(Trim(wads[i]));
    }
    assert forall j :: 0 <= j < wads.Length ==> wads[..][j] == WadList(wad)[j];
  }

  /** The optional-wad loop: append each piece that is not already listed. */
  function AddAbsent(list: seq<string>, pieces: seq<string>): seq<string>
    decreases |pieces|
  {
    if |pieces| == 0 then list
    else
      var l := AddAbsent(list, pieces[..|pieces| - 1]);
      if pieces[|pieces| - 1] in l then l else l + [pieces[|pieces| - 1]]
  }

  /** The old list stays in front, nothing is lost, and no repeat is introduced. */
  lemma {:induction false} AddAbsentSpec(list: seq<string>, pieces: seq<string>)
    ensures var r := AddAbsent(list, pieces);
            && |list| <= |r| && r[..|list|] == list
            && (forall x :: x in r <==> x in list || x in pieces)
            && (Functions.NoDuplicates(list) ==> Functions.NoDuplicates(r))
    decreases |pieces|
  {
    if |pieces| > 0 {
      var init := pieces[..|pieces| - 1];
      AddAbsentSpec(list, init);
      assert pieces == init + [pieces[|pieces| - 1]];
    }
  }

  // ------------------------------------------------------------ the options

  /**
   * Why the ".host" handler starts no server. Most cases are reported to
   * the channel before the handler returns null; NoIwadName stands for the
   * ArrayIndexOutOfBoundsException of split(":")[1], and HashesRejected
   * for a return of null with no message from the handler itself.
   */
  datatype HostError =
    | InvalidVersion
    | BadFlags(option: string)
    | MissingConfig(name: string)
    | InvalidPort
    | PortInUse(port: int)
    | BadSkill
    | HashesRejected
    | NoIwadName(entry: string)
    | MissingIwadFile(name: string)
    | MissingFile(name: string)
    | MissingIwad
    | MissingHostname
    | ServerLimit
    | HashFailure

  /**
   * The bot's surroundings as seen by the handler: the version catalog,
   * the configured directories, the file system, the MySQL wad-hash
   * blacklist, the registry's port lookup, the socket probe and the port
   * range.
   */
  datatype Environment = Environment(
    versions: string -> Option<Version>,
    defaultVersion: Version,
    configDirectory: string,
    iwadDirectory: string,
    wadDirectory: string,
    fileExists: string -> bool,
    hashesAccepted: seq<string> -> bool,
    portRegistered: int -> bool,
    portAvailable: int -> bool,
    minPort: int,
    maxPort: int)

  /**
   * The arguments of one ".host" call. generatedId is what generateHash
   * would produce, None when the digest is unavailable.
   */
  datatype Request = Request(
    channel: string, sender: string, hostname: string, message: string,
    userLevel: int, autoRestart: bool, port: int, id: Option<string>,
    recovering: bool, generatedId: Option<string>)

  /** The fields the option loop writes. None stands for null. */
  datatype Draft = Draft(
    autoRestart: bool, version: Version, buckshot: bool,
    compatflags: int, zacompatflags: int, config: Option<string>,
    skulltagData: bool, dmflags: int, dmflags2: int, zadmflags: int,
    gamemode: Option<string>, servername: Option<string>, instagib: bool,
    iwad: Option<string>, mapName: Option<string>, mapwads: Option<seq<string>>,
    tempPort: int, skill: int, wads: seq<string>, optwads: seq<string>)

  /** Who asked, from where, and with which command. */
  datatype Origin = Origin(
    ircChannel: string, sender: string, ircHostname: string, hostCommand: string, userLevel: int)

  /** A server as handleHostCommand hands it over. */
  datatype Launch = Launch(
    draft: Draft, origin: Origin, serverId: string, rconPassword: string,
    serverPassword: string, recovering: bool)

  /**
   * What changes once a server is launched: the port and address the
   * process reports, the join and connect passwords, the start and last
   * activity times, and the flags the kill commands and the sweep set.
   * An empty address stands for null.
   */
  datatype Runtime = Runtime(
    port: int, address: string, joinPassword: string, connectPassword: string,
    timeStarted: int, lastActivity: int, beingKilled: bool, beingKilledByOwner: bool,
    hideStopMessage: bool, protectedServer: bool)

  /** Server.DAY_MILLISECONDS: one day in milliseconds. */
  const DayMilliseconds: int := 1000 * 60 * 60 * 24

  /** Java's field defaults for the runtime fields. */
  function Idle(): Runtime
  {
    Runtime(0, "", "", "", 0, 0, false, false, false, false)
  }

  /** A fresh Server: Java's defaults, and skill -1. */
  function Blank(): Draft
  {
    Draft(false, Version("", "", ""), false, 0, 0, None, false, 0, 0, 0,
          None, None, false, None, None, None, 0, -1, [], [])
  }

  /** The draft before the first option: defaults, the default version, the given port. */
  function Initial(env: Environment, req: Request): Draft
  {
    Blank().(autoRestart := req.autoRestart, version := env.defaultVersion, tempPort := req.port)
  }

  /** The case labels of the option switch. */
  datatype OptionKey =
    | AutoRestartKey | VersionKey | BuckshotKey | CompatflagsKey | ZacompatflagsKey
    | ConfigKey | DataKey | DmflagsKey | Dmflags2Key | ZadmflagsKey | GamemodeKey
    | HostnameKey | InstagibKey | IwadKey | MapKey | MapwadKey | PortKey | SkillKey
    | WadKey | OptionalWadKey | OtherKey

  /** Which case of the switch a lower-cased key falls into. */
  function KeyOf(k: string): OptionKey
  {
    if k == "autorestart" then AutoRestartKey
    else if k == "version" then VersionKey
    else if k == "buckshot" then BuckshotKey
    else if k == "compatflags" then CompatflagsKey
    else if k == "zacompatflags" then ZacompatflagsKey
    else if k == "config" then ConfigKey
    else if k == "data" || k == "stdata" then DataKey
    else if k == "dmflags" then DmflagsKey
    else if k == "dmflags2" then Dmflags2Key
    else if k == "zadmflags" then ZadmflagsKey
    else if k == "gamemode" then GamemodeKey
    else if k == "hostname" then HostnameKey
    else if k == "instagib" then InstagibKey
    else if k == "iwad" then IwadKey
    else if k == "map" then MapKey
    else if k == "mapwad" then MapwadKey
    else if k == "port" then PortKey
    else if k == "skill" then SkillKey
    else if k == "wad" || k == "file" || k == "wads" || k == "files" then WadKey
    else if k == "optionalwad" || k == "optwad" || k == "opt" || k == "optfile"
            || k == "optionalwads" || k == "optwads" || k == "opts" || k == "optfiles" then OptionalWadKey
    else OtherKey
  }

  /**
   * The zacompatflags case as written: it stores the new value but tests
   * compatflags, which the loop never leaves at FLAGS_ERROR.
   */
  function ZacompatflagsAsWritten(d: Draft, value: string): Result<Draft, HostError>
  {
    var d' := d.(zacompatflags := HandleGameFlags(value));
    if d'.compatflags == FlagsError then Failure(BadFlags("zacompatflags")) else Success(d')
  }

  /** One key=value match of the option loop: the switch on the lower-cased key. */
  function Apply(d: Draft, key: string, value: string, env: Environment): Result<Draft, HostError>
  {
    ApplyKey(d, KeyOf(ToLower(key)), value, env)
  }

  const PlainKeys: set<OptionKey> :=
    {AutoRestartKey, BuckshotKey, DataKey, GamemodeKey, HostnameKey, InstagibKey, IwadKey,
     MapKey, MapwadKey, OtherKey}
  const FlagKeys: set<OptionKey> :=
    {CompatflagsKey, ZacompatflagsKey, DmflagsKey, Dmflags2Key, ZadmflagsKey}
  const CheckedKeys: set<OptionKey> := {VersionKey, ConfigKey, PortKey, SkillKey}
  const WadKeys: set<OptionKey> := {WadKey, OptionalWadKey}

  /** One case of the option switch, by the kind of case it is. */
  function ApplyKey(d: Draft, key: OptionKey, value: string, env: Environment): Result<Draft, HostError>
  {
    if key in PlainKeys then Success(PlainCase(d, key, value))
    else if key in FlagKeys then FlagsCase(d, key, value)
    else if key in CheckedKeys then CheckedCase(d, key, value, env)
    else
      assert key == WadKey || key == OptionalWadKey;
      WadCase(d, key, value, env)
  }

  /** The cases that store what they are given; keys the switch does not know change nothing. */
  function PlainCase(d: Draft, key: OptionKey, value: string): Draft
    requires key in PlainKeys
  {
    match key
    case AutoRestartKey => d.(autoRestart := HandleTrue(value))
    case BuckshotKey => d.(buckshot := HandleTrue(value))
    case DataKey => d.(skulltagData := HandleTrue(value))
    case GamemodeKey => d.(gamemode := Some(GetGamemode(value)))
    case HostnameKey => d.(servername := Some(value))
    case InstagibKey => d.(instagib := HandleTrue(value))
    case IwadKey => d.(iwad := GetIwad(Functions.CleanInputFile(value)))
    case MapKey => d.(mapName := Some(value))
    case MapwadKey => d.(mapwads := Some(WadList(value)))
    case OtherKey => d
  }

  /**
   * The flags cases: the value goes through handleGameFlags and FLAGS_ERROR
   * refuses the host. zacompatflags tests its own value here; see
   * ZacompatflagsAsWritten for the test as the source has it.
   */
  function FlagsCase(d: Draft, key: OptionKey, value: string): Result<Draft, HostError>
    requires key in FlagKeys
  {
    var f := HandleGameFlags(value);
    match key
    case CompatflagsKey => if f == FlagsError then Failure(BadFlags("compatflags")) else Success(d.(compatflags := f))
    case ZacompatflagsKey => if f == FlagsError then Failure(BadFlags("zacompatflags")) else Success(d.(zacompatflags := f))
    case DmflagsKey => if f == FlagsError then Failure(BadFlags("dmflags")) else Success(d.(dmflags := f))
    case Dmflags2Key => if f == FlagsError then Failure(BadFlags("dmflags2")) else Success(d.(dmflags2 := f))
    case ZadmflagsKey => if f == FlagsError then Failure(BadFlags("zadmflags")) else Success(d.(zadmflags := f))
  }

  /** The cases that ask the environment or validate a number. */
  function CheckedCase(d: Draft, key: OptionKey, value: string, env: Environment): Result<Draft, HostError>
    requires key in CheckedKeys
  {
    match key
    case VersionKey =>
      (match env.versions(ToLower(value))
       case Some(v) => Success(d.(version := v))
       case None => Failure(InvalidVersion))
    case ConfigKey =>
      var name := Functions.CleanInputFile(ToLower(value));
      if !env.fileExists(env.configDirectory + name) then Failure(MissingConfig(value))
      else Success(d.(config := Some(name)))
    case PortKey =>
      if !Functions.CheckValidPort(value, env.minPort, env.maxPort) then Failure(InvalidPort)
      else if env.portRegistered(ParseInt(value).value) then Failure(PortInUse(ParseInt(value).value))
      else Success(d.(tempPort := ParseInt(value).value))
    case SkillKey =>
      if HandleSkill(value) == -1 then Failure(BadSkill) else Success(d.(skill := HandleSkill(value)))
  }

  /** The wad cases: append the pieces, then ask the hash blacklist about the whole list. */
  function WadCase(d: Draft, key: OptionKey, value: string, env: Environment): Result<Draft, HostError>
    requires key in WadKeys
  {
    if key == WadKey then
      var wads := d.wads + WadList(value);
      if !env.hashesAccepted(wads) then Failure(HashesRejected) else Success(d.(wads := wads))
    else
      var optwads := AddAbsent(d.optwads, WadList(value));
      if !env.hashesAccepted(optwads) then Failure(HashesRejected) else Success(d.(optwads := optwads))
  }

  /** The option loop: every match in order, stopping at the first refusal. */
  function Fold(d: Draft, matches: seq<(string, string)>, env: Environment): Result<Draft, HostError>
    decreases |matches|
  {
    if |matches| == 0 then Success(d)
    else
      match Apply(d, matches[0].0, matches[0].1, env)
      case Failure(e) => Failure(e)
      case Success(d') => Fold(d', matches[1..], env)
  }

  /** One step of the loop: the option at `i`, then the rest. */
  lemma FoldCons(d: Draft, matches: seq<(string, string)>, i: nat, env: Environment)
    requires i < |matches|
    ensures var r := Apply(d, matches[i].0, matches[i].1, env);
            Fold(d, matches[i..], env) == if r.Failure? then Failure(r.error) else Fold(r.value, matches[i + 1..], env)
  {
    assert matches[i..][1..] == matches[i + 1..];
  }

  /** Running the loop over two batches is running it over the first, then the second. */
  lemma {:induction false} FoldAppend(d: Draft, m1: seq<(string, string)>, m2: seq<(string, string)>, env: Environment)
    ensures Fold(d, m1 + m2, env) ==
            match Fold(d, m1, env)
            case Failure(e) => Failure(e)
            case Success(d') => Fold(d', m2, env)
    decreases |m1|
  {
    if |m1| == 0 {
      assert m1 + m2 == m2;
    } else {
      assert (m1 + m2)[0] == m1[0] && (m1 + m2)[1..] == m1[1..] + m2;
      match Apply(d, m1[0].0, m1[0].1, env)
      case Failure(e) =>
      case Success(d') => FoldAppend(d', m1[1..], m2, env);
    }
  }

  /** A hostname option always succeeds and stores its value as the server name. */
  lemma HostnameOption(d: Draft, value: string, env: Environment)
    ensures Apply(d, "hostname", value, env) == Success(d.(servername := Some(value)))
  {
    ToLowerOfLower("hostname");
    assert KeyOf("hostname") == HostnameKey;
  }

  /** The loop over one match is that match's case. */
  lemma FoldOne(d: Draft, key: string, value: string, env: Environment)
    ensures Fold(d, [(key, value)], env) == Apply(d, key, value, env)
  {
    assert [(key, value)][1..] == [];
  }

  /** A hostname option is overridden by a later one: the last hostname wins. */
  lemma LastHostnameWins(d: Draft, m: seq<(string, string)>, a: string, b: string, env: Environment)
    requires Fold(d, m, env).Success?
    ensures Fold(d, m + [("hostname", a), ("hostname", b)], env)
            == Success(Fold(d, m, env).value.(servername := Some(b)))
  {
    var d' := Fold(d, m, env).value;
    FoldAppend(d, m, [("hostname", a), ("hostname", b)], env);
    assert [("hostname", a), ("hostname", b)] == [("hostname", a)] + [("hostname", b)];
    FoldAppend(d', [("hostname", a)], [("hostname", b)], env);
    FoldOne(d', "hostname", a, env);
    HostnameOption(d', a, env);
    FoldOne(d'.(servername := Some(a)), "hostname", b, env);
    HostnameOption(d'.(servername := Some(a)), b, env);
  }

  /** A port option is taken exactly when it is a valid port that no server holds. */
  lemma PortOption(d: Draft, value: string, env: Environment)
    ensures var r := Apply(d, "port", value, env);
            && (r.Success? <==> Functions.CheckValidPort(value, env.minPort, env.maxPort)
                                && !env.portRegistered(ParseInt(value).value))
            && (r.Success? ==> r.value == d.(tempPort := ParseInt(value).value))
  {
    ToLowerOfLower("port");
    assert KeyOf("port") == PortKey;
  }

  /** A skill option is taken exactly when it is 0 to 4, and then stored as that number. */
  lemma SkillOption(d: Draft, value: string, env: Environment)
    ensures var r := Apply(d, "skill", value, env);
            && (r.Success? <==> ParseInt(value).Some? && 0 <= ParseInt(value).value <= 4)
            && (r.Success? ==> r.value == d.(skill := ParseInt(value).value))
  {
    ToLowerOfLower("skill");
    assert KeyOf("skill") == SkillKey;
  }

  /**
   * As written, a negative zacompatflags is stored as FLAGS_ERROR instead of
   * being refused, because the check reads compatflags.
   */
  lemma ZacompatflagsAsWrittenStoresError(d: Draft)
    requires d.compatflags == 0
    ensures ZacompatflagsAsWritten(d, "-5") == Success(d.(zacompatflags := FlagsError))
    ensures FlagsCase(d, ZacompatflagsKey, "-5") == Failure(BadFlags("zacompatflags"))
  {
    assert ParseInt("-5") == Some(-5) by {
      assert "-5"[1..] == "5";
      assert DigitsValue("5") == 5 by { assert "5"[..0] == ""; }
    }
  }

  /** The test as written can only fail when compatflags is already FLAGS_ERROR. */
  lemma ZacompatflagsAsWrittenNeverRefuses(d: Draft, value: string)
    requires d.compatflags != FlagsError
    ensures ZacompatflagsAsWritten(d, value).Success?
  {
  }

  /** As intended, a stored zacompatflags is never FLAGS_ERROR. */
  lemma ZacompatflagsStoredValid(d: Draft, value: string)
    ensures var r := FlagsCase(d, ZacompatflagsKey, value);
            r.Success? ==> r.value.zacompatflags >= 0
  {
  }

  // ------------------------------------------------------- after the loop

  /**
   * One entry of the wad check: "iwad:name" must exist in the iwad
   * directory and becomes name; any other entry must exist in the wad
   * directory. split(":")[1] throws when nothing follows the colon.
   */
  function ResolveWad(w: string, env: Environment): Result<string, HostError>
  {
    if StartsWith(w, "iwad:") then
      var parts := Split(w, ':');
      if |parts| < 2 then Failure(NoIwadName(w))
      else if !env.fileExists(env.iwadDirectory + parts[1]) then Failure(MissingIwadFile(parts[1]))
      else Success(parts[1])
    else if !env.fileExists(env.wadDirectory + w) then Failure(MissingFile(w))
    else Success(w)
  }

  /** The wad check loop from index i on, rewriting entries as it goes. */
  function ResolveFrom(ws: seq<string>, i: nat, env: Environment): Result<seq<string>, HostError>
    decreases |ws| - i
  {
    if i >= |ws| then Success(ws)
    else
      match ResolveWad(ws[i], env)
      case Failure(e) => Failure(e)
      case Success(w) => ResolveFrom(ws[i := w], i + 1, env)
  }

  /**
   * The check succeeds exactly when every entry from i on resolves, and
   * then each entry is replaced by its resolution; otherwise it reports
   * the first entry that does not.
   */
  lemma {:induction false} ResolveFromSpec(ws: seq<string>, i: nat, env: Environment)
    requires i <= |ws|
    ensures var r := ResolveFrom(ws, i, env);
            && (r.Success? <==> forall j :: i <= j < |ws| ==> ResolveWad(ws[j], env).Success?)
            && (r.Success? ==> |r.value| == |ws| && r.value[..i] == ws[..i]
                               && forall j :: i <= j < |ws| ==> ResolveWad(ws[j], env).value == r.value[j])
            && (r.Failure? ==> exists j :: i <= j < |ws| && ResolveWad(ws[j], env) == Failure(r.error)
                                           && forall l :: i <= l < j ==> ResolveWad(ws[l], env).Success?)
    decreases |ws| - i
  {
    if i < |ws| {
      match ResolveWad(ws[i], env)
      case Failure(e) =>
      case Success(w) =>
        var ws' := ws[i := w];
        ResolveFromSpec(ws', i + 1, env);
        assert forall j :: i + 1 <= j < |ws| ==> ws'[j] == ws[j];
        assert ws'[..i] == ws[..i];
    }
  }

  /** A resolved entry names a file that exists in the wad or iwad directory. */
  lemma ResolvedFileExists(w: string, env: Environment)
    ensures var r := ResolveWad(w, env);
            r.Success? ==> (r.value == w && env.fileExists(env.wadDirectory + w))
                           || (StartsWith(w, "iwad:") && env.fileExists(env.iwadDirectory + r.value))
  {
  }

  /** The optional-wad check: the first entry missing from the wad directory. */
  function FirstMissing(ws: seq<string>, dir: string, exists_: string -> bool): (r: Option<string>)
    ensures r.None? <==> forall j :: 0 <= j < |ws| ==> exists_(dir + ws[j])
    ensures r.Some? ==> r.value in ws && !exists_(dir + r.value)
  {
    if |ws| == 0 then None
    else if !exists_(dir + ws[0]) then Some(ws[0])
    else FirstMissing(ws[1..], dir, exists_)
  }

  /** Everything after the option loop: wad checks, required fields, the port limit, the id. */
  function Finish(d: Draft, env: Environment, req: Request): Result<Launch, HostError>
  {
    match ResolveFrom(d.wads, 0, env)
    case Failure(e) => Failure(e)
    case Success(wads) =>
      var missing := FirstMissing(d.optwads, env.wadDirectory, env.fileExists);
      if missing.Some? then Failure(MissingFile(missing.value))
      else Settle(d.(wads := wads), env, req)
  }

  /** The required fields, the port limit and the id, once the wads are resolved. */
  function Settle(d: Draft, env: Environment, req: Request): Result<Launch, HostError>
  {
    if d.iwad.None? then Failure(MissingIwad)
    else if d.servername.None? then Failure(MissingHostname)
    else if !req.recovering && Functions.FirstAvailable(env.minPort, env.maxPort, env.portAvailable) == 0
    then Failure(ServerLimit)
    else Identify(d.(gamemode := if d.gamemode.None? then Some("cooperative") else d.gamemode), req)
  }

  /** The id, the request's own or the generated one, and its two halves. */
  function Identify(d: Draft, req: Request): Result<Launch, HostError>
  {
    if req.id.None? && req.generatedId.None? then Failure(HashFailure)
    else
      var id := if req.id.Some? then req.id.value else req.generatedId.value;
      Success(Launch(d, OriginOf(req), id, id[..|id| / 2], id[|id| / 2..], req.recovering))
  }

  function OriginOf(req: Request): Origin
  {
    Origin(req.channel, req.sender, req.hostname, req.message, req.userLevel)
  }

  /** handleHostCommand, specified. */
  function Host(env: Environment, req: Request, matches: seq<(string, string)>): Result<Launch, HostError>
  {
    match Fold(Initial(env, req), matches, env)
    case Failure(e) => Failure(e)
    case Success(d) => Finish(d, env, req)
  }

  /**
   * A launched server has an iwad, a hostname and a gamemode, every wad
   * and optional wad exists on disk, a port was free unless recovering,
   * and the id splits into the two passwords: the rcon password is its
   * first half (rounded down) and the server password the rest.
   */
  lemma FinishSucceeds(d: Draft, env: Environment, req: Request)
    requires Finish(d, env, req).Success?
    ensures var l := Finish(d, env, req).value;
            && l.draft.iwad.Some? && l.draft.servername.Some? && l.draft.gamemode.Some?
            && (req.recovering || Functions.FirstAvailable(env.minPort, env.maxPort, env.portAvailable) != 0)
            && (forall w :: w in l.draft.optwads ==> env.fileExists(env.wadDirectory + w))
            && (forall w :: w in l.draft.wads ==>
                  env.fileExists(env.wadDirectory + w) || env.fileExists(env.iwadDirectory + w))
            && l.rconPassword + l.serverPassword == l.serverId
            && |l.rconPassword| == |l.serverId| / 2
            && (req.id.Some? ==> l.serverId == req.id.value)
  {
    ResolvedWadsExist(d.wads, env);
    var id := Finish(d, env, req).value.serverId;
    assert id[..|id| / 2] + id[|id| / 2..] == id;
  }

  /** Every wad the wad check lets through exists in the wad or the iwad directory. */
  lemma ResolvedWadsExist(ws: seq<string>, env: Environment)
    requires ResolveFrom(ws, 0, env).Success?
    ensures forall w :: w in ResolveFrom(ws, 0, env).value ==>
              env.fileExists(env.wadDirectory + w) || env.fileExists(env.iwadDirectory + w)
  {
    ResolveFromSpec(ws, 0, env);
    var r := ResolveFrom(ws, 0, env).value;
    forall w | w in r
      ensures env.fileExists(env.wadDirectory + w) || env.fileExists(env.iwadDirectory + w)
    {
      var j :| 0 <= j < |r| && r[j] == w;
      ResolvedFileExists(ws[j], env);
    }
  }

  /** A missing gamemode is not an error: the server runs cooperative. */
  lemma MissingGamemodeIsCooperative(env: Environment, req: Request, matches: seq<(string, string)>)
    requires Fold(Initial(env, req), matches, env).Success?
    requires Fold(Initial(env, req), matches, env).value.gamemode.None?
    ensures Host(env, req, matches).Success? ==> Host(env, req, matches).value.draft.gamemode == Some("cooperative")
  {
  }

  /** The optional-wad loop: append each piece unless the list already has it. */
  method AddOptionalWads(optwads: seq<string>, pieces: seq<string>) returns (list: seq<string>)
    ensures list == AddAbsent(optwads, pieces)
  {
    list := optwads;
    for i := 0 to |pieces|
      invariant list == AddAbsent(optwads, pieces[..i])
    {
      assert pieces[..i + 1][..i] == pieces[..i];
      if pieces[i] !in list {
        list := list + [pieces[i]];
      }
    }
    assert pieces[..|pieces|] == pieces;
  }

  // ---------------------------------------------------------- the server

  class Server {
    /** The fields the option switch writes, kept as one record. */
    var options: Draft

    var ircChannel: string
    var sender: string
    var ircHostname: string
    var hostCommand: string
    var userLevel: int

    var serverId: string
    var rconPassword: string
    var serverPassword: string
    var recovering: bool

    /** The owner's id that the process and the registry read (declared by the bot/ Server.java). */
    var userId: string
    /** The fields the running process and the kill commands write after launch. */
    var runtime: Runtime

    function Requester(): Origin
      reads this
    {
      Origin(ircChannel, sender, ircHostname, hostCommand, userLevel)
    }

    function Record(): Launch
      reads this
    {
      Launch(options, Requester(), serverId, rconPassword, serverPassword, recovering)
    }

    /** new Server(): Java's field defaults, skill -1. */
    constructor ()
      ensures options == Blank()
    {
      options := Blank();
      ircChannel, sender, ircHostname, hostCommand, userLevel := "", "", "", "", 0;
      serverId, rconPassword, serverPassword, recovering := "", "", "", false;
      userId, runtime := "", Idle();
    }

    /** One pass of the option switch; on a refusal the fields are left half-written. */
    method ApplyOption(name: string, value: string, env: Environment) returns (err: Option<HostError>)
      modifies this
      ensures var r := Apply(old(options), name, value, env);
              && (r.Success? ==> err.None? && options == r.value)
              && (r.Failure? ==> err == Some(r.error))
      ensures Requester() == old(Requester())
    {
      var key := KeyOf(ToLower(name));
      if key in PlainKeys {
        ApplyPlainOption(key, value);
        err := None;
      } else if key in FlagKeys {
        err := ApplyFlagsOption(key, value);
      } else if key in CheckedKeys {
        err := ApplyCheckedOption(key, value, env);
      } else {
        err := ApplyWadOption(key, value, env);
      }
    }

    method ApplyPlainOption(key: OptionKey, value: string)
      requires key in PlainKeys
      modifies this
      ensures options == PlainCase(old(options), key, value)
      ensures Requester() == old(Requester())
    {
      match key
      case AutoRestartKey =>
        options := options.(autoRestart := HandleTrue(value));
      case BuckshotKey =>
        options := options.(buckshot := HandleTrue(value));
      case DataKey =>
        options := options.(skulltagData := HandleTrue(value));
      case GamemodeKey =>
        options := options.(gamemode := Some(GetGamemode(value)));
      case HostnameKey =>
        options := options.(servername := Some(value));
      case InstagibKey =>
        options := options.(instagib := HandleTrue(value));
      case IwadKey =>
        options := options.(iwad := GetIwad(Functions.CleanInputFile(value)));
      case MapKey =>
        options := options.(mapName := Some(value));
      case MapwadKey =>
        var a := AddWads(value);
        options := options.(mapwads := Some(a[..]));
      case OtherKey =>
    }

    method ApplyFlagsOption(key: OptionKey, value: string) returns (err: Option<HostError>)
      requires key in FlagKeys
      modifies this
      ensures var r := FlagsCase(old(options), key, value);
              && (r.Success? ==> err.None? && options == r.value)
              && (r.Failure? ==> err == Some(r.error))
      ensures Requester() == old(Requester())
    {
      var flags := HandleGameFlags(value);
      err := None;
      match key
      case CompatflagsKey =>
        options := options.(compatflags := flags);
        if flags == FlagsError {
          return Some(BadFlags("compatflags"));
        }
      case ZacompatflagsKey =>
        options := options.(zacompatflags := flags);
        if flags == FlagsError {
          return Some(BadFlags("zacompatflags"));
        }
      case DmflagsKey =>
        options := options.(dmflags := flags);
        if flags == FlagsError {
          return Some(BadFlags("dmflags"));
        }
      case Dmflags2Key =>
        options := options.(dmflags2 := flags);
        if flags == FlagsError {
          return Some(BadFlags("dmflags2"));
        }
      case ZadmflagsKey =>
        options := options.(zadmflags := flags);
        if flags == FlagsError {
          return Some(BadFlags("zadmflags"));
        }
    }

    method ApplyCheckedOption(key: OptionKey, value: string, env: Environment) returns (err: Option<HostError>)
      requires key in CheckedKeys
      modifies this
      ensures var r := CheckedCase(old(options), key, value, env);
              && (r.Success? ==> err.None? && options == r.value)
              && (r.Failure? ==> err == Some(r.error))
      ensures Requester() == old(Requester())
    {
      err := None;
      match key
      case VersionKey =>
        var v := env.versions(ToLower(value));
        if v.None? {
          return Some(InvalidVersion);
        }
        options := options.(version := v.value);
      case ConfigKey =>
        var name := Functions.CleanInputFile(ToLower(value));
        if !env.fileExists(env.configDirectory + name) {
          return Some(MissingConfig(value));
        }
        options := options.(config := Some(name));
      case PortKey =>
        if !Functions.CheckValidPort(value, env.minPort, env.maxPort) {
          return Some(InvalidPort);
        }
        var port := ParseInt(value).value;
        if env.portRegistered(port) {
          return Some(PortInUse(port));
        }
        options := options.(tempPort := port);
      case SkillKey =>
        var skill := HandleSkill(value);
        if skill == -1 {
          return Some(BadSkill);
        }
        options := options.(skill := skill);
    }

    method ApplyWadOption(key: OptionKey, value: string, env: Environment) returns (err: Option<HostError>)
      requires key in WadKeys
      modifies this
      ensures var r := WadCase(old(options), key, value, env);
              && (r.Success? ==> err.None? && options == r.value)
              && (r.Failure? ==> err == Some(r.error))
      ensures Requester() == old(Requester())
    {
      var a := AddWads(value);
      if key == WadKey {
        var wads := options.wads + a[..];
        options := options.(wads := wads);
        err := if env.hashesAccepted(wads) then None else Some(HashesRejected);
      } else {
        var optwads := AddOptionalWads(options.optwads, a[..]);
        options := options.(optwads := optwads);
        err := if env.hashesAccepted(optwads) then None else Some(HashesRejected);
      }
    }

    /** The option loop: every match in order, stopping at the first refusal. */
    method ApplyOptions(matches: seq<(string, string)>, env: Environment) returns (err: Option<HostError>)
      modifies this
      ensures var r := Fold(old(options), matches, env);
              && (r.Success? ==> err.None? && options == r.value)
              && (r.Failure? ==> err == Some(r.error))
      ensures Requester() == old(Requester())
    {
      var i := 0;
      while i < |matches|
        invariant 0 <= i <= |matches|
        invariant Fold(options, matches[i..], env) == Fold(old(options), matches, env)
        invariant Requester() == old(Requester())
      {
        FoldCons(options, matches, i, env);
        err := ApplyOption(matches[i].0, matches[i].1, env);
        if err.Some? {
          return;
        }
        i := i + 1;
      }
      return None;
    }

    /** The wad check loop: resolve each entry in place, stopping at the first failure. */
    method ResolveWads(env: Environment) returns (err: Option<HostError>)
      modifies this
      ensures var r := ResolveFrom(old(options.wads), 0, env);
              && (r.Success? ==> err.None? && options.wads == r.value)
              && (r.Failure? ==> err == Some(r.error))
      ensures options == old(options).(wads := options.wads) && Requester() == old(Requester())
    {
      var i := 0;
      while i < |options.wads|
        invariant 0 <= i <= |options.wads|
        invariant ResolveFrom(options.wads, i, env) == ResolveFrom(old(options.wads), 0, env)
        invariant options == old(options).(wads := options.wads) && Requester() == old(Requester())
      {
        var w := options.wads[i];
        if StartsWith(w, "iwad:") {
          var parts := Split(w, ':');
          if |parts| < 2 {
            return Some(NoIwadName(w));
          }
          var tempWad := parts[1];
          if !env.fileExists(env.iwadDirectory + tempWad) {
            return Some(MissingIwadFile(tempWad));
          }
          options := options.(wads := options.wads[i := tempWad]);
        } else if !env.fileExists(env.wadDirectory + w) {
          return Some(MissingFile(w));
        } else {
          assert options.wads[i := w] == options.wads;
        }
        i := i + 1;
      }
      return None;
    }

    /** The optional-wad check loop; it changes nothing. */
    method MissingOptionalWad(env: Environment) returns (missing: Option<string>)
      ensures missing == FirstMissing(options.optwads, env.wadDirectory, env.fileExists)
    {
      var optwads := options.optwads;
      for i := 0 to |optwads|
        invariant FirstMissing(optwads[i..], env.wadDirectory, env.fileExists)
                  == FirstMissing(optwads, env.wadDirectory, env.fileExists)
      {
        assert optwads[i..][1..] == optwads[i + 1..];
        if !env.fileExists(env.wadDirectory + optwads[i]) {
          return Some(optwads[i]);
        }
      }
      return None;
    }

    /** The wad check loop, then the optional-wad check loop. */
    method CheckFiles(env: Environment) returns (err: Option<HostError>)
      modifies this
      ensures var r := ResolveFrom(old(options.wads), 0, env);
              var missing := FirstMissing(old(options.optwads), env.wadDirectory, env.fileExists);
              && (r.Failure? ==> err == Some(r.error))
              && (r.Success? && missing.Some? ==> err == Some(MissingFile(missing.value)))
              && (r.Success? && missing.None? ==> err.None? && options == old(options).(wads := r.value))
      ensures Requester() == old(Requester())
    {
      err := ResolveWads(env);
      if err.Some? {
        return;
      }
      var missing := MissingOptionalWad(env);
      if missing.Some? {
        return Some(MissingFile(missing.value));
      }
    }

    /**
     * Everything after the option loop: the wad and optional-wad checks,
     * the required fields, the server limit and the id with its two halves.
     */
    method Complete(env: Environment, req: Request) returns (err: Option<HostError>)
      requires Requester() == OriginOf(req)
      modifies this
      ensures var r := Finish(old(options), env, req);
              && (r.Success? ==> err.None? && Record() == r.value)
              && (r.Failure? ==> err == Some(r.error))
    {
      err := CheckFiles(env);
      if err.Some? {
        return;
      }
      err := SettleFields(env, req);
    }

    /** The required fields, the port limit and the id with its two halves. */
    method SettleFields(env: Environment, req: Request) returns (err: Option<HostError>)
      requires Requester() == OriginOf(req)
      modifies this
      ensures var r := Settle(old(options), env, req);
              && (r.Success? ==> err.None? && Record() == r.value)
              && (r.Failure? ==> err == Some(r.error))
    {
      if options.iwad.None? {
        return Some(MissingIwad);
      }
      if options.gamemode.None? {
        options := options.(gamemode := Some("cooperative"));
      }
      if options.servername.None? {
        return Some(MissingHostname);
      }
      if !req.recovering {
        var free := Functions.GetFirstAvailablePort(env.minPort, env.maxPort, env.portAvailable);
        if free == 0 {
          return Some(ServerLimit);
        }
      }
      err := AssignId(req);
    }

    /** The id, the request's own or the generated one, split into the two passwords. */
    method AssignId(req: Request) returns (err: Option<HostError>)
      requires Requester() == OriginOf(req)
      modifies this
      ensures var r := Identify(old(options), req);
              && (r.Success? ==> err.None? && Record() == r.value)
              && (r.Failure? ==> err == Some(r.error))
    {
      if req.id.Some? {
        serverId := req.id.value;
      } else if req.generatedId.Some? {
        serverId := req.generatedId.value;
      } else {
        return Some(HashFailure);
      }
      var mid := |serverId| / 2;
      rconPassword := serverId[..mid];
      serverPassword := serverId[mid..];
      recovering := req.recovering;
      err := None;
    }

    /** getField: a readable line for a user-visible field, or the error text. */
    function GetField(fieldToGet: string): (r: string)
      reads this
    {
      match FieldOf(ToLower(fieldToGet))
      case None => UnsupportedField
      case Some(f) => FieldLabel(f) + FieldSeparator(f) + FieldValue(f)
    }

    /** The text of the field each case of getField reports. */
    function FieldValue(f: FieldKey): string
      reads this
    {
      match f
      case AutoRestartField => BoolText(options.autoRestart)
      case BuckshotField => BoolText(options.buckshot)
      case CompatflagsField => IntToString(options.compatflags)
      case ZacompatflagsField => IntToString(options.zacompatflags)
      case ConfigField => NullToNone(options.config)
      case DataField => BoolText(options.skulltagData)
      case DmflagsField => IntToString(options.dmflags)
      case Dmflags2Field => IntToString(options.dmflags2)
      case ZadmflagsField => IntToString(options.zadmflags)
      case GamemodeField => NullText(options.gamemode)
      case HostCommandField => hostCommand
      case InstagibField => BoolText(options.instagib)
      case IwadField => NullText(options.iwad)
      case HostnameField => NullText(options.servername)
      case SkillField => IntToString(options.skill)
      case WadsField => Join(options.wads, ", ")
    }

    /** getField answers the error text exactly for keywords its switch does not know. */
    lemma GetFieldKnown(fieldToGet: string)
      ensures GetField(fieldToGet) == UnsupportedField <==> FieldOf(ToLower(fieldToGet)).None?
    {
      var k := FieldOf(ToLower(fieldToGet));
      if k.Some? {
        FieldLabelLower(k.value);
        assert GetField(fieldToGet)[0] == FieldLabel(k.value)[0];
      }
    }

    /** The line getField answers starts with the field's name, then its value. */
    lemma GetFieldNamesField(fieldToGet: string)
      requires FieldOf(ToLower(fieldToGet)).Some?
      ensures var f := FieldOf(ToLower(fieldToGet)).value;
              StartsWith(GetField(fieldToGet), FieldLabel(f)) && EndsWith(GetField(fieldToGet), FieldValue(f))
    {
      var f := FieldOf(ToLower(fieldToGet)).value;
      var r := GetField(fieldToGet);
      assert r[..|FieldLabel(f)|] == FieldLabel(f);
      assert r[|r| - |FieldValue(f)|..] == FieldValue(f);
    }
  }

  const UnsupportedField: string := "Error: Not a supported keyword"

  /** The cases of getField's switch. */
  datatype FieldKey =
    | AutoRestartField | BuckshotField | CompatflagsField | ZacompatflagsField | ConfigField
    | DataField | DmflagsField | Dmflags2Field | ZadmflagsField | GamemodeField
    | HostCommandField | InstagibField | IwadField | HostnameField | SkillField | WadsField

  /** Which case of getField's switch a lower-cased keyword falls into. */
  function FieldOf(k: string): Option<FieldKey>
  {
    if k == "autorestart" then Some(AutoRestartField)
    else if k == "buckshot" then Some(BuckshotField)
    else if k == "compatflags" then Some(CompatflagsField)
    else if k == "zacompatflags" then Some(ZacompatflagsField)
    else if k == "config" || k == "cfg" || k == "configuration" then Some(ConfigField)
    else if k == "data" || k == "enable_skulltag_data" || k == "stdata" || k == "skulltag_data"
            || k == "skulltagdata" then Some(DataField)
    else if k == "dmflags" then Some(DmflagsField)
    else if k == "dmflags2" then Some(Dmflags2Field)
    else if k == "zadmflags" then Some(ZadmflagsField)
    else if k == "gamemode" || k == "gametype" then Some(GamemodeField)
    else if k == ".host" || k == "host" || k == "hostcommand" || k == "host_command" then Some(HostCommandField)
    else if k == "instagib" then Some(InstagibField)
    else if k == "iwad" then Some(IwadField)
    else if k == "name" || k == "server_name" || k == "hostname" || k == "servername" then Some(HostnameField)
    else if k == "skill" then Some(SkillField)
    else if k == "wad" || k == "wads" then Some(WadsField)
    else None
  }

  /** dmflags2, zadmflags and gamemode are answered without the colon. */
  function FieldSeparator(f: FieldKey): string
  {
    if f == Dmflags2Field || f == ZadmflagsField || f == GamemodeField then " " else ": "
  }

  /** Field names are lower case, so no line of getField reads like the error text. */
  lemma FieldLabelLower(f: FieldKey)
    ensures |FieldLabel(f)| > 0 && 'a' <= FieldLabel(f)[0] <= 'z'
  {
  }

  /** The field name each line of getField begins with. */
  function FieldLabel(f: FieldKey): string
  {
    match f
    case AutoRestartField => "autorestart"
    case BuckshotField => "buckshot"
    case CompatflagsField => "compatflags"
    case ZacompatflagsField => "zacompatflags"
    case ConfigField => "config"
    case DataField => "data"
    case DmflagsField => "dmflags"
    case Dmflags2Field => "dmflags2"
    case ZadmflagsField => "zadmflags"
    case GamemodeField => "gamemode"
    case HostCommandField => "hostcommand"
    case InstagibField => "instagib"
    case IwadField => "iwad"
    case HostnameField => "hostname"
    case SkillField => "skill"
    case WadsField => "wads"
  }

  /** Boolean.toString. */
  function BoolText(b: bool): string
  {
    if b then "true" else "false"
  }

  /** String concatenation of a possibly null string. */
  function NullText(s: Option<string>): string
  {
    if s.Some? then s.value else "null"
  }

  /** nullToNone. */
  function NullToNone(s: Option<string>): string
  {
    if s.Some? then s.value else "None"
  }

  /**
   * handleHostCommand: fold the key=value matches of the message into a
   * fresh Server, check its wads, required fields, the port limit and the
   * id, and hand it over; every refusal is reported instead of a server.
   */
  method HandleHostCommand(env: Environment, req: Request, matches: seq<(string, string)>)
    returns (r: Result<Server, HostError>)
    ensures r.Failure? <==> Host(env, req, matches).Failure?
    ensures r.Failure? ==> r.error == Host(env, req, matches).error
    ensures r.Success? ==> fresh(r.value) && r.value.Record() == Host(env, req, matches).value
  {
    var server := new Server();
    if req.autoRestart {
      server.options := server.options.(autoRestart := true);
    }
    server.options := server.options.(tempPort := req.port);
    server.ircChannel, server.ircHostname, server.hostCommand := req.channel, req.hostname, req.message;
    server.userLevel, server.sender := req.userLevel, req.sender;
    server.options := server.options.(version := env.defaultVersion);

    assert server.options == Initial(env, req);
    var err := server.ApplyOptions(matches, env);
    if err.Some? {
      return Failure(err.value);
    }
    err := server.Complete(env, req);
    if err.Some? {
      return Failure(err.value);
    }
    return Success(server);
  }
}
