// The strict ".host" handler of the Odamex generation
// (bot/src/main/java/org/bestever/bebot/Server.java): the game-mode, skill
// and flag enums, the alias tables, the fold of key=value options into a
// fresh Server that throws on the first bad option, and the checks after
// the loop. The iwad table and the wad check are the same code as in the
// Zandronum generation and are shared with ZandronumServer.
module OdamexServer {
  import opened Wrappers
  import opened JavaText
  import opened Versions
  import opened Arguments
  import AccountType
  import Functions
  import ZandronumServer

  /**
   * Why handleHostCommand starts no server. Every case but InvalidVersion
   * is an InputException (or, for NoFlagName and the wad check's
   * NoIwadName, the runtime exception Java raises); an unknown version is
   * reported to the bot and the handler returns without a server.
   */
  datatype HostError =
    | InvalidVersion
    | MissingConfig(name: string)
    | UnknownGamemode(name: string)
    | UnknownWad(name: string)
    | InvalidPort
    | PortInUse(port: int)
    | BadSkill
    | HashesRejected
    | NoFlagName
    | UnknownFlag(name: string)
    | BadWad(cause: ZandronumServer.HostError)
    | MissingIwad
    | MissingHostname
    | ServerLimit
    | HashFailure

  // ---------------------------------------------------------- game modes

  /** OdamexGameModes, in declaration order. */
  datatype GameMode = Coop | Ctf | Dm | Duel | Lms | Survival | Tdm | Tlms

  /**
   * The server variables each game mode sets, as the enum constant lists
   * them: a "+variable" followed by its value, read two at a time.
   */
  function Settings(m: GameMode): seq<(string, string)>
  {
    match m
    case Coop => [("+sv_skill", "4"), ("+g_lives", "0"), ("+g_lives_jointimer", "30"), ("+g_rounds", "0"),
                  ("+sv_forcerespawn", "0"), ("+sv_gametype", "0"), ("+sv_nomonsters", "0")]
    case Ctf => [("+sv_teamsinplay", "2"), ("+sv_timelimit", "10"), ("+sv_scorelimit", "5"), ("+g_lives", "0"),
                 ("+g_rounds", "0"), ("+sv_forcerespawn", "0"), ("+sv_friendlyfire", "0"), ("+sv_gametype", "3"),
                 ("+sv_nomonsters", "1"), ("+sv_skill", "5")]
    case Dm => [("+sv_timelimit", "10"), ("+sv_fraglimit", "30"), ("+g_lives", "0"), ("+g_rounds", "0"),
                ("+sv_forcerespawn", "0"), ("+sv_gametype", "1"), ("+sv_nomonsters", "1"), ("+sv_skill", "5")]
    case Duel => [("+sv_timelimit", "10"), ("+sv_fraglimit", "30"), ("+g_lives", "0"), ("+g_rounds", "0"),
                  ("+g_winnerstays", "1"), ("+sv_forcerespawn", "1"), ("+sv_forcerespawntime", "10"),
                  ("+sv_gametype", "1"), ("+sv_maxplayers", "2"), ("+sv_nomonsters", "1"), ("+sv_skill", "5"),
                  ("+sv_warmup", "1"), ("+sv_warmup_autostart", "0")]
    case Lms => [("+g_lives", "1"), ("+g_winlimit", "5"), ("+g_lives_jointimer", "0"), ("+g_rounds", "1"),
                 ("+sv_forcerespawn", "1"), ("+sv_gametype", "1"), ("+sv_nomonsters", "1"), ("+sv_skill", "5")]
    case Survival => [("+g_lives", "3"), ("+sv_skill", "4"), ("+g_lives_jointimer", "30"), ("+g_rounds", "0"),
                      ("+sv_forcerespawn", "1"), ("+sv_gametype", "0"), ("+sv_nomonsters", "0")]
    case Tdm => [("+sv_timelimit", "10"), ("+sv_fraglimit", "50"), ("+g_lives", "0"), ("+g_rounds", "0"),
                 ("+sv_forcerespawn", "0"), ("+sv_friendlyfire", "0"), ("+sv_gametype", "2"),
                 ("+sv_nomonsters", "1"), ("+sv_skill", "5")]
    case Tlms => [("+sv_teamsinplay", "2"), ("+g_lives", "1"), ("+g_winlimit", "5"), ("+g_lives_jointimer", "0"),
                  ("+g_rounds", "1"), ("+sv_forcerespawn", "1"), ("+sv_friendlyfire", "0"), ("+sv_gametype", "2"),
                  ("+sv_nomonsters", "1"), ("+sv_skill", "5")]
  }

  /** The flat list of strings the enum constant holds. */
  function Commands(m: GameMode): seq<string>
  {
    Flatten(Settings(m))
  }

  /** A "+variable" entry of a command list, as opposed to a value. */
  predicate IsVariable(s: string)
  {
    |s| > 0 && s[0] == '+'
  }

  /** A variable/value pair of a command list. */
  predicate IsSetting(p: (string, string))
  {
    IsVariable(p.0) && !IsVariable(p.1)
  }

  /** A command list alternates a "+variable" with its value, so it has even length. */
  predicate Paired(c: seq<string>)
  {
    && |c| % 2 == 0
    && forall i :: 0 <= i < |c| / 2 ==> IsVariable(c[2 * i]) && !IsVariable(c[2 * i + 1])
  }

  /** Flattening variable/value pairs gives a list that alternates the two. */
  lemma {:induction false} FlattenPaired(ps: seq<(string, string)>)
    requires forall j :: 0 <= j < |ps| ==> IsSetting(ps[j])
    ensures Paired(Flatten(ps)) && |Flatten(ps)| == 2 * |ps|
  {
    if |ps| > 0 {
      FlattenPaired(ps[1..]);
      var c := Flatten(ps);
      var rest := Flatten(ps[1..]);
      assert c == [ps[0].0, ps[0].1] + rest;
      forall i | 0 <= i < |c| / 2
        ensures IsVariable(c[2 * i]) && !IsVariable(c[2 * i + 1])
      {
        if i > 0 {
          assert c[2 * i] == rest[2 * (i - 1)] && c[2 * i + 1] == rest[2 * (i - 1) + 1];
        } else {
          assert IsSetting(ps[0]);
        }
      }
    }
  }

  /** Every game mode's command list alternates a "+variable" with its value. */
  lemma CommandsPaired(m: GameMode)
    ensures Paired(Commands(m))
  {
    if m in {Coop, Ctf, Dm, Duel} {
      SettingsWellFormedA(m);
    } else {
      SettingsWellFormedB(m);
    }
    FlattenPaired(Settings(m));
  }

  lemma SettingsWellFormedA(m: GameMode)
    requires m in {Coop, Ctf, Dm, Duel}
    ensures forall j :: 0 <= j < |Settings(m)| ==> IsSetting(Settings(m)[j])
  {
  }

  lemma SettingsWellFormedB(m: GameMode)
    requires m in {Lms, Survival, Tdm, Tlms}
    ensures forall j :: 0 <= j < |Settings(m)| ==> IsSetting(Settings(m)[j])
  {
  }

  /** The spellings getGamemode knows, lower-case. */
  const GamemodeAliases: set<string> :=
    {"deathmatch", "dm", "ffa", "ctf", "capturetheflag", "tdm", "teamdm", "tdeathmatch",
     "teamdeathmatch", "lms", "lastmanstanding", "tlms", "teamlms", "teamlastmanstanding",
     "duel", "domination", "coop", "co-op", "cooperative", "survival"}

  /** The switch of getGamemode on a lower-cased name. */
  function GamemodeOfLower(k: string): Option<GameMode>
  {
    if k == "deathmatch" || k == "dm" || k == "ffa" then Some(Dm)
    else if k == "ctf" || k == "capturetheflag" then Some(Ctf)
    else if k == "tdm" || k == "teamdm" || k == "tdeathmatch" || k == "teamdeathmatch" then Some(Tdm)
    else if k == "lms" || k == "lastmanstanding" then Some(Lms)
    else if k == "tlms" || k == "teamlms" || k == "teamlastmanstanding" then Some(Tlms)
    else if k == "duel" then Some(Duel)
    else if k == "domination" || k == "coop" || k == "co-op" || k == "cooperative" then Some(Coop)
    else if k == "survival" then Some(Survival)
    else None
  }

  /** getGamemode: the alias table, ignoring case; an unknown name is refused. */
  function GetGamemode(s: string): (r: Result<GameMode, HostError>)
    ensures r.Success? <==> ToLower(s) in GamemodeAliases
    ensures r.Failure? ==> r.error == UnknownGamemode(s)
  {
    match GamemodeOfLower(ToLower(s))
    case Some(m) => Success(m)
    case None => Failure(UnknownGamemode(s))
  }

  /** The lower-case name of each game mode, as the enum spells it. */
  function Keyword(m: GameMode): string
  {
    match m
    case Coop => "coop"
    case Ctf => "ctf"
    case Dm => "dm"
    case Duel => "duel"
    case Lms => "lms"
    case Survival => "survival"
    case Tdm => "tdm"
    case Tlms => "tlms"
  }

  /** Every game mode is reachable: its own name selects it. */
  lemma GetGamemodeKeyword(m: GameMode)
    ensures GetGamemode(Keyword(m)) == Success(m)
  {
    ToLowerOfLower(Keyword(m));
  }

  /** "domination" is cooperative, and ffa, dm and deathmatch are free-for-all deathmatch. */
  lemma GetGamemodeAliases()
    ensures GetGamemode("domination") == Success(Coop)
    ensures GetGamemode("ffa") == Success(Dm) && GetGamemode("dm") == Success(Dm)
    ensures GetGamemode("deathmatch") == Success(Dm)
  {
    ToLowerOfLower("domination");
    ToLowerOfLower("ffa");
    ToLowerOfLower("dm");
    ToLowerOfLower("deathmatch");
  }

  // --------------------------------------------------------------- skill

  /** OdamexSkill, in declaration order. */
  datatype Skill = Default | ImTooYoungToDie | HeyNotTooRough | HurtMePlenty | UltraViolence | Nightmare

  /** The number each skill carries. */
  function Number(s: Skill): int
  {
    match s
    case Default => -1
    case ImTooYoungToDie => 1
    case HeyNotTooRough => 2
    case HurtMePlenty => 3
    case UltraViolence => 4
    case Nightmare => 5
  }

  /** OdamexSkill.values(). */
  const Skills: seq<Skill> := [Default, ImTooYoungToDie, HeyNotTooRough, HurtMePlenty, UltraViolence, Nightmare]

  /**
   * handleSkill: an integer n from 0 to 4 selects values()[n], so 0 is
   * DEFAULT (number -1), any other n the skill numbered n, and NIGHTMARE is
   * out of reach; anything else is refused.
   */
  function HandleSkill(skill: string): (r: Result<Skill, HostError>)
    ensures r.Success? <==> ParseInt(skill).Some? && 0 <= ParseInt(skill).value <= 4
    ensures r.Success? ==> r.value != Nightmare
    ensures r.Success? ==> Number(r.value) == if ParseInt(skill).value == 0 then -1 else ParseInt(skill).value
    ensures r.Failure? ==> r.error == BadSkill
  {
    if !IsInteger(skill) || ParseInt(skill).value > 4 || ParseInt(skill).value < 0 then Failure(BadSkill)
    else Success(Skills[ParseInt(skill).value])
  }

  /** Skill "0" is DEFAULT, which carries -1. */
  lemma SkillZeroIsDefault()
    ensures HandleSkill("0") == Success(Default)
  {
    assert ParseInt("0") == Some(0) by {
      assert DigitsValue("0") == 0 by { assert "0"[..0] == ""; }
    }
  }

  // --------------------------------------------------------------- flags

  /** OdamexFlags, in declaration order. */
  datatype Flag =
    | Dmfarspawn | CallvoteScorelimit | CallvoteFraglimit | CallvoteRestart | CallvoteRandpickup
    | CallvoteRandcaps | CallvoteRandmap | CallvoteNextmap | CallvoteMap | CallvoteForcestart
    | CallvoteForcespec | CallvoteKick | CallvoteCoinflip | VoteSpecvote | VoteSpeccall
    | VoteCountabs | Unblockplayers | Forcerespawn | Allowshowspawns | Allowwidescreen
    | Allowpwo | Allowredscreen | Allowmovebob | Sharekeys | Keepkeys
    | Weaponstay | Nomonsters | Monstersrespawn | Respawnsuper | Itemsrespawn
    | Infiniteammo | Fragexitswitch | Allowtargetnames | Freelook | Forcewater
    | Doubleammo | Allowjump | Allowexit | Friendlyfire

  /** The name a user writes for the flag. */
  function ArgumentName(f: Flag): string
  {
    match f
    case Dmfarspawn => "dmfarspawn"
    case CallvoteScorelimit => "callvote_scorelimit"
    case CallvoteFraglimit => "callvote_fraglimit"
    case CallvoteRestart => "callvote_restart"
    case CallvoteRandpickup => "callvote_randpickup"
    case CallvoteRandcaps => "callvote_randcaps"
    case CallvoteRandmap => "callvote_randmap"
    case CallvoteNextmap => "callvote_nextmap"
    case CallvoteMap => "callvote_map"
    case CallvoteForcestart => "callvote_forcestart"
    case CallvoteForcespec => "callvote_forcespec"
    case CallvoteKick => "callvote_kick"
    case CallvoteCoinflip => "callvote_coinflip"
    case VoteSpecvote => "vote_specvote"
    case VoteSpeccall => "vote_speccall"
    case VoteCountabs => "vote_countabs"
    case Unblockplayers => "unblockplayers"
    case Forcerespawn => "forcerespawn"
    case Allowshowspawns => "allowshowspawns"
    case Allowwidescreen => "allowwidescreen"
    case Allowpwo => "allowpwo"
    case Allowredscreen => "allowredscreen"
    case Allowmovebob => "allowmovebob"
    case Sharekeys => "sharekeys"
    case Keepkeys => "keepkeys"
    case Weaponstay => "weaponstay"
    case Nomonsters => "nomonsters"
    case Monstersrespawn => "monstersrespawn"
    case Respawnsuper => "respawnsuper"
    case Itemsrespawn => "itemsrespawn"
    case Infiniteammo => "infiniteammo"
    case Fragexitswitch => "fragexitswitch"
    case Allowtargetnames => "allowtargetnames"
    case Freelook => "freelook"
    case Forcewater => "forcewater"
    case Doubleammo => "doubleammo"
    case Allowjump => "allowjump"
    case Allowexit => "allowexit"
    case Friendlyfire => "friendlyfire"
  }

  /** The server variable the flag sets: its argument name behind "sv_". */
  function OdamexName(f: Flag): string
  {
    "sv_" + ArgumentName(f)
  }

  /**
   * No two flags share an argument name. The flags are taken three at a
   * time, each group against all the others, to keep every proof small.
   */
  lemma ArgumentNamesDistinct(f: Flag, g: Flag)
    requires ArgumentName(f) == ArgumentName(g)
    ensures f == g
  {
    if f in {Dmfarspawn, CallvoteScorelimit, CallvoteFraglimit} {
      NamesDistinctFrom1(f, g);
    } else if f in {CallvoteRestart, CallvoteRandpickup, CallvoteRandcaps} {
      NamesDistinctFrom2(f, g);
    } else if f in {CallvoteRandmap, CallvoteNextmap, CallvoteMap} {
      NamesDistinctFrom3(f, g);
    } else if f in {CallvoteForcestart, CallvoteForcespec, CallvoteKick} {
      NamesDistinctFrom4(f, g);
    } else if f in {CallvoteCoinflip, VoteSpecvote, VoteSpeccall} {
      NamesDistinctFrom5(f, g);
    } else if f in {VoteCountabs, Unblockplayers, Forcerespawn} {
      NamesDistinctFrom6(f, g);
    } else if f in {Allowshowspawns, Allowwidescreen, Allowpwo} {
      NamesDistinctFrom7(f, g);
    } else if f in {Allowredscreen, Allowmovebob, Sharekeys} {
      NamesDistinctFrom8(f, g);
    } else if f in {Keepkeys, Weaponstay, Nomonsters} {
      NamesDistinctFrom9(f, g);
    } else if f in {Monstersrespawn, Respawnsuper, Itemsrespawn} {
      NamesDistinctFrom10(f, g);
    } else if f in {Infiniteammo, Fragexitswitch, Allowtargetnames} {
      NamesDistinctFrom11(f, g);
    } else if f in {Freelook, Forcewater, Doubleammo} {
      NamesDistinctFrom12(f, g);
    } else {
      NamesDistinctFrom13(f, g);
    }
  }

  lemma NamesDistinctFrom1(f: Flag, g: Flag)
    requires f in {Dmfarspawn, CallvoteScorelimit, CallvoteFraglimit} && ArgumentName(f) == ArgumentName(g)
    ensures f == g
  {
  }

  lemma NamesDistinctFrom2(f: Flag, g: Flag)
    requires f in {CallvoteRestart, CallvoteRandpickup, CallvoteRandcaps} && ArgumentName(f) == ArgumentName(g)
    ensures f == g
  {
  }

  lemma NamesDistinctFrom3(f: Flag, g: Flag)
    requires f in {CallvoteRandmap, CallvoteNextmap, CallvoteMap} && ArgumentName(f) == ArgumentName(g)
    ensures f == g
  {
  }

  lemma NamesDistinctFrom4(f: Flag, g: Flag)
    requires f in {CallvoteForcestart, CallvoteForcespec, CallvoteKick} && ArgumentName(f) == ArgumentName(g)
    ensures f == g
  {
  }

  lemma NamesDistinctFrom5(f: Flag, g: Flag)
    requires f in {CallvoteCoinflip, VoteSpecvote, VoteSpeccall} && ArgumentName(f) == ArgumentName(g)
    ensures f == g
  {
  }

  lemma NamesDistinctFrom6(f: Flag, g: Flag)
    requires f in {VoteCountabs, Unblockplayers, Forcerespawn} && ArgumentName(f) == ArgumentName(g)
    ensures f == g
  {
  }

  lemma NamesDistinctFrom7(f: Flag, g: Flag)
    requires f in {Allowshowspawns, Allowwidescreen, Allowpwo} && ArgumentName(f) == ArgumentName(g)
    ensures f == g
  {
  }

  lemma NamesDistinctFrom8(f: Flag, g: Flag)
    requires f in {Allowredscreen, Allowmovebob, Sharekeys} && ArgumentName(f) == ArgumentName(g)
    ensures f == g
  {
  }

  lemma NamesDistinctFrom9(f: Flag, g: Flag)
    requires f in {Keepkeys, Weaponstay, Nomonsters} && ArgumentName(f) == ArgumentName(g)
    ensures f == g
  {
  }

  lemma NamesDistinctFrom10(f: Flag, g: Flag)
    requires f in {Monstersrespawn, Respawnsuper, Itemsrespawn} && ArgumentName(f) == ArgumentName(g)
    ensures f == g
  {
  }

  lemma NamesDistinctFrom11(f: Flag, g: Flag)
    requires f in {Infiniteammo, Fragexitswitch, Allowtargetnames} && ArgumentName(f) == ArgumentName(g)
    ensures f == g
  {
  }

  lemma NamesDistinctFrom12(f: Flag, g: Flag)
    requires f in {Freelook, Forcewater, Doubleammo} && ArgumentName(f) == ArgumentName(g)
    ensures f == g
  {
  }

  lemma NamesDistinctFrom13(f: Flag, g: Flag)
    requires f in {Allowjump, Allowexit, Friendlyfire} && ArgumentName(f) == ArgumentName(g)
    ensures f == g
  {
  }

  /** No two flags set the same server variable. */
  lemma OdamexNamesDistinct(f: Flag, g: Flag)
    requires OdamexName(f) == OdamexName(g)
    ensures f == g
  {
    assert OdamexName(f)[3..] == ArgumentName(f);
    assert OdamexName(g)[3..] == ArgumentName(g);
    ArgumentNamesDistinct(f, g);
  }

  /** OdamexFlags.values(). */
  const AllFlags: seq<Flag> :=
    [Dmfarspawn, CallvoteScorelimit, CallvoteFraglimit, CallvoteRestart, CallvoteRandpickup,
     CallvoteRandcaps, CallvoteRandmap, CallvoteNextmap, CallvoteMap, CallvoteForcestart,
     CallvoteForcespec, CallvoteKick, CallvoteCoinflip, VoteSpecvote, VoteSpeccall,
     VoteCountabs, Unblockplayers, Forcerespawn, Allowshowspawns, Allowwidescreen,
     Allowpwo, Allowredscreen, Allowmovebob, Sharekeys, Keepkeys,
     Weaponstay, Nomonsters, Monstersrespawn, Respawnsuper, Itemsrespawn,
     Infiniteammo, Fragexitswitch, Allowtargetnames, Freelook, Forcewater,
     Doubleammo, Allowjump, Allowexit, Friendlyfire]

  /** values() lists every flag. */
  lemma AllFlagsComplete(f: Flag)
    ensures f in AllFlags
  {
  }

  /**
   * The stream filter of getFlag: the first of the flags whose argument
   * name equals the given name ignoring case.
   */
  function FindFlag(flags: seq<Flag>, name: string): (r: Option<Flag>)
    ensures r.Some? ==> r.value in flags && EqualsIgnoreCase(ArgumentName(r.value), name)
    ensures r.None? <==> forall f :: f in flags ==> !EqualsIgnoreCase(ArgumentName(f), name)
  {
    if |flags| == 0 then None
    else if EqualsIgnoreCase(ArgumentName(flags[0]), name) then Some(flags[0])
    else FindFlag(flags[1..], name)
  }

  /**
   * getFlag: the key without its first character names a flag, ignoring
   * case. substring(1) of the empty key throws.
   */
  function GetFlag(key: string): (r: Result<Flag, HostError>)
  {
    if |key| == 0 then Failure(NoFlagName)
    else
      match FindFlag(AllFlags, key[1..])
      case Some(f) => Success(f)
      case None => Failure(UnknownFlag(key[1..]))
  }

  /**
   * getFlag finds a flag exactly when some flag's argument name is the key
   * after its first character, ignoring case; what it finds is such a flag.
   */
  lemma GetFlagSpec(key: string)
    ensures GetFlag(key).Success? <==>
              |key| > 0 && exists f :: EqualsIgnoreCase(ArgumentName(f), key[1..])
    ensures GetFlag(key).Success? ==> EqualsIgnoreCase(ArgumentName(GetFlag(key).value), key[1..])
    ensures |key| > 0 && GetFlag(key).Failure? ==> GetFlag(key).error == UnknownFlag(key[1..])
  {
    if |key| > 0 && exists f :: EqualsIgnoreCase(ArgumentName(f), key[1..]) {
      var f :| EqualsIgnoreCase(ArgumentName(f), key[1..]);
      AllFlagsComplete(f);
    }
  }

  /** A flag's argument name behind any one character selects that flag. */
  lemma GetFlagOfArgumentName(c: char, f: Flag)
    ensures GetFlag([c] + ArgumentName(f)).Success?
  {
    var key := [c] + ArgumentName(f);
    assert key[1..] == ArgumentName(f);
    assert EqualsIgnoreCase(ArgumentName(f), key[1..]);
    AllFlagsComplete(f);
  }

  // ----------------------------------------------------------- booleans

  /** handleTrue: on, true, yes, enable and 1, in any case; anything else is false. */
  predicate HandleTrue(s: string)
  {
    var k := ToLower(s);
    k == "on" || k == "true" || k == "yes" || k == "enable" || k == "1"
  }

  /** The strict handleTrue accepts what the lenient one does, and "1" besides. */
  lemma HandleTrueAcceptsOne(s: string)
    ensures HandleTrue(s) <==> ZandronumServer.HandleTrue(s) || s == "1"
  {
    if ToLower(s) == "1" {
      assert ToLower(s)[0] == LowerChar(s[0]) == '1';
      assert s == [s[0]];
    }
    if s == "1" {
      ToLowerOfLower("1");
    }
  }

  // --------------------------------------------------------------- wads

  /** The non-empty strings of a list, in order. */
  function NonEmpty(ws: seq<string>): (r: seq<string>)
    ensures |r| <= |ws|
    ensures forall w :: w in r <==> w in ws && w != ""
  {
    if |ws| == 0 then []
    else if ws[0] == "" then NonEmpty(ws[1..])
    else [ws[0]] + NonEmpty(ws[1..])
  }

  /**
   * addWads: the comma-separated pieces, trimmed and lower-cased, with the
   * empty ones dropped.
   */
  function AddWads(wads: string): (r: seq<string>)
    ensures forall w :: w in r <==> w in ZandronumServer.WadList(wads) && w != ""
    ensures forall w :: w in r ==> w != "" && ',' !in w
  {
    var pieces := ZandronumServer.WadList(wads);
    assert forall w :: w in pieces ==> ',' !in w by {
      forall w | w in pieces
        ensures ',' !in w
      {
        var j :| 0 <= j < |pieces| && pieces[j] == w;
      }
    }
    NonEmpty(pieces)
  }

  // --------------------------------------------------------- the options

  /**
   * The bot's surroundings: those of the Zandronum handler, and the level
   * names of the wad a mapwad option names (getWadAbsolutePath and
   * DoomFile), None when the file cannot be read.
   */
  datatype Environment = Environment(base: ZandronumServer.Environment, levelNames: string -> Option<seq<string>>)

  /** The arguments of handleHostCommand; message lists the map's entries in iteration order. */
  datatype Request = Request(
    userName: string, userId: string, message: seq<(string, string)>,
    userLevel: AccountType.AccountType, autoRestart: bool, port: int, id: Option<string>,
    recovering: bool, generatedId: Option<string>)

  /** The fields the option loop writes. None stands for null. */
  datatype Draft = Draft(
    autoRestart: bool, version: Version, config: Option<string>, gameMode: GameMode,
    servername: Option<string>, iwad: Option<string>, maps: seq<string>, wads: seq<string>,
    tempPort: int, skill: Skill, addFlags: set<Flag>, removeFlags: set<Flag>)

  /** Who asked, and with which options. */
  datatype Origin = Origin(
    userName: string, userId: string, hostCommand: seq<(string, string)>, userLevel: AccountType.AccountType)

  /** A server as handleHostCommand hands it to its process. */
  datatype Launch = Launch(
    draft: Draft, origin: Origin, serverId: string, rconPassword: string,
    serverPassword: string, recovering: bool)

  /** A fresh Server: COOP, skill DEFAULT, empty lists and flag sets. */
  function Blank(): Draft
  {
    Draft(false, Version("", "", ""), None, Coop, None, None, [], [], 0, Default, {}, {})
  }

  /** The draft before the first option: the given auto-restart and port, the default version. */
  function Initial(env: Environment, req: Request): Draft
  {
    Blank().(autoRestart := req.autoRestart, version := env.base.defaultVersion, tempPort := req.port)
  }

  /** The case labels of the option switch, which compares keys exactly. */
  datatype OptionKey =
    | AutoRestartKey | VersionKey | ConfigKey | GamemodeKey | HostnameKey | IwadKey
    | MapsKey | MapwadKey | PortKey | SkillKey | WadKey | FlagKey

  function KeyOf(key: string): OptionKey
  {
    if key == "autorestart" then AutoRestartKey
    else if key == "version" then VersionKey
    else if key == "config" then ConfigKey
    else if key == "gamemode" then GamemodeKey
    else if key == "hostname" then HostnameKey
    else if key == "iwad" then IwadKey
    else if key == "maps" then MapsKey
    else if key == "mapwad" then MapwadKey
    else if key == "port" then PortKey
    else if key == "skill" then SkillKey
    else if key == "wad" || key == "file" || key == "wads" || key == "files" then WadKey
    else FlagKey
  }

  const PlainKeys: set<OptionKey> := {AutoRestartKey, HostnameKey, IwadKey, MapsKey}
  const CheckedKeys: set<OptionKey> := {VersionKey, ConfigKey, GamemodeKey, PortKey, SkillKey}
  const WadKeys: set<OptionKey> := {MapwadKey, WadKey}

  /** One entry of the option loop: the switch on the key. */
  function Apply(d: Draft, key: string, value: string, env: Environment): Result<Draft, HostError>
  {
    ApplyKey(d, KeyOf(key), key, value, env)
  }

  /** One case of the option switch, by the kind of case it is. */
  function ApplyKey(d: Draft, k: OptionKey, key: string, value: string, env: Environment): Result<Draft, HostError>
  {
    if k in PlainKeys then Success(PlainCase(d, k, value))
    else if k in CheckedKeys then CheckedCase(d, k, value, env)
    else if k in WadKeys then WadCase(d, k, value, env)
    else FlagCase(d, key, value)
  }

  /** The cases that store what they are given and never refuse. */
  function PlainCase(d: Draft, k: OptionKey, value: string): Draft
    requires k in PlainKeys
  {
    match k
    case AutoRestartKey => d.(autoRestart := HandleTrue(value))
    case HostnameKey => d.(servername := Some(value))
    case IwadKey => d.(iwad := ZandronumServer.GetIwad(Functions.CleanInputFile(value)))
    case MapsKey => d.(maps := d.maps + Split(value, ','))
  }

  /** The cases that validate their value or ask the environment. */
  function CheckedCase(d: Draft, k: OptionKey, value: string, env: Environment): Result<Draft, HostError>
    requires k in CheckedKeys
  {
    match k
    case VersionKey =>
      (match env.base.versions(ToLower(value))
       case Some(v) => Success(d.(version := v))
       case None => Failure(InvalidVersion))
    case ConfigKey =>
      var name := Functions.CleanInputFile(ToLower(value));
      if !env.base.fileExists(env.base.configDirectory + name) then Failure(MissingConfig(value))
      else Success(d.(config := Some(name)))
    case GamemodeKey =>
      (match GetGamemode(value)
       case Success(m) => Success(d.(gameMode := m))
       case Failure(e) => Failure(e))
    case PortKey =>
      if !Functions.CheckValidPort(value, env.base.minPort, env.base.maxPort) then Failure(InvalidPort)
      else if env.base.portRegistered(ParseInt(value).value) then Failure(PortInUse(ParseInt(value).value))
      else Success(d.(tempPort := ParseInt(value).value))
    case SkillKey =>
      (match HandleSkill(value)
       case Success(s) => Success(d.(skill := s))
       case Failure(e) => Failure(e))
  }

  /**
   * The wad cases: a mapwad is added as written with its levels appended
   * to the maps; wad pieces are appended and the whole list goes to the
   * hash blacklist.
   */
  function WadCase(d: Draft, k: OptionKey, value: string, env: Environment): Result<Draft, HostError>
    requires k in WadKeys
  {
    if k == MapwadKey then
      match env.levelNames(value)
      case None => Failure(UnknownWad(value))
      case Some(levels) => Success(d.(wads := d.wads + [value], maps := d.maps + levels))
    else
      var wads := d.wads + AddWads(value);
      if !env.base.hashesAccepted(wads) then Failure(HashesRejected) else Success(d.(wads := wads))
  }

  /** Any other key names a flag, which handleTrue turns on or off. */
  function FlagCase(d: Draft, key: string, value: string): Result<Draft, HostError>
  {
    match GetFlag(key)
    case Failure(e) => Failure(e)
    case Success(f) =>
      if HandleTrue(value) then Success(d.(addFlags := d.addFlags + {f}))
      else Success(d.(removeFlags := d.removeFlags + {f}))
  }

  /** The option loop: every entry in order, stopping at the first refusal. */
  function Fold(d: Draft, entries: seq<(string, string)>, env: Environment): Result<Draft, HostError>
    decreases |entries|
  {
    if |entries| == 0 then Success(d)
    else
      match Apply(d, entries[0].0, entries[0].1, env)
      case Failure(e) => Failure(e)
      case Success(d') => Fold(d', entries[1..], env)
  }

  /** Running the loop over two batches is running it over the first, then the second. */
  lemma {:induction false} FoldAppend(d: Draft, m1: seq<(string, string)>, m2: seq<(string, string)>, env: Environment)
    ensures Fold(d, m1 + m2, env) ==
            match Fold(d, m1, env)
            case Failure(e) => Failure(e)
            case Success(d') => Fold(d', m2, env)
    decreases |m1|
  {
    if |m1| == 0 {
      assert m1 + m2 == m2;
    } else {
      assert (m1 + m2)[0] == m1[0] && (m1 + m2)[1..] == m1[1..] + m2;
      match Apply(d, m1[0].0, m1[0].1, env)
      case Failure(e) =>
      case Success(d') => FoldAppend(d', m1[1..], m2, env);
    }
  }

  /** The loop over one entry is that entry's case. */
  lemma FoldOne(d: Draft, key: string, value: string, env: Environment)
    ensures Fold(d, [(key, value)], env) == Apply(d, key, value, env)
  {
    assert [(key, value)][1..] == [];
  }

  /**
   * An unknown game mode refuses the whole command: once the loop reaches
   * it, nothing after it matters.
   */
  lemma UnknownGamemodeRefuses(d: Draft, m1: seq<(string, string)>, m2: seq<(string, string)>,
                               name: string, env: Environment)
    requires Fold(d, m1, env).Success?
    requires GetGamemode(name).Failure?
    ensures Fold(d, m1 + [("gamemode", name)] + m2, env) == Failure(UnknownGamemode(name))
  {
    var d' := Fold(d, m1, env).value;
    assert m1 + [("gamemode", name)] + m2 == m1 + ([("gamemode", name)] + m2);
    FoldAppend(d, m1, [("gamemode", name)] + m2, env);
    FoldAppend(d', [("gamemode", name)], m2, env);
    FoldOne(d', "gamemode", name, env);
  }

  /**
   * The key switch is exact: a capitalised "Hostname" is taken for a flag
   * named "ostname", which does not exist.
   */
  lemma CapitalisedKeyIsFlag(d: Draft, value: string, env: Environment)
    ensures Apply(d, "Hostname", value, env) == Failure(UnknownFlag("ostname"))
  {
    assert KeyOf("Hostname") == FlagKey;
    FlagKeyCase(d, "Hostname", value, env);
    ShortKeyNamesNoFlag("Hostname");
    assert "Hostname"[1..] == "ostname";
  }

  /** Every key the switch does not list goes to the flag lookup. */
  lemma FlagKeyCase(d: Draft, key: string, value: string, env: Environment)
    requires KeyOf(key) == FlagKey
    ensures Apply(d, key, value, env) == FlagCase(d, key, value)
  {
    assert FlagKey !in PlainKeys && FlagKey !in CheckedKeys && FlagKey !in WadKeys;
  }

  /** The shortest flag names have eight letters. */
  lemma ArgumentNameLength(f: Flag)
    ensures |ArgumentName(f)| >= 8
  {
    match f
    case Dmfarspawn =>
    case CallvoteScorelimit =>
    case CallvoteFraglimit =>
    case CallvoteRestart =>
    case CallvoteRandpickup =>
    case CallvoteRandcaps =>
    case CallvoteRandmap =>
    case CallvoteNextmap =>
    case CallvoteMap =>
    case CallvoteForcestart =>
    case CallvoteForcespec =>
    case CallvoteKick =>
    case CallvoteCoinflip =>
    case VoteSpecvote =>
    case VoteSpeccall =>
    case VoteCountabs =>
    case Unblockplayers =>
    case Forcerespawn =>
    case Allowshowspawns =>
    case Allowwidescreen =>
    case Allowpwo =>
    case Allowredscreen =>
    case Allowmovebob =>
    case Sharekeys =>
    case Keepkeys =>
    case Weaponstay =>
    case Nomonsters =>
    case Monstersrespawn =>
    case Respawnsuper =>
    case Itemsrespawn =>
    case Infiniteammo =>
    case Fragexitswitch =>
    case Allowtargetnames =>
    case Freelook =>
    case Forcewater =>
    case Doubleammo =>
    case Allowjump =>
    case Allowexit =>
    case Friendlyfire =>
  }

  /** So a key of at most eight characters never names a flag. */
  lemma ShortKeyNamesNoFlag(key: string)
    requires 0 < |key| <= 8
    ensures GetFlag(key) == Failure(UnknownFlag(key[1..]))
  {
    forall f: Flag
      ensures !EqualsIgnoreCase(ArgumentName(f), key[1..])
    {
      ArgumentNameLength(f);
    }
  }

  /**
   * What one option leaves alone: the flag sets only grow, and only the
   * iwad option touches the iwad.
   */
  lemma ApplyFrame(d: Draft, key: string, value: string, env: Environment)
    requires Apply(d, key, value, env).Success?
    ensures var d' := Apply(d, key, value, env).value;
            && d.addFlags <= d'.addFlags && d.removeFlags <= d'.removeFlags
            && (KeyOf(key) != IwadKey ==> d'.iwad == d.iwad)
  {
    var k := KeyOf(key);
    if k in PlainKeys {
    } else if k in CheckedKeys {
      CheckedFrame(d, k, value, env);
    } else if k in WadKeys {
      WadFrame(d, k, value, env);
    } else {
      FlagFrame(d, key, value);
    }
  }

  lemma CheckedFrame(d: Draft, k: OptionKey, value: string, env: Environment)
    requires k in CheckedKeys && CheckedCase(d, k, value, env).Success?
    ensures var d' := CheckedCase(d, k, value, env).value;
            d'.addFlags == d.addFlags && d'.removeFlags == d.removeFlags && d'.iwad == d.iwad
  {
  }

  lemma WadFrame(d: Draft, k: OptionKey, value: string, env: Environment)
    requires k in WadKeys && WadCase(d, k, value, env).Success?
    ensures var d' := WadCase(d, k, value, env).value;
            d'.addFlags == d.addFlags && d'.removeFlags == d.removeFlags && d'.iwad == d.iwad
  {
  }

  lemma FlagFrame(d: Draft, key: string, value: string)
    requires FlagCase(d, key, value).Success?
    ensures var d' := FlagCase(d, key, value).value;
            d.addFlags <= d'.addFlags && d.removeFlags <= d'.removeFlags && d'.iwad == d.iwad
  {
  }

  /** The flag sets only grow over the option loop. */
  lemma {:induction false} FoldKeepsFlags(d: Draft, entries: seq<(string, string)>, env: Environment)
    requires Fold(d, entries, env).Success?
    ensures var d' := Fold(d, entries, env).value;
            d.addFlags <= d'.addFlags && d.removeFlags <= d'.removeFlags
    decreases |entries|
  {
    if |entries| > 0 {
      ApplyFrame(d, entries[0].0, entries[0].1, env);
      FoldKeepsFlags(Apply(d, entries[0].0, entries[0].1, env).value, entries[1..], env);
    }
  }

  /**
   * Switching a flag on and then off leaves it in both sets: the sets
   * record every request, not the last one.
   */
  lemma OnThenOff(d: Draft, key: string, env: Environment)
    requires KeyOf(key) == FlagKey && GetFlag(key).Success?
    ensures var f := GetFlag(key).value;
            Fold(d, [(key, "on"), (key, "off")], env)
            == Success(d.(addFlags := d.addFlags + {f}, removeFlags := d.removeFlags + {f}))
  {
    var f := GetFlag(key).value;
    var d1 := d.(addFlags := d.addFlags + {f});
    OnAndOff();
    FlagKeyCase(d, key, "on", env);
    FlagKeyCase(d1, key, "off", env);
    assert FlagCase(d, key, "on") == Success(d1);
    assert FlagCase(d1, key, "off") == Success(d1.(removeFlags := d.removeFlags + {f}));
    assert [(key, "on"), (key, "off")] == [(key, "on")] + [(key, "off")];
    FoldAppend(d, [(key, "on")], [(key, "off")], env);
    FoldOne(d, key, "on", env);
    FoldOne(d1, key, "off", env);
  }

  lemma OnAndOff()
    ensures HandleTrue("on") && !HandleTrue("off")
  {
    ToLowerOfLower("on");
    ToLowerOfLower("off");
  }

  // ------------------------------------------------------- after the loop

  /** Everything after the option loop: the wad check, the required fields, the port limit, the id. */
  function Finish(d: Draft, env: Environment, req: Request): Result<Launch, HostError>
  {
    match ZandronumServer.ResolveFrom(d.wads, 0, env.base)
    case Failure(e) => Failure(BadWad(e))
    case Success(wads) =>
      if d.iwad.None? then Failure(MissingIwad)
      else if d.servername.None? then Failure(MissingHostname)
      else if !req.recovering && Functions.FirstAvailable(env.base.minPort, env.base.maxPort, env.base.portAvailable) == 0
      then Failure(ServerLimit)
      else if req.id.None? && req.generatedId.None? then Failure(HashFailure)
      else
        var id := if req.id.Some? then req.id.value else req.generatedId.value;
        Success(Launch(d.(wads := wads), OriginOf(req), id, id[..|id| / 2], id[|id| / 2..], req.recovering))
  }

  function OriginOf(req: Request): Origin
  {
    Origin(req.userName, req.userId, req.message, req.userLevel)
  }

  /** handleHostCommand, specified. */
  function Host(env: Environment, req: Request): Result<Launch, HostError>
  {
    match Fold(Initial(env, req), req.message, env)
    case Failure(e) => Failure(e)
    case Success(d) => Finish(d, env, req)
  }

  /**
   * A launched server has an iwad and a hostname, every wad exists on
   * disk, a port was free unless recovering, and the id splits into the
   * two passwords: the rcon password is its first half (rounded down) and
   * the server password the rest.
   */
  lemma FinishSucceeds(d: Draft, env: Environment, req: Request)
    requires Finish(d, env, req).Success?
    ensures var l := Finish(d, env, req).value;
            && l.draft.iwad.Some? && l.draft.servername.Some?
            && (req.recovering || Functions.FirstAvailable(env.base.minPort, env.base.maxPort, env.base.portAvailable) != 0)
            && (forall w :: w in l.draft.wads ==>
                  env.base.fileExists(env.base.wadDirectory + w) || env.base.fileExists(env.base.iwadDirectory + w))
            && l.rconPassword + l.serverPassword == l.serverId
            && |l.rconPassword| == |l.serverId| / 2
            && (req.id.Some? ==> l.serverId == req.id.value)
  {
    ZandronumServer.ResolvedWadsExist(d.wads, env.base);
    var id := Finish(d, env, req).value.serverId;
    assert id[..|id| / 2] + id[|id| / 2..] == id;
  }

  /** A command without an iwad option never starts a server. */
  lemma NoIwadNoServer(env: Environment, req: Request)
    requires forall j :: 0 <= j < |req.message| ==> req.message[j].0 != "iwad"
    ensures Host(env, req).Failure?
  {
    NoIwadFold(Initial(env, req), req.message, env);
  }

  /** Without an iwad entry, the loop leaves the iwad as it found it. */
  lemma {:induction false} NoIwadFold(d: Draft, entries: seq<(string, string)>, env: Environment)
    requires forall j :: 0 <= j < |entries| ==> entries[j].0 != "iwad"
    ensures Fold(d, entries, env).Success? ==> Fold(d, entries, env).value.iwad == d.iwad
    decreases |entries|
  {
    if |entries| > 0 {
      var r := Apply(d, entries[0].0, entries[0].1, env);
      if r.Success? {
        assert KeyOf(entries[0].0) != IwadKey;
        ApplyFrame(d, entries[0].0, entries[0].1, env);
        NoIwadFold(r.value, entries[1..], env);
      }
    }
  }

  // ---------------------------------------------------------- the server

  class Server {
    /** The fields the option switch writes, kept as one record. */
    var options: Draft

    var userName: string
    var userId: string
    var hostCommand: seq<(string, string)>
    var userLevel: AccountType.AccountType

    var serverId: string
    var rconPassword: string
    var serverPassword: string
    var recovering: bool

    function Requester(): Origin
      reads this
    {
      Origin(userName, userId, hostCommand, userLevel)
    }

    function Record(): Launch
      reads this
    {
      Launch(options, Requester(), serverId, rconPassword, serverPassword, recovering)
    }

    /** new Server(): COOP, DEFAULT skill, empty lists and sets. */
    constructor ()
      ensures options == Blank()
    {
      options := Blank();
      userName, userId, hostCommand, userLevel := "", "", [], AccountType.None;
      serverId, rconPassword, serverPassword, recovering := "", "", "", false;
    }

    /** One pass of the option switch; on a refusal the fields are left half-written. */
    method ApplyOption(key: string, value: string, env: Environment) returns (err: Option<HostError>)
      modifies this
      ensures var r := Apply(old(options), key, value, env);
              && (r.Success? ==> err.None? && options == r.value)
              && (r.Failure? ==> err == Some(r.error))
      ensures Requester() == old(Requester())
    {
      var k := KeyOf(key);
      if k in PlainKeys {
        ApplyPlainOption(k, value);
        err := None;
      } else if k in CheckedKeys {
        err := ApplyCheckedOption(k, value, env);
      } else if k in WadKeys {
        err := ApplyWadOption(k, value, env);
      } else {
        assert k !in PlainKeys && k !in CheckedKeys && k !in WadKeys;
        err := ApplyFlagOption(key, value);
      }
    }

    method ApplyPlainOption(k: OptionKey, value: string)
      requires k in PlainKeys
      modifies this
      ensures options == PlainCase(old(options), k, value)
      ensures Requester() == old(Requester())
    {
      match k
      case AutoRestartKey =>
        options := options.(autoRestart := HandleTrue(value));
      case HostnameKey =>
        options := options.(servername := Some(value));
      case IwadKey =>
        options := options.(iwad := ZandronumServer.GetIwad(Functions.CleanInputFile(value)));
      case MapsKey =>
        options := options.(maps := options.maps + Split(value, ','));
    }

    method ApplyCheckedOption(k: OptionKey, value: string, env: Environment) returns (err: Option<HostError>)
      requires k in CheckedKeys
      modifies this
      ensures var r := CheckedCase(old(options), k, value, env);
              && (r.Success? ==> err.None? && options == r.value)
              && (r.Failure? ==> err == Some(r.error))
      ensures Requester() == old(Requester())
    {
      err := None;
      match k
      case VersionKey =>
        var v := env.base.versions(ToLower(value));
        if v.None? {
          return Some(InvalidVersion);
        }
        options := options.(version := v.value);
      case ConfigKey =>
        var name := Functions.CleanInputFile(ToLower(value));
        if !env.base.fileExists(env.base.configDirectory + name) {
          return Some(MissingConfig(value));
        }
        options := options.(config := Some(name));
      case GamemodeKey =>
        var m := GetGamemode(value);
        if m.Failure? {
          return Some(m.error);
        }
        options := options.(gameMode := m.value);
      case PortKey =>
        if !Functions.CheckValidPort(value, env.base.minPort, env.base.maxPort) {
          return Some(InvalidPort);
        }
        var port := ParseInt(value).value;
        if env.base.portRegistered(port) {
          return Some(PortInUse(port));
        }
        options := options.(tempPort := port);
      case SkillKey =>
        var skill := HandleSkill(value);
        if skill.Failure? {
          return Some(skill.error);
        }
        options := options.(skill := skill.value);
    }

    method ApplyWadOption(k: OptionKey, value: string, env: Environment) returns (err: Option<HostError>)
      requires k in WadKeys
      modifies this
      ensures var r := WadCase(old(options), k, value, env);
              && (r.Success? ==> err.None? && options == r.value)
              && (r.Failure? ==> err == Some(r.error))
      ensures Requester() == old(Requester())
    {
      if k == MapwadKey {
        var levels := env.levelNames(value);
        if levels.None? {
          return Some(UnknownWad(value));
        }
        options := options.(wads := options.wads + [value]);
        options := options.(maps := options.maps + levels.value);
        err := None;
      } else {
        options := options.(wads := options.wads + AddWads(value));
        err := if env.base.hashesAccepted(options.wads) then None else Some(HashesRejected);
      }
    }

    method ApplyFlagOption(key: string, value: string) returns (err: Option<HostError>)
      modifies this
      ensures var r := FlagCase(old(options), key, value);
              && (r.Success? ==> err.None? && options == r.value)
              && (r.Failure? ==> err == Some(r.error))
      ensures Requester() == old(Requester())
    {
      var flag := GetFlag(key);
      if flag.Failure? {
        return Some(flag.error);
      }
      if HandleTrue(value) {
        options := options.(addFlags := options.addFlags + {flag.value});
      } else {
        options := options.(removeFlags := options.removeFlags + {flag.value});
      }
      err := None;
    }

    /** The option loop: every entry in order, stopping at the first refusal. */
    method ApplyOptions(entries: seq<(string, string)>, env: Environment) returns (err: Option<HostError>)
      modifies this
      ensures var r := Fold(old(options), entries, env);
              && (r.Success? ==> err.None? && options == r.value)
              && (r.Failure? ==> err == Some(r.error))
      ensures Requester() == old(Requester())
    {
      var i := 0;
      while i < |entries|
        invariant 0 <= i <= |entries|
        invariant Fold(options, entries[i..], env) == Fold(old(options), entries, env)
        invariant Requester() == old(Requester())
      {
        assert entries[i..][1..] == entries[i + 1..];
        err := ApplyOption(entries[i].0, entries[i].1, env);
        if err.Some? {
          return;
        }
        i := i + 1;
      }
      return None;
    }

    /** The wad check loop: resolve each entry in place, stopping at the first failure. */
    method CheckWads(env: Environment) returns (err: Option<HostError>)
      modifies this
      ensures var r := ZandronumServer.ResolveFrom(old(options.wads), 0, env.base);
              && (r.Success? ==> err.None? && options.wads == r.value)
              && (r.Failure? ==> err == Some(BadWad(r.error)))
      ensures options == old(options).(wads := options.wads) && Requester() == old(Requester())
    {
      var i := 0;
      while i < |options.wads|
        invariant 0 <= i <= |options.wads|
        invariant ZandronumServer.ResolveFrom(options.wads, i, env.base)
                  == ZandronumServer.ResolveFrom(old(options.wads), 0, env.base)
        invariant options == old(options).(wads := options.wads) && Requester() == old(Requester())
      {
        var w := options.wads[i];
        if StartsWith(w, "iwad:") {
          var parts := Split(w, ':');
          if |parts| < 2 {
            return Some(BadWad(ZandronumServer.NoIwadName(w)));
          }
          var tempWad := parts[1];
          if !env.base.fileExists(env.base.iwadDirectory + tempWad) {
            return Some(BadWad(ZandronumServer.MissingIwadFile(tempWad)));
          }
          options := options.(wads := options.wads[i := tempWad]);
        } else if !env.base.fileExists(env.base.wadDirectory + w) {
          return Some(BadWad(ZandronumServer.MissingFile(w)));
        } else {
          assert options.wads[i := w] == options.wads;
        }
        i := i + 1;
      }
      return None;
    }

    /**
     * Everything after the option loop: the wad check, the required
     * fields, the server limit and the id with its two halves.
     */
    method Complete(env: Environment, req: Request) returns (err: Option<HostError>)
      requires Requester() == OriginOf(req)
      modifies this
      ensures var r := Finish(old(options), env, req);
              && (r.Success? ==> err.None? && Record() == r.value)
              && (r.Failure? ==> err == Some(r.error))
    {
      err := CheckWads(env);
      if err.Some? {
        return;
      }
      if options.iwad.None? {
        return Some(MissingIwad);
      }
      if options.servername.None? {
        return Some(MissingHostname);
      }
      if !req.recovering {
        var free := Functions.GetFirstAvailablePort(env.base.minPort, env.base.maxPort, env.base.portAvailable);
        if free == 0 {
          return Some(ServerLimit);
        }
      }
      if req.id.Some? {
        serverId := req.id.value;
      } else if req.generatedId.Some? {
        serverId := req.generatedId.value;
      } else {
        return Some(HashFailure);
      }
      var mid := |serverId| / 2;
      rconPassword := serverId[..mid];
      serverPassword := serverId[mid..];
      recovering := req.recovering;
    }
  }

  /**
   * handleHostCommand: fold the message's entries into a fresh Server,
   * check its wads, required fields, the port limit and the id, and hand
   * it to its process; every refusal is reported instead of a server.
   */
  method HandleHostCommand(env: Environment, req: Request) returns (r: Result<Server, HostError>)
    ensures r.Failure? <==> Host(env, req).Failure?
    ensures r.Failure? ==> r.error == Host(env, req).error
    ensures r.Success? ==> fresh(r.value) && r.value.Record() == Host(env, req).value
  {
    var server := new Server();
    if req.autoRestart {
      server.options := server.options.(autoRestart := true);
    }
    server.options := server.options.(tempPort := req.port);
    server.userId, server.userName, server.hostCommand, server.userLevel :=
      req.userId, req.userName, req.message, req.userLevel;
    server.options := server.options.(version := env.base.defaultVersion);

    assert server.options == Initial(env, req);
    var err := server.ApplyOptions(req.message, env);
    if err.Some? {
      return Failure(err.value);
    }
    err := server.Complete(env, req);
    if err.Some? {
      return Failure(err.value);
    }
    return Success(server);
  }
}
