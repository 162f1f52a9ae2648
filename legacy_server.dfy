// A game server of the earlier bot (src/org): the settings its host
// command produced and the fields the bot and the server thread change
// while it runs. src/org/bestever/bebot/Server.java, which declares them,
// is not part of this model; the fields here are the ones Bot.java and
// ServerProcess.java of that generation read and write.
module LegacyServer {
  import opened Wrappers
  import Versions

  /** What the host command set and processServerRunCommand reads. */
  datatype Settings = Settings(
    version: Versions.Version,
    iwad: Option<string>,
    skulltagData: bool,
    wads: seq<string>,
    config: Option<string>,
    optwads: seq<string>,
    skill: int,
    gamemode: Option<string>,
    dmflags: int, dmflags2: int, dmflags3: int, compatflags: int, compatflags2: int,
    instagib: bool,
    buckshot: bool,
    servername: Option<string>,
    serverId: string)

  class Server {
    /** The host command's settings; the wad list is rewritten when the command line is built. */
    var settings: Settings
    /** temp_port: the port to ask for again on a restart, 0 for none. */
    var tempPort: int
    /** The port the server reported, 0 until it reports one. */
    var port: int
    var rconPassword: string
    var autoRestart: bool
    /** protected_server: immune to .killinactive. */
    var protectedServer: bool
    var hideStopMessage: bool
    var beingKilled: bool
    var timeStarted: int
    /** serverprocess.last_activity: when a player last joined or left. */
    var lastActivity: int
    /** irc_hostname of the user who hosted it. */
    const ircHostname: string
    /** user_level of the user who hosted it. */
    const userLevel: int

    constructor (settings: Settings, ircHostname: string, userLevel: int, autoRestart: bool, tempPort: int)
      ensures this.settings == settings && this.ircHostname == ircHostname && this.userLevel == userLevel
      ensures this.autoRestart == autoRestart && this.tempPort == tempPort
      ensures port == 0 && rconPassword == "" && !protectedServer && !hideStopMessage && !beingKilled
    {
      this.settings := settings;
      this.ircHostname := ircHostname;
      this.userLevel := userLevel;
      this.autoRestart := autoRestart;
      this.tempPort := tempPort;
      port := 0;
      rconPassword := "";
      protectedServer := false;
      hideStopMessage := false;
      beingKilled := false;
      timeStarted := 0;
      lastActivity := 0;
    }
  }
}
