# ZBot core, modelled in Dafny

ZBot is a chat bot that hosts Doom game servers on request: a user sends a
`.host` command with `key=value` options, the bot turns the options into a
server record, starts the game-server executable with an argument vector
built from that record, watches every line the server prints, and takes the
server off its list when it stops or is killed. The repository holds two
generations of the bot: the earlier IRC bot under `src/org` and the current
one under `src/main` and `bot/` (a Zandronum handler and a stricter Odamex
handler). This project models the deterministic core of both generations.

| file | module | models |
|---|---|---|
| `wrappers.dfy` | `Wrappers` | Option and Result |
| `java_text.dfy` | `JavaText` | the java.lang.String and Integer behaviour the bot relies on: trim, the `\s` class, split, replace, and case folding and parseInt restricted to ASCII text |
| `arguments.dfy` | `Arguments` | (option, value) pairs and their flattening into an argument vector |
| `version.dfy` | `Versions` | a server version (name, executable path, data wads) |
| `account_type.dfy` | `AccountType`, `LegacyAccountType` | the role levels of both generations and `isAccountTypeOf` |
| `functions.dfy` | `Functions` | the static helpers of `Functions.java` |
| `key_value_parser.dfy` | `KeyValueParser` | the cursor-driven `key=value` tokenizer, as a class with a mutable position |
| `zandronum_server.dfy` | `ZandronumServer` | the lenient `.host` handler of `src/main Server.java`, its alias tables and `getField` |
| `odamex_server.dfy` | `OdamexServer` | the strict `.host` handler of `bot/ Server.java` with its game-mode, skill and flag enums |
| `registry.dfy` | `Registry` | the bot's list of running servers and the lookups on it |
| `server_process.dfy` | `ServerProcess` | the current server thread: argument vector, per-line handling, end of output, termination |
| `bot.dfy` | `Bot` | the current bot's commands: role, host gate, kill commands, rcon text shaping, extra wads |
| `server_cleanup.dfy` | `ServerCleanup` | the periodic inactivity sweep |
| `legacy_server.dfy` | `LegacyServer` | the earlier generation's server record |
| `legacy_server_process.dfy` | `LegacyServerProcess` | the earlier server thread, including its auto-restart check |
| `legacy_bot.dfy` | `LegacyBot` | the earlier bot's list, host gate, kill-inactive sweep, off/on, toggles and `.terminate` confirmation |
| `query_manager.dfy` | `QueryManager` | the bounded queue of server queries with one query in flight |

Code that updates objects step by step is modelled by classes whose methods
are proved against specification functions: `KeyValueParser.KeyValueParser`, the two
`Server` classes of the host handlers, `Registry.Registry`, the two
`Process` classes, the two `Bot` classes, `ServerCleanup.Cleanup` and
`QueryManager.QueryManager`. Pure switches and helpers are functions with
lemmas about them.

The outside world reaches the model as parameters:
- file existence;
- the MySQL answers: the wad-hash blacklist, ban and whitelist lookups, the slot limit and the wad page;
- the registry's port lookup and the socket probe for free ports;
- the version catalog;
- the clock;
- the hash that `generateHash` would produce;
- the level names of a map wad;
- the regular-expression matchers: the `key=value` pattern of the Zandronum handler, and the player, hostname and password patterns of the server threads.

Each of these is a function or a value handed to the member that needs it.

## Model

| member | source | states |
|---|---|---|
| AccountType.ValuesInOrder | bot/src/main/java/org/bestever/bebot/AccountType.java:23-47 | values() holds the five levels NONE, REGISTERED, VIP, MODERATOR, ADMIN in declaration order: the level at index i has ordinal i, and every level is listed |
| AccountType.FirstWithTitle | bot/src/main/java/org/bestever/bebot/AccountType.java:55-60 | the stream's findFirst: NONE when no candidate has the text as its title, otherwise a candidate whose title equals the text |
| AccountType.FromString | bot/src/main/java/org/bestever/bebot/AccountType.java:55-60 | fromString gives a level whose title is exactly the text whenever one exists, and NONE otherwise |
| AccountType.FromStringTitle | bot/src/main/java/org/bestever/bebot/AccountType.java:27-60 | the titles are distinct, so fromString(title(t)) is t for every level |
| AccountType.IsAccountTypeOfOrders | bot/src/main/java/org/bestever/bebot/AccountType.java:70-72 | the ordinal comparison is a total order: reflexive, transitive, total and antisymmetric |
| AccountType.Extremes | bot/src/main/java/org/bestever/bebot/AccountType.java:27-72 | ADMIN passes every check; NONE passes only a check whose minimum is NONE |
| LegacyAccountType.LevelsAscend | src/org/bestever/bebot/AccountType.java:27-57 | the levels GUEST (-1), BANNED (0), REGISTERED, RCON, MODERATOR, ADMIN, OPERATOR (5) strictly increase |
| LegacyAccountType.IsAccountTypeOfOrders | src/org/bestever/bebot/AccountType.java:67-69 | the integer check is reflexive and transitive |
| LegacyAccountType.IsAccountTypeOfMonotone | src/org/bestever/bebot/AccountType.java:67-69 | a higher level passes every check a lower one passes |
| LegacyAccountType.Extremes | src/org/bestever/bebot/AccountType.java:27-69 | OPERATOR passes every listed minimum; GUEST passes only the GUEST minimum |
| QueryManager.QueryManager.constructor | bot/src/main/java/org/bestever/serverquery/QueryManager.java:40-64 | a new manager has an empty queue and both flags clear |
| QueryManager.QueryManager.AddRequest | bot/src/main/java/org/bestever/serverquery/QueryManager.java:53-75 | a request is appended exactly when fewer than MAX_REQUESTS (4) are queued; otherwise nothing changes and false is returned; the queue never holds more than four |
| QueryManager.QueryManager.Kill | bot/src/main/java/org/bestever/serverquery/QueryManager.java:80-82 | sets the terminate flag and changes nothing else |
| QueryManager.QueryManager.SignalProcessQueryComplete | bot/src/main/java/org/bestever/serverquery/QueryManager.java:87-89 | clears the processing flag and changes nothing else |
| QueryManager.QueryManager.ProcessQuery | bot/src/main/java/org/bestever/serverquery/QueryManager.java:94-107 | a non-empty queue gives up its head, which is started, with the processing flag set; on an empty queue the null branch clears the flag again |
| QueryManager.QueryManager.RunStep | bot/src/main/java/org/bestever/serverquery/QueryManager.java:113-123 | one pass of run(): it loops while not terminated, and starts the head request exactly when no query is in progress and the queue is non-empty; otherwise nothing changes |
| ServerCleanup.StaleFlags | src/main/java/org/bestever/bebot/ServerCleanup.java:48-50 | one flag per listed server: idle for longer than DAY_MILLISECONDS times the cleanup interval |
| ServerCleanup.StaleServers | src/main/java/org/bestever/bebot/ServerCleanup.java:48-54 | the servers the sweep kills: exactly the listed servers that are stale |
| ServerCleanup.FreshServers | src/main/java/org/bestever/bebot/ServerCleanup.java:48-54 | the servers the sweep keeps: exactly the listed servers that are not stale |
| ServerCleanup.Report | src/main/java/org/bestever/bebot/ServerCleanup.java:57-59 | the core channel hears a message exactly when at least one server was killed |
| ServerCleanup.LiveSweepKillsAtMostOne | src/main/java/org/bestever/bebot/ServerCleanup.java:48-55 | the for-each over the live LinkedList, as written, kills at most one server: the kill modifies the list and the next iteration step throws or ends the walk |
| ServerCleanup.TwoStaleKeepsOne | src/main/java/org/bestever/bebot/ServerCleanup.java:48-55 | with two stale servers, the walk as written kills the first and ends with the second still listed |
| ServerCleanup.ThreeStaleThrows | src/main/java/org/bestever/bebot/ServerCleanup.java:48-55 | with three stale servers, the walk as written kills one and then throws ConcurrentModificationException |
| ServerCleanup.Cleanup.constructor | src/main/java/org/bestever/bebot/ServerCleanup.java:33-41 | keeps the registry and the configured interval |
| ServerCleanup.Cleanup.Run | src/main/java/org/bestever/bebot/ServerCleanup.java:46-60 | the sweep over a snapshot: every stale server gets its stop message hidden and leaves the list, every other server is untouched and stays in order, the count is the number of stale servers and the report follows it |
| ServerCleanup.Cleanup.HideEach | src/main/java/org/bestever/bebot/ServerCleanup.java:48-55 | each target in turn is hidden and removed from the list |
| ServerCleanup.Cleanup.HideStep | src/main/java/org/bestever/bebot/ServerCleanup.java:51-52 | sets hide_stop_message and takes the server off the list (killServer's terminateServer) |
| Functions.CheckValidPortOfInt | src/main/java/org/bestever/bebot/Functions.java:46-53 | for the decimal text of any 32-bit integer p, checkValidPort holds exactly when min_port <= p < max_port |
| Functions.CheckValidPortNeedsInteger | src/main/java/org/bestever/bebot/Functions.java:46-53 | a port text that passes checkValidPort is one that Integer.parseInt accepts, with a 32-bit value |
| Functions.FirstAvailableIsLeast | src/main/java/org/bestever/bebot/Functions.java:176-182 | getFirstAvailablePort gives the least port in [minport, maxport) that is available when one is, and 0 when none is |
| Functions.GetFirstAvailablePort | src/main/java/org/bestever/bebot/Functions.java:176-182 | the loop returns exactly the first available port of the range, or 0 |
| Functions.PluralizeLength | src/main/java/org/bestever/bebot/Functions.java:61-72 | pluralize shortens the message by 3 per "{s}" marker when the number is 1 and by 2 otherwise; without a marker the message comes back unchanged |
| Functions.PluralizeOneMarker | src/main/java/org/bestever/bebot/Functions.java:61-72 | a message with one "{s}" marker gets "" in its place for the number 1 and "s" for any other number, the text around it untouched |
| Functions.RemoveDuplicateWads | src/main/java/org/bestever/bebot/Functions.java:79-82 | the result holds no duplicate and holds exactly the wads of the input |
| Functions.EscapedAppend | src/main/java/org/bestever/bebot/Functions.java:114-122 | escaping distributes over concatenation: the loop treats every character on its own |
| Functions.EscapeQuotes | src/main/java/org/bestever/bebot/Functions.java:114-122 | the loop builds exactly the escaped text: a backslash before every double quote, every other character copied |
| Functions.EscapedLength | src/main/java/org/bestever/bebot/Functions.java:114-122 | escaping grows the text by one character per double quote in it |
| Functions.EscapedWithoutQuotes | src/main/java/org/bestever/bebot/Functions.java:114-122 | a text with no double quote is returned unchanged |
| Functions.EscapedStart | src/main/java/org/bestever/bebot/Functions.java:114-122 | an escaped text never starts with a double quote |
| Functions.EscapedQuotesArePreceded | src/main/java/org/bestever/bebot/Functions.java:114-122 | in an escaped text every double quote is immediately preceded by a backslash |
| Functions.UnescapeEscaped | src/main/java/org/bestever/bebot/Functions.java:114-122 | dropping the backslash before each double quote recovers the original input: escaping loses nothing |
| Functions.ByteArrayToHex | src/main/java/org/bestever/bebot/Functions.java:129-134 | the loop appends two lower-case hex digits per byte of the unsigned value b & 0xff, in order |
| Functions.HexRoundTrip | src/main/java/org/bestever/bebot/Functions.java:129-134 | the hex text has twice as many characters as bytes, all of them lower-case hex digits, and decoding it pairwise gives back every byte as b & 0xff |
| Functions.TimePartsDecompose | src/main/java/org/bestever/bebot/Functions.java:191-198 | calculateTime's days, hours, minutes and seconds recompose the truncated number of seconds; for a non-negative duration hours < 24 and minutes, seconds < 60, for a negative one each part lies in the mirrored range |
| Functions.CleanInputFile | src/main/java/org/bestever/bebot/Functions.java:215-217 | cleanInputFile's result holds no '/', starts and ends with no character <= U+0020, and holds only characters of the input |
| KeyValueParser.SpaceEndSpec | bot/src/main/java/org/bestever/bebot/KeyValueParser.java:17-34 | SPACE_PATTERN consumes the longest run of whitespace from the cursor: every consumed character is whitespace and the next one is not |
| KeyValueParser.NonSpaceEndSpec | bot/src/main/java/org/bestever/bebot/KeyValueParser.java:16-51 | VALUE_PATTERN consumes the longest run of non-whitespace from the cursor |
| KeyValueParser.KeyEndSome | bot/src/main/java/org/bestever/bebot/KeyValueParser.java:13-39 | a key match found by the reluctant KEY_PATTERN ends right before an '=', holds no whitespace and no earlier '=' past its first character: it is the shortest candidate |
| KeyValueParser.KeyEndNone | bot/src/main/java/org/bestever/bebot/KeyValueParser.java:13-72 | when KEY_PATTERN does not match at the cursor, no candidate key end exists there |
| KeyValueParser.QuoteEndSome | bot/src/main/java/org/bestever/bebot/KeyValueParser.java:15-49 | a quoted value match ends at the first later occurrence of the opening quote, with no line terminator in between |
| KeyValueParser.QuoteEndNone | bot/src/main/java/org/bestever/bebot/KeyValueParser.java:15-72 | when QUOTED_VALUE_PATTERN does not match, no closing quote exists on that line |
| KeyValueParser.ValueAt | bot/src/main/java/org/bestever/bebot/KeyValueParser.java:46-75 | reading a value advances the cursor, and a failed match reports "wrong near" the ten characters at the cursor |
| KeyValueParser.ParseStep | bot/src/main/java/org/bestever/bebot/KeyValueParser.java:33-55 | one loop pass never moves the cursor back, and a pass that adds a pair moves it forward |
| KeyValueParser.ParseFrom | bot/src/main/java/org/bestever/bebot/KeyValueParser.java:33-56 | the loop ends at the end of the input whenever it returns the map, and its cursor stays within the input |
| KeyValueParser.ParseStepKeeps | bot/src/main/java/org/bestever/bebot/KeyValueParser.java:40-54 | a pass adds exactly one new key and keeps every earlier pair; a pass that stops with the map returns the pairs read so far |
| KeyValueParser.ParseFromKeeps | bot/src/main/java/org/bestever/bebot/KeyValueParser.java:33-56 | a successful parse keeps every pair already read, with its value |
| KeyValueParser.KeyValueParser.constructor | bot/src/main/java/org/bestever/bebot/KeyValueParser.java:21-24 | a new parser holds the input with its cursor at 0 |
| KeyValueParser.KeyValueParser.Parse | bot/src/main/java/org/bestever/bebot/KeyValueParser.java:26-57 | a second call fails with the "only once" error and leaves the cursor; a first call returns what the loop specification gives and leaves the cursor where the loop stopped |
| KeyValueParser.KeyValueParser.ParsePair | bot/src/main/java/org/bestever/bebot/KeyValueParser.java:34-54 | the method body of one loop pass computes exactly the pass specification and moves the cursor to its position |
| KeyValueParser.SecondParseRefused | src/test/java/org/bestever/bebot/KeyValueParserTest.java:44-49 | after a successful parse of a non-empty input the cursor is past 0, so a second call is refused |
| KeyValueParser.FailedFirstKeyKeepsCursor | bot/src/main/java/org/bestever/bebot/KeyValueParser.java:26-72 | a parse that fails on its first key leaves the cursor at 0, so a second call is not refused |
| KeyValueParser.ParseRendered | bot/src/main/java/org/bestever/bebot/KeyValueParser.java:26-57 | round trip: rendering well-formed fields with distinct keys (any leading and separating whitespace, bare or quoted values) and parsing the text gives exactly those key/value pairs |
| KeyValueParser.RepeatedKeyRejected | bot/src/main/java/org/bestever/bebot/KeyValueParser.java:40-41 | a rendering that repeats a key is rejected with the duplicate-key error |
| KeyValueParser.EndAfterAssignment | bot/src/main/java/org/bestever/bebot/KeyValueParser.java:44-62 | a key and '=' with nothing but whitespace after them fails with "expected more input" |
| KeyValueParser.NormalPairs | src/test/java/org/bestever/bebot/KeyValueParserTest.java:10-18 | "abc=jkl def=iop" parses to {abc: jkl, def: iop} |
| KeyValueParser.QuotedPairs | src/test/java/org/bestever/bebot/KeyValueParserTest.java:20-30 | the quoted pairs of the test parse to the expected map, a quote of the other kind kept inside the value |
| KeyValueParser.TrimmedMixedPairs | src/test/java/org/bestever/bebot/KeyValueParserTest.java:32-42 | leading and trailing whitespace and mixed bare and quoted values parse to the expected map |
| Registry.RemoveFirst | src/main/java/org/bestever/bebot/Bot.java:315-327 | removing a server that is not listed changes nothing; removing one that is listed takes exactly one entry away |
| Registry.RemoveFirstCuts | src/main/java/org/bestever/bebot/Bot.java:315-327 | the entry removed is the first occurrence of that very object, and the entries before and after it keep their order |
| Registry.RemoveTwice | src/main/java/org/bestever/bebot/Bot.java:315-327 | in a list without repeats a second removal of the same server changes nothing, and after the first one the server is gone |
| Registry.FirstOnPort | src/main/java/org/bestever/bebot/Bot.java:334-347 | getServer finds nothing exactly when no listed server has the port, and otherwise the first server in list order that has it |
| Registry.OwnedBy | src/main/java/org/bestever/bebot/Bot.java:354-369 | getUserServers keeps exactly the servers whose userId equals the id, all of them from the list |
| Registry.RemoveEachOwned | src/main/java/org/bestever/bebot/Bot.java:1278-1302 | stopping every one of the caller's servers leaves exactly the servers of other owners, in order |
| Registry.RemoveEachSelect | src/main/java/org/bestever/bebot/Bot.java:1310-1354 | stopping the selected servers of a snapshot one by one leaves exactly the unselected ones, in order |
| Registry.RemoveEachAll | src/main/java/org/bestever/bebot/Bot.java:1218-1238 | stopping every server of a snapshot of the list leaves it empty |
| Registry.Registry.constructor | src/main/java/org/bestever/bebot/Bot.java:167 | the server list starts empty |
| Registry.Registry.Add | src/main/java/org/bestever/bebot/ServerProcess.java:351-352 | addToLinkedList: a started server is appended at the end of the list (the implementation of that interface method is not part of this model) |
| Registry.Registry.Remove | src/main/java/org/bestever/bebot/Bot.java:315-327 | the ListIterator walk removes the first entry that is the same object as the server, and only it |
| Registry.Registry.GetServer | src/main/java/org/bestever/bebot/Bot.java:334-347 | the walk returns the first server on the port, or nothing |
| Registry.Registry.GetUserServers | src/main/java/org/bestever/bebot/Bot.java:354-369 | the walk returns the caller's servers in list order, never null |
| Registry.Registry.GetAllServers | src/main/java/org/bestever/bebot/Bot.java:371-382 | null when no server runs, otherwise a copy of the whole list in order |
| Bot.RoleOf | src/main/java/org/bestever/bebot/Bot.java:883-895 | getRole is the highest level (by ordinal) that any of the member's role names reads as, one of those levels, and NONE without role names |
| Bot.RoleOfSameNames | src/main/java/org/bestever/bebot/Bot.java:883-895 | the role depends only on the set of role names, not on their order or repetition |
| Bot.RoleOfTitle | src/main/java/org/bestever/bebot/Bot.java:883-895 | a member holding a level's title and otherwise nothing higher has exactly that level |
| Bot.StripLeading | src/main/java/org/bestever/bebot/Bot.java:514 | replaceAll("^\\s+", "") removes exactly the leading whitespace: what it drops is whitespace and what remains starts with none |
| Bot.FirstStatement | src/main/java/org/bestever/bebot/Bot.java:512-514 | only the text before the first ';' is kept, with leading whitespace removed; a message made only of semicolons throws |
| Bot.Words | src/main/java/org/bestever/bebot/Bot.java:515-517 | the command is the statement's text up to the first space |
| Bot.Quoted | src/main/java/org/bestever/bebot/Bot.java:521-524 | quoting never changes the command word |
| Bot.Branded | src/main/java/org/bestever/bebot/Bot.java:518-520 | "$brand" replacement touches only sv_hostname and never the command word |
| Bot.OneStatementPerLine | src/main/java/org/bestever/bebot/Bot.java:527 | a command line carries a single ';', the one that ends it |
| Bot.SingleStatement | src/main/java/org/bestever/bebot/Bot.java:512-527 | the shaped command and its arguments hold no ';', so one statement reaches the console |
| Bot.WordsKeepOut | src/main/java/org/bestever/bebot/Bot.java:515-517 | splitting into command and arguments adds no character that was not in the statement |
| Bot.BrandedKeepsOut | src/main/java/org/bestever/bebot/Bot.java:518-520 | the brand replacement adds only characters of the text or of the hostname base |
| Bot.QuotedKeepsOut | src/main/java/org/bestever/bebot/Bot.java:521-524 | quoting adds only backslashes and double quotes |
| Bot.CommandTrimmed | src/main/java/org/bestever/bebot/Bot.java:514-516 | the command word never starts with whitespace |
| Bot.QuotedReadsBack | src/main/java/org/bestever/bebot/Bot.java:521-524 | quoted arguments are wrapped in double quotes and unescaping the inside gives back the arguments |
| Bot.BroadcastIsSend | src/main/java/org/bestever/bebot/Bot.java:555-571 | a .sendall that goes out shapes the text as .send does, except that sv_hostname only goes out without arguments |
| Bot.IdleServers | src/main/java/org/bestever/bebot/Bot.java:1328-1337 | the servers .killinactive stops are exactly the unprotected servers of the snapshot idle for more than days * DAY_MILLISECONDS |
| Bot.BusyServers | src/main/java/org/bestever/bebot/Bot.java:1328-1337 | the servers .killinactive leaves are exactly the other servers of the snapshot |
| Bot.FindIgnoringCase | src/main/java/org/bestever/bebot/Bot.java:274-301 | the lookup finds nothing exactly when no listed wad equals the name ignoring case, and otherwise the first one that does |
| Bot.DeleteKeepsOtherCase | src/main/java/org/bestever/bebot/Bot.java:299-309 | deleteExtraWad as written reports "DOOM2.WAD" removed for "doom2.wad" but leaves it in the list |
| Bot.AddThenDelete | src/main/java/org/bestever/bebot/Bot.java:270-309 | a wad added to the list is found at its end and deleting it gives the list back |
| Bot.Bot.constructor | src/main/java/org/bestever/bebot/Bot.java:101-171 | the bot starts enabled, with an empty per-version list for each version and the configured hostname base and extra wads |
| Bot.Bot.ProcessHost | src/main/java/org/bestever/bebot/Bot.java:1136-1149 | a launch happens exactly when hosting is open (enabled, or the caller is ADMIN) and the slot count exceeds the caller's running servers; auto-restart is asked for by "autorestart=true" or "autorestart=on" in the message |
| Bot.Bot.AddExtraWad | src/main/java/org/bestever/bebot/Bot.java:270-284 | a missing file is refused, a name already listed ignoring case is refused with the listed entry, otherwise the name is appended; a list without case-insensitive repeats keeps none |
| Bot.Bot.DeleteExtraWadAsWritten | src/main/java/org/bestever/bebot/Bot.java:299-309 | as written: success is reported whenever a listed wad matches ignoring case, but the list loses only an entry equal to the name exactly |
| Bot.Bot.DeleteExtraWad | src/main/java/org/bestever/bebot/Bot.java:299-309 | corrected: the entry that matched ignoring case is the one removed, so a list without case-insensitive repeats no longer holds the name |
| Bot.Bot.SendCommand | src/main/java/org/bestever/bebot/Bot.java:504-548 | the usage, non-numeric port, unknown port and not-the-hoster outcomes each happen exactly in their case; otherwise the server on the port receives the echo line and the command line of the shaped text, or the shaping throws |
| Bot.Bot.EveryServer | src/main/java/org/bestever/bebot/Bot.java:572-575 | the loop visits every running server once, in list order |
| Bot.Bot.SendCommandAll | src/main/java/org/bestever/bebot/Bot.java:555-584 | with no text nothing happens; otherwise every running server receives the two console lines exactly when the shaped command is not refused |
| Bot.Bot.KillEach | src/main/java/org/bestever/bebot/Bot.java:1224-1232 | every server of the snapshot is stopped with all kill flags set and removed from the list in turn |
| Bot.Bot.KillStep | src/main/java/org/bestever/bebot/Bot.java:1226-1230 | one server of a sweep: stop message hidden, being killed, auto-restart off, and removed from the list by killServer |
| Bot.Bot.KillOne | src/main/java/org/bestever/bebot/Bot.java:1187-1194 | the .kill target is marked being killed (by its owner when the caller owns it), its auto-restart is switched off and it leaves the list |
| Bot.Bot.ProcessKill | src/main/java/org/bestever/bebot/Bot.java:1159-1211 | each refusal (syntax, no servers, below REGISTERED, bad port, no such server, not the owner and below MODERATOR) happens exactly in its case and changes nothing; otherwise the first server on the port is killed, marked as killed by its owner exactly when the caller owns it ignoring case, and every other server is untouched |
| Bot.Bot.ProcessKillAll | src/main/java/org/bestever/bebot/Bot.java:1218-1238 | the count is the number of running servers, every one of them is stopped with all kill flags set, and the list ends empty |
| Bot.Bot.ProcessKillMine | src/main/java/org/bestever/bebot/Bot.java:1278-1302 | the caller's servers (exact id) are stopped and their ports reported in order; every other server stays, untouched and in order |
| Bot.Bot.ProcessKillVersion | src/main/java/org/bestever/bebot/Bot.java:1240-1272 | a wrong argument count or an unknown version is refused; a sweep happens only for a version whose list is non-empty, so while the per-version lists stay as the constructor left them nothing is ever killed |
| Bot.Bot.ProcessKillInactive | src/main/java/org/bestever/bebot/Bot.java:1310-1354 | missing, non-numeric and non-positive day counts and an empty list are refused exactly in their cases; otherwise exactly the idle unprotected servers are stopped, their ports reported, and the others stay untouched and in order |
| Bot.Bot.SweepIdle | src/main/java/org/bestever/bebot/Bot.java:1324-1337 | the snapshot loop stops exactly the idle unprotected servers and leaves the others |
| LegacyBot.FirstOnPort | src/org/bestever/bebot/Bot.java:266-278 | getServer finds nothing exactly when no listed server has the port, otherwise the first in list order that has it |
| LegacyBot.UserServers | src/org/bestever/bebot/Bot.java:285-299 | the servers whose host's user name equals the caller's, ignoring case, all of them and only them |
| LegacyBot.IdleServers | src/org/bestever/bebot/Bot.java:984-994 | the servers the sweep stops are exactly the unprotected ones idle for more than days * DAY_MILLISECONDS |
| LegacyBot.BusyServers | src/org/bestever/bebot/Bot.java:984-994 | the servers the sweep leaves are exactly the others |
| LegacyBot.TerminateStepKeepsCount | src/org/bestever/bebot/Bot.java:1294-1321 | the confirmation counter stays 0 or 1, and every permitted call either warns or exits |
| LegacyBot.ExitNeedsConfirmation | src/org/bestever/bebot/Bot.java:1294-1321 | .terminate exits exactly when the counter is 1 and no more than 5 whole seconds have passed since the first call |
| LegacyBot.LateCallWarns | src/org/bestever/bebot/Bot.java:1296-1303 | a call more than 5 whole seconds after the last one resets the counter and only warns again |
| LegacyBot.TwoCallsExit | src/org/bestever/bebot/Bot.java:1294-1321 | from a cleared counter the first call warns, and a second call exits exactly when it comes within the 5-second window |
| LegacyBot.Bot.constructor | src/org/bestever/bebot/Bot.java:65-150 | the bot starts enabled with no servers, an empty list per version and a cleared terminate counter |
| LegacyBot.Bot.RemoveServerFromLinkedList | src/org/bestever/bebot/Bot.java:247-259 | the first entry that is the same object as the server is removed and nothing else changes |
| LegacyBot.Bot.GetServer | src/org/bestever/bebot/Bot.java:266-278 | the walk returns the first server on the port, or nothing |
| LegacyBot.Bot.GetUserServers | src/org/bestever/bebot/Bot.java:285-299 | null when no server runs, otherwise the servers hosted by the user (ignoring case) in list order |
| LegacyBot.Bot.ProcessHost | src/org/bestever/bebot/Bot.java:796-815 | disabled unless enabled or ADMIN; below REGISTERED refused; a launch exactly when the slot count exceeds the user's servers; auto-restart read from the message |
| LegacyBot.Bot.ProcessOff | src/org/bestever/bebot/Bot.java:1014-1023 | hosting is switched off exactly when it was on and the caller is ADMIN; nothing else changes |
| LegacyBot.Bot.ProcessOn | src/org/bestever/bebot/Bot.java:1029-1038 | hosting is switched on exactly when it was off and the caller is ADMIN; nothing else changes |
| LegacyBot.Bot.ProcessKillInactive | src/org/bestever/bebot/Bot.java:967-1008 | below MODERATOR, missing, non-numeric and non-positive day counts and an empty list are refused exactly in their cases; otherwise exactly the idle unprotected servers are stopped with all three flags set, their ports reported, the others untouched and in order |
| LegacyBot.Bot.SweepIdle | src/org/bestever/bebot/Bot.java:983-995 | the snapshot loop stops exactly the idle unprotected servers and leaves the others |
| LegacyBot.Bot.KillEach | src/org/bestever/bebot/Bot.java:987-993 | every server of the snapshot is stopped and removed in turn |
| LegacyBot.Bot.KillStep | src/org/bestever/bebot/Bot.java:988-993 | one server: stop message hidden, being killed, auto-restart off, removed from the list |
| LegacyBot.Bot.ToggleAutoRestart | src/org/bestever/bebot/Bot.java:342-362 | MODERATOR only; with a numeric port the first server on it has its auto-restart negated and the new value reported, every other server untouched; an unknown port throws |
| LegacyBot.Bot.ProtectServer | src/org/bestever/bebot/Bot.java:369-389 | MODERATOR only; with a numeric port the first server on it has its protection negated and the new value reported, every other server untouched; an unknown port throws |
| LegacyBot.Bot.Terminate | src/org/bestever/bebot/Bot.java:1294-1321 | OPERATOR only; the call follows the confirmation counter step and touches nothing else |
| LegacyServerProcess.RunCommandShape | src/org/bestever/bebot/ServerProcess.java:127-226 | argv has odd length and starts with the version's path, "-port" with temp_port (or the bot's minimum port when it is 0), then "+exec" with global.cfg |
| LegacyServerProcess.SecretsLast | src/org/bestever/bebot/ServerProcess.java:209-212 | the last four pairs set the rcon password to server_id and key the ban, admin and whitelist files by server_id |
| LegacyServerProcess.SkillArgument | src/org/bestever/bebot/ServerProcess.java:179 | skill is passed as 3 when it is -1 and as itself otherwise |
| LegacyServerProcess.FlagArgument | src/org/bestever/bebot/ServerProcess.java:184-197 | a flag pair is in argv exactly when its value is positive, carrying the value's decimal text |
| LegacyServerProcess.FileArgsSpec | src/org/bestever/bebot/ServerProcess.java:159-167 | one "-file" pair per wad, in order, from the iwad directory for an iwad and the wad directory otherwise |
| LegacyServerProcess.OptFileArgsOptions | src/org/bestever/bebot/ServerProcess.java:172-177 | every optional wad is passed with "-optfile" |
| LegacyServerProcess.NoCooperativeReset | src/org/bestever/bebot/ServerProcess.java:181-182 | no ("+cooperative", " 0") reset is ever passed: a "+cooperative" pair appears only as the game mode itself |
| LegacyServerProcess.TakePort | src/org/bestever/bebot/ServerProcess.java:297-310 | a numeric port text sets the port and nothing is said; any other text keeps the port and reports the parsing warning |
| LegacyServerProcess.PortStage | src/org/bestever/bebot/ServerProcess.java:295-311 | corrected half of Findings row 7: the bind-failure notice is read with the port the line names; the port notices touch neither the rcon password nor the activity time, and never register the server |
| LegacyServerProcess.PortStageAsWritten | src/org/bestever/bebot/ServerProcess.java:295-311 | as written, the bind-failure notice deletes a prefix built from run()'s previous port text; on every other line it agrees with the corrected stage |
| LegacyServerProcess.BindNoticeAsWrittenKeepsPort | src/org/bestever/bebot/ServerProcess.java:304-311 | as-written half of Findings row 7: a first bind-failure notice keeps the old port, sends warning [2], and the start notice then announces the old port |
| LegacyServerProcess.BindNoticeSetsPort | src/org/bestever/bebot/ServerProcess.java:304-311 | corrected half of Findings row 7: the notice sets the port it names, with no warning, and the start notice announces that port |
| LegacyServerProcess.BanStage | src/org/bestever/bebot/ServerProcess.java:335-340 | a CONNECTION line whose last word splits to nothing throws; otherwise an addban is sent only for a CONNECTION line whose address (the last word before ':') is banned, with the ban's entry and the fixed reason |
| LegacyServerProcess.IndexOfFrom | src/org/bestever/bebot/ServerProcess.java:344 | String.indexOf(str, from) gives -1 or a position at or after from where the text occurs |
| LegacyServerProcess.ChatRelay | src/org/bestever/bebot/ServerProcess.java:342-352 | corrected: the relay only says relayed chat, and only for a CHAT line holding ':' while relaying is on |
| LegacyServerProcess.ChatRelayAsWrittenNeverFires | src/org/bestever/bebot/ServerProcess.java:342-352 | as written the relay condition ircIndex == 1 never holds, so no chat line is ever relayed |
| LegacyServerProcess.ChatRelayFires | src/org/bestever/bebot/ServerProcess.java:342-352 | corrected: a "CHAT name: !irc text" line is relayed as "port \| CHAT name:!irc text" |
| LegacyServerProcess.RconStage | src/org/bestever/bebot/ServerProcess.java:354-360 | the rcon echo changes only the stored rcon password |
| LegacyServerProcess.WordStage | src/org/bestever/bebot/ServerProcess.java:334-364 | corrected (Findings row 6): the word checks send console commands or chat only, never touch the port, and a line that throws changes nothing |
| LegacyServerProcess.RegisterOnlyOnStart | src/org/bestever/bebot/ServerProcess.java:313-318 | the server is added to the list and to its version's list exactly on a "UDP Initialized." line, ignoring case |
| LegacyServerProcess.SpacesOnlyLineThrows | src/org/bestever/bebot/ServerProcess.java:293-335 | a line of spaces splits to no words, so reading its first word throws and the line changes nothing |
| LegacyServerProcess.RconEcho | src/org/bestever/bebot/ServerProcess.java:355-357 | a "-> sv_rconpassword X ..." echo stores X as the rcon password |
| LegacyServerProcess.ActivityOnlyOnJoinOrLeave | src/org/bestever/bebot/ServerProcess.java:362-364 | the activity time moves to now exactly on lines ending "has connected." or "disconnected." |
| LegacyServerProcess.RestartCheck | src/org/bestever/bebot/ServerProcess.java:403-409 | corrected: the restart check never throws |
| LegacyServerProcess.RestartAsWrittenNeverRestarts | src/org/bestever/bebot/ServerProcess.java:400-412 | as written, with cfg_data null, the check throws on every path: the condition reads max_restarts once auto-restart is on and the port is set, and the else branch's debug text reads it otherwise; no server is restarted |
| LegacyServerProcess.RestartAsWrittenWithConfig | src/org/bestever/bebot/ServerProcess.java:400-412 | had cfg_data been set, the check as written would restart exactly as the corrected check does |
| LegacyServerProcess.RestartDiffers | src/org/bestever/bebot/ServerProcess.java:404-409 | the server on port 10666 throws as written whether auto-restart is on or off, while the corrected check restarts it when on and passes quietly when off |
| LegacyServerProcess.RestartWithinLimit | src/org/bestever/bebot/ServerProcess.java:404-407 | a restart happens exactly when auto-restart is on, the port is set and fewer than max_restarts restarts were made, and then on the same port without exceeding the limit |
| LegacyServerProcess.Process.constructor | src/org/bestever/bebot/ServerProcess.java:60-74 | a new process has no run command, no port text, no restarts and is not running |
| LegacyServerProcess.Process.AddParameter | src/org/bestever/bebot/ServerProcess.java:223-226 | appends exactly the parameter and its argument |
| LegacyServerProcess.Process.AddPort | src/org/bestever/bebot/ServerProcess.java:131-134 | appends "-port" with temp_port, or the minimum port when it is 0 |
| LegacyServerProcess.Process.AddIwad | src/org/bestever/bebot/ServerProcess.java:145-146 | appends "-iwad" with the iwad path only when an iwad is set |
| LegacyServerProcess.Process.AddOpening | src/org/bestever/bebot/ServerProcess.java:127-146 | appends the port, the global.cfg, the wad page and the iwad pairs |
| LegacyServerProcess.Process.AddFiles | src/org/bestever/bebot/ServerProcess.java:159-167 | the loop appends one "-file" pair per wad in order |
| LegacyServerProcess.Process.AddConfig | src/org/bestever/bebot/ServerProcess.java:169-170 | appends the user config "+exec" only when a config is set |
| LegacyServerProcess.Process.AddOptFiles | src/org/bestever/bebot/ServerProcess.java:172-177 | the loop appends one "-optfile" pair per optional wad in order |
| LegacyServerProcess.Process.AddModeArgs | src/org/bestever/bebot/ServerProcess.java:179-182 | appends the skill and, when a game mode is set, that mode with " 1" |
| LegacyServerProcess.Process.AddFlag | src/org/bestever/bebot/ServerProcess.java:184-185 | appends the flag only when its value is positive |
| LegacyServerProcess.Process.AddFlags | src/org/bestever/bebot/ServerProcess.java:184-197 | appends the five flags in order, each only when positive |
| LegacyServerProcess.Process.AddSwitch | src/org/bestever/bebot/ServerProcess.java:199-200 | appends a switch with "1" only when it is on |
| LegacyServerProcess.Process.AddSwitches | src/org/bestever/bebot/ServerProcess.java:199-206 | appends instagib, buckshot and the branded hostname as set |
| LegacyServerProcess.Process.AddGameArgs | src/org/bestever/bebot/ServerProcess.java:172-206 | appends the optional wads, mode, flags and switches in order |
| LegacyServerProcess.Process.AddSecrets | src/org/bestever/bebot/ServerProcess.java:209-212 | appends the rcon password and the three per-server list files |
| LegacyServerProcess.Process.AddWadsAndConfig | src/org/bestever/bebot/ServerProcess.java:159-170 | appends the wad files and the user config |
| LegacyServerProcess.Process.AddTail | src/org/bestever/bebot/ServerProcess.java:172-212 | appends everything after the user config |
| LegacyServerProcess.Process.BuildCommand | src/org/bestever/bebot/ServerProcess.java:121-213 | the run command is exactly the specified argument vector over a duplicate-free wad list holding exactly the startup wads |
| LegacyServerProcess.Process.ProcessServerRunCommand | src/org/bestever/bebot/ServerProcess.java:121-216 | builds the run command, stores the cleaned wad list on the server and sets the rcon password to server_id, changing no other server field |
| LegacyServerProcess.Process.Start | src/org/bestever/bebot/ServerProcess.java:241-242 | the start time and the last activity are both the current time |
| LegacyServerProcess.Process.HandlePort | src/org/bestever/bebot/ServerProcess.java:294-311 | the port notices update the server as the corrected port stage specifies (Findings row 7) |
| LegacyServerProcess.Process.HandleWords | src/org/bestever/bebot/ServerProcess.java:334-364 | corrected (Findings row 6): the ban, chat, rcon and activity checks update the server as the word stage specifies |
| LegacyServerProcess.Process.HandleStart | src/org/bestever/bebot/ServerProcess.java:313-332 | on "UDP Initialized." the server joins the list and its version's list; an uncatalogued version throws after the first add |
| LegacyServerProcess.Process.HandleLine | src/org/bestever/bebot/ServerProcess.java:292-364 | one line of output updates the server, the bot's list and the per-version lists exactly as the line step specifies, with the bind-failure notice read the corrected way (Findings row 7) and chat relayed the corrected way (Findings row 6) |
| LegacyServerProcess.Process.EndOfOutput | src/org/bestever/bebot/ServerProcess.java:379-412 | the stopped, crashed or not-started outcome follows the flags, the server leaves the list, and a restart (by the corrected check) counts one more restart and keeps the port as temp_port |
| LegacyServerProcess.Process.TerminateServer | src/org/bestever/bebot/ServerProcess.java:88-103 | the server leaves the bot's list first, and the process is no longer running |
| ServerProcess.RunCommandShape | src/main/java/org/bestever/bebot/ServerProcess.java:132-253 | argv starts with the version's path, has odd length and ends with the pair ("-host", "") |
| ServerProcess.EndsWithHost | src/main/java/org/bestever/bebot/ServerProcess.java:236-238 | whatever comes before the website pair, the flattened vector ends with "-host" and an empty argument |
| ServerProcess.OpeningFirst | src/main/java/org/bestever/bebot/ServerProcess.java:132-147 | the opening pairs come first in the vector, unchanged |
| ServerProcess.OpeningOrder | src/main/java/org/bestever/bebot/ServerProcess.java:137-217 | "-owner" then "-port" (temp_port, or the minimum port when it is 0) then the global.cfg "+exec"; a user config's "+exec" comes later |
| ServerProcess.SkillArgument | src/main/java/org/bestever/bebot/ServerProcess.java:186 | skill is passed as 3 when it is -1 and as itself otherwise |
| ServerProcess.FlagArgument | src/main/java/org/bestever/bebot/ServerProcess.java:195-208 | a flag pair is in argv exactly when its value is positive, carrying the value's decimal text |
| ServerProcess.CooperativeAlwaysReset | src/main/java/org/bestever/bebot/ServerProcess.java:188-193 | with a game mode set, ("+cooperative", " 0") is always passed before the mode's own pair, since the condition is always true; no game mode passes nothing |
| ServerProcess.FileArgsSpec | src/main/java/org/bestever/bebot/ServerProcess.java:167-174 | a "-file" pair is in argv exactly when it comes from one of the wads: an iwad from the iwad directory, a non-blank wad from the wad directory, a blank one not at all |
| ServerProcess.PasswordArguments | src/main/java/org/bestever/bebot/ServerProcess.java:223-225 | the rcon password is passed as sv_rconpassword and the server password as both sv_password and sv_joinpassword |
| ServerProcess.TakePort | src/main/java/org/bestever/bebot/ServerProcess.java:333-345 | a port text touches only the port, and never registers the server |
| ServerProcess.PortStage | src/main/java/org/bestever/bebot/ServerProcess.java:332-346 | corrected half of Findings row 5: the bind-failure notice is read with the port the line names; the port notices touch only the port and never register the server |
| ServerProcess.AddressStage | src/main/java/org/bestever/bebot/ServerProcess.java:347-349 | the "Bound to IP: " notice touches only the address |
| ServerProcess.SentinelStage | src/main/java/org/bestever/bebot/ServerProcess.java:351-367 | the sentinel handling touches only the recovering flag and registers the server exactly on the sentinel line, ignoring case |
| ServerProcess.HostnameStage | src/main/java/org/bestever/bebot/ServerProcess.java:433-448 | the hostname echo touches only the server name and never registers the server |
| ServerProcess.WithPassword | src/main/java/org/bestever/bebot/ServerProcess.java:455-487 | the echoed value is stored as the password before any check |
| ServerProcess.PasswordStage | src/main/java/org/bestever/bebot/ServerProcess.java:451-496 | a password echo touches only that password |
| ServerProcess.Notices | src/main/java/org/bestever/bebot/ServerProcess.java:332-367 | the notices (with the corrected bind-failure reading of Findings row 5) leave the options, passwords and activity time alone, and register the server exactly on the sentinel |
| ServerProcess.Echoes | src/main/java/org/bestever/bebot/ServerProcess.java:370-496 | the player and echo checks leave the port, address, activity time and recovering flag alone and never register the server |
| ServerProcess.DeleteThroughFront | src/main/java/org/bestever/bebot/ServerProcess.java:333 | deleting the alternate-port prefix and the dot leaves the digits between them |
| ServerProcess.DeleteThroughMisses | src/main/java/org/bestever/bebot/ServerProcess.java:341 | a replace whose target is absent leaves the text starting as it did |
| ServerProcess.AlternatePortNotice | src/main/java/org/bestever/bebot/ServerProcess.java:332-335 | "using alternate port N." sets the port to N |
| ServerProcess.NonIntegerPortKept | src/main/java/org/bestever/bebot/ServerProcess.java:334-345 | a port text that is not an integer keeps the port and reports the parsing warning |
| ServerProcess.BindNoticeAsWrittenMisses | src/main/java/org/bestever/bebot/ServerProcess.java:340-345 | as written: on a bind notice after no alternate port notice the replace target holds the empty port text, nothing is removed and the port is never read |
| ServerProcess.BindNoticeReadsNewPort | src/main/java/org/bestever/bebot/ServerProcess.java:340-345 | corrected: "Couldn't bind to N1. Binding to N2 instead..." gives the port N2 |
| ServerProcess.SentinelRegisters | src/main/java/org/bestever/bebot/ServerProcess.java:351-367 | the server is registered exactly on the sentinel; the start is announced only when not recovering; recovering is cleared by the sentinel and kept otherwise |
| ServerProcess.PasswordEcho | src/main/java/org/bestever/bebot/ServerProcess.java:451-496 | an echoed password is stored, a non-blank one shorter than 5 characters is reported as too short, and a change is announced exactly for a non-blank value of 5 or more that differs from the old one |
| ServerProcess.BanCheck | src/main/java/org/bestever/bebot/ServerProcess.java:370-429 | an addban is written exactly when a player line matched, the address is not whitelisted and it is banned |
| ServerProcess.ActivityOnlyOnJoin | src/main/java/org/bestever/bebot/ServerProcess.java:499-500 | the activity time moves to now exactly on lines ending "joined the game." |
| ServerProcess.EndOfStreamCases | src/main/java/org/bestever/bebot/ServerProcess.java:515-540 | quiet when the stop message is hidden or a recovering server never got a port; crashed when a started server was not being killed; failed to start when no port and not recovering; stopped (by owner or not) when a started server was being killed |
| ServerProcess.StartupWadList | src/main/java/org/bestever/bebot/ServerProcess.java:155-164 | the wad list holds no duplicates and exactly the data wads (when enabled), the server's wads and the extra wads; the earlier thread builds its list the same way (src/org ServerProcess.java lines 148-157) and uses this method |
| ServerProcess.Process.constructor | src/main/java/org/bestever/bebot/ServerProcess.java:126-129 | a new process has no run command, no port text and is not running |
| ServerProcess.Process.AddParameter | src/main/java/org/bestever/bebot/ServerProcess.java:250-253 | appends exactly the parameter and its argument |
| ServerProcess.Process.AddPort | src/main/java/org/bestever/bebot/ServerProcess.java:141-144 | appends "-port" with temp_port, or the minimum port when it is 0 |
| ServerProcess.Process.AddOpening | src/main/java/org/bestever/bebot/ServerProcess.java:132-153 | appends the crash-out, owner, port, global.cfg, masters and iwad pairs |
| ServerProcess.Process.AddFile | src/main/java/org/bestever/bebot/ServerProcess.java:169-172 | an iwad gets a "-file" pair from the iwad directory, any other non-blank wad one from the wad directory, and a blank name none |
| ServerProcess.Process.AddFiles | src/main/java/org/bestever/bebot/ServerProcess.java:167-174 | the loop appends the "-file" pairs of the wads in order |
| ServerProcess.Process.AddOptFiles | src/main/java/org/bestever/bebot/ServerProcess.java:177-181 | the loop appends one "-optfile" pair per optional wad in order |
| ServerProcess.Process.AddFlag | src/main/java/org/bestever/bebot/ServerProcess.java:195-196 | appends the flag only when its value is positive |
| ServerProcess.Process.AddFlags | src/main/java/org/bestever/bebot/ServerProcess.java:195-208 | appends the five flags in order, each only when positive |
| ServerProcess.Process.AddGamemode | src/main/java/org/bestever/bebot/ServerProcess.java:188-193 | appends the cooperative reset and the mode's pair when a mode is set |
| ServerProcess.Process.AddModeArgs | src/main/java/org/bestever/bebot/ServerProcess.java:183-193 | appends the map, the skill and the game mode pairs |
| ServerProcess.Process.AddSwitches | src/main/java/org/bestever/bebot/ServerProcess.java:210-220 | appends instagib, buckshot, the user config and the branded hostname as set |
| ServerProcess.Process.AddGameArgs | src/main/java/org/bestever/bebot/ServerProcess.java:183-220 | appends the mode, flags and switches in order |
| ServerProcess.Process.AddSecrets | src/main/java/org/bestever/bebot/ServerProcess.java:223-228 | appends the three passwords and the three per-owner list files |
| ServerProcess.Process.ProcessServerRunCommand | src/main/java/org/bestever/bebot/ServerProcess.java:126-243 | the run command is the specified vector over a duplicate-free wad list holding exactly the startup wads; the stored wads add the optional wads without duplicates; join and connect passwords become the server password; nothing else on the server changes |
| ServerProcess.Process.BuildCommand | src/main/java/org/bestever/bebot/ServerProcess.java:126-238 | the vector is built exactly as specified, with the wad page keyed by the duplicate-free union of the file and optional wads |
| ServerProcess.Process.AddBody | src/main/java/org/bestever/bebot/ServerProcess.java:167-228 | appends the file, optional file, game and secret pairs in order |
| ServerProcess.Process.Start | src/main/java/org/bestever/bebot/ServerProcess.java:270-271 | the start time and the last activity are both the current time |
| ServerProcess.Process.HandlePort | src/main/java/org/bestever/bebot/ServerProcess.java:332-346 | the port notices update the server as the corrected port stage specifies (Findings row 5) |
| ServerProcess.Process.HandleSentinel | src/main/java/org/bestever/bebot/ServerProcess.java:351-367 | on the sentinel the server joins the list; the rest follows the sentinel stage |
| ServerProcess.Process.HandlePassword | src/main/java/org/bestever/bebot/ServerProcess.java:451-496 | a password echo updates the server as the password stage specifies |
| ServerProcess.Process.HandleHostname | src/main/java/org/bestever/bebot/ServerProcess.java:433-448 | the hostname echo updates the server as the hostname stage specifies |
| ServerProcess.Process.HandleNotices | src/main/java/org/bestever/bebot/ServerProcess.java:332-367 | the notices update the server and the list as specified, with the corrected bind-failure reading (Findings row 5) |
| ServerProcess.Process.HandleEchoes | src/main/java/org/bestever/bebot/ServerProcess.java:370-496 | the player and echo checks update the server as specified |
| ServerProcess.Process.HandleLine | src/main/java/org/bestever/bebot/ServerProcess.java:327-500 | one line, stripped through its first ']' and trimmed, updates the server and the list exactly as the line step specifies, with the bind-failure notice read the corrected way (Findings row 5) |
| ServerProcess.Process.EndOfOutput | src/main/java/org/bestever/bebot/ServerProcess.java:507-543 | the outcome follows the flags and the server leaves the list, whatever the outcome |
| ServerProcess.Process.TerminateServer | src/main/java/org/bestever/bebot/ServerProcess.java:102-117 | the server leaves the list first, and the process is no longer running |
| ZandronumServer.HandleSkill | src/main/java/org/bestever/bebot/Server.java:614-620 | a skill is accepted exactly when it parses as an integer from 0 to 4, and is then that integer; anything else yields -1 |
| ZandronumServer.HandleGameFlags | src/main/java/org/bestever/bebot/Server.java:838-848 | a negative number yields FLAGS_ERROR, a non-negative number is returned as is, and text that is not a number yields 0; no accepted value is negative |
| ZandronumServer.GetIwadNames | src/main/java/org/bestever/bebot/Server.java:673-749 | every name getIwad returns is one of the supported IWAD file names |
| ZandronumServer.IwadNamesFixed | src/main/java/org/bestever/bebot/Server.java:673-749 | each supported IWAD file name maps to itself |
| ZandronumServer.GetIwadIdempotent | src/main/java/org/bestever/bebot/Server.java:673-749 | resolving an already resolved IWAD name gives the same name again |
| ZandronumServer.IwadNamesLower | src/main/java/org/bestever/bebot/Server.java:673-749 | every supported IWAD file name is lower case |
| ZandronumServer.GetGamemodeNames | src/main/java/org/bestever/bebot/Server.java:756-814 | getGamemode always yields one of the supported game modes, and an unknown alias yields cooperative |
| ZandronumServer.UnknownGamemode | src/main/java/org/bestever/bebot/Server.java:811-813 | a keyword outside the alias table falls back to cooperative |
| ZandronumServer.GameModesFixed | src/main/java/org/bestever/bebot/Server.java:756-814 | each game mode name maps to itself, except teamplay, which the table maps to cooperative |
| ZandronumServer.GameModesLower | src/main/java/org/bestever/bebot/Server.java:756-814 | every game mode name is lower case |
| ZandronumServer.AliasesIgnoreCase | src/main/java/org/bestever/bebot/Server.java:673-831 | handleTrue, getIwad and getGamemode give the same answer for keywords that differ only in letter case |
| ZandronumServer.GetIwadIsIwad | src/main/java/org/bestever/bebot/Server.java:639-666 | every IWAD that getIwad can return passes isIwad, except plutonia.wad, which isIwad does not list |
| ZandronumServer.WadList | src/main/java/org/bestever/bebot/Server.java:627-632 | addWads yields one entry per comma-separated piece, and no entry contains a comma |
| ZandronumServer.LowerTrimNoComma | src/main/java/org/bestever/bebot/Server.java:630-631 | each piece is trimmed and lower-cased and still holds no comma |
| ZandronumServer.AddWads | src/main/java/org/bestever/bebot/Server.java:627-632 | the fresh array holds exactly the trimmed, lower-cased comma-separated pieces, in order |
| ZandronumServer.AddAbsentSpec | src/main/java/org/bestever/bebot/Server.java:427-431 | adding optional wads keeps the existing list as a prefix, holds exactly the old and the new names, and adds no duplicate to a list without duplicates |
| ZandronumServer.AddOptionalWads | src/main/java/org/bestever/bebot/Server.java:427-431 | the loop appends each new optional wad that is not already in the list, in order |
| ZandronumServer.FoldCons | src/main/java/org/bestever/bebot/Server.java:304-436 | the key=value matches are handled one at a time, and the first refused option ends host handling with its error |
| ZandronumServer.FoldAppend | src/main/java/org/bestever/bebot/Server.java:304-436 | handling two runs of matches in a row is the same as handling their concatenation, and an error in the first run stops everything |
| ZandronumServer.HostnameOption | src/main/java/org/bestever/bebot/Server.java:373-375 | hostname=... sets the server name to the given value and changes nothing else |
| ZandronumServer.FoldOne | src/main/java/org/bestever/bebot/Server.java:304-436 | a single match is handled exactly as its own option |
| ZandronumServer.LastHostnameWins | src/main/java/org/bestever/bebot/Server.java:373-375 | when hostname is given twice, the later value is the one that stays |
| ZandronumServer.PortOption | src/main/java/org/bestever/bebot/Server.java:388-399 | port=... is accepted exactly when the port is valid and no server is on it yet, and then sets the requested port |
| ZandronumServer.SkillOption | src/main/java/org/bestever/bebot/Server.java:400-406 | skill=... is accepted exactly when the value is an integer from 0 to 4, and then sets the skill |
| ZandronumServer.ZacompatflagsAsWrittenStoresError | src/main/java/org/bestever/bebot/Server.java:331-337 | the zacompatflags case as written stores FLAGS_ERROR for a negative value instead of refusing it, because it tests compatflags; the corrected case refuses it |
| ZandronumServer.ZacompatflagsAsWrittenNeverRefuses | src/main/java/org/bestever/bebot/Server.java:331-337 | as written, zacompatflags never refuses a value while compatflags holds a valid setting |
| ZandronumServer.ZacompatflagsStoredValid | src/main/java/org/bestever/bebot/Server.java:331-337 | with the corrected check, an accepted zacompatflags setting is never negative |
| ZandronumServer.ResolveFromSpec | src/main/java/org/bestever/bebot/Server.java:438-456 | the wad check succeeds exactly when every wad resolves; it then keeps the list length and replaces each wad by its resolved name, and otherwise reports the first wad that fails |
| ZandronumServer.ResolvedFileExists | src/main/java/org/bestever/bebot/Server.java:441-454 | a resolved wad names an existing file: in the wad directory, or for an iwad: entry in the IWAD directory without the prefix |
| ZandronumServer.FirstMissing | src/main/java/org/bestever/bebot/Server.java:458-466 | no optional wad is missing exactly when every optional wad exists; a reported one is in the list and absent from the wad directory |
| ZandronumServer.FinishSucceeds | src/main/java/org/bestever/bebot/Server.java:438-507 | a server that passes the final checks has an IWAD, a name and a game mode, a free port unless recovering, only wads that exist, and a server id split into rcon password (first half) and join password (second half); a given id is kept |
| ZandronumServer.ResolvedWadsExist | src/main/java/org/bestever/bebot/Server.java:438-456 | after a successful wad check every wad of the server exists in the wad or the IWAD directory |
| ZandronumServer.MissingGamemodeIsCooperative | src/main/java/org/bestever/bebot/Server.java:473-477 | a host command without a game mode hosts a cooperative server |
| ZandronumServer.Server.ApplyOption | src/main/java/org/bestever/bebot/Server.java:305-435 | corrected (Findings row 1): handling one key=value updates the server's options exactly as the option's specification says, or returns its error; who asked for the server is unchanged |
| ZandronumServer.Server.ApplyPlainOption | src/main/java/org/bestever/bebot/Server.java:306-387 | the options that cannot fail (switches, skulltag data, game mode, hostname, iwad, map and mapwad; any other key is ignored) set their field as specified |
| ZandronumServer.Server.ApplyFlagsOption | src/main/java/org/bestever/bebot/Server.java:324-369 | corrected (Findings row 1): the flag options set their field or return the bad-flags error as specified |
| ZandronumServer.Server.ApplyCheckedOption | src/main/java/org/bestever/bebot/Server.java:338-406 | version, config, port and skill set their field or return their error (an unknown version, a missing config file, an invalid or used port, a skill outside 0 to 4) as specified |
| ZandronumServer.Server.ApplyWadOption | src/main/java/org/bestever/bebot/Server.java:407-434 | wad and optional-wad options extend their lists or return the hash-check error as specified |
| ZandronumServer.Server.ApplyOptions | src/main/java/org/bestever/bebot/Server.java:304-436 | corrected (Findings row 1): the option loop leaves the options as the fold over all matches says, or stops with the first error |
| ZandronumServer.Server.ResolveWads | src/main/java/org/bestever/bebot/Server.java:438-456 | the wad loop replaces the wad list by its resolved form or returns the first failure, and changes nothing else |
| ZandronumServer.Server.MissingOptionalWad | src/main/java/org/bestever/bebot/Server.java:458-466 | the optional-wad loop reports the first optional wad that does not exist |
| ZandronumServer.Server.CheckFiles | src/main/java/org/bestever/bebot/Server.java:438-466 | both file checks run in order: a wad failure first, then a missing optional wad; otherwise only the wad list changes |
| ZandronumServer.Server.Complete | src/main/java/org/bestever/bebot/Server.java:438-507 | the checks after the option loop leave the server as the specification of the final steps says, or return their error |
| ZandronumServer.Server.SettleFields | src/main/java/org/bestever/bebot/Server.java:468-489 | missing IWAD or hostname and a full port range are refused; a missing game mode becomes cooperative |
| ZandronumServer.Server.AssignId | src/main/java/org/bestever/bebot/Server.java:491-507 | the server id is the given one or a generated hash (whose failure is an error), and is split into rcon and join passwords |
| ZandronumServer.Server.GetFieldKnown | src/main/java/org/bestever/bebot/Server.java:856-910 | getField answers "not a supported keyword" exactly for keywords outside its table |
| ZandronumServer.Server.GetFieldNamesField | src/main/java/org/bestever/bebot/Server.java:856-910 | for a supported keyword the answer starts with the field's label and ends with the field's value |
| ZandronumServer.FieldLabelLower | src/main/java/org/bestever/bebot/Server.java:856-910 | every label getField prints is a non-empty word starting with a lower-case letter |
| ZandronumServer.HandleHostCommand | src/main/java/org/bestever/bebot/Server.java:268-521 | corrected (Findings row 1): handleHostCommand returns a new server exactly when the host specification succeeds, holding the record it describes, and otherwise returns the specification's error |
| OdamexServer.FlattenPaired | bot/src/main/java/org/bestever/bebot/Server.java:147-162 | a list of well-formed settings flattens into a command list of name, value pairs, twice as long |
| OdamexServer.CommandsPaired | bot/src/main/java/org/bestever/bebot/Server.java:147-162 | every game mode's command list alternates a +variable name with its value |
| OdamexServer.GetGamemode | bot/src/main/java/org/bestever/bebot/Server.java:684-719 | a game mode keyword is accepted exactly when its lower-cased form is one of the aliases, and is refused with the unknown-game-mode error otherwise |
| OdamexServer.GetGamemodeKeyword | bot/src/main/java/org/bestever/bebot/Server.java:684-719 | each game mode's own keyword selects that game mode |
| OdamexServer.GetGamemodeAliases | bot/src/main/java/org/bestever/bebot/Server.java:688-712 | domination selects COOP, and ffa, dm and deathmatch select DM |
| OdamexServer.HandleSkill | bot/src/main/java/org/bestever/bebot/Server.java:542-548 | a skill is accepted exactly when it is an integer from 0 to 4; 0 selects DEFAULT (number -1), 1 to 4 the skill of that number, never NIGHTMARE; anything else is refused |
| OdamexServer.SkillZeroIsDefault | bot/src/main/java/org/bestever/bebot/Server.java:542-548 | skill 0 selects the default skill |
| OdamexServer.ArgumentNamesDistinct | bot/src/main/java/org/bestever/bebot/Server.java:199-247 | no two flags share an argument name |
| OdamexServer.OdamexNamesDistinct | bot/src/main/java/org/bestever/bebot/Server.java:199-247 | no two flags share an Odamex variable name |
| OdamexServer.AllFlagsComplete | bot/src/main/java/org/bestever/bebot/Server.java:199-247 | the list of flags that getFlag searches holds every flag |
| OdamexServer.FindFlag | bot/src/main/java/org/bestever/bebot/Server.java:443-449 | the search finds a listed flag whose argument name equals the name ignoring case, and finds nothing exactly when no listed flag has such a name |
| OdamexServer.GetFlagSpec | bot/src/main/java/org/bestever/bebot/Server.java:443-449 | getFlag succeeds exactly when the key without its first character names a flag ignoring case, and then returns that flag; otherwise it reports the unknown flag name |
| OdamexServer.GetFlagOfArgumentName | bot/src/main/java/org/bestever/bebot/Server.java:443-449 | a key made of any one character followed by a flag's argument name finds a flag |
| OdamexServer.HandleTrueAcceptsOne | bot/src/main/java/org/bestever/bebot/Server.java:726-731 | this generation's handleTrue accepts exactly what the Zandronum handler's accepts, plus "1" |
| OdamexServer.NonEmpty | bot/src/main/java/org/bestever/bebot/Server.java:555-560 | the filter drops exactly the empty pieces and keeps the others |
| OdamexServer.AddWads | bot/src/main/java/org/bestever/bebot/Server.java:555-560 | addWads yields exactly the non-empty trimmed, lower-cased comma-separated pieces, none of them empty or holding a comma |
| OdamexServer.FoldAppend | bot/src/main/java/org/bestever/bebot/Server.java:316-385 | handling two runs of entries in a row is the same as handling their concatenation, and an error in the first run stops everything |
| OdamexServer.FoldOne | bot/src/main/java/org/bestever/bebot/Server.java:316-385 | a single entry is handled exactly as its own option |
| OdamexServer.UnknownGamemodeRefuses | bot/src/main/java/org/bestever/bebot/Server.java:684-719 | an unknown game mode anywhere after accepted options refuses the whole host command |
| OdamexServer.CapitalisedKeyIsFlag | bot/src/main/java/org/bestever/bebot/Server.java:319-376 | the key switch compares exactly: "Hostname" is not the hostname option but the unknown flag "ostname" |
| OdamexServer.ArgumentNameLength | bot/src/main/java/org/bestever/bebot/Server.java:199-247 | every flag's argument name has at least eight characters |
| OdamexServer.ShortKeyNamesNoFlag | bot/src/main/java/org/bestever/bebot/Server.java:443-449 | a key of at most eight characters never names a flag |
| OdamexServer.ApplyFrame | bot/src/main/java/org/bestever/bebot/Server.java:316-385 | an accepted option never removes flags from either set, and only the iwad option changes the IWAD |
| OdamexServer.FlagFrame | bot/src/main/java/org/bestever/bebot/Server.java:376-383 | a flag option only adds to the flag sets and leaves the IWAD alone |
| OdamexServer.FoldKeepsFlags | bot/src/main/java/org/bestever/bebot/Server.java:316-385 | the option loop only ever adds to the sets of flags to turn on and off |
| OdamexServer.OnThenOff | bot/src/main/java/org/bestever/bebot/Server.java:376-383 | a flag given on and then off ends up in both sets, since nothing removes it from the first |
| OdamexServer.FinishSucceeds | bot/src/main/java/org/bestever/bebot/Server.java:387-432 | a server that passes the final checks has an IWAD and a name, a free port unless recovering, only wads that exist, and a server id split into rcon password (first half) and join password (second half); a given id is kept |
| OdamexServer.NoIwadNoServer | bot/src/main/java/org/bestever/bebot/Server.java:406-408 | a host command without an iwad option is always refused |
| OdamexServer.NoIwadFold | bot/src/main/java/org/bestever/bebot/Server.java:316-385 | entries without an iwad key leave the IWAD as it was |
| OdamexServer.Server.ApplyOption | bot/src/main/java/org/bestever/bebot/Server.java:316-385 | handling one entry updates the server exactly as the option's specification says, or returns its error; who asked is unchanged |
| OdamexServer.Server.ApplyPlainOption | bot/src/main/java/org/bestever/bebot/Server.java:320-342 | autorestart, hostname, iwad and maps set their field as specified |
| OdamexServer.Server.ApplyCheckedOption | bot/src/main/java/org/bestever/bebot/Server.java:323-369 | version, config, game mode, port and skill set their field or return their error as specified |
| OdamexServer.Server.ApplyWadOption | bot/src/main/java/org/bestever/bebot/Server.java:343-375 | mapwad and wad options extend the wad and map lists or return their error as specified |
| OdamexServer.Server.ApplyFlagOption | bot/src/main/java/org/bestever/bebot/Server.java:376-383 | a flag option adds the flag to the on or the off set, or reports the unknown flag |
| OdamexServer.Server.ApplyOptions | bot/src/main/java/org/bestever/bebot/Server.java:316-385 | the option loop leaves the server as the fold over all entries says, or stops with the first error |
| OdamexServer.Server.CheckWads | bot/src/main/java/org/bestever/bebot/Server.java:387-403 | the wad loop replaces the wad list by its resolved form or returns the first failure, and changes nothing else |
| OdamexServer.Server.Complete | bot/src/main/java/org/bestever/bebot/Server.java:387-432 | the checks after the option loop leave the server as the specification of the final steps says, or return their error |
| OdamexServer.HandleHostCommand | bot/src/main/java/org/bestever/bebot/Server.java:293-441 | handleHostCommand yields a new server exactly when the host specification succeeds, holding the record it describes; otherwise it yields the specification's error: an invalid version is reported to the bot and the handler returns without a server, and every other error is the exception the handler throws |

## Left out

- Process and operating-system work is left out: starting the executable, reading its output stream, `kill -9`, log files, directory creation and thread start and sleep. Each line of output is handed to the per-line handler, and the end of the stream is a method call.
- Concurrency is left out. The registry, the query queue and the server threads are updated one call at a time, with no claim about interleavings.
- Regular expressions are not modelled. Every regex match is a caller-supplied function returning the optional capture; the `startsWith`, `replace` and `split` recognisers are modelled exactly.
- MySQL, IRC, Discord and HTTP are left out. Their answers are parameters, and chat messages are reduced to the outcome value that decides which message is sent, not their wording.
- `src/org/bestever/bebot/Server.java` is not part of this model. The earlier server record holds the fields that the earlier `Bot.java` and `ServerProcess.java` read and write.
- The earlier `Functions.java` (`isNumeric`, `implode`, `getUserName`) is not part of this model. `isNumeric` is read as `isInteger`, `implode` as joining with the separator, and `getUserName` is a parameter.
- `Functions.RemoveDuplicateWads`: the HashSet iteration order is not modelled. The result is stated to hold exactly the input's names without repeats, in some order.
- `Functions.GetFirstAvailablePort`: the socket probe is a predicate parameter.
- `generateHash` (MD5) is a given optional string; None stands for the missing digest algorithm.
- `OdamexServer.OdamexName` is defined as "sv_" followed by the argument name rather than spelled out for each of the 39 flags, so the enum's naming rule holds by construction and is not checked literal by literal.
- The `getField`, `loadServers` and `killServer` methods of `bot/ Server.java` are left out. `getField` is modelled for `src/main Server.java`; `loadServers` reads a database result set; `killServer` only forwards to the server process.
- `loadServers` of `src/main Server.java` reads a database result set and is left out.
- `Server.killServer` of `src/main`: the null and `isInitialized` checks on the server process are not modelled. A kill marks the server and takes it off the registry through `ServerProcess.Process.TerminateServer`.
- `Bot.Bot.ProcessKill`: the safety nets for a server whose process is null are not modelled, because in the model every listed server has a process.
- The earlier bot's `vSHashmap` keeps a stopped server in its version's list, as the code does, since only the main list is cleaned on removal.
- `LegacyServerProcess.Process.EndOfOutput` reports a restart as an outcome carrying the port. The `processHost` call it stands for is not performed, so the model does not say whether the restarted server inherits the restart count.
- `LegacyServerProcess.Process.EndOfOutput` runs the corrected restart check (Findings row 3); the check as written, which throws on every path while `cfg_data` is null, is `LegacyServerProcess.RestartAsWritten`.
- `ServerProcess.PortStage` reads the bind-failure notice the corrected way (Findings row 5); the as-written reading is `ServerProcess.BindPortTextAsWritten`.
- `ServerProcess.Notices` reads the bind-failure notice the corrected way (Findings row 5); the as-written reading is `ServerProcess.BindPortTextAsWritten`.
- `ServerProcess.Process.HandlePort` reads the bind-failure notice the corrected way (Findings row 5); the as-written reading is `ServerProcess.BindPortTextAsWritten`.
- `ServerProcess.Process.HandleNotices` reads the bind-failure notice the corrected way (Findings row 5); the as-written reading is `ServerProcess.BindPortTextAsWritten`.
- `ServerProcess.Process.HandleLine` reads the bind-failure notice the corrected way (Findings row 5); the as-written reading is `ServerProcess.BindPortTextAsWritten`.
- `LegacyServerProcess.Process.HandleLine` reads the bind-failure notice the corrected way (Findings row 7); the reading `run()` does is `LegacyServerProcess.PortStageAsWritten`.
- `ZandronumServer.FlagsCase` runs the corrected zacompatflags test (Findings row 1); the test as written is `ZandronumServer.ZacompatflagsAsWritten`. ApplyKey, Fold, Host and the lemmas about them inherit it.
- `ZandronumServer.Server.ApplyOption` runs the corrected zacompatflags test (Findings row 1); the test as written is `ZandronumServer.ZacompatflagsAsWritten`.
- `ZandronumServer.Server.ApplyFlagsOption` runs the corrected zacompatflags test (Findings row 1); the test as written is `ZandronumServer.ZacompatflagsAsWritten`.
- `ZandronumServer.Server.ApplyOptions` runs the corrected zacompatflags test (Findings row 1); the test as written is `ZandronumServer.ZacompatflagsAsWritten`.
- `ZandronumServer.HandleHostCommand` runs the corrected zacompatflags test (Findings row 1); the test as written is `ZandronumServer.ZacompatflagsAsWritten`.
- `LegacyServerProcess.WordStage` relays chat the corrected way (Findings row 6); the relay as written is `LegacyServerProcess.ChatRelayAsWritten`.
- `LegacyServerProcess.Process.HandleWords` relays chat the corrected way (Findings row 6); the relay as written is `LegacyServerProcess.ChatRelayAsWritten`.
- `LegacyServerProcess.Process.HandleLine` relays chat the corrected way (Findings row 6); the relay as written is `LegacyServerProcess.ChatRelayAsWritten`.
- `LegacyServerProcess.Process.HandlePort` reads the bind-failure notice the corrected way (Findings row 7), as `HandleLine` does.
- `JavaText.LowerChar` folds ASCII letters only. Java's `Character.toLowerCase` also folds other letters.
- `JavaText.ToLower` maps each character to one character, so its length-preserving ensures holds for the model but not for every Java text: Java's locale-aware `toLowerCase` turns "İ" into two characters.
- `JavaText.EqualsIgnoreCase` compares under ASCII folding. Java's `equalsIgnoreCase` also matches, for example, the Kelvin sign U+212A with 'k', so a flag key spelled with it finds a flag in Java but not in the model.
- `JavaText.IsDigit` accepts '0' to '9' only, and `JavaText.ParseInt` reads only those digits. Java's `parseInt` also accepts other Unicode decimal digits.
- Lengths of strings are counted in characters, not UTF-16 code units. Texts outside the Basic Multilingual Plane (for example a password's "too short" check, or the halves of a server id) can measure differently in Java.
- `Functions.TimeParts`: the `(int)` cast of the day count and the 32-bit product `day * 24` in `calculateTime` are not modelled. They matter only for durations of roughly 245,000 years or more.
- Wall-clock time is a parameter of every member that reads it.
- IPIntel, ConfigData loading, VersionParser, the website and the build files are left out. Configuration fields are constants of a `Config` value, and the version catalog is a function.

## Findings

| source | as written | input that shows it | evidently intended | confidence | as-written member | corrected member |
|---|---|---|---|---|---|---|
| src/main/java/org/bestever/bebot/Server.java:331-337 | the zacompatflags case stores the new value but tests `compatflags` for FLAGS_ERROR | `zacompatflags=-5` while compatflags is valid: -1 (FLAGS_ERROR) is stored and the host goes on | refuse the command when zacompatflags itself is FLAGS_ERROR, like every other flag case | high, not executed | ZandronumServer.ZacompatflagsAsWrittenStoresError | ZandronumServer.ZacompatflagsStoredValid |
| src/main/java/org/bestever/bebot/ServerCleanup.java:46-60 | the sweep iterates the live server list with a for-each while `killServer` removes servers from that same list | two stale servers: the first is killed and the walk stops, so the second stays; with three, the next step throws ConcurrentModificationException | kill every stale server, iterating a snapshot | high, not executed | ServerCleanup.ThreeStaleThrows | ServerCleanup.Cleanup.Run |
| src/org/bestever/bebot/ServerProcess.java:400-412 | the restart check and its else branch both read `cfg_data.max_restarts`, but the thread's `cfg_data` field (declared public at line 65) is assigned nowhere in this class, and the constructor at lines 71-74 does not set it; `src/org/bestever/bebot/Server.java`, which creates the thread, is not part of this model, so an assignment there is not ruled out | any server that reaches the check, provided no outside code set `cfg_data`: both the condition (auto-restart on and a port) and the else branch's debug text at line 411 read `cfg_data.max_restarts`, so the check throws NullPointerException and no restart happens | read max_restarts from the bot's configuration and restart within the limit | low, not executed | LegacyServerProcess.RestartAsWrittenNeverRestarts | LegacyServerProcess.RestartWithinLimit |
| src/main/java/org/bestever/bebot/Bot.java:299-309 | deleteExtraWad finds the wad ignoring case but removes by the exact string given | list ["DOOM2.WAD"], delete "doom2.wad": success is reported but the list is unchanged | remove the entry that matched | high, not executed | Bot.DeleteKeepsOtherCase | Bot.Bot.DeleteExtraWad |
| src/main/java/org/bestever/bebot/ServerProcess.java:340-345 | the bind-failure notice is parsed by replacing a prefix built from the previous line's port text | "NETWORK_Construct: Couldn't bind to 10666. Binding to 10667 instead..." with no alternate-port line before it: the prefix is not removed, the remaining text is no integer and the port stays unset | read the port the notice names | medium, not executed | ServerProcess.BindNoticeAsWrittenMisses | ServerProcess.BindNoticeReadsNewPort |
| src/org/bestever/bebot/ServerProcess.java:342-352 | chat is relayed only when the search for "!irc " from the first colon returns index 1; on a line whose first word is "CHAT" the colon is at index 4 or later, so this never holds | "CHAT name: !irc hello" is never relayed | relay a CHAT line whose "!irc " marker follows the colon (index found, not equal to 1) while relaying is on | medium, not executed | LegacyServerProcess.ChatRelayAsWrittenNeverFires | LegacyServerProcess.ChatRelayFires |
| src/org/bestever/bebot/ServerProcess.java:304-311 | the earlier thread parses the bind-failure notice the same way: the replace target embeds `portNumber`, which starts as "" (line 238) | "NETWORK_Construct: Couldn't bind to 10666. Binding to 10667 instead..." as the first port notice: the text is not numeric, warning [2] is sent, the port stays 0 and "UDP Initialized." announces port 0 | read the port the notice names | medium, not executed | LegacyServerProcess.BindNoticeAsWrittenKeepsPort | LegacyServerProcess.BindNoticeSetsPort |
