# Becca Lyria message dispatch and `userconfig` command, in Dafny

This project models two pieces of control flow of the Becca Lyria chat bot as
pure functions that return the ordered trace of actions the code performs.

- **`messageCreate`** (module `MessageCreate`, file `message_create.dfy`) is the
  gateway handler for every message. It has a guard chain: a bot author is
  ignored, and a message without a guild or from a DM channel goes to the
  direct-message handler. Then the server settings are looked up; finding none
  is an error. The `hearts`, `thanks` and `links` listeners run next. Content
  that does not start with `becca!` (a case-sensitive check) then goes to the
  `level` and `beccaMention` listeners. Content that does start with it goes
  to the prefix command router. The router compares the first space-separated
  word of the lower-cased content with `"becca!" + name` for each command in
  table order, and runs the first match. Around that command it shows typing,
  sleeps 3000 ms, sends the reply (text or embed) and reacts with the `yes` or
  `no` glyph. Everything sits in one `try`, so any throw ends the handler and
  files one error report labelled `"message send event"`.
- **`userconfig`** (module `UserConfig`, file `user_config.dfy`) is a slash
  command. It defers its reply, reads the sub-command, and replies
  `missingGuild` when the guild or user is absent. Otherwise it finds the
  user's record, or creates one with an empty level card. It then runs exactly
  one branch: the view handler, the level-card handler, or the
  `missingSubcommand` reply. Any throw files one report labelled
  `"userconfig command group"` and edits in an error embed carrying the id the
  error handler returned.

Every opaque awaited call (a listener, `handleDms`, `getSettings`,
`sendTyping`, `send`, `react`, `deferReply`, `editReply`, `findOne`, `create`,
the sub-command handlers, a command's `run`) is a step that either completes
or throws. The inputs say which steps throw (`Faults`). They also give what
the lookups return: the server settings, the stored user records, each
command's response, and the error id. A step that throws still appears in the
trace; the `catch` block's actions follow it.

Each handler is written twice:

- `Body` follows the source's nested `if`/`await` structure, built from the
  combinators in `exec.dfy` (`Await`, `Then`, `Catch`).
- `HandlerPlan` / `CommandPlan` is an independent flat description: the list
  of calls made when nothing throws.

`BodyFollowsPlan` proves the two agree. `PerformStopsAtFirstThrow` turns the
plan into the exact truncation property, and the other lemmas state the
properties of the handlers in terms of the trace.

## Behaviour worth noting

- The code has one `try` around the whole message handler. A throwing
  listener therefore stops every later listener and the command; there is no
  per-listener isolation.
- A direct message from an author who is not a bot is always passed to
  `handleDms`. A bot's message, direct or not, is dropped silently.
- Missing server settings make the handler throw; no default is created at
  this point.

## Model

| member | source | states |
|---|---|---|
| `Exec.SequenceStopsAtFirstThrow` | src/events/messageEvents/messageCreate.ts:23-73 | awaited calls in one `try` block perform exactly the steps up to and including the first one that throws, and the block throws exactly when some step does |
| `Exec.PerformStopsAtFirstThrow` | src/events/messageEvents/messageCreate.ts:23-73 | a planned block throws iff a step throws or it throws after its last step; what it performs is a prefix of the plan, ending at the first throwing step |
| `Text.ToLower` | src/events/messageEvents/messageCreate.ts:55 | the ASCII lower-casing that models `toLowerCase` keeps the length, maps every character through the lower-case mapping, and leaves no upper-case letter |
| `Text.FirstToken` | src/events/messageEvents/messageCreate.ts:55 | `split(" ")[0]` is a prefix of the content, contains no space, and ends at the end of the content or just before a space |
| `Text.FirstTokenUnique` | src/events/messageEvents/messageCreate.ts:55 | those three properties determine the first token uniquely |
| `Text.ToLowerKeepsLowerPrefix` | src/events/messageEvents/messageCreate.ts:46-55 | lower-casing keeps a prefix that has no upper-case letters, such as `becca!` |
| `MessageCreate.FindCommand` | src/events/messageEvents/messageCreate.ts:54-56 | the command loop with its `break` selects the first command in table order whose `"becca!" + name` equals the call, and selects nothing exactly when no command matches |
| `MessageCreate.Handle` | src/events/messageEvents/messageCreate.ts:27-29 | a message from a bot author produces an empty trace: no settings lookup, listener, command or error report |
| `MessageCreate.DirectMessageHandedOff` | src/events/messageEvents/messageCreate.ts:31-34 | a message without a guild or from a `"DM"` channel makes exactly one `handleDms` call, followed by the error report only if that call throws |
| `MessageCreate.MissingSettingsReported` | src/events/messageEvents/messageCreate.ts:36-40 | when the settings lookup yields nothing, the trace is the lookup and one `"message send event"` report naming the guild; no listener or command runs |
| `MessageCreate.InvokeFollowsSteps` | src/events/messageEvents/messageCreate.ts:57-69 | the typing, sleep, run, send and react sequence for a matched command performs exactly its planned calls |
| `MessageCreate.BodyFollowsPlan` | src/events/messageEvents/messageCreate.ts:23-72 | the `try` body, written as nested awaits, performs exactly the flat plan of guard, lookup, listeners and router |
| `MessageCreate.GuildPlanShape` | src/events/messageEvents/messageCreate.ts:36-52 | for a guild message with settings, the plan is the lookup, then hearts, thanks and links, then the router or the two ambient listeners |
| `MessageCreate.RouteStepsShape` | src/events/messageEvents/messageCreate.ts:54-69 | the router's calls are all command work; the only command run is the third call, with the looked-up settings and the first matching command's name |
| `MessageCreate.HandleStopsAtFirstThrow` | src/events/messageEvents/messageCreate.ts:23-80 | a throw at any step ends the trace at that step, followed by exactly one error report; with no throw every planned call is made and nothing is reported |
| `MessageCreate.HandleFollowsPlan` | src/events/messageEvents/messageCreate.ts:23-80 | every action in the trace is the planned call at its position, or the final error report |
| `MessageCreate.ReportedOnceAtEnd` | src/events/messageEvents/messageCreate.ts:73-80 | an error report can only be the last action; it carries the label `"message send event"` and the guild's name, and it is filed exactly when a call threw or the settings were missing |
| `MessageCreate.AlwaysListenersRunFirst` | src/events/messageEvents/messageCreate.ts:42-44 | with settings found, the first actions are the lookup and then hearts, thanks and links, in that order, prefix or not |
| `MessageCreate.PlanListenerPositions` | src/events/messageEvents/messageCreate.ts:42-52 | in the plan, each listener sits at its rank in the fixed order, plus one |
| `MessageCreate.PlanCommandPositions` | src/events/messageEvents/messageCreate.ts:42-59 | in the plan, command work comes only after the lookup and the three listeners that always run |
| `MessageCreate.ListenersRunInOrder` | src/events/messageEvents/messageCreate.ts:42-52 | whatever throws, the listeners that run appear in the order hearts, thanks, links, level, mention |
| `MessageCreate.CommandAfterListeners` | src/events/messageEvents/messageCreate.ts:42-59 | typing, sleep, a command, a send or a reaction occurs only after hearts, thanks and links ran with the looked-up settings |
| `MessageCreate.UnprefixedRunsAmbientListeners` | src/events/messageEvents/messageCreate.ts:46-52 | content not starting with `becca!` causes no typing, sleep, command, send or react; with no throws the trace ends with level and then mention |
| `MessageCreate.PrefixedSkipsAmbientListeners` | src/events/messageEvents/messageCreate.ts:46-52 | content starting with `becca!` never runs the level or mention listener |
| `MessageCreate.AtMostOneCommand` | src/events/messageEvents/messageCreate.ts:54-72 | at most one command runs; it is the first in table order whose prefixed name equals the first word of the lower-cased content, and only for prefixed guild messages |
| `MessageCreate.NoMatchingCommandDoesNothing` | src/events/messageEvents/messageCreate.ts:54-72 | when no command matches, no command work happens; when the lookup, hearts, thanks and links complete, the trace ends after the links listener, whatever the level and mention listeners would do |
| `MessageCreate.CommandProtocol` | src/events/messageEvents/messageCreate.ts:57-69 | a matched command that resolves gives typing, a 3000 ms sleep, the run, one send (a string as text, otherwise as an embed), then the yes glyph on success and the no glyph otherwise |
| `MessageCreate.CommandFailureReported` | src/events/messageEvents/messageCreate.ts:57-80 | a command whose run throws gets no send and no reaction; the error report follows the run |
| `MessageCreate.PlanCallsCarrySettings` | src/events/messageEvents/messageCreate.ts:36-59 | in the plan, every listener call and the command call carry the settings the lookup returned |
| `MessageCreate.CallsReceiveLookedUpSettings` | src/events/messageEvents/messageCreate.ts:36-59 | every listener and the command receive the settings the lookup returned |
| `MessageCreate.PrefixSurvivesLowerCasing` | src/events/messageEvents/messageCreate.ts:48-55 | content that passes the case-sensitive `becca!` test still starts with `becca!` after lower-casing, and so does the word the router compares |
| `MessageCreate.MatchedCommandIsFirstWord` | src/events/messageEvents/messageCreate.ts:55-56 | a matched command's `"becca!" + name` is the whole first word of the lower-cased content, and its name contains no space |
| `MessageCreate.UpperCaseNameNeverMatches` | src/events/messageEvents/messageCreate.ts:55-56 | a command whose name contains an ASCII upper-case letter (A-Z) never matches, because the content is lower-cased before the comparison |
| `MessageCreate.UpperCasePrefixIsNotACommand` | src/events/messageEvents/messageCreate.ts:46-52 | `"BECCA!ping"` fails the case-sensitive prefix test, so it runs the five listeners and never reaches `ping` |
| `MessageCreate.PingAnswersPong` | src/events/messageEvents/messageCreate.ts:54-69 | `"becca!PING"` runs `ping`, which sends `"pong"` as text and reacts with the yes glyph |
| `UserConfig.Run` | src/commands/userConfig.ts:46-95 | `deferReply` is always the first action, and the command's promise rejects only when the error-embed reply in the `catch` block throws |
| `UserConfig.LookupFollowsSteps` | src/commands/userConfig.ts:59-68 | find-or-create makes the lookup and, only when no record exists, one creation |
| `UserConfig.BodyFollowsPlan` | src/commands/userConfig.ts:47-81 | the `try` body, written as nested awaits, performs exactly the flat plan of defer, guard, find-or-create and one branch |
| `UserConfig.RunStopsAtFirstThrow` | src/commands/userConfig.ts:47-93 | with no throw the planned calls are made and the command resolves; otherwise the trace stops at the first throw and ends with one report and one error embed carrying the returned id |
| `UserConfig.RunFollowsPlan` | src/commands/userConfig.ts:47-93 | every action is the planned call at its position, or one of the two final error-path actions |
| `UserConfig.ReportedOnceOnFailure` | src/commands/userConfig.ts:82-93 | a report labelled `"userconfig command group"` is always second to last and followed by the `"userconfig group"` error embed with the error id; it is filed exactly when something threw |
| `UserConfig.DeferFailureReported` | src/commands/userConfig.ts:47-93 | a throwing `deferReply` is followed directly by the report and the error embed |
| `UserConfig.MissingGuildOrUser` | src/commands/userConfig.ts:52-57 | with a sub-command present but without a guild or user, no record is looked up or created and no sub-command handler runs; with no throws the trace is the defer and one `missingGuild` reply |
| `UserConfig.MissingSubcommandThrows` | src/commands/userConfig.ts:48-52 | an interaction without a sub-command throws at `getSubcommand()`, before the guild check, and takes the error path |
| `UserConfig.FindOrCreateRecord` | src/commands/userConfig.ts:59-68 | the record is looked up by the user's id; an existing record is never recreated; a missing one is created at most once, with that id and empty background, foreground and progress |
| `UserConfig.FullPlanShape` | src/commands/userConfig.ts:48-81 | with guild, user and sub-command present, the plan is defer, lookup, the creation when needed, and the one branch |
| `UserConfig.ExactlyOneBranch` | src/commands/userConfig.ts:70-81 | exactly one branch action occurs: the view handler iff the name is `"view"`, the level-card handler iff it is `"levelcard"`, and the `missingSubcommand` reply otherwise |
| `UserConfig.PlanHandlersGetResolvedRecord` | src/commands/userConfig.ts:59-75 | in the plan, a sub-command handler comes right after the lookup or the creation and gets the stored or the created record |
| `UserConfig.HandlersGetResolvedRecord` | src/commands/userConfig.ts:59-75 | both sub-command handlers receive the stored record unchanged, or the record created just before them for that user id |

## Left out

- Listener bodies, `handleDms`, `handleUserConfigView`, `handleLevelCard` and
  each command's `run` are opaque steps that either complete or throw. What
  they do inside is not modelled.
- `getSettings` and the `UserConfigModel` database are abstract. The settings
  lookup is an optional value. `findOne` is a lookup in a map keyed by user
  id, and `create` returns the record it is given.
- All discord.js objects and network calls (`send`, `react`, `sendTyping`,
  `deferReply`, `editReply`) appear only as trace events. A call that throws
  is a fault flag. `channel.type` is kept as its string value.
- `sleep` is one `Sleep(3000)` event that never throws; its timing is not
  modelled.
- `beccaErrorHandler` never throws and is a single report event. In
  `messageCreate` it is called without being awaited; that concurrency is not
  modelled. Its correlation id is an input to the `userconfig` model.
- Translation (`t`) and `getRandomValue` are left out because they are
  nondeterministic. Replies are named by their response key.
- The slash-command builder schema (src/commands/userConfig.ts:15-45) is a
  declaration, not control flow.
- src/interfaces/BeccaInt.ts supplies only the `yes`/`no` glyph fields and the
  command table that the model reads.
- `getSubcommand()` throwing when the interaction has no sub-command is
  discord.js behaviour, modelled as `subcommand == None`.
- Text.ToLower: maps only the ASCII letters A-Z. JavaScript's `toLowerCase`
  also maps letters of other scripts. Content with such letters is
  lower-cased less than the real handler would lower-case it.
- Messages processed concurrently, and the async scheduling between awaits,
  are not modelled. The model handles one message at a time, with its calls in
  sequence.
- The message is one unchanging snapshot. The prefix test (line 48) reads the
  `content` taken at line 24, and the command word (line 55) reads
  `message.content` again after three awaited listeners. An edit in between,
  which discord.js applies to the cached message, could make the two differ;
  the model reads the same `content` for both.
