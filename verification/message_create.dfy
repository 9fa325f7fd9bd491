/**
 The `messageCreate` gateway handler: a guard chain (bot author, direct
 message, missing server settings), five listeners in a fixed order, and a
 prefix command router, all inside one `try` whose `catch` files a single
 error report.

 The handler is modelled as a pure function from the message, the bot's
 client state and the behaviour of every opaque collaborator (which calls
 throw, what the settings lookup and each command return) to the ordered
 trace of actions it performs.
 */
module MessageCreate {
  import opened Wrappers
  import opened Exec
  import opened Text

  /** The literal command prefix. */
  const Prefix: string := "becca!"

  /** Milliseconds slept between the typing indicator and the command. */
  const TypingDelay: nat := 3000

  /** The origin label given to the error handler. */
  const ErrorLabel: string := "message send event"

  datatype Guild = Guild(id: string, name: string)

  /** The fields of the gateway message the handler reads. */
  datatype Message = Message(
    authorIsBot: bool,
    guild: Option<Guild>,
    channelType: string,
    content: string)

  /** A server's settings; the handler only passes them on. */
  datatype ServerConfig = ServerConfig(serverId: string, serverName: string)

  /** The message listeners, in the order the handler runs them. */
  datatype Listener = Hearts | Thanks | Links | Level | BeccaMention

  /** A command's reply: plain text or an embed. */
  datatype Content = Text(text: string) | Embed(embed: string)

  datatype Response = Response(content: Content, success: bool)

  /** What a command's `run` does: resolve with a response, or throw. */
  datatype Outcome = Returns(response: Response) | Throws

  datatype Command = Command(name: string, outcome: Outcome)

  /** The reaction glyphs from the client's configuration. */
  datatype Configs = Configs(yes: string, no: string)

  /** The parts of the client instance the handler reads. */
  datatype Client = Client(configs: Configs, commands: seq<Command>)

  /** Which of the awaited calls throw. */
  datatype Faults = Faults(
    handleDms: bool,
    getSettings: bool,
    listeners: set<Listener>,
    sendTyping: bool,
    send: bool,
    react: bool)

  /** What the external collaborators do while this message is handled. */
  datatype World = World(settings: Option<ServerConfig>, faults: Faults)

  /** The observable actions of the handler. */
  datatype Action =
    | HandleDms
    | GetSettings(guildId: string, guildName: string)
    | RunListener(listener: Listener, config: ServerConfig)
    | SendTyping
    | Sleep(ms: nat)
    | RunCommand(name: string, config: ServerConfig)
    | SendText(text: string)
    | SendEmbed(embed: string)
    | React(emoji: string)
    | ReportError(origin: string, reportedGuild: Option<string>)

  /** The listeners that run on every message that reaches them. */
  const AlwaysListeners: seq<Listener> := [Hearts, Thanks, Links]

  /** The listeners that run only on messages without the prefix. */
  const AmbientListeners: seq<Listener> := [Level, BeccaMention]

  /** The message goes to the direct-message handler. */
  predicate IsDirect(msg: Message)
  {
    msg.guild.None? || msg.channelType == "DM"
  }

  /** The message passes the guard chain and is handled in its guild. */
  predicate Admitted(msg: Message)
  {
    !msg.authorIsBot && !IsDirect(msg)
  }

  function GuildName(msg: Message): Option<string>
  {
    match msg.guild
    case None => None
    case Some(g) => Some(g.name)
  }

  /** The single report the `catch` block files. */
  function Report(msg: Message): Action
  {
    ReportError(ErrorLabel, GuildName(msg))
  }

  /** The token compared against each command: the first space-separated
      word of the lower-cased content. */
  function CommandCall(msg: Message): string
  {
    FirstToken(ToLower(msg.content))
  }

  predicate Matches(command: Command, call: string)
  {
    Prefix + command.name == call
  }

  /** The `for ... of commands` loop with its `break`: the position of the
      first command in table order that matches `call`. */
  function FindCommand(commands: seq<Command>, call: string): (r: Option<nat>)
    ensures r.Some? ==>
      && r.value < |commands|
      && Matches(commands[r.value], call)
      && forall j :: 0 <= j < r.value ==> !Matches(commands[j], call)
    ensures r.None? ==> forall j :: 0 <= j < |commands| ==> !Matches(commands[j], call)
  {
    if |commands| == 0 then None
    else if Matches(commands[0], call) then Some(0)
    else
      match FindCommand(commands[1..], call)
      case None => None
      case Some(i) => Some(i + 1)
  }

  function Glyph(configs: Configs, success: bool): string
  {
    if success then configs.yes else configs.no
  }

  /** `channel.send` of a string, or of `{ embeds: [content] }`. */
  function SendOf(content: Content): Action
  {
    match content
    case Text(s) => SendText(s)
    case Embed(e) => SendEmbed(e)
  }

  function Listen(l: Listener, config: ServerConfig, f: Faults): Effect<Action>
  {
    Await(Step(RunListener(l, config), l in f.listeners))
  }

  /** Typing, the fixed delay, the command, its reply and the reaction. */
  function Invoke(configs: Configs, command: Command, config: ServerConfig, f: Faults): Effect<Action>
  {
    Then(Await(Step(SendTyping, f.sendTyping)),
    Then(Done([Sleep(TypingDelay)]),
    Then(Await(Step(RunCommand(command.name, config), command.outcome.Throws?)),
      match command.outcome
      case Throws => Done([])
      case Returns(response) =>
        Then(Await(Step(SendOf(response.content), f.send)),
             Await(Step(React(Glyph(configs, response.success)), f.react))))))
  }

  /** The command router: at most one command, the first that matches. */
  function Route(client: Client, msg: Message, config: ServerConfig, f: Faults): Effect<Action>
  {
    match FindCommand(client.commands, CommandCall(msg))
    case None => Done([])
    case Some(i) => Invoke(client.configs, client.commands[i], config, f)
  }

  /** The body of the `try` block. */
  function Body(client: Client, msg: Message, w: World): Effect<Action>
  {
    if msg.authorIsBot then Done([])
    else if IsDirect(msg) then Await(Step(HandleDms, w.faults.handleDms))
    else
      var guild := msg.guild.value;
      Then(Await(Step(GetSettings(guild.id, guild.name), w.faults.getSettings)),
        match w.settings
        case None => Throw()
        case Some(config) =>
          Then(Listen(Hearts, config, w.faults),
          Then(Listen(Thanks, config, w.faults),
          Then(Listen(Links, config, w.faults),
            if !StartsWith(msg.content, Prefix) then
              Then(Listen(Level, config, w.faults), Listen(BeccaMention, config, w.faults))
            else
              Route(client, msg, config, w.faults)))))
  }

  /** The whole handler: the `try` body, then the report if it threw. A
      bot's message causes no action at all: no lookup, listener, command or
      report. */
  function Handle(client: Client, msg: Message, w: World): (trace: seq<Action>)
    ensures msg.authorIsBot ==> trace == []
  {
    Catch(Body(client, msg, w), Done([Report(msg)])).trace
  }

  // ---------------------------------------------------------------------
  // Reference description: the calls the handler makes when none throws.
  // ---------------------------------------------------------------------

  /** The calls a list of listeners makes. */
  function ListenerSteps(ls: seq<Listener>, config: ServerConfig, f: Faults): seq<Step<Action>>
  {
    seq(|ls|, i requires 0 <= i < |ls| => Step(RunListener(ls[i], config), ls[i] in f.listeners))
  }

  /** The calls made around a matched command. */
  function InvokeSteps(configs: Configs, command: Command, config: ServerConfig, f: Faults): seq<Step<Action>>
  {
    [ Step(SendTyping, f.sendTyping),
      Step(Sleep(TypingDelay), false),
      Step(RunCommand(command.name, config), command.outcome.Throws?) ]
    + match command.outcome
      case Throws => []
      case Returns(response) =>
        [ Step(SendOf(response.content), f.send),
          Step(React(Glyph(configs, response.success)), f.react) ]
  }

  function RouteSteps(client: Client, msg: Message, config: ServerConfig, f: Faults): seq<Step<Action>>
  {
    match FindCommand(client.commands, CommandCall(msg))
    case None => []
    case Some(i) => InvokeSteps(client.configs, client.commands[i], config, f)
  }

  /**
   The handler as a flat plan: a bot's message makes no call; a direct
   message makes one; a guild message looks its settings up (and throws when
   there are none), runs the three listeners every message gets, then either
   the two ambient listeners or the command router.
   */
  function HandlerPlan(client: Client, msg: Message, w: World): Plan<Action>
  {
    if msg.authorIsBot then Plan([], false)
    else if IsDirect(msg) then Plan([Step(HandleDms, w.faults.handleDms)], false)
    else
      var lookup := Step(GetSettings(msg.guild.value.id, msg.guild.value.name), w.faults.getSettings);
      match w.settings
      case None => Plan([lookup], true)
      case Some(config) =>
        Plan([lookup]
             + ListenerSteps(AlwaysListeners, config, w.faults)
             + (if StartsWith(msg.content, Prefix) then RouteSteps(client, msg, config, w.faults)
                else ListenerSteps(AmbientListeners, config, w.faults)),
             false)
  }

  lemma InvokeFollowsSteps(configs: Configs, command: Command, config: ServerConfig, f: Faults)
    ensures Sequence(InvokeSteps(configs, command, config, f)) == Invoke(configs, command, config, f)
  {
    var head := [ Step(SendTyping, f.sendTyping),
                  Step(Sleep(TypingDelay), false),
                  Step(RunCommand(command.name, config), command.outcome.Throws?) ];
    var tail := InvokeSteps(configs, command, config, f)[3..];
    assert InvokeSteps(configs, command, config, f) == head + tail;
    SequenceAppend(head, tail);
    SequenceCons(head[0], head[1..]);
    SequenceCons(head[1], head[2..]);
    SequenceCons(head[2], []);
    ThenDone(Await(head[2]));
    match command.outcome
    case Throws =>
    case Returns(response) =>
      SequenceCons(tail[0], tail[1..]);
      SequenceCons(tail[1], []);
      ThenDone(Await(tail[1]));
  }

  /** The direct-style handler body performs exactly its plan. */
  lemma BodyFollowsPlan(client: Client, msg: Message, w: World)
    ensures Body(client, msg, w) == Perform(HandlerPlan(client, msg, w))
  {
    var plan := HandlerPlan(client, msg, w);
    if msg.authorIsBot {
    } else if IsDirect(msg) {
      assert plan.steps == [plan.steps[0]] + [];
      SequenceCons(plan.steps[0], []);
      ThenDone(Await(plan.steps[0]));
      ThenDone(Sequence(plan.steps));
    } else {
      var lookup := plan.steps[0];
      SequenceCons(lookup, []);
      match w.settings
      case None =>
        assert plan.steps == [lookup] + [];
        ThenDone(Await(lookup));
      case Some(config) =>
        var f := w.faults;
        var always := ListenerSteps(AlwaysListeners, config, f);
        var rest := if StartsWith(msg.content, Prefix) then RouteSteps(client, msg, config, f)
                    else ListenerSteps(AmbientListeners, config, f);
        var restBody := if !StartsWith(msg.content, Prefix) then
                          Then(Listen(Level, config, f), Listen(BeccaMention, config, f))
                        else Route(client, msg, config, f);
        assert Sequence(rest) == restBody by {
          if StartsWith(msg.content, Prefix) {
            match FindCommand(client.commands, CommandCall(msg))
            case None =>
            case Some(i) => InvokeFollowsSteps(client.configs, client.commands[i], config, f);
          } else {
            SequenceCons(rest[0], rest[1..]);
            SequenceCons(rest[1], []);
            ThenDone(Await(rest[1]));
          }
        }
        assert plan.steps == [lookup] + (always + rest);
        SequenceCons(lookup, always + rest);
        SequenceAppend(always, rest);
        SequenceCons(always[0], always[1..]);
        SequenceCons(always[1], always[2..]);
        SequenceCons(always[2], []);
        ThenDone(Await(always[2]));
        ThenAssociative(Await(always[0]), Then(Await(always[1]), Await(always[2])), Sequence(rest));
        ThenAssociative(Await(always[1]), Await(always[2]), Sequence(rest));
        ThenDone(Perform(plan));
    }
  }

  // ---------------------------------------------------------------------
  // Properties of the handler.
  // ---------------------------------------------------------------------

  /** The position of a listener in the fixed running order. */
  function Rank(l: Listener): nat
  {
    match l
    case Hearts => 0
    case Thanks => 1
    case Links => 2
    case Level => 3
    case BeccaMention => 4
  }

  /** Actions that belong to running a command. */
  predicate IsCommandAction(a: Action)
  {
    a.SendTyping? || a.Sleep? || a.RunCommand? || a.SendText? || a.SendEmbed? || a.React?
  }

  /**
   A throw at any step ends the handler at that step and adds exactly one
   error report; when nothing throws the handler makes every planned call.
   */
  lemma HandleStopsAtFirstThrow(client: Client, msg: Message, w: World)
    ensures var plan := HandlerPlan(client, msg, w);
      var t := Handle(client, msg, w);
      && (NoThrow(plan.steps) && !plan.throwsAfter ==> t == Actions(plan.steps))
      && (NoThrow(plan.steps) && plan.throwsAfter ==> t == Actions(plan.steps) + [Report(msg)])
      && (!NoThrow(plan.steps) ==>
            && 2 <= |t|
            && FirstThrow(plan.steps, |t| - 2)
            && t == Actions(plan.steps[..|t| - 1]) + [Report(msg)])
  {
    BodyFollowsPlan(client, msg, w);
    PerformStopsAtFirstThrow(HandlerPlan(client, msg, w));
  }

  /** Every action of the handler is the planned call at its position, or
      the final error report. */
  lemma HandleFollowsPlan(client: Client, msg: Message, w: World)
    ensures var steps := HandlerPlan(client, msg, w).steps;
      var t := Handle(client, msg, w);
      && |t| <= |steps| + 1
      && forall i :: 0 <= i < |t| ==>
           (i < |steps| && t[i] == steps[i].action) || (i == |t| - 1 && t[i] == Report(msg))
  {
    var plan := HandlerPlan(client, msg, w);
    BodyFollowsPlan(client, msg, w);
    PerformStopsAtFirstThrow(plan);
  }

  lemma PlanNeverReports(client: Client, msg: Message, w: World)
    ensures var steps := HandlerPlan(client, msg, w).steps;
      forall i :: 0 <= i < |steps| ==> !steps[i].action.ReportError?
  {

  }

  /**
   The only error report is the last action, carries the label
   "message send event" and the guild's name, and is filed exactly when
   some call threw or the settings lookup found nothing.
   */
  lemma ReportedOnceAtEnd(client: Client, msg: Message, w: World)
    ensures var t := Handle(client, msg, w);
      forall i :: 0 <= i < |t| && t[i].ReportError? ==>
        i == |t| - 1 && t[i] == ReportError("message send event", GuildName(msg))
    ensures var t := Handle(client, msg, w);
      var plan := HandlerPlan(client, msg, w);
      (0 < |t| && t[|t| - 1].ReportError?) <==> (!NoThrow(plan.steps) || plan.throwsAfter)
  {
    HandleFollowsPlan(client, msg, w);
    HandleStopsAtFirstThrow(client, msg, w);
    PlanNeverReports(client, msg, w);
    var t := Handle(client, msg, w);
    var plan := HandlerPlan(client, msg, w);
    if NoThrow(plan.steps) && !plan.throwsAfter {
      assert 0 < |t| ==> t[|t| - 1] == plan.steps[|t| - 1].action;
    }
  }

  /** A message without a guild, or from a DM channel, makes one call to the
      direct-message handler and nothing else (bar the report if it throws). */
  lemma DirectMessageHandedOff(client: Client, msg: Message, w: World)
    requires !msg.authorIsBot && IsDirect(msg)
    ensures Handle(client, msg, w)
         == if w.faults.handleDms then [HandleDms, Report(msg)] else [HandleDms]
  {

  }

  /** Without server settings no listener or command runs, and one report is filed. */
  lemma MissingSettingsReported(client: Client, msg: Message, w: World)
    requires Admitted(msg) && w.settings.None?
    ensures Handle(client, msg, w)
         == [ GetSettings(msg.guild.value.id, msg.guild.value.name),
              ReportError("message send event", Some(msg.guild.value.name)) ]
  {

  }

  /** The planned calls of a guild message whose settings were found. */
  lemma GuildPlanShape(client: Client, msg: Message, w: World, config: ServerConfig)
    requires Admitted(msg) && w.settings == Some(config)
    ensures var steps := HandlerPlan(client, msg, w).steps;
      && 4 <= |steps|
      && steps[0] == Step(GetSettings(msg.guild.value.id, msg.guild.value.name), w.faults.getSettings)
      && (forall k :: 1 <= k < 4 ==>
            steps[k] == Step(RunListener(AlwaysListeners[k - 1], config), AlwaysListeners[k - 1] in w.faults.listeners))
      && (StartsWith(msg.content, Prefix) ==> steps[4..] == RouteSteps(client, msg, config, w.faults))
      && (!StartsWith(msg.content, Prefix) ==> steps[4..] == ListenerSteps(AmbientListeners, config, w.faults))
  {

  }

  /** The router's planned calls are all command work, with the command itself third. */
  lemma RouteStepsShape(client: Client, msg: Message, config: ServerConfig, f: Faults)
    ensures var steps := RouteSteps(client, msg, config, f);
      && (forall k :: 0 <= k < |steps| ==> IsCommandAction(steps[k].action))
      && (forall k :: 0 <= k < |steps| && steps[k].action.RunCommand? ==>
            && k == 2
            && steps[k].action.config == config
            && var found := FindCommand(client.commands, CommandCall(msg));
               found.Some? && steps[k].action.name == client.commands[found.value].name)
  {

  }

  /** Hearts, thanks and links run first, in that order, prefix or not. */
  lemma AlwaysListenersRunFirst(client: Client, msg: Message, w: World, config: ServerConfig)
    requires Admitted(msg) && w.settings == Some(config)
    requires !w.faults.getSettings && Hearts !in w.faults.listeners && Thanks !in w.faults.listeners
    ensures var t := Handle(client, msg, w);
      && 4 <= |t|
      && t[..4] == [ GetSettings(msg.guild.value.id, msg.guild.value.name),
                     RunListener(Hearts, config),
                     RunListener(Thanks, config),
                     RunListener(Links, config) ]
  {

  }

  /** In the plan, a listener's position is its rank plus one. */
  lemma PlanListenerPositions(client: Client, msg: Message, w: World)
    ensures var steps := HandlerPlan(client, msg, w).steps;
      forall k :: 0 <= k < |steps| && steps[k].action.RunListener? ==>
        1 <= k && Rank(steps[k].action.listener) == k - 1
  {

  }

  /** In the plan, command work comes after the hearts, thanks and links listeners. */
  lemma PlanCommandPositions(client: Client, msg: Message, w: World)
    ensures var steps := HandlerPlan(client, msg, w).steps;
      forall k :: 0 <= k < |steps| && IsCommandAction(steps[k].action) ==>
        && 4 <= k
        && w.settings.Some?
        && Actions(steps)[1..4] == [ RunListener(Hearts, w.settings.value),
                                     RunListener(Thanks, w.settings.value),
                                     RunListener(Links, w.settings.value) ]
  {

  }

  /** The listeners that run do so in the fixed order hearts, thanks, links,
      level, mention. */
  lemma ListenersRunInOrder(client: Client, msg: Message, w: World)
    ensures var t := Handle(client, msg, w);
      forall i, j :: 0 <= i < j < |t| && t[i].RunListener? && t[j].RunListener? ==>
        Rank(t[i].listener) < Rank(t[j].listener)
  {
    HandleFollowsPlan(client, msg, w);
    PlanListenerPositions(client, msg, w);
  }

  /** Command work happens only after the hearts, thanks and links listeners ran. */
  lemma CommandAfterListeners(client: Client, msg: Message, w: World)
    ensures var t := Handle(client, msg, w);
      forall j :: 0 <= j < |t| && IsCommandAction(t[j]) ==>
        && 4 <= j
        && w.settings.Some?
        && t[1..4] == [ RunListener(Hearts, w.settings.value),
                        RunListener(Thanks, w.settings.value),
                        RunListener(Links, w.settings.value) ]
  {
    HandleFollowsPlan(client, msg, w);
    PlanCommandPositions(client, msg, w);
    var steps := HandlerPlan(client, msg, w).steps;
    var t := Handle(client, msg, w);
    forall j | 0 <= j < |t| && IsCommandAction(t[j])
      ensures 4 <= j && w.settings.Some?
      ensures t[1..4] == Actions(steps)[1..4]
    {
      assert t[j] == steps[j].action;
      assert t[1] == steps[1].action && t[2] == steps[2].action && t[3] == steps[3].action;
    }
  }

  /** Without the case-sensitive prefix the level and mention listeners run
      and no command work happens. */
  lemma UnprefixedRunsAmbientListeners(client: Client, msg: Message, w: World, config: ServerConfig)
    requires Admitted(msg) && w.settings == Some(config) && !StartsWith(msg.content, Prefix)
    ensures var t := Handle(client, msg, w);
      forall i :: 0 <= i < |t| ==> !IsCommandAction(t[i])
    ensures !w.faults.getSettings && w.faults.listeners == {} ==>
      Handle(client, msg, w)
        == [ GetSettings(msg.guild.value.id, msg.guild.value.name),
             RunListener(Hearts, config), RunListener(Thanks, config), RunListener(Links, config),
             RunListener(Level, config), RunListener(BeccaMention, config) ]
  {

  }

  /** With the prefix, only hearts, thanks and links of the listeners run. */
  lemma PrefixedSkipsAmbientListeners(client: Client, msg: Message, w: World)
    requires StartsWith(msg.content, Prefix)
    ensures var t := Handle(client, msg, w);
      forall i :: 0 <= i < |t| && t[i].RunListener? ==> t[i].listener in AlwaysListeners
  {

  }

  /** At most one command runs: the first in table order whose prefixed name
      is the first word of the lower-cased content. */
  lemma AtMostOneCommand(client: Client, msg: Message, w: World)
    ensures var t := Handle(client, msg, w);
      forall i, j :: 0 <= i < |t| && 0 <= j < |t| && t[i].RunCommand? && t[j].RunCommand? ==> i == j
    ensures var t := Handle(client, msg, w);
      forall i :: 0 <= i < |t| && t[i].RunCommand? ==>
        && Admitted(msg)
        && StartsWith(msg.content, Prefix)
        && var found := FindCommand(client.commands, CommandCall(msg));
           found.Some? && t[i].name == client.commands[found.value].name
  {
    HandleFollowsPlan(client, msg, w);
    var steps := HandlerPlan(client, msg, w).steps;
    if Admitted(msg) && w.settings.Some? {
      var config := w.settings.value;
      GuildPlanShape(client, msg, w, config);
      var route := RouteSteps(client, msg, config, w.faults);
      RouteStepsShape(client, msg, config, w.faults);
      forall k | 0 <= k < |steps| && steps[k].action.RunCommand?
        ensures k == 6 && StartsWith(msg.content, Prefix)
        ensures var found := FindCommand(client.commands, CommandCall(msg));
           found.Some? && steps[k].action.name == client.commands[found.value].name
      {
        assert 4 <= k;
        assert steps[k] == steps[4..][k - 4];
      }
    }
  }

  /** When no command matches, the router does nothing. */
  lemma NoMatchingCommandDoesNothing(client: Client, msg: Message, w: World, config: ServerConfig)
    requires Admitted(msg) && w.settings == Some(config) && StartsWith(msg.content, Prefix)
    requires FindCommand(client.commands, CommandCall(msg)).None?
    ensures var t := Handle(client, msg, w);
      forall i :: 0 <= i < |t| ==> !IsCommandAction(t[i])
    ensures (!w.faults.getSettings
             && Hearts !in w.faults.listeners && Thanks !in w.faults.listeners && Links !in w.faults.listeners) ==>
      Handle(client, msg, w)
        == [ GetSettings(msg.guild.value.id, msg.guild.value.name),
             RunListener(Hearts, config), RunListener(Thanks, config), RunListener(Links, config) ]
  {

  }

  /**
   A matched command that resolves: typing, a 3000 ms sleep, the command,
   one send (text as text, anything else as an embed), then the yes glyph on
   success and the no glyph otherwise.
   */
  lemma CommandProtocol(client: Client, msg: Message, w: World, config: ServerConfig, k: nat, response: Response)
    requires Admitted(msg) && w.settings == Some(config) && StartsWith(msg.content, Prefix)
    requires FindCommand(client.commands, CommandCall(msg)) == Some(k)
    requires client.commands[k].outcome == Returns(response)
    requires !w.faults.getSettings
    requires Hearts !in w.faults.listeners && Thanks !in w.faults.listeners && Links !in w.faults.listeners
    requires !w.faults.sendTyping && !w.faults.send && !w.faults.react
    ensures var t := Handle(client, msg, w);
      && |t| == 9
      && t[4..7] == [SendTyping, Sleep(3000), RunCommand(client.commands[k].name, config)]
      && t[7] == (match response.content
                  case Text(s) => SendText(s)
                  case Embed(e) => SendEmbed(e))
      && t[8] == React(if response.success then client.configs.yes else client.configs.no)
  {

  }

  /** A command that throws gets no reply and no reaction: the report follows it. */
  lemma CommandFailureReported(client: Client, msg: Message, w: World, config: ServerConfig, k: nat)
    requires Admitted(msg) && w.settings == Some(config) && StartsWith(msg.content, Prefix)
    requires FindCommand(client.commands, CommandCall(msg)) == Some(k)
    requires client.commands[k].outcome.Throws?
    requires !w.faults.getSettings
    requires Hearts !in w.faults.listeners && Thanks !in w.faults.listeners && Links !in w.faults.listeners
    requires !w.faults.sendTyping
    ensures Handle(client, msg, w)
         == [ GetSettings(msg.guild.value.id, msg.guild.value.name),
              RunListener(Hearts, config), RunListener(Thanks, config), RunListener(Links, config),
              SendTyping, Sleep(3000), RunCommand(client.commands[k].name, config),
              Report(msg) ]
  {

  }

  /** In the plan, every listener and the command carry the looked-up settings. */
  lemma PlanCallsCarrySettings(client: Client, msg: Message, w: World)
    ensures var steps := HandlerPlan(client, msg, w).steps;
      forall k :: 0 <= k < |steps| && (steps[k].action.RunListener? || steps[k].action.RunCommand?) ==>
        w.settings == Some(steps[k].action.config)
  {
    if Admitted(msg) && w.settings.Some? {
      GuildPlanShape(client, msg, w, w.settings.value);
      RouteStepsShape(client, msg, w.settings.value, w.faults);
    }
  }

  /** Every listener and the command receive the settings the lookup returned. */
  lemma CallsReceiveLookedUpSettings(client: Client, msg: Message, w: World)
    ensures var t := Handle(client, msg, w);
      forall i :: 0 <= i < |t| && (t[i].RunListener? || t[i].RunCommand?) ==>
        w.settings == Some(t[i].config)
  {
    HandleFollowsPlan(client, msg, w);
    PlanCallsCarrySettings(client, msg, w);
  }

  /** The matched command's prefixed name is the whole first word of the
      lower-cased content. */
  lemma MatchedCommandIsFirstWord(commands: seq<Command>, msg: Message, k: nat)
    requires FindCommand(commands, CommandCall(msg)) == Some(k)
    ensures var lower := ToLower(msg.content);
      var word := Prefix + commands[k].name;
      && StartsWith(lower, word)
      && (|lower| == |word| || lower[|word|] == ' ')
      && forall i :: 0 <= i < |commands[k].name| ==> commands[k].name[i] != ' '
  {
    var word := Prefix + commands[k].name;
    assert forall i :: 0 <= i < |commands[k].name| ==> commands[k].name[i] == word[|Prefix| + i];
  }

  /** Content that passes the case-sensitive prefix test still starts with the
      prefix once lower-cased, and so does its first word: the router's call
      always begins with `becca!`. */
  lemma PrefixSurvivesLowerCasing(msg: Message)
    requires StartsWith(msg.content, Prefix)
    ensures StartsWith(ToLower(msg.content), Prefix)
    ensures StartsWith(CommandCall(msg), Prefix)
  {
    ToLowerKeepsLowerPrefix(msg.content, Prefix);
  }

  /** A command whose name has an ASCII upper-case letter can never be called,
      because the content is lower-cased before the comparison. */
  lemma UpperCaseNameNeverMatches(command: Command, msg: Message, i: nat)
    requires i < |command.name| && IsUpper(command.name[i])
    ensures !Matches(command, CommandCall(msg))
  {
    var word := Prefix + command.name;
    assert word[|Prefix| + i] == command.name[i];
  }

  /** A sample `ping` command: it answers "pong" and succeeds. */
  const Ping: Command := Command("ping", Returns(Response(Text("pong"), true)))

  /** The prefix test is case-sensitive: "BECCA!ping" is an ordinary message
      that feeds the level and mention listeners and never reaches `ping`. */
  lemma UpperCasePrefixIsNotACommand(client: Client, msg: Message, w: World, config: ServerConfig)
    requires client.commands == [Ping] && msg.content == "BECCA!ping"
    requires Admitted(msg) && w.settings == Some(config)
    requires !w.faults.getSettings && w.faults.listeners == {}
    ensures Handle(client, msg, w)
         == [ GetSettings(msg.guild.value.id, msg.guild.value.name),
              RunListener(Hearts, config), RunListener(Thanks, config), RunListener(Links, config),
              RunListener(Level, config), RunListener(BeccaMention, config) ]
  {

  }

  lemma LowerCasedCall(msg: Message)
    requires msg.content == "becca!PING"
    ensures CommandCall(msg) == Prefix + "ping"
  {

  }

  /** The command name, unlike the prefix, is compared case-insensitively:
      "becca!PING" runs `ping`, which answers "pong" and gets the yes glyph. */
  lemma PingAnswersPong(client: Client, msg: Message, w: World, config: ServerConfig)
    requires client.commands == [Ping] && msg.content == "becca!PING"
    requires Admitted(msg) && w.settings == Some(config)
    requires !w.faults.getSettings
    requires Hearts !in w.faults.listeners && Thanks !in w.faults.listeners && Links !in w.faults.listeners
    requires !w.faults.sendTyping && !w.faults.send && !w.faults.react
    ensures Handle(client, msg, w)
         == [ GetSettings(msg.guild.value.id, msg.guild.value.name),
              RunListener(Hearts, config), RunListener(Thanks, config), RunListener(Links, config),
              SendTyping, Sleep(3000), RunCommand("ping", config),
              SendText("pong"), React(client.configs.yes) ]
  {
    LowerCasedCall(msg);
  }
}
