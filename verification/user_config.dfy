/**
 The `run` body of the `userconfig` slash command: defer the reply, check
 that the interaction has a guild and a user, find the user's record or
 create one with an empty level card, and hand it to exactly one sub-command
 handler; any throw is reported and answered with an error embed.

 Modelled as a pure function from the interaction and the behaviour of the
 opaque collaborators (stored records, which calls throw, the id the error
 handler returns) to the ordered actions, and whether the command itself
 ends by rejecting.
 */
module UserConfig {
  import opened Wrappers
  import opened Exec

  /** The origin label given to the error handler. */
  const ErrorLabel: string := "userconfig command group"

  /** The command group named in the error embed. */
  const ErrorEmbedGroup: string := "userconfig group"

  datatype Guild = Guild(name: string)

  datatype User = User(id: string)

  /** The fields of the interaction the command reads; `subcommand` is
      `None` when the interaction carries none, and then `getSubcommand()`
      throws. */
  datatype Interaction = Interaction(guild: Option<Guild>, user: Option<User>, subcommand: Option<string>)

  datatype LevelCard = LevelCard(background: string, foreground: string, progress: string)

  /** A stored user configuration. */
  datatype UserRecord = UserRecord(userId: string, levelcard: LevelCard)

  /** The replies the command edits in, by response key. */
  datatype Reply = MissingGuild | MissingSubcommand | ErrorEmbed(group: string, errorId: string)

  /** The observable actions of the command. */
  datatype Action =
    | DeferReply
    | EditReply(reply: Reply)
    | FindUser(userId: string)
    | CreateUser(created: UserRecord)
    | ViewConfig(record: UserRecord)
    | EditLevelCard(record: UserRecord)
    | ReportError(origin: string, guildName: Option<string>)

  /** Which of the awaited calls throw. `editReply` covers the replies in the
      `try` block, `errorReply` the one in the `catch` block. */
  datatype Faults = Faults(
    deferReply: bool,
    editReply: bool,
    findOne: bool,
    create: bool,
    view: bool,
    levelCard: bool,
    errorReply: bool)

  /** The stored records by user id, the id the error handler hands back, and
      which calls throw. */
  datatype World = World(users: map<string, UserRecord>, errorId: string, faults: Faults)

  /** The record created for a user who has none: an empty level card. */
  function DefaultRecord(userId: string): UserRecord
  {
    UserRecord(userId, LevelCard("", "", ""))
  }

  /** `findOne(...) || create(...)`: the record the sub-command handlers get. */
  function RecordFor(userId: string, w: World): UserRecord
  {
    if userId in w.users then w.users[userId] else DefaultRecord(userId)
  }

  function GuildName(i: Interaction): Option<string>
  {
    match i.guild
    case None => None
    case Some(g) => Some(g.name)
  }

  /** The sub-command's effect, when the branch itself is reached. */
  function Branch(sub: string, record: UserRecord): Action
  {
    if sub == "view" then ViewConfig(record)
    else if sub == "levelcard" then EditLevelCard(record)
    else EditReply(MissingSubcommand)
  }

  function BranchThrows(sub: string, f: Faults): bool
  {
    if sub == "view" then f.view
    else if sub == "levelcard" then f.levelCard
    else f.editReply
  }

  /** Look the record up, and create the default one only when none exists. */
  function FindOrCreate(userId: string, w: World): Effect<Action>
  {
    Then(Await(Step(FindUser(userId), w.faults.findOne)),
      if userId in w.users then Done([])
      else Await(Step(CreateUser(DefaultRecord(userId)), w.faults.create)))
  }

  /** The `switch (subcommand)` statement. */
  function Dispatch(sub: string, record: UserRecord, f: Faults): Effect<Action>
  {
    Await(Step(Branch(sub, record), BranchThrows(sub, f)))
  }

  /** The body of the `try` block. */
  function Body(i: Interaction, w: World): Effect<Action>
  {
    Then(Await(Step(DeferReply, w.faults.deferReply)),
      match i.subcommand
      case None => Throw()
      case Some(sub) =>
        if i.guild.None? || i.user.None? then
          Await(Step(EditReply(MissingGuild), w.faults.editReply))
        else
          var id := i.user.value.id;
          Then(FindOrCreate(id, w), Dispatch(sub, RecordFor(id, w), w.faults)))
  }

  /** The `catch` block: report, then reply with the error embed. */
  function Recover(i: Interaction, w: World): Effect<Action>
  {
    Then(Done([ReportError(ErrorLabel, GuildName(i))]),
         Await(Step(EditReply(ErrorEmbed(ErrorEmbedGroup, w.errorId)), w.faults.errorReply)))
  }

  /** The whole command. `threw` is whether its promise rejects. */
  function Run(i: Interaction, w: World): (r: Effect<Action>)
    ensures 0 < |r.trace| && r.trace[0] == DeferReply
    ensures r.threw ==> w.faults.errorReply
  {
    Catch(Body(i, w), Recover(i, w))
  }

  // ---------------------------------------------------------------------
  // Reference description: the calls the command makes when none throws.
  // ---------------------------------------------------------------------

  function LookupSteps(userId: string, w: World): seq<Step<Action>>
  {
    [Step(FindUser(userId), w.faults.findOne)]
    + if userId in w.users then [] else [Step(CreateUser(DefaultRecord(userId)), w.faults.create)]
  }

  /**
   The `try` body as a flat plan: defer; throw when there is no sub-command;
   the missing-guild reply when guild or user is absent; otherwise the lookup,
   the creation if needed, and the one branch for the sub-command.
   */
  function CommandPlan(i: Interaction, w: World): Plan<Action>
  {
    var defer := Step(DeferReply, w.faults.deferReply);
    match i.subcommand
    case None => Plan([defer], true)
    case Some(sub) =>
      if i.guild.None? || i.user.None? then
        Plan([defer, Step(EditReply(MissingGuild), w.faults.editReply)], false)
      else
        var id := i.user.value.id;
        Plan([defer] + LookupSteps(id, w)
             + [Step(Branch(sub, RecordFor(id, w)), BranchThrows(sub, w.faults))], false)
  }

  lemma LookupFollowsSteps(userId: string, w: World)
    ensures Sequence(LookupSteps(userId, w)) == FindOrCreate(userId, w)
  {
    var steps := LookupSteps(userId, w);
    SequenceCons(steps[0], steps[1..]);
    if userId !in w.users {
      SequenceCons(steps[1], []);
      ThenDone(Await(steps[1]));
    }
  }

  /** The direct-style `try` body performs exactly its plan. */
  lemma BodyFollowsPlan(i: Interaction, w: World)
    ensures Body(i, w) == Perform(CommandPlan(i, w))
  {
    var plan := CommandPlan(i, w);
    var defer := Step(DeferReply, w.faults.deferReply);
    match i.subcommand
    case None =>
      assert plan.steps == [defer] + [];
      SequenceCons(defer, []);
      ThenDone(Await(defer));
    case Some(sub) =>
      if i.guild.None? || i.user.None? {
        var reply := plan.steps[1];
        assert plan.steps == [defer] + [reply];
        SequenceCons(defer, [reply]);
        assert [reply] == [reply] + [];
        SequenceCons(reply, []);
        ThenDone(Await(reply));
        ThenDone(Sequence(plan.steps));
      } else {
        var id := i.user.value.id;
        var lookup := LookupSteps(id, w);
        var branch := Step(Branch(sub, RecordFor(id, w)), BranchThrows(sub, w.faults));
        assert plan.steps == [defer] + (lookup + [branch]);
        SequenceCons(defer, lookup + [branch]);
        SequenceAppend(lookup, [branch]);
        LookupFollowsSteps(id, w);
        assert [branch] == [branch] + [];
        SequenceCons(branch, []);
        ThenDone(Await(branch));
        ThenDone(Sequence(plan.steps));
      }
  }

  // ---------------------------------------------------------------------
  // Properties of the command.
  // ---------------------------------------------------------------------

  /** The report and the error embed the `catch` block adds. */
  function ErrorTail(i: Interaction, w: World): seq<Action>
  {
    [ ReportError("userconfig command group", GuildName(i)),
      EditReply(ErrorEmbed("userconfig group", w.errorId)) ]
  }

  /**
   When nothing throws the command makes exactly its planned calls and
   resolves; otherwise it stops at the first throw (or at the missing
   sub-command), files one report, and edits in the error embed carrying the
   id the error handler returned; it rejects only if that last edit throws.
   */
  lemma RunStopsAtFirstThrow(i: Interaction, w: World)
    ensures var plan := CommandPlan(i, w);
      var r := Run(i, w);
      && (NoThrow(plan.steps) && !plan.throwsAfter ==> r == Done(Actions(plan.steps)))
      && (NoThrow(plan.steps) && plan.throwsAfter ==>
            r == Effect(Actions(plan.steps) + ErrorTail(i, w), w.faults.errorReply))
      && (!NoThrow(plan.steps) ==>
            && 3 <= |r.trace|
            && FirstThrow(plan.steps, |r.trace| - 3)
            && r == Effect(Actions(plan.steps[..|r.trace| - 2]) + ErrorTail(i, w), w.faults.errorReply))
  {
    BodyFollowsPlan(i, w);
    PerformStopsAtFirstThrow(CommandPlan(i, w));
    assert Recover(i, w) == Effect(ErrorTail(i, w), w.faults.errorReply);
  }

  /** Every action is the planned call at its position, or part of the error tail. */
  lemma RunFollowsPlan(i: Interaction, w: World)
    ensures var steps := CommandPlan(i, w).steps;
      var t := Run(i, w).trace;
      forall k :: 0 <= k < |t| ==>
        (k < |steps| && t[k] == steps[k].action)
        || (k == |t| - 2 && t[k] == ErrorTail(i, w)[0])
        || (k == |t| - 1 && t[k] == ErrorTail(i, w)[1])
  {

  }

  lemma PlanNeverReports(i: Interaction, w: World)
    ensures var steps := CommandPlan(i, w).steps;
      forall k :: 0 <= k < |steps| ==> !steps[k].action.ReportError?
  {

  }

  /** Exactly one report is filed, followed by the error embed, exactly when
      something threw; it is labelled "userconfig command group". */
  lemma ReportedOnceOnFailure(i: Interaction, w: World)
    ensures var t := Run(i, w).trace;
      forall k :: 0 <= k < |t| && t[k].ReportError? ==>
        && k == |t| - 2
        && t[k] == ReportError("userconfig command group", GuildName(i))
        && t[k + 1] == EditReply(ErrorEmbed("userconfig group", w.errorId))
    ensures var t := Run(i, w).trace;
      var plan := CommandPlan(i, w);
      (exists k :: 0 <= k < |t| && t[k].ReportError?) <==> (!NoThrow(plan.steps) || plan.throwsAfter)
  {
    RunFollowsPlan(i, w);
    PlanNeverReports(i, w);
    var t := Run(i, w).trace;
    var plan := CommandPlan(i, w);
    var tail := ErrorTail(i, w);
    forall k | 0 <= k < |t| && t[k].ReportError?
      ensures k == |t| - 2 && t[k] == tail[0] && t[k + 1] == tail[1]
    {
      RunStopsAtFirstThrow(i, w);
    }
    if !NoThrow(plan.steps) || plan.throwsAfter {
      RunStopsAtFirstThrow(i, w);
      assert t[|t| - 2] == tail[0];
    } else {
      RunStopsAtFirstThrow(i, w);
      assert t == Actions(plan.steps);
    }
  }

  /** A throwing `deferReply` goes straight to the report and the error embed. */
  lemma DeferFailureReported(i: Interaction, w: World)
    requires w.faults.deferReply
    ensures Run(i, w).trace == [DeferReply] + ErrorTail(i, w)
  {

  }

  /** With a sub-command but no guild or user, the only reply is the
      missing-guild one: no lookup, no creation, no sub-command handler. */
  lemma MissingGuildOrUser(i: Interaction, w: World)
    requires i.subcommand.Some? && (i.guild.None? || i.user.None?)
    ensures var t := Run(i, w).trace;
      forall k :: 0 <= k < |t| ==>
        !(t[k].FindUser? || t[k].CreateUser? || t[k].ViewConfig? || t[k].EditLevelCard?)
    ensures !w.faults.deferReply && !w.faults.editReply ==>
      Run(i, w) == Done([DeferReply, EditReply(MissingGuild)])
  {

  }

  /** The command reads `getSubcommand()` before the guild check, so an
      interaction without a sub-command fails even when the guild is missing. */
  lemma MissingSubcommandThrows(i: Interaction, w: World)
    requires i.subcommand.None? && !w.faults.deferReply
    ensures Run(i, w) == Effect([DeferReply] + ErrorTail(i, w), w.faults.errorReply)
  {

  }

  /**
   The user's record is looked up by id; an existing one is never recreated;
   a missing one is created exactly once, with that id and an empty level card.
   */
  lemma FindOrCreateRecord(i: Interaction, w: World, sub: string, id: string)
    requires i.subcommand == Some(sub) && i.guild.Some? && i.user == Some(User(id))
    requires !w.faults.deferReply
    ensures var t := Run(i, w).trace;
      && 2 <= |t| && t[1] == FindUser(id)
      && (id in w.users ==> forall k :: 0 <= k < |t| ==> !t[k].CreateUser?)
      && (forall k :: 0 <= k < |t| && t[k].CreateUser? ==>
            k == 2 && id !in w.users && t[k].created == UserRecord(id, LevelCard("", "", "")))
      && (id !in w.users && !w.faults.findOne ==> 3 <= |t| && t[2].CreateUser?)
  {

  }

  /** The planned calls when the sub-command, guild and user are all present. */
  lemma FullPlanShape(i: Interaction, w: World, sub: string, id: string)
    requires i.subcommand == Some(sub) && i.guild.Some? && i.user == Some(User(id))
    ensures var steps := CommandPlan(i, w).steps;
      var n := if id in w.users then 2 else 3;
      && |steps| == n + 1
      && steps[0] == Step(DeferReply, w.faults.deferReply)
      && steps[1] == Step(FindUser(id), w.faults.findOne)
      && (id !in w.users ==> steps[2] == Step(CreateUser(DefaultRecord(id)), w.faults.create))
      && steps[n] == Step(Branch(sub, RecordFor(id, w)), BranchThrows(sub, w.faults))
      && !CommandPlan(i, w).throwsAfter
  {

  }

  /** The actions only a sub-command branch performs. */
  predicate IsBranchAction(a: Action)
  {
    a.ViewConfig? || a.EditLevelCard? || a == EditReply(MissingSubcommand)
  }

  /**
   Exactly one branch runs once the record is in hand: the view handler for
   "view", the level-card handler for "levelcard", and the missing-sub-command
   reply for any other name.
   */
  lemma ExactlyOneBranch(i: Interaction, w: World, sub: string, id: string)
    requires i.subcommand == Some(sub) && i.guild.Some? && i.user == Some(User(id))
    requires !w.faults.deferReply && !w.faults.findOne && (id !in w.users ==> !w.faults.create)
    ensures var t := Run(i, w).trace;
      var n := if id in w.users then 2 else 3;
      && n < |t|
      && IsBranchAction(t[n])
      && (t[n].ViewConfig? <==> sub == "view")
      && (t[n].EditLevelCard? <==> sub == "levelcard")
      && (t[n] == EditReply(MissingSubcommand) <==> sub != "view" && sub != "levelcard")
      && forall k :: 0 <= k < |t| && IsBranchAction(t[k]) ==> k == n
  {

  }

  /** In the plan, a sub-command handler is the last call and gets the
      record the find-or-create step produced. */
  lemma PlanHandlersGetResolvedRecord(i: Interaction, w: World)
    ensures var steps := CommandPlan(i, w).steps;
      forall k :: 0 <= k < |steps| && (steps[k].action.ViewConfig? || steps[k].action.EditLevelCard?) ==>
        && i.user.Some?
        && 2 <= k
        && var id := i.user.value.id;
           && (id in w.users ==> steps[k].action.record == w.users[id] && steps[k - 1].action == FindUser(id))
           && (id !in w.users ==>
                 && steps[k - 1].action == CreateUser(steps[k].action.record)
                 && steps[k].action.record.userId == id)
  {
    if i.subcommand.Some? && i.guild.Some? && i.user.Some? {
      FullPlanShape(i, w, i.subcommand.value, i.user.value.id);
    }
  }

  /** Both sub-command handlers get the record the find-or-create step
      produced: the stored one unchanged, or the one just created. */
  lemma HandlersGetResolvedRecord(i: Interaction, w: World)
    ensures var t := Run(i, w).trace;
      forall k :: 0 <= k < |t| && (t[k].ViewConfig? || t[k].EditLevelCard?) ==>
        && i.user.Some?
        && var id := i.user.value.id;
           && (id in w.users ==> t[k].record == w.users[id] && t[k - 1] == FindUser(id))
           && (id !in w.users ==> t[k - 1] == CreateUser(t[k].record) && t[k].record.userId == id)
  {
    RunFollowsPlan(i, w);
    PlanHandlersGetResolvedRecord(i, w);
    var steps := CommandPlan(i, w).steps;
    var t := Run(i, w).trace;
    forall k | 0 <= k < |t| && (t[k].ViewConfig? || t[k].EditLevelCard?)
      ensures k < |steps| && t[k] == steps[k].action && t[k - 1] == steps[k - 1].action
    {
    }
  }
}
