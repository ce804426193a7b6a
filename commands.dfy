/** The Telegram command handlers: an admin gate in front of each control command, the
    module-level bot and scheduler handles, and which replies each handler sends. */
module Commands {
  import opened PyText
  import Config
  import Bot
  import Scheduler
  import GroqEngine

  /** The reply a handler sends, standing for its text. */
  datatype Reply =
    | Welcome(withControls: bool)
    | Denied
    | Working
    | WorkingOn(topic: string)
    | Published
    | PublishFailed
    | BotMissing
    | Usage
    | Status(autoPosting: bool, nextRun: Option<string>)
    | NextPost(time: string)
    | AutoPostingOff
    | AlreadyOn
    | Enabled(firstRun: string)
    | AlreadyOff
    | Disabled
    | SchedulerMissing

  /** `is_admin(user_id)`: an unset (zero) admin id lets everyone in. */
  function IsAdmin(adminUserId: int, userId: int): (r: bool)
    ensures adminUserId == 0 ==> r
    ensures adminUserId != 0 ==> (r <==> userId == adminUserId)
  {
    adminUserId == 0 || userId == adminUserId
  }

  /** The topic of `/post_custom`: the arguments joined by single spaces. */
  function CustomTopic(args: seq<string>): string {
    Join(args, " ")
  }

  /** The arguments the client splits a command into contain no space, so the topic
      determines them. */
  lemma TopicRecoversArgs(args: seq<string>)
    requires args != [] && forall k :: 0 <= k < |args| ==> ' ' !in args[k]
    ensures Split(CustomTopic(args), ' ') == args
  {
    SplitJoin(args, ' ');
  }

  /** The result reply of a publishing command. */
  function Outcome(ok: bool): Reply {
    if ok then Published else PublishFailed
  }

  /** The module's globals `bot_instance` and `scheduler_instance`, with the configuration. */
  class Handlers {
    const settings: Config.Settings
    var botInstance: Option<Bot.DreamOracleBot>
    var schedulerInstance: Scheduler.PostScheduler?

    ghost predicate Valid()
      reads this, schedulerInstance
    {
      schedulerInstance != null ==> schedulerInstance.Valid()
    }

    constructor(settings: Config.Settings)
      ensures this.settings == settings && botInstance.None? && schedulerInstance == null
    {
      this.settings := settings;
      botInstance := None;
      schedulerInstance := null;
    }

    /** `set_bot_instance(bot, scheduler)`: both handles are overwritten. */
    method SetBotInstance(bot: Bot.DreamOracleBot, scheduler: Scheduler.PostScheduler?)
      modifies this
      ensures botInstance == Some(bot) && schedulerInstance == scheduler
    {
      botInstance := Some(bot);
      schedulerInstance := scheduler;
    }

    /** `/start`: the welcome text, with the command list only for an admin. */
    method StartCommand(userId: int) returns (replies: seq<Reply>)
      ensures replies == [Welcome(IsAdmin(settings.adminUserId, userId))]
    {
      replies := [Welcome(IsAdmin(settings.adminUserId, userId))];
    }

    /** `/post_now`: denied, or a working notice and then the pipeline's result; `trace` is
        what the bot did, nothing when the caller is denied or no bot is set. */
    method PostNow(userId: int, services: Bot.Services) returns (replies: seq<Reply>, trace: seq<Bot.Stage>)
      ensures !IsAdmin(settings.adminUserId, userId) ==> replies == [Denied] && trace == []
      ensures IsAdmin(settings.adminUserId, userId) && botInstance.None? ==> replies == [Working, BotMissing] && trace == []
      ensures IsAdmin(settings.adminUserId, userId) && botInstance.Some? ==>
                && Bot.PipelineTrace(botInstance.value, services, None, trace)
                && Bot.SearchedAsFinder(botInstance.value, services, None, trace)
                && replies == [Working, Outcome(Bot.Delivered(trace))]
    {
      if !IsAdmin(settings.adminUserId, userId) {
        return [Denied], [];
      }
      if botInstance.None? {
        return [Working, BotMissing], [];
      }
      var ok;
      ok, trace := Bot.CreateAndPublishPost(botInstance.value, services, None);
      replies := [Working, Outcome(ok)];
    }

    /** `/post_custom [topic]`: denied, usage without arguments, otherwise a custom post on
        the joined arguments; `trace` is what the bot did, nothing unless it was asked to post. */
    method PostCustom(userId: int, args: seq<string>, services: Bot.Services) returns (replies: seq<Reply>, trace: seq<Bot.Stage>)
      ensures !IsAdmin(settings.adminUserId, userId) ==> replies == [Denied] && trace == []
      ensures IsAdmin(settings.adminUserId, userId) && args == [] ==> replies == [Usage] && trace == []
      ensures IsAdmin(settings.adminUserId, userId) && args != [] && botInstance.None? ==>
                replies == [WorkingOn(CustomTopic(args)), BotMissing] && trace == []
      ensures IsAdmin(settings.adminUserId, userId) && args != [] && botInstance.Some? ==>
                var b := botInstance.value;
                var g := GroqEngine.GenerateCustomPost(b.engine, CustomTopic(args), services.complete);
                && trace == [Bot.Generated(g)] + (if g.text.Ok? then
                              [Bot.Sent(Bot.CustomRequest(b, g.text.value), services.telegram.send(Bot.CustomRequest(b, g.text.value)))]
                            else [])
                && replies == [WorkingOn(CustomTopic(args)), Outcome(Bot.Delivered(trace))]
    {
      if !IsAdmin(settings.adminUserId, userId) {
        return [Denied], [];
      }
      if args == [] {
        return [Usage], [];
      }
      var topic := CustomTopic(args);
      if botInstance.None? {
        return [WorkingOn(topic), BotMissing], [];
      }
      var ok;
      ok, trace := Bot.PublishCustomPost(botInstance.value, services, topic);
      replies := [WorkingOn(topic), Outcome(ok)];
    }

    /** `/status`: whether automatic posting is on and, if so, the next fire time. */
    method StatusCommand(userId: int) returns (replies: seq<Reply>)
      ensures !IsAdmin(settings.adminUserId, userId) ==> replies == [Denied]
      ensures IsAdmin(settings.adminUserId, userId) ==>
                if schedulerInstance != null && schedulerInstance.isRunning
                then replies == [Status(true, Some(schedulerInstance.GetNextRunTime()))]
                else replies == [Status(false, None)]
    {
      if !IsAdmin(settings.adminUserId, userId) {
        return [Denied];
      }
      if schedulerInstance != null && schedulerInstance.isRunning {
        replies := [Status(true, Some(schedulerInstance.GetNextRunTime()))];
      } else {
        replies := [Status(false, None)];
      }
    }

    /** `/next_post`: the next fire time of a running scheduler, a well-formed timestamp. */
    method NextPostCommand(userId: int) returns (replies: seq<Reply>)
      requires Valid()
      ensures !IsAdmin(settings.adminUserId, userId) ==> replies == [Denied]
      ensures IsAdmin(settings.adminUserId, userId) && (schedulerInstance == null || !schedulerInstance.isRunning) ==>
                replies == [AutoPostingOff]
      ensures IsAdmin(settings.adminUserId, userId) && schedulerInstance != null && schedulerInstance.isRunning ==>
                replies == [NextPost(schedulerInstance.GetNextRunTime())] && Scheduler.TimestampShape(replies[0].time)
    {
      if !IsAdmin(settings.adminUserId, userId) {
        return [Denied];
      }
      if schedulerInstance != null && schedulerInstance.isRunning {
        schedulerInstance.RunningReportsTime();
        replies := [NextPost(schedulerInstance.GetNextRunTime())];
      } else {
        replies := [AutoPostingOff];
      }
    }

    /** `/enable_auto`: `start` is called only for an admin, with a scheduler, that is stopped;
        the reply then shows the fire time just registered. */
    method EnableAuto(userId: int, nextRun: Scheduler.DateTime) returns (replies: seq<Reply>)
      requires Valid()
      modifies schedulerInstance
      ensures Valid()
      ensures !IsAdmin(settings.adminUserId, userId) ==>
                replies == [Denied] && (schedulerInstance != null ==> unchanged(schedulerInstance))
      ensures IsAdmin(settings.adminUserId, userId) && schedulerInstance == null ==> replies == [SchedulerMissing]
      ensures IsAdmin(settings.adminUserId, userId) && schedulerInstance != null && old(schedulerInstance.isRunning) ==>
                replies == [AlreadyOn] && unchanged(schedulerInstance)
      ensures IsAdmin(settings.adminUserId, userId) && schedulerInstance != null && !old(schedulerInstance.isRunning) ==>
                && schedulerInstance.isRunning
                && schedulerInstance.jobs == Scheduler.AddJob(old(schedulerInstance.jobs), schedulerInstance.AutoPostJob(nextRun))
                && replies == [Enabled(schedulerInstance.GetNextRunTime())]
                && Scheduler.ParseTimestamp(replies[0].firstRun) == Some(nextRun)
    {
      if !IsAdmin(settings.adminUserId, userId) {
        return [Denied];
      }
      if schedulerInstance == null {
        return [SchedulerMissing];
      }
      if schedulerInstance.isRunning {
        return [AlreadyOn];
      }
      schedulerInstance.Start(nextRun);
      replies := [Enabled(schedulerInstance.GetNextRunTime())];
    }

    /** `/disable_auto`: `stop` is called only for an admin, with a scheduler, that is running. */
    method DisableAuto(userId: int) returns (replies: seq<Reply>)
      requires Valid()
      modifies schedulerInstance
      ensures Valid()
      ensures !IsAdmin(settings.adminUserId, userId) ==>
                replies == [Denied] && (schedulerInstance != null ==> unchanged(schedulerInstance))
      ensures IsAdmin(settings.adminUserId, userId) && schedulerInstance == null ==> replies == [SchedulerMissing]
      ensures IsAdmin(settings.adminUserId, userId) && schedulerInstance != null && !old(schedulerInstance.isRunning) ==>
                replies == [AlreadyOff] && unchanged(schedulerInstance)
      ensures IsAdmin(settings.adminUserId, userId) && schedulerInstance != null && old(schedulerInstance.isRunning) ==>
                && !schedulerInstance.isRunning && schedulerInstance.jobs == old(schedulerInstance.jobs)
                && replies == [Disabled]
    {
      if !IsAdmin(settings.adminUserId, userId) {
        return [Denied];
      }
      if schedulerInstance == null {
        return [SchedulerMissing];
      }
      if !schedulerInstance.isRunning {
        return [AlreadyOff];
      }
      schedulerInstance.Stop();
      replies := [Disabled];
    }
  }
}
