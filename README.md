# Dream Oracle publisher bot, modelled in Dafny

This project models the core of a Telegram autoposting bot for the "Оракул Снов" channel.
The bot runs a three-stage pipeline:

1. **Find.** It searches NewsAPI, DuckDuckGo and three RSS feeds for material on a topic, merges what comes back, and picks one item.
2. **Generate.** It turns the chosen item into a prompt, sends one completion request, and post-processes the model's reply.
3. **Send.** It publishes the post to the channel.

An interval scheduler runs the pipeline automatically. Admin-only chat commands trigger it by hand and switch the scheduler on and off. Configuration comes from environment variables.

The modules follow the program's files:

- `pytext.dfy` (`PyText`): the Python built-ins the code relies on, with their exact semantics:
  - `dict.get` with a default, truthiness, f-string rendering of `None`;
  - `str.strip` over Python's whitespace set, `split`/`join`, slicing;
  - `int()` on text.
- `config.dfy` (`Config`): how the environment becomes settings, and `validate_config`.
- `content_finder.dfy` (`ContentFinder`):
  - the three fetchers, as loops over the backend's answer;
  - topic resolution, the merge, and the selection of one item.
- `groq_engine.dfy` (`GroqEngine`): the prompt template, the single completion request, and the post-processing of the reply.
- `bot.dfy` (`Bot`): the publishing pipeline as a trace of the stages that ran; the custom-post pipeline; the connection check.
- `scheduler.dfy` (`Scheduler`):
  - `PostScheduler` as a class over a running flag and the engine's job store;
  - the `DD.MM.YYYY HH:MM:SS` timestamp format, with a parser that inverts it.
- `commands.dfy` (`Commands`):
  - the admin gate;
  - the module-level bot and scheduler handles, as a class;
  - each handler's replies, which are abstract tags rather than the real texts.

Everything outside the process is a parameter of the operation that calls it:

- NewsAPI, DuckDuckGo, the feed parser, the completion backend and the Telegram API are functions from the request to a result or an exception. NewsAPI and DuckDuckGo are called with the query and the requested result count (3 and 5).
- `random.choice` is a nondeterministic choice (`:|`). Contracts hold for every possible choice.
- The scheduler's first fire time is an argument of `Start`.

Module-level configuration reaches the code that reads it as data:

- `config.SEARCH_TOPICS` and `config.RSS_FEEDS` are arguments of `find_content`, taken from the loaded settings.
- A `GroqEngine` is a value holding its model name and the fixed texts its requests are built from: the style prompt and the two prompt templates. `GroqEngine.NewEngine` fills them with the source's constants.

## Model

| member | source | states |
|---|---|---|
| PyText.Strip | config.py:29 | `strip()` never lengthens its input and leaves no whitespace at either end |
| PyText.StripSpec | config.py:29 | the stripped text is a contiguous piece of the input, and everything cut off on both sides is whitespace |
| PyText.StripKeepsOut | config.py:29 | stripping introduces no character the input did not contain |
| PyText.StripIdempotent | config.py:29 | stripping an already stripped string changes nothing |
| PyText.StripEmptyIff | config.py:29 | `strip()` gives the empty string exactly when every character is Python whitespace |
| PyText.JoinSplit | config.py:28 | joining the pieces of `split(sep)` with `sep` gives back the original text |
| PyText.SplitJoin | config.py:28 | splitting a join of separator-free pieces gives back those pieces |
| PyText.ParseIntOfText | config.py:14 | `int()` reads the decimal rendering of every integer, negative ones included, as that integer |
| PyText.ParseIntRejects | config.py:14 | a character that is not whitespace, a digit, a sign or an underscore, anywhere in the text, makes `int()` raise |
| PyText.SliceTo | groq_engine.py:86 | Python `s[:n]`: a prefix of length `min(n, len)`, counting from the end for negative `n` |
| Config.ParseTopics | config.py:28-29 | every topic is non-empty, has no surrounding whitespace and no comma; an unset variable gives no topics |
| Config.CleanTopicsKeepsOut | config.py:29 | a character absent from every piece is absent from every cleaned topic |
| Config.CleanTopicsAppend | config.py:29 | topics are filtered piece by piece, so their order is the pieces' order |
| Config.TopicsRoundTrip | config.py:28-29 | a list of clean topics written comma-separated parses back to the same list |
| Config.TopicsOfBlank | config.py:28-29 | a whitespace-only value yields no topics |
| Config.FlagIff | config.py:24 | `AUTO_POST_ENABLED` is on when unset, and otherwise exactly when it spells `true` in any letter case |
| Config.IntSetting | config.py:14 | an absent key is read from its default text; a present key succeeds iff `int()` reads its text, with that value, and otherwise fails naming the key and the text |
| Config.IntSettingRejects | config.py:14 | a set value containing a letter or other character `int()` cannot read is an error naming the key and the text |
| Config.IntDefaults | config.py:25 | with the keys absent, `ADMIN_USER_ID` is 0 and `POST_INTERVAL_HOURS` is 8 |
| Config.IntSettingRoundTrip | config.py:25 | a variable holding the decimal text of `n` is read as `n` |
| Config.Load | config.py:11-39 | every setting is its variable read as the source reads it: the strings as `os.getenv`, the two integers as `IntSetting`, the flag as `ParseFlag`, the topics as `ParseTopics`, the language defaulting to `ru`; a non-integer `ADMIN_USER_ID` or `POST_INTERVAL_HOURS` fails loading, `ADMIN_USER_ID` first |
| Config.MissingOfSpec | config.py:58 | a key is reported missing iff its value is unset or empty, in the order the keys are listed |
| Config.MissingKeys | config.py:52-58 | each of `BOT_TOKEN`, `CHANNEL_ID`, `GROQ_API_KEY` is reported iff unset or empty, in that order |
| Config.ValidateConfig | config.py:50-63 | fails iff a required key is unset or empty, with the missing keys joined by `, ` after the fixed prefix; otherwise returns true |
| Config.ValidationIgnoresOptional | config.py:52-56 | `CHANNEL_USERNAME` and `NEWS_API_KEY` never affect validation |
| ContentFinder.NewFinder | content_finder.py:16-22 | a NewsAPI client exists iff the key is truthy and its constructor did not raise |
| ContentFinder.NewsItem | content_finder.py:42-49 | an article becomes the six-key record with `''` defaults, `published` taken from `publishedAt`; the source is the `source` object's `name`, `NewsAPI` when either is absent; a JSON-null `source` raises |
| ContentFinder.NewsItemsSpec | content_finder.py:41-49 | a batch maps article by article, and fails iff some article has a null `source` |
| ContentFinder.SearchNewsApi | content_finder.py:24-56 | the loop's result is the specification `NewsApiSearch` |
| ContentFinder.NewsApiSearchSpec | content_finder.py:26-56 | no client or a failed call gives `[]`; never more than `max_results` items; each item is the mapping of the matching article |
| ContentFinder.DdgItem | content_finder.py:68-73 | `body` becomes `description`, `href` becomes `url`, and the source is always `DuckDuckGo` |
| ContentFinder.SearchDuckDuckGo | content_finder.py:58-80 | the loop's result is the specification `DuckDuckGoSearch` |
| ContentFinder.DuckDuckGoSearchSpec | content_finder.py:60-80 | a failure gives `[]`; otherwise one item per result, the mapping of that result, without a `content` key |
| ContentFinder.RssItem | content_finder.py:94-100 | `title` and `published` are kept (default `''`), `summary` becomes `description`, `link` becomes `url`, and the source is the feed title (default `RSS Feed`) |
| ContentFinder.RssEntryItems | content_finder.py:93-100 | one item per entry, none with a `content` key |
| ContentFinder.RssEntryItemsAt | content_finder.py:93-100 | item `k` is the mapping of entry `k`, so entries keep their order |
| ContentFinder.FeedEntries | content_finder.py:93-100 | the inner loop's result is the specification `RssEntryItems` |
| ContentFinder.ParseRssFeeds | content_finder.py:82-110 | the outer loop's result is the specification `RssSearch`, the feeds' items in feed order |
| ContentFinder.RssSearchOfFailingFeed | content_finder.py:102-104 | a feed that fails to parse contributes nothing |
| ContentFinder.RssSearchAppend | content_finder.py:89-104 | each feed contributes on its own, so a failing feed never loses the others' items |
| ContentFinder.RssSearchBound | content_finder.py:89-104 | at most `max_per_feed` items per feed in total |
| ContentFinder.MergedMembers | content_finder.py:136-139 | an item is merged iff it is in a result that is a list; exceptions contribute nothing |
| ContentFinder.MergedOfThree | content_finder.py:127-139 | the merge concatenates news, DuckDuckGo and RSS results in that order, skipping failures |
| ContentFinder.MergeResults | content_finder.py:136-139 | the merge loop's result is the specification `Merged` |
| ContentFinder.Select | content_finder.py:146-158 | the output record has the six keys from the selected item and the topic; `content` is the item's own key when present, else its description; a missing key or `None` title raises, and that is the only way the selection fails |
| ContentFinder.ResolveTopic | content_finder.py:118-122 | a non-empty topic is kept; otherwise one of the configured topics; otherwise `dreams and sleep science`; never empty |
| ContentFinder.ResolutionWithConfiguredTopics | content_finder.py:118-122 | with clean configured topics, an unset topic becomes one of them, and the default is used only when there are none |
| ContentFinder.SearchTopic | content_finder.py:127-158 | nothing gathered gives `None`; otherwise the output record of one gathered item |
| ContentFinder.FindContent | content_finder.py:112-158 | the topic searched is a legitimate resolution of the requested one (never empty), and the result is the search outcome for that topic |
| ContentFinder.SelectionFromOnlySource | content_finder.py:136-146 | with empty news and web results, every candidate comes from the feeds |
| ContentFinder.ContentFallsBackToDescription | content_finder.py:155 | an item without a `content` key yields its description as content |
| GroqEngine.CreatePromptSpec | groq_engine.py:70-100 | the prompt embeds the topic (default `сновидения`), the title (default empty) and at most the first 1500 characters of the content, which falls back to the description only when `content` is absent; `None` content raises |
| GroqEngine.PromptBodyDetermined | groq_engine.py:78-99 | the filled template determines the content it embeds |
| GroqEngine.Request | groq_engine.py:38-53 | every request names the engine's model and carries the style prompt as system message, the prompt as user message, and 800 tokens |
| GroqEngine.GeneratePost | groq_engine.py:16-68 | exactly one request, with the built prompt, unless building the prompt raised; the result is the finished reply |
| GroqEngine.GenerateCustomPost | groq_engine.py:102-150 | exactly one request, with the custom prompt; the result is the stripped reply |
| GroqEngine.PostWithUrl | groq_engine.py:56-60 | with a truthy url the post is the stripped reply plus exactly one `🔗 Источник:` line, which can be cut off again |
| GroqEngine.PostWithoutUrl | groq_engine.py:56-64 | without a url the post is exactly the stripped reply |
| GroqEngine.PostEmptyIff | groq_engine.py:56-60 | a post is empty iff the reply is all whitespace and there is no url |
| GroqEngine.PostFailurePropagates | groq_engine.py:66-68 | a backend failure in `generate_post` is raised again |
| GroqEngine.CustomFailurePropagates | groq_engine.py:148-150 | a backend failure in `generate_custom_post` is raised again |
| GroqEngine.CustomPostIsStripped | groq_engine.py:142-146 | a custom post is the stripped reply and never gets a source line |
| Bot.NewBot | bot.py:25-29 | a bot reads the given settings, its engine names the configured model and uses the source's fixed texts, and it has a NewsAPI client iff the key is truthy and the client was created |
| Bot.RunPipeline | bot.py:41-81 | a search on a legitimate resolution of the topic, with the configured topics and feeds, first; generation only after a find; a send only of a non-empty generated text, to `CHANNEL_ID` as plain text with previews on |
| Bot.PostLink | bot.py:84 | the logged link exists iff a channel username is set, and has no `@` after `https://t.me/` |
| Bot.CreateAndPublishPostAsWritten | bot.py:31-99 | as written: true iff the post was delivered and a channel username is set |
| Bot.CreateAndPublishPost | bot.py:31-99 | corrected: true iff the post was delivered; a delivered post is the non-empty generated text sent to the channel |
| Bot.DeliveredRun | bot.py:64-81 | a delivered post went through all three stages and is the non-empty generated text, sent to `CHANNEL_ID` |
| Bot.DeliveredPostNamesSource | bot.py:64-81 | a delivered post of an item with a url ends with that url's source line |
| Bot.UsernameNotRequired | bot.py:84 | a configuration that passes validation can lack `CHANNEL_USERNAME` |
| Bot.PublishCustomPost | bot.py:101-140 | no search; one generation; a send iff generation succeeded, even of empty text; true iff delivered |
| Bot.TestConnection | bot.py:142-167 | connected iff all three calls succeed; a non-administrator status only warns; a `TelegramError` from whichever call fails first gives false; other errors escape |
| Scheduler.FormatShape | scheduler.py:76 | a fire time renders as 19 characters, digits except `.`, `.`, space, `:`, `:` at positions 2, 5, 10, 13, 16 |
| Scheduler.ParseFormat | scheduler.py:76 | every rendered fire time reads back as itself |
| Scheduler.FormatParse | scheduler.py:76 | text that reads as a fire time is exactly that time's rendering |
| Scheduler.FindJob | scheduler.py:73 | `get_job` finds a registered job with that id, and finds nothing iff none is registered |
| Scheduler.AddJob | scheduler.py:40-46 | `replace_existing=True`: afterwards the id finds the new job, other ids are unaffected, the store grows only for a new id, and ids stay unique |
| Scheduler.CountOfUnique | scheduler.py:40-46 | with unique ids, a registered id occurs exactly once |
| Scheduler.PostScheduler.constructor | scheduler.py:20-23 | a new scheduler is stopped with no jobs and the configured interval |
| Scheduler.PostScheduler.AutoPostJob | scheduler.py:40-46 | the registered job has id `auto_post` and the configured interval |
| Scheduler.PostScheduler.Start | scheduler.py:33-57 | running: nothing changes; stopped: the job is registered or replaced and the engine starts; afterwards exactly one `auto_post` job |
| Scheduler.PostScheduler.Stop | scheduler.py:59-66 | stopped: nothing changes; running: the engine shuts down and the flag clears; the job store is kept |
| Scheduler.PostScheduler.GetNextRunTime | scheduler.py:68-77 | `Планировщик не запущен` when stopped, `Неизвестно` without the job, otherwise the job's fire time rendered |
| Scheduler.PostScheduler.RunningReportsTime | scheduler.py:68-77 | under the scheduler's invariant a running scheduler always shows a well-formed time |
| Scheduler.PostScheduler.ScheduledPost | scheduler.py:25-31 | a fire is exactly one run of the pipeline with no custom topic, on the scheduler's bot; its outcome is whether the post was delivered; the scheduler's state cannot change |
| Commands.IsAdmin | commands.py:23-27 | everyone is admin when `ADMIN_USER_ID` is 0; otherwise exactly the matching id |
| Commands.TopicRecoversArgs | commands.py:101 | the space-joined topic determines the space-free arguments |
| Commands.Handlers.constructor | commands.py:12-13 | both handles start unset |
| Commands.Handlers.SetBotInstance | commands.py:16-20 | both handles are overwritten, the scheduler with none when not given |
| Commands.Handlers.StartCommand | commands.py:30-59 | one welcome reply, with the controls section iff the user is admin |
| Commands.Handlers.PostNow | commands.py:62-82 | non-admins get only a denial and the bot does nothing; without a bot, a working notice and the missing-bot reply; otherwise a working notice, one pipeline run with no custom topic, and a reply saying whether it was delivered |
| Commands.Handlers.PostCustom | commands.py:85-115 | non-admins get only a denial and no arguments give the usage reply, and the bot does nothing in either case; otherwise the custom pipeline runs on the space-joined arguments, and the reply says whether the post was delivered |
| Commands.Handlers.StatusCommand | commands.py:118-140 | non-admins get only a denial; otherwise on with the next fire time iff a scheduler exists and runs |
| Commands.Handlers.NextPostCommand | commands.py:143-155 | non-admins get only a denial; a running scheduler's well-formed fire time, else the off reply |
| Commands.Handlers.EnableAuto | commands.py:158-177 | `start` runs only for an admin with a stopped scheduler, and the reply shows the fire time just registered; otherwise the scheduler is untouched |
| Commands.Handlers.DisableAuto | commands.py:180-195 | `stop` runs only for an admin with a running scheduler; otherwise the scheduler is untouched |

## Left out

- `run_bot.py`, `bot.main` and `scheduler.run_scheduler` are not part of this model. They wire the pieces together, print banners and loop forever.
- Network clients are left opaque. NewsAPI, DuckDuckGo, the feed parser, the completion backend and the Telegram API appear only as functions from request to answer or exception.
- Concurrency is left out. `asyncio.gather` becomes three results in a fixed order, which is the order `gather` returns them in.
- Logging and `print` output are left out, as are the exact reply texts, which are abstract tags.
  - The help sections at commands.py:43-57 are not f-strings, so they show their `{...}` placeholders literally. The tags do not capture this.
- The probabilities of `random.choice` are left out. Contracts hold for every choice.
- The completion request's float parameters (`temperature=0.9`, `top_p=1.0`) are left out.
- APScheduler internals are left out:
  - the Moscow timezone;
  - computing the first fire time, which is an argument of `Start`;
  - advancing `next_run_time` after each fire;
  - executors, misfire handling, and the timer firing `scheduled_post`;
  - the trigger's own handling of a non-positive interval;
  - a `start` that raises because no event loop is running.
- Microseconds and time zone of a fire time are left out, since the format does not show them.
- Scheduler.FormatTimestamp: a year below 1000 is rendered zero-padded to four digits. Some platforms' `strftime` print fewer digits. No reachable fire time has such a year.
- PyText.ParseInt: only ASCII digits are accepted. Python's `int()` also accepts other Unicode decimal digits.
- Config.ParseFlag: only ASCII letters are lower-cased. This matters only if a non-ASCII character lower-cases to one of `t`, `r`, `u`, `e`.
- Dictionary values are either strings or `None`. Numbers or nested objects inside backend records are not modelled.
- The outer `try` of `parse_rss_feeds` (content_finder.py:108-110) has no modelled failure, because the per-feed `try` catches every feed error.
- The `except Exception` branches of `post_now_command` and `post_custom_command` (commands.py:81-82, 114-115) are unreachable in the model. The bot methods they call catch every exception themselves.
- `DreamOracleBot.is_running` is set once and never read, so it is not modelled.
- Bot.NewBot: the Telegram client `Bot(token=...)` is not part of the value. The Telegram API is an argument of each operation that uses it.
- Commands.Handlers.PostNow runs the corrected pipeline `Bot.CreateAndPublishPost` from the Findings table. The source runs it as written, so with `CHANNEL_USERNAME` unset a delivered post gets the failure reply there. The model replies that it was published.
- Scheduler.PostScheduler.ScheduledPost also runs the corrected `Bot.CreateAndPublishPost`. The difference is only in the logged outcome, since the source discards the result.
- `CONTENT_LANGUAGE` is loaded but never used by the core.

## Findings

| source | as written | input that shows it | evidently intended | confidence | as-written member | corrected member |
|---|---|---|---|---|---|---|
| bot.py:84 | after `send_message` succeeds, the success log calls `config.CHANNEL_USERNAME.replace('@', '')`; with the username unset this raises `AttributeError`, and the catch-all at bot.py:96-99 returns `False` | `BOT_TOKEN`, `CHANNEL_ID` and `GROQ_API_KEY` set, `CHANNEL_USERNAME` unset (this passes validation, see `Bot.UsernameNotRequired`); a post is found, generated and sent | report `True` whenever the post was delivered; the link only feeds a log line | not executed | Bot.CreateAndPublishPostAsWritten | Bot.CreateAndPublishPost |
