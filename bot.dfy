/** The publishing pipeline of `DreamOracleBot`: find, generate, send, with every failure
    turned into a `False` result, and the connection check. */
module Bot {
  import opened PyText
  import Config
  import ContentFinder
  import GroqEngine

  /** The exceptions the Telegram client raises, as the handlers tell them apart. */
  datatype TgError = TelegramError | OtherError

  /** The arguments of one `send_message` call. */
  datatype SendRequest = SendRequest(chatId: Option<string>, text: string, parseMode: Option<string>, disablePreview: Option<bool>)

  datatype BotUser = BotUser(id: int, username: Option<string>)

  /** The Telegram Bot API as seen by the bot: `get_me`, `get_chat` (its title is only
      printed), `get_chat_member` (its status) and `send_message` (the new message id). */
  datatype Telegram = Telegram(
    getMe: Result<BotUser, TgError>,
    getChat: Option<string> -> Result<string, TgError>,
    getChatMember: (Option<string>, int) -> Result<string, TgError>,
    send: SendRequest -> Result<int, TgError>)

  /** Everything outside the process that one pipeline run talks to. */
  datatype Services = Services(search: ContentFinder.Backends, complete: GroqEngine.Backend, telegram: Telegram)

  /** A `DreamOracleBot`: the configuration it reads, its content finder and its engine. */
  datatype DreamOracleBot = DreamOracleBot(settings: Config.Settings, finder: ContentFinder.Finder, engine: GroqEngine.Engine)

  /** `DreamOracleBot()` under the given configuration: a `ContentFinder()` and a `GroqEngine()`. */
  function NewBot(settings: Config.Settings, newsClientCreated: bool): (b: DreamOracleBot)
    ensures b.settings == settings && b.engine.model == settings.groqModel && b.engine.texts == GroqEngine.SourceTexts
    ensures b.finder.hasNewsApi <==> Config.IsSet(settings.newsApiKey) && newsClientCreated
  {
    DreamOracleBot(settings, ContentFinder.NewFinder(settings.newsApiKey, newsClientCreated),
                   GroqEngine.NewEngine(settings.groqModel))
  }

  /** One stage of a pipeline run and what it produced. */
  datatype Stage =
    | Searched(topic: Option<string>, resolved: string, found: ContentFinder.FindResult)
    | Generated(generation: GroqEngine.Generation)
    | Sent(request: SendRequest, reply: Result<int, TgError>)

  /** The message `create_and_publish_post` sends: plain text, link previews on. */
  function PostRequest(b: DreamOracleBot, text: string): SendRequest {
    SendRequest(b.settings.channelId, text, None, Some(false))
  }

  /** The message `publish_custom_post` sends: plain text, preview option left unset. */
  function CustomRequest(b: DreamOracleBot, text: string): SendRequest {
    SendRequest(b.settings.channelId, text, None, None)
  }

  /** The stages of `create_and_publish_post`: a search; a generation only when something was
      found; a send only when the generated text is non-empty. */
  ghost predicate PipelineTrace(b: DreamOracleBot, s: Services, customTopic: Option<string>, trace: seq<Stage>) {
    && 1 <= |trace| <= 3
    && trace[0].Searched? && trace[0].topic == customTopic
    && (|trace| >= 2 <==> trace[0].found.Found?)
    && (|trace| >= 2 ==>
          trace[1] == Generated(GroqEngine.GeneratePost(b.engine, trace[0].found.content, s.complete)))
    && (|trace| == 3 <==> |trace| >= 2 && trace[1].generation.text.Ok? && trace[1].generation.text.value != "")
    && (|trace| == 3 ==>
          var q := PostRequest(b, trace[1].generation.text.value);
          trace[2] == Sent(q, s.telegram.send(q)))
  }

  /** The search stage resolved the requested topic against the configured topics and
      returned what `find_content` may return for it, with the configured feeds. */
  predicate SearchedAsFinder(b: DreamOracleBot, s: Services, customTopic: Option<string>, trace: seq<Stage>) {
    && trace != [] && trace[0].Searched?
    && ContentFinder.IsResolution(customTopic, b.settings.searchTopics, trace[0].resolved)
    && ContentFinder.SearchOutcome(b.finder, s.search, b.settings.rssFeeds, trace[0].resolved, trace[0].found)
  }

  /** The post reached the channel: the last stage is a send that returned a message. */
  predicate Delivered(trace: seq<Stage>) {
    trace != [] && trace[|trace| - 1].Sent? && trace[|trace| - 1].reply.Ok?
  }

  /** Everything in `create_and_publish_post` up to and including `send_message`. */
  method RunPipeline(b: DreamOracleBot, s: Services, customTopic: Option<string>) returns (trace: seq<Stage>)
    ensures PipelineTrace(b, s, customTopic, trace)
    ensures SearchedAsFinder(b, s, customTopic, trace)
  {
    var topic, found := ContentFinder.FindContent(b.finder, s.search, b.settings.rssFeeds, customTopic, b.settings.searchTopics);
    if !found.Found? {
      return [Searched(customTopic, topic, found)];
    }
    var g := GroqEngine.GeneratePost(b.engine, found.content, s.complete);
    if g.text.Err? || g.text.value == "" {
      return [Searched(customTopic, topic, found), Generated(g)];
    }
    var q := PostRequest(b, g.text.value);
    trace := [Searched(customTopic, topic, found), Generated(g), Sent(q, s.telegram.send(q))];
  }

  /** `text.replace(c, '')`. */
  function RemoveAll(text: string, c: char): (r: string)
    ensures c !in r && |r| <= |text|
    ensures forall x :: x in r <==> x in text && x != c
  {
    if text == [] then []
    else if text[0] == c then RemoveAll(text[1..], c)
    else [text[0]] + RemoveAll(text[1..], c)
  }

  const LinkPrefix: string := "https://t.me/"

  /** `None.replace(...)` raises `AttributeError`. */
  datatype LinkError = UsernameUnset

  /** The post link logged after a send. */
  function PostLink(username: Option<string>, messageId: int): (r: Result<string, LinkError>)
    ensures r.Ok? <==> username.Some?
    ensures r.Ok? ==> LinkPrefix <= r.value && '@' !in r.value[|LinkPrefix|..]
  {
    match username
    case None => Err(UsernameUnset)
    case Some(u) =>
      var link := LinkPrefix + RemoveAll(u, '@') + "/" + IntToText(messageId);
      assert link[|LinkPrefix|..] == RemoveAll(u, '@') + "/" + IntToText(messageId);
      Ok(link)
  }

  /** `create_and_publish_post` exactly as written: once the message is sent, building the
      logged link from an unset channel username raises, and the catch-all returns `False`. */
  method CreateAndPublishPostAsWritten(b: DreamOracleBot, s: Services, customTopic: Option<string>)
    returns (ok: bool, trace: seq<Stage>)
    ensures PipelineTrace(b, s, customTopic, trace)
    ensures SearchedAsFinder(b, s, customTopic, trace)
    ensures ok <==> Delivered(trace) && b.settings.channelUsername.Some?
  {
    trace := RunPipeline(b, s, customTopic);
    ok := Delivered(trace) && PostLink(b.settings.channelUsername, trace[|trace| - 1].reply.value).Ok?;
  }

  /** `create_and_publish_post(custom_topic)`, reporting success exactly when the post was
      delivered; the link is logged only when a username is configured. */
  method CreateAndPublishPost(b: DreamOracleBot, s: Services, customTopic: Option<string>)
    returns (ok: bool, trace: seq<Stage>)
    ensures PipelineTrace(b, s, customTopic, trace)
    ensures SearchedAsFinder(b, s, customTopic, trace)
    ensures ok <==> Delivered(trace)
    ensures ok ==> |trace| == 3 && trace[0].found.Found? && trace[2].request.text != ""
                   && trace[2].request.text == trace[1].generation.text.value
                   && trace[2].request.chatId == b.settings.channelId
  {
    trace := RunPipeline(b, s, customTopic);
    ok := Delivered(trace);
    if ok {
      DeliveredRun(b, s, customTopic, trace);
    }
  }

  /** A delivered run went through all three stages and sent the generated text to the channel. */
  lemma DeliveredRun(b: DreamOracleBot, s: Services, customTopic: Option<string>, trace: seq<Stage>)
    requires PipelineTrace(b, s, customTopic, trace) && Delivered(trace)
    ensures |trace| == 3 && trace[0].found.Found? && trace[2].request.text != ""
            && trace[2].request.text == trace[1].generation.text.value
            && trace[2].request.chatId == b.settings.channelId
  {
  }

  /** A delivered post carries a source line when the selected item had a url. */
  lemma DeliveredPostNamesSource(b: DreamOracleBot, s: Services, customTopic: Option<string>, trace: seq<Stage>)
    requires PipelineTrace(b, s, customTopic, trace) && Delivered(trace)
    requires Truthy(Get(trace[0].found.content, "url", PNone))
    ensures exists raw :: trace[2].request.text ==
              Strip(raw) + GroqEngine.SourceTrailer(Get(trace[0].found.content, "url", PNone).s)
  {
    var d := trace[0].found.content;
    var g := trace[1].generation;
    var q := g.request.value;
    var reply := s.complete(q);
    assert g.text == GroqEngine.FinishPost(d, reply);
    var raw := reply.value.s;
    GroqEngine.PostWithUrl(d, raw);
    assert trace[2].request.text == Strip(raw) + GroqEngine.SourceTrailer(Get(d, "url", PNone).s);
  }

  /** A configuration that passes validation can leave the channel username unset, so the
      failure `CreateAndPublishPostAsWritten` reports after a delivered post occurs. */
  lemma UsernameNotRequired(env: Config.Env)
    requires forall key :: key in Config.RequiredKeys ==> key in env && env[key] != ""
    requires "ADMIN_USER_ID" !in env && "POST_INTERVAL_HOURS" !in env && "CHANNEL_USERNAME" !in env
    ensures Config.Load(env).Ok?
    ensures Config.ValidateConfig(Config.Load(env).value).Ok?
    ensures Config.Load(env).value.channelUsername.None?
  {
    Config.IntDefaults(env);
    var r := Config.Load(env);
    assert r.Ok?;
    assert "BOT_TOKEN" in Config.RequiredKeys && "CHANNEL_ID" in Config.RequiredKeys && "GROQ_API_KEY" in Config.RequiredKeys;
    assert Config.IsSet(r.value.botToken) && Config.IsSet(r.value.channelId) && Config.IsSet(r.value.groqApiKey);
  }

  /** `publish_custom_post(user_request)`: no search and no emptiness check; generation
      errors and send errors both return `False`. */
  method PublishCustomPost(b: DreamOracleBot, s: Services, userRequest: string) returns (ok: bool, trace: seq<Stage>)
    ensures 1 <= |trace| <= 2
    ensures trace[0] == Generated(GroqEngine.GenerateCustomPost(b.engine, userRequest, s.complete))
    ensures |trace| == 2 <==> trace[0].generation.text.Ok?
    ensures |trace| == 2 ==> trace[1] == Sent(CustomRequest(b, trace[0].generation.text.value),
                                               s.telegram.send(CustomRequest(b, trace[0].generation.text.value)))
    ensures ok <==> Delivered(trace)
  {
    var g := GroqEngine.GenerateCustomPost(b.engine, userRequest, s.complete);
    if g.text.Err? {
      return false, [Generated(g)];
    }
    var q := CustomRequest(b, g.text.value);
    var reply := s.telegram.send(q);
    ok, trace := reply.Ok?, [Generated(g), Sent(q, reply)];
  }

  const AdminStatuses: seq<string> := ["administrator", "creator"]

  /** What `test_connection` did: returned a flag (having warned that the bot is not an
      administrator, or not), or let a non-Telegram exception escape. */
  datatype ConnectionCheck = Returned(connected: bool, warnedNotAdmin: bool) | Propagated(error: TgError)

  /** A failed Telegram call: `TelegramError` is caught and gives `False`; anything else escapes. */
  function Failed(e: TgError): ConnectionCheck {
    if e == TelegramError then Returned(false, false) else Propagated(e)
  }

  /** `test_connection()`: bot, then channel, then the bot's membership; a non-administrator
      status only warns. */
  function TestConnection(b: DreamOracleBot, tg: Telegram): (r: ConnectionCheck)
    ensures r == Returned(true, false) || r == Returned(true, true) <==>
              tg.getMe.Ok? && tg.getChat(b.settings.channelId).Ok?
              && tg.getChatMember(b.settings.channelId, tg.getMe.value.id).Ok?
    ensures r.Returned? && r.connected ==>
              (r.warnedNotAdmin <==> tg.getChatMember(b.settings.channelId, tg.getMe.value.id).value !in AdminStatuses)
    ensures r.Returned? && !r.connected ==> !r.warnedNotAdmin
    ensures r.Propagated? ==> r.error == OtherError
    ensures tg.getMe.Err? ==> r == Failed(tg.getMe.error)
    ensures tg.getMe.Ok? && tg.getChat(b.settings.channelId).Err? ==> r == Failed(tg.getChat(b.settings.channelId).error)
    ensures tg.getMe.Ok? && tg.getChat(b.settings.channelId).Ok?
            && tg.getChatMember(b.settings.channelId, tg.getMe.value.id).Err? ==>
              r == Failed(tg.getChatMember(b.settings.channelId, tg.getMe.value.id).error)
  {
    match tg.getMe
    case Err(e) => Failed(e)
    case Ok(me) =>
      match tg.getChat(b.settings.channelId)
      case Err(e) => Failed(e)
      case Ok(_) =>
        match tg.getChatMember(b.settings.channelId, me.id)
        case Err(e) => Failed(e)
        case Ok(status) => Returned(true, status !in AdminStatuses)
  }
}
