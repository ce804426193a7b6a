/** Post generation: the prompt built from a content dict, the single completion request
    each call issues, and the post-processing of the backend's reply. */
module GroqEngine {
  import opened PyText
  import Config

  /** Why a generation call raised: `None[:1500]` in the prompt, a backend error, or a
      reply whose message content is `None` (so `.strip()` fails). */
  datatype GenError = PromptTypeError | BackendRaised | NoMessageContent

  datatype Message = Message(role: string, content: string)

  /** `chat.completions.create(...)`; the float sampling parameters are not modelled. */
  datatype CompletionRequest = CompletionRequest(model: string, messages: seq<Message>, maxTokens: int)

  /** The backend: the message content it answers a request with, or an exception. */
  type Backend = CompletionRequest -> Result<PyVal, GenError>

  /** What one generation call did: the request it sent, if any, and what it returned or raised. */
  datatype Generation = Generation(request: Option<CompletionRequest>, text: Result<string, GenError>)

  const ContentLimit: int := 1500
  const MaxTokens: int := 800
  const DefaultPromptTopic: string := "сновидения"
  const SourceTrailerHead: string := "\n\n\U{1F517} Источник: "

  const PromptIntro: string := "\nНа основе этого материала создай интересный пост для канала \"Оракул Снов\":\n\nТЕМА: "
  const PromptTitle: string := "\n\nЗАГОЛОВОК: "
  const PromptContent: string := "\n\nСОДЕРЖАНИЕ:\n"
  const PromptTask: string := "\n\nЗАДАЧА:\n1. Создай захватывающий пост на русском языке (200-400 слов)\n2. Начни с мистического вступления с эмодзи\n3. Объясни научные факты простым языком\n4. Добавь эзотерическую интерпретацию\n5. Закончи практическим советом или вопросом для размышления\n6. Используй эмодзи для структуры: 🌙 💭 🔮 ✨ 🧠 📚\n\nСТИЛЬ: Сочетай научность и мистику, будь увлекательным!\n\nНЕ указывай источник в тексте поста (ссылка добавится автоматически).\n"

  const CustomIntro: string := "\nСоздай пост для канала \"Оракул Снов\" на тему:\n\n"
  const CustomTask: string := "\n\nТребования:\n- 200-400 слов на русском языке\n- Используй эмодзи\n- Сочетай научные факты и эзотерику\n- Будь увлекательным и информативным\n"

  /** The fixed texts every request is made of: the style prompt sent as system message
      and the long parts of the two user-message templates. */
  datatype Texts = Texts(style: string, intro: string, task: string, customIntro: string, customTask: string)

  const SourceTexts: Texts := Texts(Config.PostStylePrompt, PromptIntro, PromptTask, CustomIntro, CustomTask)

  /** A `GroqEngine`: the model its requests name and the texts they are built from. */
  datatype Engine = Engine(model: string, texts: Texts)

  /** `GroqEngine()`, given `config.GROQ_MODEL`. */
  function NewEngine(model: string): Engine {
    Engine(model, SourceTexts)
  }

  /** The prompt template with its three slots filled. */
  function PromptText(x: Texts, topic: string, title: string, body: string): string {
    x.intro + topic + PromptTitle + title + PromptContent + body + x.task
  }

  /** The content slot's source: `content_data.get('content', description)`. */
  function ContentField(d: Record): PyVal {
    Get(d, "content", Get(d, "description", PStr("")))
  }

  /** `_create_prompt(content_data)`: slicing a `None` content raises `TypeError`. */
  function CreatePrompt(x: Texts, d: Record): Result<string, GenError> {
    var topic := Get(d, "topic", PStr(DefaultPromptTopic));
    var title := Get(d, "title", PStr(""));
    match ContentField(d)
    case PNone => Err(PromptTypeError)
    case PStr(c) => Ok(PromptText(x, Show(topic), Show(title), SliceTo(c, ContentLimit)))
  }

  /** The prompt carries the topic (default `сновидения`), the title (default empty) and the
      first 1500 characters of the content, which is the description when `content` is absent. */
  lemma CreatePromptSpec(x: Texts, d: Record)
    ensures CreatePrompt(x, d).Err? <==> ContentField(d).PNone?
    ensures ContentField(d) == if "content" in d then d["content"] else Get(d, "description", PStr(""))
    ensures CreatePrompt(x, d).Ok? ==>
      var c := ContentField(d).s;
      var body := SliceTo(c, ContentLimit);
      && |body| <= ContentLimit && body <= c
      && (|c| <= ContentLimit ==> body == c)
      && CreatePrompt(x, d).value == PromptText(x, Show(Get(d, "topic", PStr(DefaultPromptTopic))), Show(Get(d, "title", PStr(""))), body)
  {
  }

  /** The filled template determines the content slot once topic and title are known. */
  lemma {:induction false} PromptBodyDetermined(x: Texts, topic: string, title: string, b1: string, b2: string)
    requires PromptText(x, topic, title, b1) == PromptText(x, topic, title, b2)
    ensures b1 == b2
  {
    var pre := x.intro + topic + PromptTitle + title + PromptContent;
    assert PromptText(x, topic, title, b1) == pre + (b1 + x.task);
    assert PromptText(x, topic, title, b2) == pre + (b2 + x.task);
    var s1, s2 := b1 + x.task, b2 + x.task;
    assert s1 == PromptText(x, topic, title, b1)[|pre|..];
    assert s2 == PromptText(x, topic, title, b2)[|pre|..];
    assert |b1| == |b2|;
    assert b1 == s1[..|b1|] && b2 == s2[..|b2|];
  }

  /** Every request: the style prompt as system message, the prompt as user message. */
  function Request(e: Engine, prompt: string): (q: CompletionRequest)
    ensures |q.messages| == 2 && q.messages[0] == Message("system", e.texts.style)
    ensures q.messages[1] == Message("user", prompt) && q.model == e.model && q.maxTokens == MaxTokens
  {
    CompletionRequest(e.model, [Message("system", e.texts.style), Message("user", prompt)], MaxTokens)
  }

  function SourceTrailer(url: string): string {
    SourceTrailerHead + url
  }

  /** `response.choices[0].message.content.strip()`, re-raising whatever the call raised. */
  function StrippedReply(reply: Result<PyVal, GenError>): Result<string, GenError> {
    match reply
    case Err(e) => Err(e)
    case Ok(PNone) => Err(NoMessageContent)
    case Ok(PStr(raw)) => Ok(Strip(raw))
  }

  /** The post-processing in `generate_post`: strip, then add the source line when `url` is truthy. */
  function FinishPost(d: Record, reply: Result<PyVal, GenError>): Result<string, GenError> {
    match StrippedReply(reply)
    case Err(e) => Err(e)
    case Ok(text) =>
      var url := Get(d, "url", PNone);
      if Truthy(url) then Ok(text + SourceTrailer(url.s)) else Ok(text)
  }

  /** `generate_post(content_data)`: the prompt is built before the request, so a prompt
      that raises means no request at all. */
  function GeneratePost(e: Engine, d: Record, complete: Backend): (g: Generation)
    ensures g.request.Some? <==> CreatePrompt(e.texts, d).Ok?
    ensures g.request.Some? ==> g.request.value == Request(e, CreatePrompt(e.texts, d).value)
                                && g.text == FinishPost(d, complete(g.request.value))
    ensures g.request.None? ==> g.text == Err(PromptTypeError)
  {
    match CreatePrompt(e.texts, d)
    case Err(err) => Generation(None, Err(err))
    case Ok(prompt) =>
      var q := Request(e, prompt);
      Generation(Some(q), FinishPost(d, complete(q)))
  }

  /** The user message of a custom post. */
  function CustomPrompt(x: Texts, userRequest: string): string {
    x.customIntro + userRequest + x.customTask
  }

  /** `generate_custom_post(user_request)`: exactly one request, whose reply is only stripped. */
  function GenerateCustomPost(e: Engine, userRequest: string, complete: Backend): (g: Generation)
    ensures g.request == Some(Request(e, CustomPrompt(e.texts, userRequest)))
    ensures g.text == StrippedReply(complete(Request(e, CustomPrompt(e.texts, userRequest))))
  {
    var q := Request(e, CustomPrompt(e.texts, userRequest));
    Generation(Some(q), StrippedReply(complete(q)))
  }

  /** With a truthy url the post is the stripped reply followed by exactly one source line;
      removing that line gives the stripped reply back. */
  lemma PostWithUrl(d: Record, raw: string)
    requires Truthy(Get(d, "url", PNone))
    ensures FinishPost(d, Ok(PStr(raw))) == Ok(Strip(raw) + SourceTrailer(Get(d, "url", PNone).s))
    ensures var t := FinishPost(d, Ok(PStr(raw))).value;
            var n := |SourceTrailer(Get(d, "url", PNone).s)|;
            |t| >= n && t[..|t| - n] == Strip(raw) && t[|t| - n..] == SourceTrailer(Get(d, "url", PNone).s)
  {
  }

  /** Without a url (absent, `None` or empty) the post is exactly the stripped reply. */
  lemma PostWithoutUrl(d: Record, raw: string)
    requires !Truthy(Get(d, "url", PNone))
    ensures FinishPost(d, Ok(PStr(raw))) == Ok(Strip(raw))
  {
  }

  /** A post is empty exactly when the reply is all whitespace and there is no url. */
  lemma PostEmptyIff(d: Record, raw: string)
    ensures FinishPost(d, Ok(PStr(raw))).value == "" <==>
              !Truthy(Get(d, "url", PNone)) && AllSpace(raw)
  {
    StripEmptyIff(raw);
  }

  /** A backend failure in `generate_post` is raised again, never turned into a post. */
  lemma PostFailurePropagates(e: Engine, d: Record, complete: Backend)
    requires CreatePrompt(e.texts, d).Ok? && complete(Request(e, CreatePrompt(e.texts, d).value)).Err?
    ensures GeneratePost(e, d, complete).text == Err(complete(Request(e, CreatePrompt(e.texts, d).value)).error)
  {
  }

  /** A backend failure in `generate_custom_post` is raised again, never turned into a post. */
  lemma CustomFailurePropagates(e: Engine, userRequest: string, complete: Backend)
    requires complete(Request(e, CustomPrompt(e.texts, userRequest))).Err?
    ensures GenerateCustomPost(e, userRequest, complete).text == Err(complete(Request(e, CustomPrompt(e.texts, userRequest))).error)
  {
  }

  /** The custom path never adds a source line: its text is the stripped reply, with no surrounding whitespace. */
  lemma CustomPostIsStripped(e: Engine, userRequest: string, complete: Backend)
    requires GenerateCustomPost(e, userRequest, complete).text.Ok?
    ensures IsStripped(GenerateCustomPost(e, userRequest, complete).text.value)
    ensures exists raw :: complete(Request(e, CustomPrompt(e.texts, userRequest))) == Ok(PStr(raw))
              && GenerateCustomPost(e, userRequest, complete).text.value == Strip(raw)
  {
  }
}
