/** The bot's settings as read from the process environment at import time, and the
    start-up check that the required credentials are present. */
module Config {
  import opened PyText

  /** The process environment after `.env` loading: a variable name to its text. */
  type Env = map<string, string>

  /** `os.getenv(key)`. */
  function Getenv(env: Env, key: string): (v: Option<string>)
    ensures v.Some? <==> key in env
    ensures key in env ==> v.value == env[key]
  {
    if key in env then Some(env[key]) else None
  }

  /** `os.getenv(key, default)`. */
  function GetenvOr(env: Env, key: string, default: string): string {
    if key in env then env[key] else default
  }

  /** Python truthiness of an optional setting: `None` and `''` are false. */
  predicate IsSet(v: Option<string>) {
    v.Some? && v.value != ""
  }

  const GroqModel: string := "llama-3.3-70b-versatile"

  /** The system message of every completion request. */
  const PostStylePrompt: string := "\nТы - Оракул Снов, мистический гид в мире сновидений. \nТвой стиль: сочетание научных фактов с эзотерической мудростью.\nИспользуй эмодзи, создавай атмосферу тайны, но опирайся на реальные исследования.\nПиши на русском языке, делай посты интересными и вовлекающими.\n"
  const DefaultAdminUserId: string := "0"
  const DefaultPostIntervalHours: string := "8"
  const DefaultLanguage: string := "ru"

  /** The fixed list of science feeds that the RSS fetcher reads, in order. */
  const RssFeeds: seq<string> := [
    "https://www.sciencedaily.com/rss/mind_brain/sleep.xml",
    "https://www.sciencedaily.com/rss/mind_brain/dreams.xml",
    "http://feeds.feedburner.com/PsychologyToday/blog/dream-factory"
  ]

  datatype Settings = Settings(
    botToken: Option<string>,
    channelId: Option<string>,
    channelUsername: Option<string>,
    adminUserId: int,
    groqApiKey: Option<string>,
    groqModel: string,
    newsApiKey: Option<string>,
    autoPostEnabled: bool,
    postIntervalHours: int,
    searchTopics: seq<string>,
    contentLanguage: string,
    rssFeeds: seq<string>)

  /** Importing the settings fails when an integer setting is not an integer literal. */
  datatype ConfigError = NotAnInteger(key: string, text: string)

  // ---------------------------------------------------------------- topics

  /** The comprehension that strips every piece and keeps the non-empty ones. */
  function CleanTopics(pieces: seq<string>): (r: seq<string>)
    ensures |r| <= |pieces|
    ensures forall k :: 0 <= k < |r| ==> r[k] != "" && IsStripped(r[k])
  {
    if pieces == [] then []
    else
      var rest := CleanTopics(pieces[1..]);
      var t := Strip(pieces[0]);
      if t != "" then [t] + rest else rest
  }

  /** `SEARCH_TOPICS`: the comma-separated pieces of the variable, stripped, empties dropped. */
  function ParseTopics(raw: Option<string>): (r: seq<string>)
    ensures raw.None? ==> r == []
    ensures forall k :: 0 <= k < |r| ==> r[k] != "" && IsStripped(r[k]) && ',' !in r[k]
  {
    var pieces := Split(if raw.Some? then raw.value else "", ',');
    CleanTopicsKeepsOut(pieces, ',');
    CleanTopics(pieces)
  }

  /** No string of `ts` contains `c`. */
  predicate NoneContains(ts: seq<string>, c: char) {
    forall k :: 0 <= k < |ts| ==> c !in ts[k]
  }

  /** Cleaning introduces no character that no piece contained. */
  lemma {:induction false} CleanTopicsKeepsOut(pieces: seq<string>, c: char)
    requires NoneContains(pieces, c)
    ensures NoneContains(CleanTopics(pieces), c)
  {
    if pieces != [] {
      var rest := pieces[1..];
      assert NoneContains(rest, c) by {
        forall k | 0 <= k < |rest| ensures c !in rest[k] {
          assert rest[k] == pieces[k + 1];
        }
      }
      CleanTopicsKeepsOut(rest, c);
      assert c !in pieces[0];
      StripKeepsOut(pieces[0], c);
    }
  }

  /** Cleaning respects concatenation, so earlier pieces give earlier topics. */
  lemma {:induction false} CleanTopicsAppend(a: seq<string>, b: seq<string>)
    ensures CleanTopics(a + b) == CleanTopics(a) + CleanTopics(b)
  {
    if a != [] {
      assert (a + b)[0] == a[0] && (a + b)[1..] == a[1..] + b;
      CleanTopicsAppend(a[1..], b);
    } else {
      assert a + b == b;
    }
  }

  /** Pieces that are already clean pass through unchanged. */
  lemma {:induction false} CleanTopicsOfClean(ts: seq<string>)
    requires forall k :: 0 <= k < |ts| ==> ts[k] != "" && IsStripped(ts[k])
    ensures CleanTopics(ts) == ts
  {
    if ts != [] {
      CleanTopicsOfClean(ts[1..]);
      StripOfStripped(ts[0]);
    }
  }

  /** A topic list written as `a,b,c` reads back as exactly that list, in order. */
  lemma TopicsRoundTrip(ts: seq<string>)
    requires ts != []
    requires forall k :: 0 <= k < |ts| ==> ts[k] != "" && IsStripped(ts[k]) && ',' !in ts[k]
    ensures ParseTopics(Some(Join(ts, ","))) == ts
  {
    SplitJoin(ts, ',');
    CleanTopicsOfClean(ts);
  }

  /** An unset or blank variable gives no topics at all. */
  lemma TopicsOfBlank(raw: string)
    requires AllSpace(raw)
    ensures ParseTopics(Some(raw)) == []
  {
    AllSpaceExcludes(raw, ',');
    SplitNoSep(raw, ',');
    StripEmptyIff(raw);
  }

  // ---------------------------------------------------------------- the flag

  function AsciiLowerChar(c: char): char {
    if 'A' <= c <= 'Z' then (c as int + 32) as char else c
  }

  /** `str.lower()` restricted to ASCII letters, which decides a comparison with `'true'` exactly. */
  function AsciiLower(s: string): (r: string)
    ensures |r| == |s| && forall k :: 0 <= k < |s| ==> r[k] == AsciiLowerChar(s[k])
  {
    if s == [] then [] else [AsciiLowerChar(s[0])] + AsciiLower(s[1..])
  }

  /** `AUTO_POST_ENABLED`: the lower-cased value, or `'true'` when unset, compared with `'true'`. */
  function ParseFlag(raw: Option<string>): bool {
    AsciiLower(if raw.Some? then raw.value else "true") == "true"
  }

  /** The flag is on exactly when the variable is unset or spells `true` in any letter case. */
  lemma FlagIff(raw: Option<string>)
    ensures ParseFlag(raw) <==>
      raw.None? ||
      (|raw.value| == 4 && raw.value[0] in "tT" && raw.value[1] in "rR" && raw.value[2] in "uU" && raw.value[3] in "eE")
  {
    if raw.Some? && ParseFlag(raw) {
      var l := AsciiLower(raw.value);
      assert l[0] == 't' && l[1] == 'r' && l[2] == 'u' && l[3] == 'e';
    }
    if raw.Some? && |raw.value| == 4 && raw.value[0] in "tT" && raw.value[1] in "rR" && raw.value[2] in "uU" && raw.value[3] in "eE" {
      assert AsciiLower(raw.value) == "true";
    }
  }

  // ---------------------------------------------------------------- integers

  /** `int(os.getenv(key, default))`. */
  function IntSetting(env: Env, key: string, default: string): (r: Result<int, ConfigError>)
    ensures key !in env ==> r == match ParseInt(default)
                                 case Ok(v) => Ok(v)
                                 case Err(_) => Err(NotAnInteger(key, default))
    ensures key in env ==> (r.Ok? <==> ParseInt(env[key]).Ok?)
    ensures key in env && r.Ok? ==> r.value == ParseInt(env[key]).value
    ensures key in env && r.Err? ==> r.error == NotAnInteger(key, env[key])
  {
    var text := GetenvOr(env, key, default);
    match ParseInt(text)
    case Ok(v) => Ok(v)
    case Err(_) => Err(NotAnInteger(key, text))
  }

  /** The defaults: the admin id is 0, the interval 8 hours. */
  lemma IntDefaults(env: Env)
    requires "ADMIN_USER_ID" !in env && "POST_INTERVAL_HOURS" !in env
    ensures IntSetting(env, "ADMIN_USER_ID", DefaultAdminUserId) == Ok(0)
    ensures IntSetting(env, "POST_INTERVAL_HOURS", DefaultPostIntervalHours) == Ok(8)
  {
    ParseIntOfDigits("0");
    ParseIntOfDigits("8");
  }

  /** Every integer written out in decimal is read back as itself. */
  lemma IntSettingRoundTrip(env: Env, key: string, default: string, n: int)
    requires key in env && env[key] == IntToText(n)
    ensures IntSetting(env, key, default) == Ok(n)
  {
    ParseIntOfText(n);
  }

  /** A set value with a character `int()` cannot read, such as a letter, is an error that
      names the key and the text. */
  lemma IntSettingRejects(env: Env, key: string, default: string, k: int)
    requires key in env && 0 <= k < |env[key]|
    requires !IsSpace(env[key][k]) && !IsDigit(env[key][k]) && env[key][k] !in "+-_"
    ensures IntSetting(env, key, default) == Err(NotAnInteger(key, env[key]))
  {
    ParseIntRejects(env[key], k);
  }

  /** Importing the settings. `ADMIN_USER_ID` is converted before `POST_INTERVAL_HOURS`,
      so a bad admin id is the error reported when both are bad. */
  function Load(env: Env): (r: Result<Settings, ConfigError>)
    ensures r.Ok? ==> (r.value.searchTopics == ParseTopics(Getenv(env, "SEARCH_TOPICS"))
                       && r.value.rssFeeds == RssFeeds && r.value.groqModel == GroqModel
                       && r.value.botToken == Getenv(env, "BOT_TOKEN")
                       && r.value.channelId == Getenv(env, "CHANNEL_ID")
                       && r.value.channelUsername == Getenv(env, "CHANNEL_USERNAME")
                       && r.value.groqApiKey == Getenv(env, "GROQ_API_KEY")
                       && r.value.newsApiKey == Getenv(env, "NEWS_API_KEY")
                       && r.value.contentLanguage == GetenvOr(env, "CONTENT_LANGUAGE", DefaultLanguage))
    ensures r.Ok? ==> (IntSetting(env, "ADMIN_USER_ID", DefaultAdminUserId) == Ok(r.value.adminUserId)
                       && IntSetting(env, "POST_INTERVAL_HOURS", DefaultPostIntervalHours) == Ok(r.value.postIntervalHours)
                       && r.value.autoPostEnabled == ParseFlag(Getenv(env, "AUTO_POST_ENABLED")))
    ensures r.Err? <==> IntSetting(env, "ADMIN_USER_ID", DefaultAdminUserId).Err?
                        || IntSetting(env, "POST_INTERVAL_HOURS", DefaultPostIntervalHours).Err?
    ensures IntSetting(env, "ADMIN_USER_ID", DefaultAdminUserId).Err? ==>
              r == Err(NotAnInteger("ADMIN_USER_ID", GetenvOr(env, "ADMIN_USER_ID", DefaultAdminUserId)))
  {
    match IntSetting(env, "ADMIN_USER_ID", DefaultAdminUserId)
    case Err(e) => Err(e)
    case Ok(admin) =>
      match IntSetting(env, "POST_INTERVAL_HOURS", DefaultPostIntervalHours)
      case Err(e) => Err(e)
      case Ok(hours) =>
        Ok(Settings(
          botToken := Getenv(env, "BOT_TOKEN"),
          channelId := Getenv(env, "CHANNEL_ID"),
          channelUsername := Getenv(env, "CHANNEL_USERNAME"),
          adminUserId := admin,
          groqApiKey := Getenv(env, "GROQ_API_KEY"),
          groqModel := GroqModel,
          newsApiKey := Getenv(env, "NEWS_API_KEY"),
          autoPostEnabled := ParseFlag(Getenv(env, "AUTO_POST_ENABLED")),
          postIntervalHours := hours,
          searchTopics := ParseTopics(Getenv(env, "SEARCH_TOPICS")),
          contentLanguage := GetenvOr(env, "CONTENT_LANGUAGE", DefaultLanguage),
          rssFeeds := RssFeeds))
  }

  // ---------------------------------------------------------------- validation

  const RequiredKeys: seq<string> := ["BOT_TOKEN", "CHANNEL_ID", "GROQ_API_KEY"]

  const MissingPrefix: string := "Отсутствуют обязательные переменные: "

  /** The `required_vars` dict, in its insertion order. */
  function RequiredVars(s: Settings): seq<(string, Option<string>)> {
    [("BOT_TOKEN", s.botToken), ("CHANNEL_ID", s.channelId), ("GROQ_API_KEY", s.groqApiKey)]
  }

  /** The names whose value is not truthy, in the order given. */
  function MissingOf(vars: seq<(string, Option<string>)>): (r: seq<string>)
    ensures |r| <= |vars|
  {
    if vars == [] then []
    else (if IsSet(vars[0].1) then [] else [vars[0].0]) + MissingOf(vars[1..])
  }

  /** `xs` can be obtained from `ys` by deleting elements. */
  predicate IsSubsequence(xs: seq<string>, ys: seq<string>)
    decreases |ys|
  {
    xs == [] || (ys != [] && ((xs[0] == ys[0] && IsSubsequence(xs[1..], ys[1..])) || IsSubsequence(xs, ys[1..])))
  }

  function Names(vars: seq<(string, Option<string>)>): (r: seq<string>)
    ensures |r| == |vars| && forall i :: 0 <= i < |vars| ==> r[i] == vars[i].0
  {
    if vars == [] then [] else [vars[0].0] + Names(vars[1..])
  }

  /** A name is reported missing exactly when one of its entries is unset or empty, and
      the report keeps the declaration order. */
  lemma {:induction false} MissingOfSpec(vars: seq<(string, Option<string>)>, k: string)
    ensures k in MissingOf(vars) <==> exists i :: 0 <= i < |vars| && vars[i].0 == k && !IsSet(vars[i].1)
    ensures IsSubsequence(MissingOf(vars), Names(vars))
  {
    if vars != [] {
      MissingOfSpec(vars[1..], k);
      var m := MissingOf(vars);
      var rest := MissingOf(vars[1..]);
      assert Names(vars)[1..] == Names(vars[1..]);
      if !IsSet(vars[0].1) {
        assert m == [vars[0].0] + rest && m[0] == Names(vars)[0] && m[1..] == rest;
      } else {
        assert m == rest;
      }
      if (exists i :: 0 <= i < |vars| && vars[i].0 == k && !IsSet(vars[i].1)) {
        var i :| 0 <= i < |vars| && vars[i].0 == k && !IsSet(vars[i].1);
        if i > 0 {
          assert vars[1..][i - 1] == vars[i];
        }
      }
      if k in rest {
        var i :| 0 <= i < |vars[1..]| && vars[1..][i].0 == k && !IsSet(vars[1..][i].1);
        assert vars[i + 1] == vars[1..][i];
      }
    }
  }

  lemma MissingOfRequired(s: Settings)
    ensures MissingOf(RequiredVars(s)) ==
      (if IsSet(s.botToken) then [] else ["BOT_TOKEN"]) + (if IsSet(s.channelId) then [] else ["CHANNEL_ID"])
      + (if IsSet(s.groqApiKey) then [] else ["GROQ_API_KEY"])
  {
    var vars := RequiredVars(s);
    assert vars[1..] == [("CHANNEL_ID", s.channelId), ("GROQ_API_KEY", s.groqApiKey)];
    assert vars[1..][1..] == [("GROQ_API_KEY", s.groqApiKey)];
    assert vars[1..][1..][1..] == [];
    assert MissingOf(vars[1..][1..]) == (if IsSet(s.groqApiKey) then [] else ["GROQ_API_KEY"]) + MissingOf([]);
    assert MissingOf(vars[1..]) == (if IsSet(s.channelId) then [] else ["CHANNEL_ID"]) + MissingOf(vars[1..][1..]);
  }

  /** `validate_config()`: `True`, or the `ValueError` message naming what is missing. */
  function ValidateConfig(s: Settings): (r: Result<bool, string>)
    ensures r.Ok? ==> r.value
    ensures r.Err? <==> !IsSet(s.botToken) || !IsSet(s.channelId) || !IsSet(s.groqApiKey)
    ensures r.Err? ==> r.error == MissingPrefix + Join(MissingOf(RequiredVars(s)), ", ")
  {
    var missing := MissingOf(RequiredVars(s));
    MissingOfRequired(s);
    if missing != [] then Err(MissingPrefix + Join(missing, ", ")) else Ok(true)
  }

  /** Each required key appears in the report exactly when it is unset or empty,
      and the report lists them in the order `BOT_TOKEN`, `CHANNEL_ID`, `GROQ_API_KEY`. */
  lemma MissingKeys(s: Settings)
    ensures "BOT_TOKEN" in MissingOf(RequiredVars(s)) <==> !IsSet(s.botToken)
    ensures "CHANNEL_ID" in MissingOf(RequiredVars(s)) <==> !IsSet(s.channelId)
    ensures "GROQ_API_KEY" in MissingOf(RequiredVars(s)) <==> !IsSet(s.groqApiKey)
    ensures IsSubsequence(MissingOf(RequiredVars(s)), RequiredKeys)
  {
    var vars := RequiredVars(s);
    assert |vars| == 3 && vars[0] == ("BOT_TOKEN", s.botToken) && vars[1] == ("CHANNEL_ID", s.channelId)
           && vars[2] == ("GROQ_API_KEY", s.groqApiKey);
    assert |"BOT_TOKEN"| == 9 && |"CHANNEL_ID"| == 10 && |"GROQ_API_KEY"| == 12;
    MissingOfSpec(vars, "BOT_TOKEN");
    MissingOfSpec(vars, "CHANNEL_ID");
    MissingOfSpec(vars, "GROQ_API_KEY");
    assert Names(vars) == RequiredKeys;
  }

  /** `CHANNEL_USERNAME` and `NEWS_API_KEY` never influence validation. */
  lemma ValidationIgnoresOptional(s: Settings, username: Option<string>, newsKey: Option<string>)
    ensures ValidateConfig(s.(channelUsername := username, newsApiKey := newsKey)) == ValidateConfig(s)
  {
  }
}
