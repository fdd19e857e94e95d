/** The API's BGM generator: a cache of generated tracks keyed by time band and weather, an
    append-only history of generations, and the ElevenLabs call, whose HTTP exchange
    appears as a function parameter from (prompt, duration) to the reply received. */
module MusicGenerator {
  import opened Common
  import opened EnvironmentMapper

  /** How long a cached track is kept; expiry is not modelled. */
  const CacheTtlSeconds: nat := 24 * 60 * 60
  const DemoAudioUrl: string := "https://example.com/demo-audio.mp3"
  const DefaultDurationSeconds: nat := 180

  datatype GenerationRequest = GenerationRequest(
    userId: string,
    timeOfDay: Option<TimeOfDay>,
    weatherCondition: Option<WeatherCondition>,
    customPrompt: Option<string>,
    durationSeconds: Option<int>)

  datatype ResponseParameters = ResponseParameters(
    mood: string, instruments: seq<string>, bpm: string, key: seq<string>, energy: Energy)

  datatype GenerationResponse = GenerationResponse(
    id: string,
    audioUrl: string,
    prompt: string,
    timeOfDay: TimeOfDay,
    weatherCondition: WeatherCondition,
    musicParameters: ResponseParameters,
    generatedAt: int)

  /** One row of the generated-BGM history table. */
  datatype HistoryRow = HistoryRow(
    userId: string,
    audioUrl: string,
    prompt: string,
    timeOfDay: TimeOfDay,
    weatherCondition: WeatherCondition,
    musicParameters: ResponseParameters,
    generatedAt: int)

  /** What the music endpoint answered: a failed request, or a body with optional URLs. */
  datatype ApiReply = RequestFailed | Answered(audioUrl: Option<string>, url: Option<string>)

  /** `request.timeOfDay || getTimeOfDay(hour)`, with `hour` the local hour of the clock. */
  function ResolveTimeOfDay(r: GenerationRequest, hour: int): (t: TimeOfDay)
    ensures r.timeOfDay.Some? ==> t == r.timeOfDay.value
    ensures r.timeOfDay.None? ==> t == GetTimeOfDay(hour)
  {
    match r.timeOfDay
    case Some(t) => t
    case None => GetTimeOfDay(hour)
  }

  /** `request.weatherCondition || 'clear'`. */
  function ResolveWeather(r: GenerationRequest): (w: WeatherCondition)
    ensures r.weatherCondition.None? ==> w == Clear
    ensures r.weatherCondition.Some? ==> w == r.weatherCondition.value
  {
    match r.weatherCondition
    case Some(w) => w
    case None => Clear
  }

  /** `bgm:<timeOfDay>:<weatherCondition>`. */
  function CacheKey(t: TimeOfDay, w: WeatherCondition): string {
    "bgm:" + TimeOfDayName(t) + ":" + WeatherConditionName(w)
  }

  /** The key splits on `:` back into its three fields, because no name contains a colon. */
  lemma CacheKeyFields(t: TimeOfDay, w: WeatherCondition)
    ensures Split(CacheKey(t, w), ':') == ["bgm", TimeOfDayName(t), WeatherConditionName(w)]
  {
    NamesDistinct();
    var tn, wn := TimeOfDayName(t), WeatherConditionName(w);
    SplitWithoutSeparator(wn, ':');
    SplitAfterWord(tn, ':', wn);
    assert tn + ":" + wn == tn + [':'] + wn;
    assert CacheKey(t, w) == "bgm" + [':'] + (tn + ":" + wn);
    SplitAfterWord("bgm", ':', tn + ":" + wn);
  }

  /** Distinct (band, weather) pairs never share a cache entry. */
  lemma CacheKeyInjective(t1: TimeOfDay, w1: WeatherCondition, t2: TimeOfDay, w2: WeatherCondition)
    requires CacheKey(t1, w1) == CacheKey(t2, w2)
    ensures t1 == t2 && w1 == w2
  {
    CacheKeyFields(t1, w1);
    CacheKeyFields(t2, w2);
    NamesDistinct();
  }

  /** `request.durationSeconds || 180`: absent and zero both mean the default. */
  function RequestedDuration(r: GenerationRequest): (d: int)
    ensures r.durationSeconds.None? ==> d == DefaultDurationSeconds
    ensures r.durationSeconds.Some? ==> d == if r.durationSeconds.value == 0 then DefaultDurationSeconds else r.durationSeconds.value
  {
    if r.durationSeconds.Some? && r.durationSeconds.value != 0 then r.durationSeconds.value else DefaultDurationSeconds
  }

  /** callElevenLabsAPI: a demo URL without an API key; otherwise the reply's `audio_url`,
      else its `url`. A failed request or a reply with neither URL is an error. */
  function CallElevenLabsApi(apiKey: Option<string>, post: (string, int) -> ApiReply, prompt: string, duration: int)
    : (r: Result<string>)
    ensures !Present(apiKey) ==> r == Ok(DemoAudioUrl)
    ensures Present(apiKey) ==>
              (r.Ok? <==> post(prompt, duration).Answered? && (Present(post(prompt, duration).audioUrl) || Present(post(prompt, duration).url)))
    ensures Present(apiKey) && r.Ok? ==>
              var reply := post(prompt, duration);
              reply.Answered? && r.value == (if Present(reply.audioUrl) then reply.audioUrl.value else reply.url.value)
    ensures r.Ok? ==> r.value != ""
    ensures r.Err? ==> r.error == "Failed to call ElevenLabs API"
  {
    if !Present(apiKey) then Ok(DemoAudioUrl)
    else
      match post(prompt, duration)
      case RequestFailed => Err("Failed to call ElevenLabs API")
      case Answered(audioUrl, url) =>
        var found := OrElse(audioUrl, OrElse(url, ""));
        if found == "" then Err("Failed to call ElevenLabs API") else Ok(found)
  }

  /** The parameters the response records: the table entry, with the tempo range as text. */
  function ResponseParametersOf(p: MusicParameters): ResponseParameters {
    ResponseParameters(p.mood, p.instruments, BpmRangeText(p), p.key, p.energy)
  }

  /** The prompt of a generation: `customPrompt || generateMusicPrompt(params)`. */
  function PromptFor(r: GenerationRequest, p: MusicParameters): string {
    OrElse(r.customPrompt, GenerateMusicPrompt(p))
  }

  /** The cache-miss path of generateBGM, from the table entry to the new response; `now` is
      the clock, which also stamps the id, and `idSuffix` the random part of the id. Every
      failure surfaces as the same message. */
  function MissResponse(
    r: GenerationRequest, hour: int, apiKey: Option<string>, post: (string, int) -> ApiReply,
    now: nat, idSuffix: string): (res: Result<GenerationResponse>)
    ensures var t, w := ResolveTimeOfDay(r, hour), ResolveWeather(r);
            var params := GetMusicParameters(t, w);
            var audio := CallElevenLabsApi(apiKey, post, PromptFor(r, params), RequestedDuration(r));
            && (res.Ok? <==> audio.Ok?)
            && (res.Err? ==> res.error == "Failed to generate BGM")
            && (res.Ok? ==>
                  && res.value.audioUrl == audio.value
                  && res.value.timeOfDay == t && res.value.weatherCondition == w
                  && res.value.musicParameters.mood == params.mood
                  && res.value.musicParameters.instruments == params.instruments
                  && res.value.musicParameters.bpm == IntToString(params.bpmRange.0) + "-" + IntToString(params.bpmRange.1)
                  && res.value.musicParameters.key == params.key
                  && res.value.musicParameters.energy == params.energy
                  && res.value.id == "bgm_" + IntToString(now) + "_" + idSuffix
                  && res.value.generatedAt == now)
  {
    var t, w := ResolveTimeOfDay(r, hour), ResolveWeather(r);
    var params := GetMusicParameters(t, w);
    var prompt := PromptFor(r, params);
    match CallElevenLabsApi(apiKey, post, prompt, RequestedDuration(r))
    case Err(_) => Err("Failed to generate BGM")
    case Ok(audioUrl) =>
      Ok(GenerationResponse("bgm_" + IntToString(now) + "_" + idSuffix, audioUrl, prompt, t, w,
                            ResponseParametersOf(params), now))
  }

  /** Without a custom prompt the generated prompt names the entry's tempo range and keys;
      with one, the custom prompt is used verbatim. */
  lemma MissPrompt(r: GenerationRequest, hour: int, apiKey: Option<string>, post: (string, int) -> ApiReply, now: nat, idSuffix: string)
    requires MissResponse(r, hour, apiKey, post, now, idSuffix).Ok?
    ensures var res := MissResponse(r, hour, apiKey, post, now, idSuffix).value;
            var params := GetMusicParameters(res.timeOfDay, res.weatherCondition);
            (Present(r.customPrompt) ==> res.prompt == r.customPrompt.value)
            && (!Present(r.customPrompt) ==>
                  IsInfix("Tempo: " + BpmRangeText(params) + " BPM", res.prompt)
                  && IsInfix("Key: " + Join(params.key, " or ") + ". ", res.prompt))
  {
  }

  /** Without an API key nothing can fail, and the demo track is returned. */
  lemma MissWithoutKeySucceeds(r: GenerationRequest, hour: int, post: (string, int) -> ApiReply, now: nat, idSuffix: string)
    ensures MissResponse(r, hour, None, post, now, idSuffix).Ok?
    ensures MissResponse(r, hour, None, post, now, idSuffix).value.audioUrl == DemoAudioUrl
  {
  }

  /** The history row saveBGMHistory writes for a response. */
  function HistoryRowOf(userId: string, bgm: GenerationResponse): HistoryRow {
    HistoryRow(userId, bgm.audioUrl, bgm.prompt, bgm.timeOfDay, bgm.weatherCondition, bgm.musicParameters, bgm.generatedAt)
  }

  function RowsWritten(userId: string, bgm: GenerationResponse, dbAvailable: bool): seq<HistoryRow> {
    if dbAvailable then [HistoryRowOf(userId, bgm)] else []
  }

  class MusicGeneratorService {
    /** The shared cache, by CacheKey. */
    var cache: map<string, GenerationResponse>
    /** The generated-BGM table, oldest first. */
    var history: seq<HistoryRow>

    constructor()
      ensures cache == map[] && history == []
    {
      cache := map[];
      history := [];
    }

    /** saveBGMHistory: appends a row when the database accepts it; a failed insert is
        swallowed and leaves the history as it was. Nothing is reported either way. */
    method SaveBgmHistory(userId: string, bgm: GenerationResponse, dbAvailable: bool)
      modifies this
      ensures cache == old(cache)
      ensures history == old(history) + RowsWritten(userId, bgm, dbAvailable)
    {
      if dbAvailable {
        history := history + [HistoryRowOf(userId, bgm)];
      }
    }

    /** generateBGM. A hit returns the cached response unchanged; a miss generates, caches
        and records a new one. `dbAvailable` says whether the history insert succeeds; it
        never affects the result. */
    method GenerateBgm(
      r: GenerationRequest, hour: int, apiKey: Option<string>, post: (string, int) -> ApiReply,
      now: nat, idSuffix: string, dbAvailable: bool) returns (res: Result<GenerationResponse>)
      modifies this
      ensures var key := CacheKey(ResolveTimeOfDay(r, hour), ResolveWeather(r));
              key in old(cache) ==>
                res == Ok(old(cache)[key]) && cache == old(cache)
                && history == old(history) + RowsWritten(r.userId, res.value, dbAvailable)
      ensures var key := CacheKey(ResolveTimeOfDay(r, hour), ResolveWeather(r));
              key !in old(cache) ==>
                res == MissResponse(r, hour, apiKey, post, now, idSuffix)
                && (res.Ok? ==> cache == old(cache)[key := res.value]
                                && history == old(history) + RowsWritten(r.userId, res.value, dbAvailable))
                && (res.Err? ==> cache == old(cache) && history == old(history))
    {
      var timeOfDay := ResolveTimeOfDay(r, hour);
      var weatherCondition := ResolveWeather(r);
      var cacheKey := CacheKey(timeOfDay, weatherCondition);
      if cacheKey in cache {
        var cached := cache[cacheKey];
        SaveBgmHistory(r.userId, cached, dbAvailable);
        return Ok(cached);
      }
      res := MissResponse(r, hour, apiKey, post, now, idSuffix);
      if res.Ok? {
        cache := cache[cacheKey := res.value];
        SaveBgmHistory(r.userId, res.value, dbAvailable);
      }
    }
  }
}
