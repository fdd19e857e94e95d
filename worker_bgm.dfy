/** The worker's BGM route: bearer authentication, validation of the generate body, the
    KV cache keyed by band and weather, and the generated-BGM history table. Generation
    itself is a fixed demo record whose prompt and mood depend on band and weather. */
module WorkerBgm {
  import opened Common
  import opened Tokens
  import EnvironmentMapper
  import Crypto

  const TimeOfDayValues: set<string> := {"morning", "late_morning", "afternoon", "evening", "night"}
  const WeatherValues: set<string> := {"clear", "clouds", "rain", "snow", "other"}
  const DemoAudioUrl: string := "https://example.com/demo-audio.mp3"

  // ---------------------------------------------------------------------------
  // Authentication
  // ---------------------------------------------------------------------------

  datatype AuthOutcome = Denied(status: int, message: string) | Authenticated(user: TokenPayload)

  /** authenticate: 401 without an Authorization header; otherwise the first "Bearer " is
      removed and the rest verified, 403 when verification fails. */
  function Authenticate(header: Option<string>, verifyAccess: string -> Result<TokenPayload>): (r: AuthOutcome)
    ensures !Present(header) <==> r == Denied(401, "Authorization required")
    ensures Present(header) ==>
              var token := ReplaceFirst(header.value, "Bearer ", "");
              r == (if verifyAccess(token).Ok? then Authenticated(verifyAccess(token).value) else Denied(403, "Invalid token"))
  {
    if !Present(header) then Denied(401, "Authorization required")
    else
      match verifyAccess(ReplaceFirst(header.value, "Bearer ", ""))
      case Err(_) => Denied(403, "Invalid token")
      case Ok(payload) => Authenticated(payload)
  }

  /** A `Bearer <token>` header is checked on exactly `<token>`, and a header without the
      scheme is checked as it stands. */
  lemma AuthenticateBearer(token: string, verifyAccess: string -> Result<TokenPayload>)
    ensures Authenticate(Some("Bearer " + token), verifyAccess) ==
            (if verifyAccess(token).Ok? then Authenticated(verifyAccess(token).value) else Denied(403, "Invalid token"))
  {
    ReplaceFirstPrefix("Bearer ", token);
  }

  lemma AuthenticateRawToken(header: string, verifyAccess: string -> Result<TokenPayload>)
    requires header != "" && forall j :: !MatchesAt(header, "Bearer ", j)
    ensures Authenticate(Some(header), verifyAccess) ==
            (if verifyAccess(header).Ok? then Authenticated(verifyAccess(header).value) else Denied(403, "Invalid token"))
  {
    ReplaceFirstAbsent(header, "Bearer ");
  }

  // ---------------------------------------------------------------------------
  // Request body
  // ---------------------------------------------------------------------------

  datatype GenerateBody = GenerateBody(
    timeOfDay: Option<string>, weatherCondition: Option<string>,
    customPrompt: Option<string>, durationSeconds: Option<int>)

  /** generateSchema. */
  predicate ValidGenerateBody(b: GenerateBody) {
    && (b.timeOfDay.Some? ==> b.timeOfDay.value in TimeOfDayValues)
    && (b.weatherCondition.Some? ==> b.weatherCondition.value in WeatherValues)
    && (b.durationSeconds.Some? ==> 30 <= b.durationSeconds.value <= 300)
  }

  // ---------------------------------------------------------------------------
  // Helpers
  // ---------------------------------------------------------------------------

  /** getCurrentTimeOfDay; the same bands as the API's getTimeOfDay. */
  function GetCurrentTimeOfDay(hour: int): (band: string)
    ensures band == EnvironmentMapper.TimeOfDayName(EnvironmentMapper.GetTimeOfDay(hour))
    ensures band in TimeOfDayValues
  {
    if hour >= 5 && hour < 9 then "morning"
    else if hour >= 9 && hour < 12 then "late_morning"
    else if hour >= 12 && hour < 17 then "afternoon"
    else if hour >= 17 && hour < 21 then "evening"
    else "night"
  }

  /** generatePrompt. */
  function GeneratePrompt(timeOfDay: string, weather: string): string {
    "Create " + timeOfDay + " background music for " + weather
    + " weather. Instrumental, ambient, suitable for work and concentration."
  }

  /** The prompt names the band and the weather. */
  lemma GeneratePromptMentions(timeOfDay: string, weather: string)
    ensures IsInfix(timeOfDay, GeneratePrompt(timeOfDay, weather))
    ensures IsInfix(weather, GeneratePrompt(timeOfDay, weather))
  {
    var tail := " weather. Instrumental, ambient, suitable for work and concentration.";
    var p := GeneratePrompt(timeOfDay, weather);
    assert p == "Create " + timeOfDay + (" background music for " + weather + tail);
    InfixOfConcat("Create ", timeOfDay, " background music for " + weather + tail);
    assert p == ("Create " + timeOfDay + " background music for ") + weather + tail;
    InfixOfConcat("Create " + timeOfDay + " background music for ", weather, tail);
  }

  const Moods: map<string, map<string, string>> := map[
    "morning" := map["clear" := "uplifting", "clouds" := "gentle", "rain" := "calm"],
    "afternoon" := map["clear" := "energetic", "clouds" := "balanced", "rain" := "meditative"],
    "evening" := map["clear" := "relaxed", "clouds" := "calm", "rain" := "peaceful"]
  ]

  /** getMood: `moods[timeOfDay]?.[weather] || 'neutral'`. */
  function GetMood(timeOfDay: string, weather: string): string {
    if timeOfDay in Moods && weather in Moods[timeOfDay] && Moods[timeOfDay][weather] != "" then
      Moods[timeOfDay][weather]
    else "neutral"
  }

  /** A mood other than `neutral` comes only from the nine morning, afternoon and evening
      pairs with clear, cloudy or rainy weather; late morning and night are always neutral. */
  lemma GetMoodDefined(timeOfDay: string, weather: string)
    ensures GetMood(timeOfDay, weather) != "neutral" <==>
            timeOfDay in {"morning", "afternoon", "evening"} && weather in {"clear", "clouds", "rain"}
    ensures timeOfDay in {"late_morning", "night"} ==> GetMood(timeOfDay, weather) == "neutral"
  {
  }

  /** getInstruments: the same three instruments whatever the band and weather. */
  function GetInstruments(timeOfDay: string, weather: string): seq<string> {
    ["piano", "acoustic_guitar", "strings"]
  }

  datatype MusicParameters = MusicParameters(
    mood: string, instruments: seq<string>, bpm: string, key: seq<string>, energy: string)

  datatype BgmData = BgmData(
    id: string, audioUrl: string, prompt: string, timeOfDay: string, weatherCondition: string,
    musicParameters: MusicParameters, generatedAt: int)

  /** The record generated on a cache miss. `now` is the clock and `randomText` the
      base-36 text of the random draw used by generateId. */
  function NewBgm(b: GenerateBody, timeOfDay: string, weather: string, now: nat, randomText: string)
    : (d: BgmData)
    ensures d.id == Crypto.GenerateId("bgm", now, randomText)
    ensures d.prompt == OrElse(b.customPrompt, GeneratePrompt(timeOfDay, weather))
    ensures d.musicParameters.bpm == "80-100" && d.musicParameters.key == ["C", "Am"]
    ensures d.musicParameters.energy == "medium"
    ensures d.musicParameters.instruments == ["piano", "acoustic_guitar", "strings"]
    ensures d.musicParameters.mood == GetMood(timeOfDay, weather)
    ensures d.timeOfDay == timeOfDay && d.weatherCondition == weather && d.audioUrl == DemoAudioUrl
  {
    BgmData(
      Crypto.GenerateId("bgm", now, randomText), DemoAudioUrl,
      OrElse(b.customPrompt, GeneratePrompt(timeOfDay, weather)), timeOfDay, weather,
      MusicParameters(GetMood(timeOfDay, weather), GetInstruments(timeOfDay, weather), "80-100", ["C", "Am"], "medium"),
      now)
  }

  /** `bgm:<timeOfDay>:<weather>`. */
  function CacheKey(timeOfDay: string, weather: string): string {
    "bgm:" + timeOfDay + ":" + weather
  }

  /** One row of the generated_bgm table. */
  datatype HistoryRow = HistoryRow(
    id: string, userId: string, audioUrl: string, prompt: string, timeOfDay: string,
    weatherCondition: string, musicParameters: MusicParameters, generatedAt: int)

  function HistoryRowOf(userId: string, d: BgmData, now: int): HistoryRow {
    HistoryRow(d.id, userId, d.audioUrl, d.prompt, d.timeOfDay, d.weatherCondition, d.musicParameters, now)
  }

  function RowsWritten(userId: string, d: BgmData, now: int, dbAvailable: bool): seq<HistoryRow> {
    if dbAvailable then [HistoryRowOf(userId, d, now)] else []
  }

  datatype GenerateReply =
    | Refused(status: int, message: string)
    | Generated(status: int, message: string, data: BgmData)

  class BgmRoutes {
    /** The CACHE namespace (expiry not modelled). */
    var cache: map<string, BgmData>
    /** The generated_bgm table, oldest first. */
    var history: seq<HistoryRow>

    constructor()
      ensures cache == map[] && history == []
    {
      cache := map[];
      history := [];
    }

    /** saveBGMHistory: a failed insert is logged and swallowed. */
    method SaveBgmHistory(userId: string, d: BgmData, now: int, dbAvailable: bool)
      modifies this
      ensures cache == old(cache)
      ensures history == old(history) + RowsWritten(userId, d, now, dbAvailable)
    {
      if dbAvailable {
        history := history + [HistoryRowOf(userId, d, now)];
      }
    }

    /** POST /generate. The band defaults to the current one and the weather to `clear`;
        a cached record is answered with 200 and recorded in the history; otherwise a new
        record is cached, recorded and answered with 201. */
    method Generate(
      header: Option<string>, body: GenerateBody, verifyAccess: string -> Result<TokenPayload>,
      hour: int, now: nat, randomText: string, dbAvailable: bool)
      returns (reply: GenerateReply)
      modifies this
      ensures Authenticate(header, verifyAccess).Denied? ==>
                reply == Refused(Authenticate(header, verifyAccess).status, Authenticate(header, verifyAccess).message)
                && cache == old(cache) && history == old(history)
      ensures Authenticate(header, verifyAccess).Authenticated? && !ValidGenerateBody(body) ==>
                reply.Refused? && reply.status == 400 && cache == old(cache) && history == old(history)
      ensures Authenticate(header, verifyAccess).Authenticated? && ValidGenerateBody(body) ==>
                var user := Authenticate(header, verifyAccess).user;
                var t := OrElse(body.timeOfDay, GetCurrentTimeOfDay(hour));
                var w := OrElse(body.weatherCondition, "clear");
                var key := CacheKey(t, w);
                && (key in old(cache) ==>
                      reply == Generated(200, "BGM retrieved from cache", old(cache)[key])
                      && cache == old(cache)
                      && history == old(history) + RowsWritten(user.userId, old(cache)[key], now, dbAvailable))
                && (key !in old(cache) ==>
                      reply == Generated(201, "BGM generated successfully", NewBgm(body, t, w, now, randomText))
                      && cache == old(cache)[key := reply.data]
                      && history == old(history) + RowsWritten(user.userId, reply.data, now, dbAvailable))
    {
      var auth := Authenticate(header, verifyAccess);
      if auth.Denied? {
        return Refused(auth.status, auth.message);
      }
      if !ValidGenerateBody(body) {
        return Refused(400, "Invalid request body");
      }
      var currentTimeOfDay := OrElse(body.timeOfDay, GetCurrentTimeOfDay(hour));
      var currentWeather := OrElse(body.weatherCondition, "clear");
      var cacheKey := CacheKey(currentTimeOfDay, currentWeather);
      if cacheKey in cache {
        var cached := cache[cacheKey];
        SaveBgmHistory(auth.user.userId, cached, now, dbAvailable);
        return Generated(200, "BGM retrieved from cache", cached);
      }
      var bgmData := NewBgm(body, currentTimeOfDay, currentWeather, now, randomText);
      cache := cache[cacheKey := bgmData];
      SaveBgmHistory(auth.user.userId, bgmData, now, dbAvailable);
      reply := Generated(201, "BGM generated successfully", bgmData);
    }
  }

  /** With a valid body the band and weather of the key are always among the schema's
      values, so only 25 keys can ever be written. */
  lemma CacheKeyDomain(body: GenerateBody, hour: int)
    requires ValidGenerateBody(body)
    ensures OrElse(body.timeOfDay, GetCurrentTimeOfDay(hour)) in TimeOfDayValues
    ensures OrElse(body.weatherCondition, "clear") in WeatherValues
  {
  }
}
