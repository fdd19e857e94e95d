/** The first Genspark music service: fixed model rules, a five-segment prompt, and response
    metadata derived from the request. Its generator call is a local mock, so the whole
    generation is a function of the request, the clock and the random draws. */
module GensparkV1 {
  import opened Common
  import opened Schemas

  /** selectOptimalModel. */
  function SelectOptimalModel(env: EnvironmentData, workType: string): (r: string)
    ensures workType == "focus" ==>
              r == (if env.weather.condition == "rainy" then "fal-ai/lyria2" else "mureka/instrumental-generator")
    ensures workType == "creative" ==>
              r == (if env.timeOfDay == "morning" then "elevenlabs/v3-tts" else "mureka/song-generator")
    ensures workType == "relaxed" ==> r == "fal-ai/lyria2"
    ensures workType == "energetic" ==> r == "fal-ai/minimax-music/v2"
    ensures workType !in WorkTypeValues ==> r == "elevenlabs/v3-tts"
  {
    if workType == "focus" then
      if env.weather.condition == "rainy" then "fal-ai/lyria2" else "mureka/instrumental-generator"
    else if workType == "creative" then
      if env.timeOfDay == "morning" then "elevenlabs/v3-tts" else "mureka/song-generator"
    else if workType == "relaxed" then "fal-ai/lyria2"
    else if workType == "energetic" then "fal-ai/minimax-music/v2"
    else "elevenlabs/v3-tts"
  }

  /** The rainy rule for focus work depends only on the weather, and the morning rule for
      creative work only on the band: each decision ignores the other input. */
  lemma ModelRulesIndependent(e1: EnvironmentData, e2: EnvironmentData, workType: string)
    requires e1.weather.condition == e2.weather.condition || workType != "focus"
    requires e1.timeOfDay == e2.timeOfDay || workType != "creative"
    ensures SelectOptimalModel(e1, workType) == SelectOptimalModel(e2, workType)
  {
  }

  /** getBasePromptForWorkType. */
  function GetBasePromptForWorkType(workType: string): (r: string)
    ensures r != ""
    ensures workType !in WorkTypeValues <==> r == "neutral background music, balanced tempo"
  {
    match workType
    case "focus" => "concentration-enhancing background music, minimal distraction, steady rhythm"
    case "creative" => "inspiring creative music, melodious and uplifting, stimulating imagination"
    case "relaxed" => "relaxing ambient music, slow tempo, calming and peaceful"
    case "energetic" => "energetic background music, upbeat tempo, motivating and dynamic"
    case _ => "neutral background music, balanced tempo"
  }

  const TimeContext: map<string, string> := map[
    "morning" := "fresh morning atmosphere",
    "afternoon" := "productive afternoon energy",
    "evening" := "gentle evening mood",
    "night" := "quiet nighttime ambiance",
    "lateNight" := "deep night tranquility"
  ]

  const WeatherContext: map<string, string> := map[
    "sunny" := "bright and cheerful like sunny weather",
    "cloudy" := "soft and mellow like cloudy skies",
    "rainy" := "contemplative and cozy like gentle rain",
    "snowy" := "serene and pure like falling snow",
    "stormy" := "dramatic yet comforting"
  ]

  /** getEnvironmentContext. */
  function GetEnvironmentContext(env: EnvironmentData): (r: string)
    ensures r != ""
    ensures ValidEnvironmentData(env) ==>
              r == TimeContext[env.timeOfDay] + ", " + WeatherContext[env.weather.condition]
  {
    LookupOr(TimeContext, env.timeOfDay, "neutral time") + ", "
    + LookupOr(WeatherContext, env.weather.condition, "weather-neutral")
  }

  const MoodDescriptors: map<string, string> := map[
    "calm" := "tranquil and peaceful",
    "upbeat" := "lively and positive",
    "meditative" := "deep and contemplative",
    "inspiring" := "uplifting and motivational"
  ]

  /** `genre && genre.length > 0`. */
  predicate HasGenres(genre: Option<seq<string>>) {
    genre.Some? && |genre.value| > 0
  }

  /** `moodDescriptors[mood] || mood`. */
  function MoodDescriptor(mood: string): string {
    LookupOr(MoodDescriptors, mood, mood)
  }

  /** The modifiers getStyleModifiers collects, in order. */
  function StyleModifierParts(genre: Option<seq<string>>, mood: Option<string>): (r: seq<string>)
    ensures forall i :: 0 <= i < |r| ==> r[i] != ""
    ensures |r| == (if HasGenres(genre) then 1 else 0) + (if Present(mood) then 1 else 0)
  {
    (if HasGenres(genre) then ["genres: " + Join(genre.value, ", ")] else [])
    + (if Present(mood) then [MoodDescriptor(mood.value)] else [])
  }

  /** getStyleModifiers: collects a genre phrase and a mood phrase and joins them. The result
      is empty exactly when there is neither a genre nor a mood, and a mood without a
      descriptor is passed through verbatim. */
  method GetStyleModifiers(genre: Option<seq<string>>, mood: Option<string>) returns (r: string)
    ensures r == Join(StyleModifierParts(genre, mood), ", ")
    ensures r == "" <==> !HasGenres(genre) && !Present(mood)
    ensures !HasGenres(genre) && Present(mood) && mood.value !in MoodDescriptors ==> r == mood.value
  {
    var modifiers: seq<string> := [];
    if HasGenres(genre) {
      modifiers := modifiers + ["genres: " + Join(genre.value, ", ")];
    }
    if Present(mood) {
      modifiers := modifiers + [MoodDescriptor(mood.value)];
    }
    r := Join(modifiers, ", ");
    assert modifiers == StyleModifierParts(genre, mood);
    JoinEmpty(modifiers, ", ");
    assert modifiers != [""] by {
      assert |modifiers| == 0 || modifiers[0] != "";
    }
  }

  const InstrumentalSegment: string := "instrumental only, no vocals, seamless loop suitable for background listening"

  function DurationSegment(duration: int): string {
    "duration: " + IntToString(duration) + " seconds"
  }

  /** The segments of buildMusicPrompt once empty ones are dropped: only the style
      modifiers can be empty, and then they are left out. */
  function PromptSegments(r: BGMRequest): (segs: seq<string>)
    ensures forall i :: 0 <= i < |segs| ==> segs[i] != ""
    ensures var style := Join(StyleModifierParts(r.genre, r.mood), ", ");
            segs == [GetBasePromptForWorkType(r.workType), GetEnvironmentContext(r.environment)]
                    + (if style == "" then [] else [style])
                    + [InstrumentalSegment, DurationSegment(r.duration)]
  {
    var style := Join(StyleModifierParts(r.genre, r.mood), ", ");
    var head := [GetBasePromptForWorkType(r.workType), GetEnvironmentContext(r.environment)];
    var tail := [InstrumentalSegment, DurationSegment(r.duration)];
    var all := [GetBasePromptForWorkType(r.workType), GetEnvironmentContext(r.environment), style,
                InstrumentalSegment, DurationSegment(r.duration)];
    assert all == head + [style] + tail;
    DropEmptyConcat(head + [style], tail);
    DropEmptyConcat(head, [style]);
    DropEmptyNoop(head);
    DropEmptyNoop(tail);
    assert DropEmpty([style]) == if style == "" then [] else [style] by {
      assert [style][1..] == [];
    }
    DropEmpty(all)
  }

  /** buildMusicPrompt. */
  function BuildMusicPrompt(r: BGMRequest): string {
    Join(PromptSegments(r), ", ")
  }

  /** The prompt always ends with `duration: <n> seconds`. */
  lemma PromptEndsWithDuration(r: BGMRequest)
    ensures var p := BuildMusicPrompt(r);
            var d := DurationSegment(r.duration);
            |p| >= |d| && p[|p| - |d|..] == d
  {
    var segs := PromptSegments(r);
    assert segs[|segs| - 1] == DurationSegment(r.duration);
    JoinEndsWithLast(segs, ", ");
  }

  /** Without genres or mood the prompt has four segments, none of them empty. */
  lemma PromptWithoutModifiers(r: BGMRequest)
    requires !HasGenres(r.genre) && !Present(r.mood)
    ensures PromptSegments(r) ==
            [GetBasePromptForWorkType(r.workType), GetEnvironmentContext(r.environment),
             InstrumentalSegment, DurationSegment(r.duration)]
  {
    JoinEmpty(StyleModifierParts(r.genre, r.mood), ", ");
  }

  /** generateTitle: `<Band> <Weather> - <WorkType> BGM`. */
  function GenerateTitle(r: BGMRequest): (title: string)
    ensures |title| == |r.environment.timeOfDay| + |r.environment.weather.condition| + |r.workType| + 8
  {
    Capitalize(r.environment.timeOfDay) + " " + Capitalize(r.environment.weather.condition) + " - "
      + Capitalize(r.workType) + " BGM"
  }

  /** The title reads back as its parts: band, weather and work type, each with only its
      first character upper-cased, in that order. */
  lemma TitleLayout(r: BGMRequest)
    ensures var title := GenerateTitle(r);
            var t := r.environment.timeOfDay;
            var w := r.environment.weather.condition;
            && title[..|t|] == Capitalize(t)
            && title[|t|..|t| + 1] == " "
            && title[|t| + 1..|t| + 1 + |w|] == Capitalize(w)
            && title[|t| + 1 + |w|..|t| + 4 + |w|] == " - "
            && title[|title| - |r.workType| - 4..] == Capitalize(r.workType) + " BGM"
  {
    var t := Capitalize(r.environment.timeOfDay);
    var w := Capitalize(r.environment.weather.condition);
    var k := Capitalize(r.workType);
    var title := t + " " + w + " - " + k + " BGM";
    assert title == GenerateTitle(r);
    assert title[..|t|] == t;
    assert title[|t|..|t| + 1] == " ";
    assert title[|t| + 1..|t| + 1 + |w|] == w;
    assert title[|t| + 1 + |w|..|t| + 4 + |w|] == " - ";
    assert title[|title| - |k| - 4..] == k + " BGM";
  }

  /** Only the first character of each part changes: in `lateNight` the inner capital stays. */
  lemma TitleExample(r: BGMRequest)
    requires r.environment.timeOfDay == "lateNight" && r.environment.weather.condition == "rainy"
    requires r.workType == "focus"
    ensures GenerateTitle(r) == "LateNight Rainy - Focus BGM"
  {
    CapitalizeWords();
    assert GenerateTitle(r) == "LateNight" + " " + "Rainy" + " - " + "Focus" + " BGM";
  }

  lemma CapitalizeWords()
    ensures Capitalize("lateNight") == "LateNight"
    ensures Capitalize("rainy") == "Rainy"
    ensures Capitalize("focus") == "Focus"
  {
    assert ToUpper('l') == 'L' && ToUpper('r') == 'R' && ToUpper('f') == 'F';
  }

  const BaseBpm: map<string, int> := map["focus" := 80, "creative" := 95, "relaxed" := 70, "energetic" := 110]
  const WeatherBpmModifier: map<string, int> := map[
    "sunny" := 10, "cloudy" := 0, "rainy" := -10, "snowy" := -5, "stormy" := 5
  ]

  /** The unclamped tempo: base for the work type plus the weather adjustment. */
  function RawBpm(r: BGMRequest): int {
    LookupIntOr(BaseBpm, r.workType, 85) + LookupIntOr(WeatherBpmModifier, r.environment.weather.condition, 0)
  }

  /** estimateBPM: the raw tempo clamped to [60, 140]. */
  function EstimateBpm(r: BGMRequest): (bpm: int)
    ensures 60 <= bpm <= 140
    ensures 60 <= RawBpm(r) <= 140 ==> bpm == RawBpm(r)
  {
    var sum := RawBpm(r);
    var low := if sum < 140 then sum else 140;
    if low > 60 then low else 60
  }

  /** The raw tempo always lies in [60, 120], so neither clamp ever takes effect; the band
      plays no part in the tempo. */
  lemma BpmNeverClamped(r: BGMRequest, timeOfDay: string)
    ensures 60 <= RawBpm(r) <= 120
    ensures EstimateBpm(r) == RawBpm(r)
    ensures EstimateBpm(r.(environment := r.environment.(timeOfDay := timeOfDay))) == EstimateBpm(r)
  {
  }

  const Keys: map<string, seq<string>> := map[
    "morning" := ["C", "G", "D", "F"],
    "afternoon" := ["C", "F", "Bb"],
    "evening" := ["Am", "Dm", "Em"],
    "night" := ["Am", "Fm", "Cm"],
    "lateNight" := ["Fm", "Cm", "Abm"]
  ]

  /** The key list for a band, the morning list when the band is unknown. */
  function KeysFor(timeOfDay: string): (keys: seq<string>)
    ensures |keys| > 0
  {
    if timeOfDay in Keys then Keys[timeOfDay] else Keys["morning"]
  }

  /** selectMusicalKey, with `rand` the value drawn from Math.random(). */
  function SelectMusicalKey(env: EnvironmentData, rand: real): (key: string)
    requires 0.0 <= rand < 1.0
    ensures key in KeysFor(env.timeOfDay)
    ensures env.timeOfDay !in Keys ==> key in Keys["morning"]
  {
    var keys := KeysFor(env.timeOfDay);
    keys[ScaledIndex(rand, |keys|)]
  }

  /** Every key of the band's list is chosen for some draw. */
  lemma EveryKeyReachable(env: EnvironmentData, key: string)
    requires key in KeysFor(env.timeOfDay)
    ensures exists rand: real :: 0.0 <= rand < 1.0 && SelectMusicalKey(env, rand) == key
  {
    var keys := KeysFor(env.timeOfDay);
    var i :| 0 <= i < |keys| && keys[i] == key;
    ScaledIndexCovers(i, |keys|);
    var rand := (i as real) / (|keys| as real);
    assert SelectMusicalKey(env, rand) == key;
  }

  /** The mock result of the generator call: a file named after the clock, lasting exactly
      the requested duration. */
  datatype GeneratedAudio = GeneratedAudio(audioUrl: string, duration: int)

  function MockGeneration(r: BGMRequest, now: nat): (audio: GeneratedAudio)
    ensures audio.duration == r.duration
  {
    GeneratedAudio("/audio/generated_" + IntToString(now) + ".mp3", r.duration)
  }

  /** The genre text: `request.genre?.join(', ') || 'ambient'`. */
  function ResponseGenre(genre: Option<seq<string>>): (g: string)
    ensures g != ""
    ensures genre.None? || genre.value == [] ==> g == "ambient"
    ensures genre.Some? && Join(genre.value, ", ") != "" ==> g == Join(genre.value, ", ")
  {
    var joined := if genre.Some? then Join(genre.value, ", ") else "";
    if joined != "" then joined else "ambient"
  }

  /** convertToStandardResponse. `now` is the generation time, `idSuffix` the random base-36
      part of the id and `keyRand` the draw used to choose the key. */
  function ConvertToStandardResponse(
    audio: GeneratedAudio, r: BGMRequest, now: nat, idSuffix: string, keyRand: real): (resp: BGMResponse)
    requires 0.0 <= keyRand < 1.0
    ensures resp.id == "bgm_" + IntToString(now) + "_" + idSuffix
    ensures resp.audioUrl == audio.audioUrl && resp.metadata.duration == audio.duration
    ensures resp.environment == r.environment && resp.generatedAt == now
    ensures r.genre.None? || r.genre.value == [] ==> resp.metadata.genre == "ambient"
    ensures resp.metadata.mood == (if Present(r.mood) then r.mood.value else "neutral")
    ensures resp.metadata.bpm == RawBpm(r)
    ensures resp.metadata.key in KeysFor(r.environment.timeOfDay)
    ensures resp.metadata.title == GenerateTitle(r) && resp.metadata.genre == ResponseGenre(r.genre)
    ensures resp.metadata.key == SelectMusicalKey(r.environment, keyRand)
  {
    BpmNeverClamped(r, r.environment.timeOfDay);
    BGMResponse(
      "bgm_" + IntToString(now) + "_" + idSuffix,
      audio.audioUrl,
      BGMMetadata(
        GenerateTitle(r), audio.duration, ResponseGenre(r.genre), EstimateBpm(r),
        SelectMusicalKey(r.environment, keyRand), OrElse(r.mood, "neutral")),
      now,
      r.environment)
  }

  /** generateBGM with the mock generator: the response lasts exactly as long as requested. */
  function GenerateBgm(r: BGMRequest, now: nat, idSuffix: string, keyRand: real): (resp: BGMResponse)
    requires 0.0 <= keyRand < 1.0
    ensures resp.metadata.duration == r.duration
    ensures resp.environment == r.environment
  {
    ConvertToStandardResponse(MockGeneration(r, now), r, now, idSuffix, keyRand)
  }
}
