/** The environment-adaptive Genspark music service: how it picks a generation model, builds
    the prompt, and derives the title, genre, tempo, key and mood of the response from a
    BGM request. Lookups written `table[k] || d` in the service are `LookupOr` here, so an
    unknown work type, band or condition reaches the same default as in the service. */
module GensparkV2 {
  import opened Common
  import opened Schemas
  import opened GensparkConfig

  const DefaultModel: string := "elevenlabs/v3-tts"

  /** Every model name the service can hand to the generator. */
  const KnownModels: set<string> := {
    "mureka/instrumental-generator", "mureka/song-generator", "fal-ai/lyria2",
    "elevenlabs/v3-tts", "fal-ai/minimax-music/v2"
  }

  // ---------------------------------------------------------------------------
  // Model selection
  // ---------------------------------------------------------------------------

  /** `modelMapping[workType]?.primary || 'elevenlabs/v3-tts'`. */
  function BaseModel(workType: string): (r: string)
    ensures workType in ModelMapping ==> r == ModelMapping[workType].primary
    ensures workType !in ModelMapping ==> r == DefaultModel
  {
    if workType in ModelMapping && ModelMapping[workType].primary != "" then ModelMapping[workType].primary
    else DefaultModel
  }

  /** selectOptimalGensparkModel: the configured primary model, overridden by a few
      weather and time-of-day rules. */
  function SelectOptimalGensparkModel(env: EnvironmentData, workType: string): (r: string)
    ensures r in KnownModels
    ensures workType in ModelMapping ==> r == ModelMapping[workType].primary || r == ModelMapping[workType].fallback
  {
    var timeOfDay := env.timeOfDay;
    var condition := env.weather.condition;
    var baseModel := BaseModel(workType);
    if workType == "focus" then
      if condition == "rainy" then "fal-ai/lyria2"
      else if timeOfDay == "lateNight" then "mureka/instrumental-generator"
      else baseModel
    else if workType == "creative" then
      if timeOfDay == "morning" && condition == "sunny" then "elevenlabs/v3-tts"
      else if condition == "stormy" then "mureka/song-generator"
      else baseModel
    else if workType == "relaxed" then "fal-ai/lyria2"
    else if workType == "energetic" then
      if timeOfDay == "afternoon" then "fal-ai/minimax-music/v2"
      else baseModel
    else baseModel
  }

  /** Relaxed work always gets the ambient model, whatever the environment. */
  lemma RelaxedAlwaysLyria(env: EnvironmentData)
    ensures SelectOptimalGensparkModel(env, "relaxed") == "fal-ai/lyria2"
  {
  }

  /** For focus work the rain rule is consulted first; the late-night rule names the same
      model as the configured primary, so for focus only rain matters. */
  lemma FocusModel(env: EnvironmentData)
    ensures env.weather.condition == "rainy" ==> SelectOptimalGensparkModel(env, "focus") == "fal-ai/lyria2"
    ensures env.weather.condition != "rainy" && env.timeOfDay == "lateNight" ==>
              SelectOptimalGensparkModel(env, "focus") == "mureka/instrumental-generator"
    ensures env.weather.condition != "rainy" ==>
              SelectOptimalGensparkModel(env, "focus") == ModelMapping["focus"].primary
  {
  }

  /** For creative work only stormy weather moves away from the primary; for energetic work
      the afternoon rule names the primary itself, so the choice never varies. */
  lemma CreativeAndEnergeticModels(env: EnvironmentData)
    ensures SelectOptimalGensparkModel(env, "creative") ==
            (if env.weather.condition == "stormy" then ModelMapping["creative"].fallback
             else ModelMapping["creative"].primary)
    ensures SelectOptimalGensparkModel(env, "energetic") == ModelMapping["energetic"].primary
  {
  }

  /** A work type outside the table falls back to the built-in default model. */
  lemma UnmatchedWorkTypeUsesDefault(env: EnvironmentData, workType: string)
    requires workType !in WorkTypeValues
    ensures SelectOptimalGensparkModel(env, workType) == DefaultModel
  {
  }

  // ---------------------------------------------------------------------------
  // Prompt fragments
  // ---------------------------------------------------------------------------

  const WorkTypeDescriptions: map<string, string> := map[
    "focus" := "concentration-enhancing background music with minimal distractions",
    "creative" := "inspiring and uplifting music to stimulate creativity and imagination",
    "relaxed" := "calm and soothing ambient music for relaxation and stress relief",
    "energetic" := "upbeat and motivating music to boost energy and productivity"
  ]

  /** getWorkTypeDescription. */
  function GetWorkTypeDescription(workType: string): (r: string)
    ensures r != ""
    ensures workType in WorkTypeDescriptions <==> r != "balanced background music"
  {
    LookupOr(WorkTypeDescriptions, workType, "balanced background music")
  }

  const TimeDescriptions: map<string, string> := map[
    "morning" := "fresh morning atmosphere with gentle awakening energy",
    "afternoon" := "productive afternoon ambiance with steady momentum",
    "evening" := "warm evening mood transitioning to relaxation",
    "night" := "peaceful nighttime atmosphere with gentle tranquility",
    "lateNight" := "deep night serenity with minimal stimulation"
  ]

  const WeatherDescriptions: map<string, string> := map[
    "sunny" := "bright and cheerful like warm sunlight",
    "cloudy" := "soft and contemplative like gentle overcast skies",
    "rainy" := "cozy and introspective like peaceful rainfall",
    "snowy" := "pure and serene like falling snowflakes",
    "stormy" := "dramatic yet comforting with underlying strength"
  ]

  /** getEnvironmentContext: the time description and the weather description, each
      replaced by a neutral phrase when the band or condition is unknown. */
  function GetEnvironmentContext(env: EnvironmentData): (r: string)
    ensures r != ""
    ensures ValidEnvironmentData(env) ==>
              r == TimeDescriptions[env.timeOfDay] + ", " + WeatherDescriptions[env.weather.condition]
  {
    var timeContext := LookupOr(TimeDescriptions, env.timeOfDay, "neutral temporal mood");
    var weatherContext := LookupOr(WeatherDescriptions, env.weather.condition, "weather-independent");
    timeContext + ", " + weatherContext
  }

  const EnergyStyles: map<string, string> := map[
    "very-low" := "extremely gentle tempo around 60-70 BPM",
    "low" := "slow and steady tempo around 70-80 BPM",
    "low-medium" := "relaxed tempo around 80-90 BPM",
    "medium" := "moderate tempo around 90-100 BPM",
    "medium-high" := "energetic tempo around 100-110 BPM",
    "high" := "upbeat tempo around 110-120 BPM"
  ]

  const MoodStyles: map<string, string> := map[
    "uplifting" := "major keys with ascending melodies",
    "gentle" := "soft dynamics with flowing harmonies",
    "contemplative" := "minor keys with introspective progressions",
    "focused" := "steady rhythms with minimal variation",
    "balanced" := "harmonious blend of major and minor elements",
    "meditative" := "sustained tones with peaceful progressions",
    "calm" := "smooth textures with gentle transitions",
    "cozy" := "warm timbres with intimate arrangements",
    "peaceful" := "tranquil harmonies with spacious arrangements",
    "ambient" := "atmospheric textures with minimal rhythmic elements",
    "tranquil" := "serene soundscapes with natural flow",
    "soothing" := "comforting melodies with stable foundations"
  ]

  const StyleFallback: string := "balanced tempo and harmonious arrangements"

  /** getMusicStyle: the tempo and harmony phrases for the configured style of this band and
      condition, or a fixed phrase when the configuration has no style for them. The work
      type is accepted but not consulted. */
  function GetMusicStyle(env: EnvironmentData, workType: string): (r: string)
    ensures r != ""
    ensures (env.timeOfDay !in EnvironmentStyles || env.weather.condition !in EnvironmentStyles[env.timeOfDay])
              <==> r == StyleFallback
  {
    if env.timeOfDay in EnvironmentStyles && env.weather.condition in EnvironmentStyles[env.timeOfDay] then
      var style := EnvironmentStyles[env.timeOfDay][env.weather.condition];
      var tempo := LookupOr(EnergyStyles, style.energy, "moderate tempo");
      var harmony := LookupOr(MoodStyles, style.mood, "balanced harmonies");
      FallbackLacksComma();
      assert (tempo + ", " + harmony)[|tempo|] == ',';
      tempo + ", " + harmony
    else
      StyleFallback
  }

  /** The fallback phrase has no comma, so it never equals a configured style. */
  lemma FallbackLacksComma()
    ensures ',' !in StyleFallback
  {
  }

  /** Every energy level the configuration uses has a tempo phrase. */
  lemma StyleEnergiesKnown(t: string, c: string)
    requires t in EnvironmentStyles && c in EnvironmentStyles[t]
    ensures EnvironmentStyles[t][c].energy in EnergyStyles
  {
    EnvironmentStylesShape();
    assert EnergyStyles.Keys == {"very-low", "low", "low-medium", "medium", "medium-high", "high"};
  }

  /** Every mood the configuration uses but the `relaxed` of a sunny evening has a harmony
      phrase; that one gets the default. */
  lemma StyleTablesAgree(t: string, c: string)
    requires t in EnvironmentStyles && c in EnvironmentStyles[t]
    ensures EnvironmentStyles[t][c].mood in MoodStyles <==> (t, c) != ("evening", "sunny")
  {
    EnvironmentStylesShape();
    assert t in TimeOfDayValues;
    assert c in {"sunny", "cloudy", "rainy"};
  }

  /** Snowy and stormy weather always give the fallback style. */
  lemma MusicStyleExamples(env: EnvironmentData, workType: string)
    requires env.weather.condition in {"snowy", "stormy"}
    ensures GetMusicStyle(env, workType) == StyleFallback
  {
    EnvironmentStylesShape();
  }

  const MoodModifiers: map<string, string> := map[
    "calm" := "with tranquil and peaceful qualities",
    "upbeat" := "with lively and positive energy",
    "meditative" := "with deep contemplative atmosphere",
    "inspiring" := "with uplifting and motivational character"
  ]

  /** `genre && genre.length > 0`. */
  predicate HasGenres(genre: Option<seq<string>>) {
    genre.Some? && |genre.value| > 0
  }

  /** The phrase for a (truthy) mood: the table entry, or the mood itself woven into a
      generic phrase. */
  function MoodModifier(mood: string): (r: string)
    ensures r != ""
    ensures mood !in MoodModifiers ==> IsInfix(mood, r)
  {
    if mood in MoodModifiers && MoodModifiers[mood] != "" then MoodModifiers[mood]
    else
      InfixOfConcat("with ", mood, " characteristics");
      "with " + mood + " characteristics"
  }

  /** The modifiers getAdditionalModifiers collects, in order. */
  function ModifierParts(genre: Option<seq<string>>, mood: Option<string>): (r: seq<string>)
    ensures forall i :: 0 <= i < |r| ==> r[i] != ""
    ensures |r| == (if HasGenres(genre) then 1 else 0) + (if Present(mood) then 1 else 0)
  {
    (if HasGenres(genre) then ["incorporating elements from: " + Join(genre.value, ", ")] else [])
    + (if Present(mood) then [MoodModifier(mood.value)] else [])
  }

  /** getAdditionalModifiers: collects a genre phrase and a mood phrase and joins them; the
      result is empty exactly when there is neither a genre nor a mood. */
  method GetAdditionalModifiers(genre: Option<seq<string>>, mood: Option<string>) returns (r: string)
    ensures r == Join(ModifierParts(genre, mood), ", ")
    ensures r == "" <==> !HasGenres(genre) && !Present(mood)
  {
    var modifiers: seq<string> := [];
    if HasGenres(genre) {
      modifiers := modifiers + ["incorporating elements from: " + Join(genre.value, ", ")];
    }
    if Present(mood) {
      modifiers := modifiers + [MoodModifier(mood.value)];
    }
    r := Join(modifiers, ", ");
    assert modifiers == ModifierParts(genre, mood);
    JoinEmpty(modifiers, ", ");
    assert modifiers != [""] by {
      assert |modifiers| == 0 || modifiers[0] != "";
    }
  }

  /** The fixed closing segments of every prompt. */
  const InstrumentalSegment: string := "instrumental background music, no vocals, seamless loop"
  const QualitySegment: string := "professional quality, optimized for extended listening"

  function DurationSegment(duration: int): string {
    "duration approximately " + IntToString(duration) + " seconds"
  }

  /** The segments of the prompt after empty ones are dropped: the three fixed lookups, the
      modifiers only when there are any, and the three closing segments. */
  function PromptSegments(r: BGMRequest): (segs: seq<string>)
    ensures forall i :: 0 <= i < |segs| ==> segs[i] != ""
    ensures var modifiers := Join(ModifierParts(r.genre, r.mood), ", ");
            segs == [GetWorkTypeDescription(r.workType), GetEnvironmentContext(r.environment),
                     GetMusicStyle(r.environment, r.workType)]
                    + (if modifiers == "" then [] else [modifiers])
                    + [InstrumentalSegment, QualitySegment, DurationSegment(r.duration)]
  {
    var modifiers := Join(ModifierParts(r.genre, r.mood), ", ");
    var head := [GetWorkTypeDescription(r.workType), GetEnvironmentContext(r.environment),
                 GetMusicStyle(r.environment, r.workType)];
    var tail := [InstrumentalSegment, QualitySegment, DurationSegment(r.duration)];
    var all := [GetWorkTypeDescription(r.workType), GetEnvironmentContext(r.environment),
                GetMusicStyle(r.environment, r.workType), modifiers, InstrumentalSegment, QualitySegment,
                DurationSegment(r.duration)];
    assert all == head + [modifiers] + tail;
    DropEmptyConcat(head + [modifiers], tail);
    DropEmptyConcat(head, [modifiers]);
    DropEmptyNoop(head);
    DropEmptyNoop(tail);
    assert DropEmpty([modifiers]) == if modifiers == "" then [] else [modifiers] by {
      assert [modifiers][1..] == [];
    }
    DropEmpty(all)
  }

  /** buildEnvironmentAdaptivePrompt. */
  function BuildEnvironmentAdaptivePrompt(r: BGMRequest): string {
    Join(PromptSegments(r), ", ")
  }

  /** The prompt always ends with the requested duration. */
  lemma PromptEndsWithDuration(r: BGMRequest)
    ensures var p := BuildEnvironmentAdaptivePrompt(r);
            var d := DurationSegment(r.duration);
            |p| >= |d| && p[|p| - |d|..] == d
  {
    var segs := PromptSegments(r);
    assert segs[|segs| - 1] == DurationSegment(r.duration);
    JoinEndsWithLast(segs, ", ");
  }

  /** Without genres or mood the prompt has exactly six segments: the modifiers segment is
      dropped rather than left empty. */
  lemma PromptWithoutModifiers(r: BGMRequest)
    requires !HasGenres(r.genre) && !Present(r.mood)
    ensures PromptSegments(r) ==
            [GetWorkTypeDescription(r.workType), GetEnvironmentContext(r.environment),
             GetMusicStyle(r.environment, r.workType), InstrumentalSegment, QualitySegment,
             DurationSegment(r.duration)]
  {
    JoinEmpty(ModifierParts(r.genre, r.mood), ", ");
  }

  // ---------------------------------------------------------------------------
  // Response metadata
  // ---------------------------------------------------------------------------

  const TimeEmoji: map<string, string> := map[
    "morning" := "\U{1F305}", "afternoon" := "\U{2600}\U{FE0F}", "evening" := "\U{1F306}",
    "night" := "\U{1F319}", "lateNight" := "\U{2B50}"
  ]

  const WeatherEmoji: map<string, string> := map[
    "sunny" := "\U{2600}\U{FE0F}", "cloudy" := "\U{2601}\U{FE0F}", "rainy" := "\U{1F327}\U{FE0F}",
    "snowy" := "\U{2744}\U{FE0F}", "stormy" := "\U{26C8}\U{FE0F}"
  ]

  const WorkTypeNames: map<string, string> := map[
    "focus" := "Focus Session", "creative" := "Creative Flow",
    "relaxed" := "Relaxation Time", "energetic" := "Energy Boost"
  ]

  /** generateContextualTitle: emojis for band and weather, the work type's display name
      (or the raw work type), and the capitalised band. */
  function GenerateContextualTitle(r: BGMRequest): (title: string)
    ensures var name := LookupOr(WorkTypeNames, r.workType, r.workType);
            var tail := " " + name + " - " + Capitalize(r.environment.timeOfDay) + " BGM";
            |title| >= |tail| && title[|title| - |tail|..] == tail
  {
    var timeEmoji := LookupOr(TimeEmoji, r.environment.timeOfDay, "");
    var weatherEmoji := LookupOr(WeatherEmoji, r.environment.weather.condition, "");
    var name := LookupOr(WorkTypeNames, r.workType, r.workType);
    var tail := " " + name + " - " + Capitalize(r.environment.timeOfDay) + " BGM";
    assert (timeEmoji + weatherEmoji + tail)[|timeEmoji + weatherEmoji|..] == tail;
    timeEmoji + weatherEmoji + tail
  }

  /** For every band and condition the schema allows, the title opens with that band's and
      that condition's emoji, both defined and non-empty. */
  lemma ContextualTitleLayout(r: BGMRequest)
    requires ValidEnvironmentData(r.environment)
    ensures var t, c := r.environment.timeOfDay, r.environment.weather.condition;
            && t in TimeEmoji && c in WeatherEmoji && TimeEmoji[t] != "" && WeatherEmoji[c] != ""
            && GenerateContextualTitle(r) ==
               TimeEmoji[t] + WeatherEmoji[c]
               + " " + LookupOr(WorkTypeNames, r.workType, r.workType) + " - " + Capitalize(t) + " BGM"
  {
    var t, c := r.environment.timeOfDay, r.environment.weather.condition;
    assert TimeEmoji.Keys == TimeOfDayValues;
    assert WeatherEmoji.Keys == ConditionValues;
  }

  const ModelGenres: map<string, string> := map[
    "mureka/instrumental-generator" := "Instrumental",
    "fal-ai/lyria2" := "Ambient",
    "elevenlabs/v3-tts" := "Contemporary",
    "fal-ai/minimax-music/v2" := "Electronic"
  ]

  /** inferGenre: the requested genres, else the genre associated with the model used. */
  function InferGenre(r: BGMRequest, modelUsed: string): (genre: string)
    ensures HasGenres(r.genre) ==> genre == Join(r.genre.value, ", ")
    ensures !HasGenres(r.genre) ==>
              genre == (if modelUsed in ModelGenres then ModelGenres[modelUsed] else "Background Music")
  {
    if HasGenres(r.genre) then Join(r.genre.value, ", ")
    else LookupOr(ModelGenres, modelUsed, "Background Music")
  }

  /** Of the models the service selects, only the stormy-creative one has no associated
      genre, so only that request falls through to the generic genre. */
  lemma InferredGenreOfSelectedModel(r: BGMRequest)
    requires !HasGenres(r.genre)
    ensures var m := SelectOptimalGensparkModel(r.environment, r.workType);
            InferGenre(r, m) == "Background Music" <==> r.workType == "creative" && r.environment.weather.condition == "stormy"
  {
  }

  const BaseBpm: map<string, int> := map["focus" := 85, "creative" := 95, "relaxed" := 72, "energetic" := 108]
  const TimeBpmModifier: map<string, int> := map[
    "morning" := 5, "afternoon" := 8, "evening" := -5, "night" := -10, "lateNight" := -15
  ]
  const WeatherBpmModifier: map<string, int> := map[
    "sunny" := 8, "cloudy" := 0, "rainy" := -12, "snowy" := -8, "stormy" := 3
  ]

  /** The unclamped tempo: base for the work type plus the time and weather adjustments. */
  function RawContextualBpm(r: BGMRequest): int {
    LookupIntOr(BaseBpm, r.workType, 90)
    + LookupIntOr(TimeBpmModifier, r.environment.timeOfDay, 0)
    + LookupIntOr(WeatherBpmModifier, r.environment.weather.condition, 0)
  }

  /** estimateContextualBPM: the raw tempo clamped to [60, 130]. */
  function EstimateContextualBpm(r: BGMRequest): (bpm: int)
    ensures 60 <= bpm <= 130
    ensures 60 <= RawContextualBpm(r) <= 130 ==> bpm == RawContextualBpm(r)
    ensures RawContextualBpm(r) < 60 ==> bpm == 60
  {
    var sum := RawContextualBpm(r);
    var low := if sum < 130 then sum else 130;
    if low > 60 then low else 60
  }

  /** The raw tempo never exceeds 124, so the upper clamp never takes effect; slow work in a
      rainy late night drops below 60 and is raised to it. */
  lemma ContextualBpmRange(r: BGMRequest)
    ensures 45 <= RawContextualBpm(r) <= 124
    ensures EstimateContextualBpm(r) == (if RawContextualBpm(r) < 60 then 60 else RawContextualBpm(r))
  {
  }

  const KeysByTime: map<string, seq<string>> := map[
    "morning" := ["C major", "G major", "D major", "F major"],
    "afternoon" := ["C major", "F major", "Bb major", "A minor"],
    "evening" := ["A minor", "D minor", "E minor", "F major"],
    "night" := ["A minor", "F minor", "C minor", "G minor"],
    "lateNight" := ["F minor", "C minor", "Ab minor", "D minor"]
  ]

  /** The key list for a band, the morning list when the band is unknown. */
  function KeysFor(timeOfDay: string): (keys: seq<string>)
    ensures |keys| == 4
  {
    if timeOfDay in KeysByTime then KeysByTime[timeOfDay] else KeysByTime["morning"]
  }

  /** selectMusicalKey, with `rand` the value drawn from Math.random(). */
  function SelectMusicalKey(env: EnvironmentData, rand: real): (key: string)
    requires 0.0 <= rand < 1.0
    ensures key in KeysFor(env.timeOfDay)
    ensures env.timeOfDay !in KeysByTime ==> key in KeysByTime["morning"]
  {
    var keys := KeysFor(env.timeOfDay);
    keys[ScaledIndex(rand, |keys|)]
  }

  /** Every key of the band's list is chosen for some draw. */
  lemma EveryKeyReachable(env: EnvironmentData, key: string)
    requires key in KeysFor(env.timeOfDay)
    ensures exists rand: real :: 0.0 <= rand < 1.0 && SelectMusicalKey(env, rand) == key
  {
    var keys := KeysFor(env.timeOfDay);
    var i :| 0 <= i < |keys| && keys[i] == key;
    ScaledIndexCovers(i, |keys|);
    var rand := (i as real) / (|keys| as real);
    assert SelectMusicalKey(env, rand) == key;
  }

  /** inferMood: the requested mood, else the first matching environment rule. */
  function InferMood(r: BGMRequest): (mood: string)
    ensures Present(r.mood) ==> mood == r.mood.value
    ensures !Present(r.mood) ==> mood in MoodValues
  {
    if Present(r.mood) then r.mood.value
    else
      var timeOfDay := r.environment.timeOfDay;
      var condition := r.environment.weather.condition;
      if timeOfDay == "morning" && condition == "sunny" then "upbeat"
      else if condition == "rainy" then "calm"
      else if timeOfDay == "lateNight" then "meditative"
      else if r.workType == "creative" then "inspiring"
      else "calm"
  }

  /** The rules apply in order: rain wins over the late-night rule, and both win over the
      creative work type. */
  lemma InferMoodPriority(r: BGMRequest)
    requires !Present(r.mood)
    ensures r.environment.timeOfDay == "morning" && r.environment.weather.condition == "sunny" ==> InferMood(r) == "upbeat"
    ensures r.environment.weather.condition == "rainy" ==> InferMood(r) == "calm"
    ensures r.environment.timeOfDay == "lateNight" && r.environment.weather.condition != "rainy" ==> InferMood(r) == "meditative"
    ensures r.workType == "creative" && r.environment.timeOfDay == "lateNight" ==> InferMood(r) != "inspiring"
    ensures InferMood(r) == "inspiring" <==>
              r.workType == "creative" && r.environment.weather.condition != "rainy" && r.environment.timeOfDay != "lateNight"
              && !(r.environment.timeOfDay == "morning" && r.environment.weather.condition == "sunny")
  {
  }

  /** A valid request always yields one of the schema's moods. */
  lemma InferMoodValid(r: BGMRequest)
    requires ValidBGMRequest(r)
    ensures InferMood(r) in MoodValues
  {
  }

  /** One generated audio file as returned by the generator; `duration` may be absent. */
  datatype GeneratedAudio = GeneratedAudio(audioUrl: string, duration: Option<int>)

  /** convertGensparkToStandardResponse. `now` is the generation time (also the timestamp
      inside the id), `idSuffix` the random base-36 part of the id and `keyRand` the draw
      used to choose the key. */
  function ConvertGensparkToStandardResponse(
    audio: GeneratedAudio, r: BGMRequest, modelUsed: string,
    now: nat, idSuffix: string, keyRand: real): (resp: BGMResponse)
    requires 0.0 <= keyRand < 1.0
    ensures resp.id == "bgm_" + IntToString(now) + "_" + idSuffix
    ensures resp.audioUrl == audio.audioUrl && resp.environment == r.environment && resp.generatedAt == now
    ensures resp.metadata.duration ==
            (if audio.duration.Some? && audio.duration.value != 0 then audio.duration.value else r.duration)
    ensures 60 <= resp.metadata.bpm <= 130
    ensures resp.metadata.key in KeysFor(r.environment.timeOfDay)
    ensures ValidBGMRequest(r) ==> resp.metadata.mood in MoodValues
    ensures resp.metadata.title == GenerateContextualTitle(r)
    ensures resp.metadata.genre == InferGenre(r, modelUsed)
    ensures resp.metadata.bpm == EstimateContextualBpm(r) && resp.metadata.mood == InferMood(r)
    ensures resp.metadata.key == SelectMusicalKey(r.environment, keyRand)
  {
    var duration := if audio.duration.Some? && audio.duration.value != 0 then audio.duration.value else r.duration;
    BGMResponse(
      "bgm_" + IntToString(now) + "_" + idSuffix,
      audio.audioUrl,
      BGMMetadata(
        GenerateContextualTitle(r), duration, InferGenre(r, modelUsed),
        EstimateContextualBpm(r), SelectMusicalKey(r.environment, keyRand), InferMood(r)),
      now,
      r.environment)
  }
}
