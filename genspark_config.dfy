/** The constant configuration the Genspark services read: the recommended model pair per
    work type, the (energy, mood) style per time band and weather condition, and the
    generation defaults. */
module GensparkConfig {
  import opened Schemas

  datatype ModelChoice = ModelChoice(primary: string, fallback: string)
  datatype EnvironmentStyle = EnvironmentStyle(energy: string, mood: string)

  /** The built-in endpoint, used when no GENSPARK_API_URL is configured. */
  const ApiUrl: string := "https://api.genspark.ai"
  /** Milliseconds to wait for a generation. */
  const Timeout: nat := 120000

  /** modelMapping. */
  const ModelMapping: map<string, ModelChoice> := map[
    "focus" := ModelChoice("mureka/instrumental-generator", "fal-ai/lyria2"),
    "creative" := ModelChoice("elevenlabs/v3-tts", "mureka/song-generator"),
    "relaxed" := ModelChoice("fal-ai/lyria2", "elevenlabs/v3-tts"),
    "energetic" := ModelChoice("fal-ai/minimax-music/v2", "elevenlabs/v3-tts")
  ]

  /** environmentStyles: defined only for sunny, cloudy and rainy weather. */
  const EnvironmentStyles: map<string, map<string, EnvironmentStyle>> := map[
    "morning" := map[
      "sunny" := EnvironmentStyle("medium-high", "uplifting"),
      "cloudy" := EnvironmentStyle("medium", "gentle"),
      "rainy" := EnvironmentStyle("low-medium", "contemplative")
    ],
    "afternoon" := map[
      "sunny" := EnvironmentStyle("high", "focused"),
      "cloudy" := EnvironmentStyle("medium-high", "balanced"),
      "rainy" := EnvironmentStyle("medium", "meditative")
    ],
    "evening" := map[
      "sunny" := EnvironmentStyle("medium", "relaxed"),
      "cloudy" := EnvironmentStyle("low-medium", "calm"),
      "rainy" := EnvironmentStyle("low", "cozy")
    ],
    "night" := map[
      "sunny" := EnvironmentStyle("low-medium", "peaceful"),
      "cloudy" := EnvironmentStyle("low", "gentle"),
      "rainy" := EnvironmentStyle("low", "soothing")
    ],
    "lateNight" := map[
      "sunny" := EnvironmentStyle("low", "ambient"),
      "cloudy" := EnvironmentStyle("very-low", "tranquil"),
      "rainy" := EnvironmentStyle("very-low", "meditative")
    ]
  ]

  /** defaults. */
  const DefaultDuration: nat := 180
  const DefaultQuality: string := "high"
  const DefaultFormat: string := "mp3"

  /** Every work type of the request schema, and nothing else, has a model pair whose
      primary and fallback differ. */
  lemma ModelMappingShape()
    ensures ModelMapping.Keys == WorkTypeValues
    ensures forall w :: w in ModelMapping ==> ModelMapping[w].primary != ModelMapping[w].fallback
  {
  }

  /** The style table covers every time band of the schema, but only three of its five
      weather conditions: snowy and stormy have no entry. */
  lemma EnvironmentStylesShape()
    ensures EnvironmentStyles.Keys == TimeOfDayValues
    ensures forall t :: t in EnvironmentStyles ==> EnvironmentStyles[t].Keys == {"sunny", "cloudy", "rainy"}
    ensures forall t :: t in EnvironmentStyles ==> "snowy" !in EnvironmentStyles[t] && "stormy" !in EnvironmentStyles[t]
  {
  }
}
