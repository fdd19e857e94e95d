/** The environment mapping of environmentMapper.ts: the hour of day is classified into one
    of five time bands, an OpenWeatherMap condition code into one of five weather buckets,
    and every (band, bucket) pair selects a fixed record of music parameters from which the
    generation prompt is assembled. */
module EnvironmentMapper {
  import opened Common

  datatype TimeOfDay = Morning | LateMorning | Afternoon | Evening | Night
  datatype WeatherCondition = Clear | Clouds | Rain | Snow | Other
  datatype Energy = VeryLow | Low | Medium | MediumHigh | High

  datatype MusicParameters = MusicParameters(
    mood: string,
    instruments: seq<string>,
    bpmRange: (nat, nat),
    key: seq<string>,
    energy: Energy,
    description: string)

  /** The string a TimeOfDay value has in the source (and in cache keys). */
  function TimeOfDayName(t: TimeOfDay): string {
    match t
    case Morning => "morning"
    case LateMorning => "late_morning"
    case Afternoon => "afternoon"
    case Evening => "evening"
    case Night => "night"
  }

  /** The string a WeatherCondition value has in the source (and in cache keys). */
  function WeatherConditionName(w: WeatherCondition): string {
    match w
    case Clear => "clear"
    case Clouds => "clouds"
    case Rain => "rain"
    case Snow => "snow"
    case Other => "other"
  }

  function EnergyName(e: Energy): string {
    match e
    case VeryLow => "very-low"
    case Low => "low"
    case Medium => "medium"
    case MediumHigh => "medium-high"
    case High => "high"
  }

  /** Distinct bands and buckets have distinct names, none of which contains a colon. */
  lemma NamesDistinct()
    ensures forall t, u :: TimeOfDayName(t) == TimeOfDayName(u) ==> t == u
    ensures forall w, v :: WeatherConditionName(w) == WeatherConditionName(v) ==> w == v
    ensures forall t :: ':' !in TimeOfDayName(t)
    ensures forall w :: ':' !in WeatherConditionName(w)
  {
  }

  // ---------------------------------------------------------------------------
  // Hour of day -> time band
  // ---------------------------------------------------------------------------

  /** getTimeOfDay: the first band whose half-open hour interval contains `hour`. */
  function GetTimeOfDay(hour: int): TimeOfDay {
    if hour >= 5 && hour < 9 then Morning
    else if hour >= 9 && hour < 12 then LateMorning
    else if hour >= 12 && hour < 17 then Afternoon
    else if hour >= 17 && hour < 21 then Evening
    else Night
  }

  /** Each band is exactly its interval; night is everything else, out-of-range hours included. */
  lemma TimeOfDayBands(hour: int)
    ensures GetTimeOfDay(hour) == Morning <==> 5 <= hour < 9
    ensures GetTimeOfDay(hour) == LateMorning <==> 9 <= hour < 12
    ensures GetTimeOfDay(hour) == Afternoon <==> 12 <= hour < 17
    ensures GetTimeOfDay(hour) == Evening <==> 17 <= hour < 21
    ensures GetTimeOfDay(hour) == Night <==> hour < 5 || hour >= 21
  {
  }

  /** Over a day, the band changes exactly at the hours 5, 9, 12, 17 and 21. */
  lemma BandChangesOnlyAtBoundaries(hour: int)
    requires 0 <= hour < 23
    ensures GetTimeOfDay(hour) != GetTimeOfDay(hour + 1)
            <==> hour + 1 == 5 || hour + 1 == 9 || hour + 1 == 12 || hour + 1 == 17 || hour + 1 == 21
  {
  }

  /** Day bands are contiguous: an hour between two hours of the same day band is in it too;
      night wraps around midnight instead (it holds 23 and 0 but not 12). */
  lemma BandsContiguous(lo: int, mid: int, hi: int)
    requires 0 <= lo <= mid <= hi <= 23
    requires GetTimeOfDay(lo) == GetTimeOfDay(hi) != Night
    ensures GetTimeOfDay(mid) == GetTimeOfDay(lo)
  {
  }

  /** The first hour of each band: a clock hour in the band whose previous hour is not. */
  function BandStart(t: TimeOfDay): (h: nat)
    ensures h < 24
    ensures GetTimeOfDay(h) == t && GetTimeOfDay(h - 1) != t
  {
    match t
    case Morning => 5
    case LateMorning => 9
    case Afternoon => 12
    case Evening => 17
    case Night => 21
  }

  // ---------------------------------------------------------------------------
  // OpenWeatherMap condition code -> weather bucket
  // ---------------------------------------------------------------------------

  /** normalizeWeatherCondition, over the code groups of OpenWeatherMap: 2xx thunderstorm,
      3xx drizzle and 5xx rain all count as rain, 6xx snow, 7xx atmosphere (other),
      800 clear sky, 80x clouds; anything else is other. */
  function NormalizeWeatherCondition(code: int): WeatherCondition {
    if code >= 200 && code < 300 then Rain
    else if code >= 300 && code < 600 then Rain
    else if code >= 600 && code < 700 then Snow
    else if code >= 700 && code < 800 then Other
    else if code == 800 then Clear
    else if code > 800 && code < 900 then Clouds
    else Other
  }

  lemma WeatherBuckets(code: int)
    ensures NormalizeWeatherCondition(code) == Rain <==> 200 <= code < 600
    ensures NormalizeWeatherCondition(code) == Snow <==> 600 <= code < 700
    ensures NormalizeWeatherCondition(code) == Clear <==> code == 800
    ensures NormalizeWeatherCondition(code) == Clouds <==> 801 <= code < 900
    ensures NormalizeWeatherCondition(code) == Other <==> code < 200 || 700 <= code < 800 || code >= 900
  {
  }

  // ---------------------------------------------------------------------------
  // The 5 x 5 table
  // ---------------------------------------------------------------------------

  /** environmentMoodMap: band -> bucket -> music parameters. */
  const EnvironmentMoodMap: map<TimeOfDay, map<WeatherCondition, MusicParameters>> := map[
    Morning := map[
      Clear := MusicParameters("uplifting", ["piano", "acoustic_guitar", "strings"], (90, 120), ["C", "G", "D"], MediumHigh,
        "Bright and energizing morning music with sunny disposition"),
      Clouds := MusicParameters("gentle", ["acoustic_guitar", "piano", "soft_strings"], (75, 100), ["Am", "Dm", "Em"], Medium,
        "Soft and soothing morning ambient music"),
      Rain := MusicParameters("calm", ["piano", "ambient_pads", "light_percussion"], (60, 85), ["Dm", "Am", "Gm"], Low,
        "Peaceful rainy morning ambiance with gentle melodies"),
      Snow := MusicParameters("serene", ["strings", "piano", "bells"], (55, 80), ["F", "Bb", "Eb"], Low,
        "Warm and cozy snowy morning atmosphere"),
      Other := MusicParameters("neutral", ["piano", "strings"], (70, 95), ["C", "Am"], Medium,
        "Balanced morning background music")
    ],
    LateMorning := map[
      Clear := MusicParameters("focused", ["electronic", "piano", "light_percussion"], (100, 130), ["C", "D", "G"], High,
        "Productive and energetic work music for sunny late morning"),
      Clouds := MusicParameters("concentrated", ["piano", "minimal_electronics", "strings"], (90, 110), ["Am", "Dm"], MediumHigh,
        "Focused ambient music for cloudy productivity"),
      Rain := MusicParameters("contemplative", ["lo-fi", "piano", "rain_sounds"], (70, 95), ["Dm", "Gm", "Cm"], Medium,
        "Calm lo-fi beats with rain ambiance for concentration"),
      Snow := MusicParameters("introspective", ["classical", "strings", "woodwinds"], (65, 90), ["F", "Bb"], Medium,
        "Classical ambiance for snowy contemplation"),
      Other := MusicParameters("steady", ["piano", "ambient"], (80, 105), ["C", "G"], Medium,
        "Steady focus music for late morning work")
    ],
    Afternoon := map[
      Clear := MusicParameters("energetic", ["upbeat_electronics", "synth", "drums"], (110, 140), ["C", "D", "A"], High,
        "High-energy afternoon boost with sunny vibes"),
      Clouds := MusicParameters("balanced", ["acoustic", "light_electronics", "piano"], (95, 115), ["G", "Am", "Dm"], MediumHigh,
        "Balanced afternoon work ambiance"),
      Rain := MusicParameters("meditative", ["ambient", "soft_piano", "rain_textures"], (60, 85), ["Dm", "Am", "Em"], Low,
        "Meditative rainy afternoon soundscape"),
      Snow := MusicParameters("minimal", ["minimal_piano", "strings", "ambient"], (55, 80), ["Eb", "Ab", "Db"], Low,
        "Minimal ambient music for snowy afternoon"),
      Other := MusicParameters("neutral", ["piano", "ambient"], (85, 110), ["C", "G", "D"], Medium,
        "Neutral afternoon background music")
    ],
    Evening := map[
      Clear := MusicParameters("relaxed", ["acoustic_guitar", "piano", "soft_synth"], (75, 100), ["G", "C", "D"], Medium,
        "Relaxing evening wind-down music"),
      Clouds := MusicParameters("calm", ["piano", "strings", "ambient_pads"], (65, 90), ["Am", "Dm", "Em"], Low,
        "Calm cloudy evening atmosphere"),
      Rain := MusicParameters("peaceful", ["jazz", "piano", "double_bass", "rain"], (60, 85), ["Dm", "Gm", "Cm"], Low,
        "Peaceful rainy evening jazz ambiance"),
      Snow := MusicParameters("cozy", ["warm_strings", "piano", "soft_woodwinds"], (55, 75), ["F", "Bb", "Eb"], Low,
        "Cozy snowy evening warmth"),
      Other := MusicParameters("mellow", ["piano", "acoustic"], (70, 95), ["C", "G", "Am"], Medium,
        "Mellow evening background music")
    ],
    Night := map[
      Clear := MusicParameters("ambient", ["ambient_pads", "soft_synth", "minimal_piano"], (50, 70), ["Am", "Dm", "Em"], VeryLow,
        "Ambient nighttime soundscape"),
      Clouds := MusicParameters("dreamy", ["drone", "ambient", "soft_textures"], (45, 65), ["Dm", "Gm"], VeryLow,
        "Dreamy cloudy night ambiance"),
      Rain := MusicParameters("soothing", ["rain_sounds", "distant_piano", "ambient"], (40, 60), ["Dm", "Am"], VeryLow,
        "Soothing rain sounds for nighttime"),
      Snow := MusicParameters("tranquil", ["minimal_ambient", "soft_bells", "silence"], (35, 55), ["F", "Bb"], VeryLow,
        "Tranquil snowy night silence"),
      Other := MusicParameters("quiet", ["ambient", "minimal"], (45, 65), ["Am", "Dm"], VeryLow,
        "Quiet nighttime ambient music")
    ]
  ]

  /** The table has an entry for each of the 25 (band, bucket) pairs. */
  lemma MoodMapTotal(t: TimeOfDay, w: WeatherCondition)
    ensures t in EnvironmentMoodMap && w in EnvironmentMoodMap[t]
  {
  }

  /** getMusicParameters: a direct lookup, defined for every pair. Every entry it returns
      has a non-empty tempo range and non-empty instrument and key lists, and every night
      entry is of very low energy. */
  function GetMusicParameters(t: TimeOfDay, w: WeatherCondition): (p: MusicParameters)
    ensures p.bpmRange.0 < p.bpmRange.1
    ensures |p.instruments| > 0 && |p.key| > 0
    ensures t == Night ==> p.energy == VeryLow
  {
    MoodMapTotal(t, w);
    EnvironmentMoodMap[t][w]
  }

  /** The tempo range of a table entry as the source prints it, `<lo>-<hi>`. */
  function BpmRangeText(p: MusicParameters): string {
    IntToString(p.bpmRange.0) + "-" + IntToString(p.bpmRange.1)
  }

  /** generateMusicPrompt: the prompt states the mood, the instruments joined by ", ",
      the tempo range followed by " BPM", the keys joined by " or " and the energy level. */
  function GenerateMusicPrompt(p: MusicParameters): (r: string)
    ensures IsInfix("Create " + p.mood + " background music", r)
    ensures IsInfix("Instruments: " + Join(p.instruments, ", ") + ". ", r)
    ensures IsInfix("Tempo: " + BpmRangeText(p) + " BPM", r)
    ensures IsInfix("Key: " + Join(p.key, " or ") + ". ", r)
    ensures IsInfix("Energy level: " + EnergyName(p.energy) + ". ", r)
  {
    var parts := [
      "Create " + p.mood + " background music",
      " for productivity and focus. " + p.description + ". \n",
      "Instruments: " + Join(p.instruments, ", ") + ". ",
      "\n",
      "Tempo: " + BpmRangeText(p) + " BPM",
      ". \n",
      "Key: " + Join(p.key, " or ") + ". ",
      "\n",
      "Energy level: " + EnergyName(p.energy) + ". ",
      "\nStyle: Instrumental, ambient, seamless loop, no lyrics, suitable for work and concentration."
    ];
    JoinContainsPart(parts, "", 0);
    JoinContainsPart(parts, "", 2);
    JoinContainsPart(parts, "", 4);
    JoinContainsPart(parts, "", 6);
    JoinContainsPart(parts, "", 8);
    Join(parts, "")
  }
}
