/** The request and record schemas of the shared types package, restated as predicates on
    records. Each `Valid…` predicate holds exactly when the corresponding zod schema accepts
    the record; `Parse…` functions add the defaults the schemas fill in. */
module Schemas {
  import opened Common

  const TimeOfDayValues: set<string> := {"morning", "afternoon", "evening", "night", "lateNight"}
  const ConditionValues: set<string> := {"sunny", "cloudy", "rainy", "snowy", "stormy"}
  const SeasonValues: set<string> := {"spring", "summer", "autumn", "winter"}
  const WorkTypeValues: set<string> := {"focus", "creative", "relaxed", "energetic"}
  const MoodValues: set<string> := {"calm", "upbeat", "meditative", "inspiring"}
  const ActivityTypeValues: set<string> := {"play", "skip", "like", "download"}

  // ---------------------------------------------------------------------------
  // String shapes
  // ---------------------------------------------------------------------------

  /** `\d` in a JavaScript regular expression without the `u` flag. */
  predicate IsAsciiDigit(c: char) {
    '0' <= c <= '9'
  }

  predicate IsHexDigit(c: char) {
    IsAsciiDigit(c) || 'a' <= c <= 'f' || 'A' <= c <= 'F'
  }

  /** `/^\d{2}:\d{2}$/`: two digits, a colon, two digits, and nothing else. */
  predicate IsClockTime(s: string) {
    |s| == 5 && IsAsciiDigit(s[0]) && IsAsciiDigit(s[1]) && s[2] == ':'
    && IsAsciiDigit(s[3]) && IsAsciiDigit(s[4])
  }

  /** The shape checked by `z.string().uuid()`: 8-4-4-4-12 hexadecimal digits. */
  predicate IsUuid(s: string) {
    |s| == 36
    && forall i :: 0 <= i < 36 ==>
         if i == 8 || i == 13 || i == 18 || i == 23 then s[i] == '-' else IsHexDigit(s[i])
  }

  /** A simplified `z.string().email()`: a non-empty local part, exactly one `@`, and a
      domain that contains a dot not at either end. */
  predicate IsEmail(s: string) {
    match IndexOf(s, "@")
    case None => false
    case Some(i) =>
      var domain := s[i + 1..];
      i > 0 && '@' !in domain && '.' in domain && domain[0] != '.' && domain[|domain| - 1] != '.'
  }

  // ---------------------------------------------------------------------------
  // Environment data and BGM requests
  // ---------------------------------------------------------------------------

  datatype Weather = Weather(condition: string, temperature: int, humidity: int, location: string)

  datatype EnvironmentData = EnvironmentData(
    timestamp: int, timeOfDay: string, weather: Weather, season: string)

  /** EnvironmentDataSchema. */
  predicate ValidEnvironmentData(e: EnvironmentData) {
    e.timeOfDay in TimeOfDayValues && e.weather.condition in ConditionValues && e.season in SeasonValues
  }

  datatype BGMRequest = BGMRequest(
    environment: EnvironmentData,
    workType: string,
    duration: int,
    genre: Option<seq<string>>,
    instruments: Option<seq<string>>,
    bpm: Option<int>,
    mood: Option<string>)

  /** BGMRequestSchema: 30 s to 10 min, an optional tempo of 60 to 180, enumerated work type
      and mood. */
  predicate ValidBGMRequest(r: BGMRequest) {
    && ValidEnvironmentData(r.environment)
    && r.workType in WorkTypeValues
    && 30 <= r.duration <= 600
    && (r.bpm.Some? ==> 60 <= r.bpm.value <= 180)
    && (r.mood.Some? ==> r.mood.value in MoodValues)
  }

  /** Every bound of the request schema is inclusive: 30 and 600 seconds, 60 and 180 BPM. */
  lemma BGMRequestBoundaries(r: BGMRequest)
    requires ValidBGMRequest(r)
    ensures ValidBGMRequest(r.(duration := 30)) && ValidBGMRequest(r.(duration := 600))
    ensures !ValidBGMRequest(r.(duration := 29)) && !ValidBGMRequest(r.(duration := 601))
    ensures ValidBGMRequest(r.(bpm := Some(60))) && ValidBGMRequest(r.(bpm := Some(180)))
    ensures !ValidBGMRequest(r.(bpm := Some(59))) && !ValidBGMRequest(r.(bpm := Some(181)))
    ensures ValidBGMRequest(r.(bpm := None)) && ValidBGMRequest(r.(mood := None))
    ensures !ValidBGMRequest(r.(mood := Some("neutral")))
  {
  }

  datatype BGMMetadata = BGMMetadata(
    title: string, duration: int, genre: string, bpm: int, key: string, mood: string)

  datatype BGMResponse = BGMResponse(
    id: string, audioUrl: string, metadata: BGMMetadata, generatedAt: int, environment: EnvironmentData)

  // ---------------------------------------------------------------------------
  // Schedules and usage
  // ---------------------------------------------------------------------------

  datatype WorkScheduleEntry = WorkScheduleEntry(workStart: string, workEnd: string, breakTimes: seq<string>)

  /** WorkScheduleEntrySchema: every time has the `HH:MM` shape (the digits are not range-checked). */
  predicate ValidWorkScheduleEntry(e: WorkScheduleEntry) {
    IsClockTime(e.workStart) && IsClockTime(e.workEnd)
    && forall i :: 0 <= i < |e.breakTimes| ==> IsClockTime(e.breakTimes[i])
  }

  lemma ClockTimeShapeOnly()
    ensures IsClockTime("09:00") && IsClockTime("99:99")
    ensures !IsClockTime("9:00") && !IsClockTime("09:000") && !IsClockTime("09-00")
  {
  }

  datatype UserUsage = UserUsage(
    totalListeningTime: int, favoriteGenerations: seq<string>, skipHistory: seq<string>)

  /** UserUsageSchema. */
  predicate ValidUserUsage(u: UserUsage) {
    u.totalListeningTime >= 0
    && (forall i :: 0 <= i < |u.favoriteGenerations| ==> IsUuid(u.favoriteGenerations[i]))
    && (forall i :: 0 <= i < |u.skipHistory| ==> IsUuid(u.skipHistory[i]))
  }

  // ---------------------------------------------------------------------------
  // Users and authentication requests
  // ---------------------------------------------------------------------------

  /** A user record as received, before defaults are applied. */
  datatype UserInput = UserInput(
    id: string, email: string, name: string, timezone: Option<string>, createdAt: int, updatedAt: int)

  datatype User = User(
    id: string, email: string, name: string, timezone: string, createdAt: int, updatedAt: int)

  predicate ValidName(name: string) {
    1 <= |name| <= 100
  }

  /** UserSchema, without its default. */
  predicate ValidUserInput(u: UserInput) {
    IsUuid(u.id) && IsEmail(u.email) && ValidName(u.name)
  }

  /** UserSchema.parse: accepts exactly the valid records and fills in timezone "UTC" when
      the field is absent. */
  function ParseUser(u: UserInput): (r: Option<User>)
    ensures r.Some? <==> ValidUserInput(u)
    ensures r.Some? ==> r.value.timezone == (if u.timezone.Some? then u.timezone.value else "UTC")
    ensures r.Some? ==> r.value.id == u.id && r.value.email == u.email && r.value.name == u.name
  {
    if !ValidUserInput(u) then None
    else
      var tz := match u.timezone case Some(t) => t case None => "UTC";
      Some(User(u.id, u.email, u.name, tz, u.createdAt, u.updatedAt))
  }

  datatype LoginRequest = LoginRequest(email: string, password: string)

  /** LoginRequestSchema. */
  predicate ValidLoginRequest(r: LoginRequest) {
    IsEmail(r.email) && |r.password| >= 6
  }

  /** Passwords of six characters are the shortest accepted, and names run from 1 to 100. */
  lemma CredentialBoundaries(r: RegisterRequest)
    requires ValidRegisterRequest(r)
    ensures |r.password| >= 6 && ValidLoginRequest(LoginRequest(r.email, r.password))
    ensures ValidRegisterRequest(r.(password := "123456")) && !ValidRegisterRequest(r.(password := "12345"))
    ensures !ValidRegisterRequest(r.(name := "")) && ValidRegisterRequest(r.(name := "a"))
  {
  }

  datatype RegisterRequest = RegisterRequest(
    email: string, password: string, name: string, timezone: Option<string>)

  /** RegisterRequestSchema. */
  predicate ValidRegisterRequest(r: RegisterRequest) {
    IsEmail(r.email) && |r.password| >= 6 && ValidName(r.name)
  }

  // ---------------------------------------------------------------------------
  // Playlists and activity
  // ---------------------------------------------------------------------------

  datatype PlaylistInput = PlaylistInput(
    id: string, userId: string, name: string, description: Option<string>,
    isPublic: Option<bool>, createdAt: int, updatedAt: int)

  datatype Playlist = Playlist(
    id: string, userId: string, name: string, description: Option<string>,
    isPublic: bool, createdAt: int, updatedAt: int)

  /** PlaylistSchema, without its default. */
  predicate ValidPlaylistInput(p: PlaylistInput) {
    IsUuid(p.id) && IsUuid(p.userId) && 1 <= |p.name| <= 255
  }

  /** PlaylistSchema.parse: accepts exactly the valid records; a playlist is private unless
      the record says otherwise. */
  function ParsePlaylist(p: PlaylistInput): (r: Option<Playlist>)
    ensures r.Some? <==> ValidPlaylistInput(p)
    ensures r.Some? ==> r.value.isPublic == (p.isPublic.Some? && p.isPublic.value)
    ensures r.Some? ==> r.value.name == p.name && r.value.id == p.id
  {
    if !ValidPlaylistInput(p) then None
    else
      var pub := match p.isPublic case Some(b) => b case None => false;
      Some(Playlist(p.id, p.userId, p.name, p.description, pub, p.createdAt, p.updatedAt))
  }

  datatype PlaylistTrack = PlaylistTrack(id: string, playlistId: string, bgmId: string, position: int, addedAt: int)

  /** PlaylistTrackSchema. */
  predicate ValidPlaylistTrack(t: PlaylistTrack) {
    IsUuid(t.id) && IsUuid(t.playlistId) && IsUuid(t.bgmId) && t.position >= 0
  }

  datatype UserActivity = UserActivity(
    id: string, userId: string, bgmId: string, activityType: string,
    durationPlayed: Option<int>, createdAt: int)

  /** UserActivitySchema. */
  predicate ValidUserActivity(a: UserActivity) {
    IsUuid(a.id) && IsUuid(a.userId) && IsUuid(a.bgmId)
    && a.activityType in ActivityTypeValues
    && (a.durationPlayed.Some? ==> a.durationPlayed.value >= 0)
  }

  /** The counters are non-negative with 0 allowed, a playlist name runs from 1 to 255
      characters, and an activity is one of four kinds. */
  lemma RecordBoundaries(t: PlaylistTrack, u: UserUsage, a: UserActivity, p: PlaylistInput)
    requires ValidPlaylistTrack(t) && ValidUserUsage(u) && ValidUserActivity(a) && ValidPlaylistInput(p)
    ensures ValidPlaylistTrack(t.(position := 0)) && !ValidPlaylistTrack(t.(position := -1))
    ensures ValidUserUsage(u.(totalListeningTime := 0)) && !ValidUserUsage(u.(totalListeningTime := -1))
    ensures ValidUserActivity(a.(durationPlayed := None)) && ValidUserActivity(a.(durationPlayed := Some(0)))
    ensures !ValidUserActivity(a.(durationPlayed := Some(-1)))
    ensures ValidUserActivity(a.(activityType := "download")) && !ValidUserActivity(a.(activityType := "pause"))
    ensures !ValidPlaylistInput(p.(name := "")) && ValidPlaylistInput(p.(name := "a"))
  {
  }
}
