# WorkTunes AI — a Dafny model of its core

WorkTunes AI generates background music for work from the listener's surroundings. The
hour of day falls into a time band, and the weather condition falls into a bucket. Together
with the kind of work (focus, creative, relaxed, energetic), they choose a mood, the
instruments, a tempo and a key. These build a text prompt for a music generation service.

The system has two back ends, an Express API and a Cloudflare worker. They share:

- accounts, with registration, login, refresh-token rotation and logout;
- the weather lookups, with caching;
- the generation routes.

The web client keeps a music store (playback and a recently played list) and an
environment store.

The project has one module per core source file:

| module | source |
|---|---|
| `EnvironmentMapper` | `apps/api/src/services/environmentMapper.ts` |
| `GensparkConfig` | `apps/api/src/config/genspark.ts` |
| `GensparkV1` | `apps/api/src/services/gensparkMusicService.ts` |
| `GensparkV2` | `apps/api/src/services/gensparkMusicServiceV2.ts` |
| `MusicGenerator` | `apps/api/src/services/musicGenerator.ts` |
| `AuthService` | `apps/api/src/services/authService.ts` |
| `AuthMiddleware` | `apps/api/src/middleware/auth.ts` |
| `ErrorHandler` | `apps/api/src/middleware/errorHandler.ts` |
| `Schemas` | `packages/types/index.ts` |
| `Crypto` | `workers/api/src/utils/crypto.ts` |
| `WorkerAuth` | `workers/api/src/routes/auth.ts` |
| `WorkerBgm` | `workers/api/src/routes/bgm.ts` |
| `WorkerEnvironment` | `workers/api/src/routes/environment.ts` |
| `MusicStore` | `apps/web/store/musicStore.ts` |
| `EnvironmentStore` | `apps/web/store/environmentStore.ts` |

Three modules have no single source file:

- `Common` holds the JavaScript string and number semantics the code relies on: `split`, `replace` with a string pattern, `toString(radix)`, `padStart`, `charAt(0).toUpperCase()`, `||` defaults and `Math.floor(Math.random() * n)`.
- `Tokens` holds the JSON Web Token library as a value of functions.
- `Accounts` holds the user table, the profile table and the session store that both back ends share, with the login and refresh decisions as pure functions.

Pure code is functions and lemmas:

- the mapper;
- the Genspark prompt and metadata builders;
- the schemas;
- the crypto helpers.

Code that mutates state is classes whose methods state the whole new state:

- the services with their cache, table and session fields;
- the route handlers with the D1 tables and KV namespaces;
- the Express request in the middleware;
- the two zustand stores.

Things outside the code become parameters:

- clocks (`now`, `hour`);
- random draws (`rand`, `randomText`, `idSuffix`);
- provider replies (`fetch`, `post`);
- bcrypt, SHA-256 and JWT.

## Model

| member | source | states |
|---|---|---|
| Common.NatToRadixRoundTrip | workers/api/src/utils/crypto.ts:26 | reading back the base-36 (or any radix) digits of `n.toString(radix)` gives `n` |
| Common.SplitJoinRoundTrip | apps/api/src/middleware/auth.ts:24 | joining the fields of `split(c)` with `c` gives back the string |
| Common.ReplaceFirstPrefix | workers/api/src/routes/bgm.ts:24 | `replace('Bearer ', '')` on a string that starts with the pattern removes exactly that prefix |
| Common.ScaledIndexCovers | apps/api/src/services/gensparkMusicService.ts:311 | every index below n is `Math.floor(r * n)` for some r in [0,1) |
| Accounts.FindByEmail | apps/api/src/services/authService.ts:94-96 | the result is the first row with that email, and is None iff no row has it |
| Accounts.FindById | apps/api/src/services/authService.ts:223-231 | the result is the first row with that id, and is None iff no row has it |
| Accounts.FindUnique | apps/api/src/services/authService.ts:152-161 | when emails and ids are unique, looking up a row's key finds that row |
| Accounts.AppendFresh | apps/api/src/services/authService.ts:106-123 | a row whose email and id are both new keeps the keys unique and is found at the end |
| Accounts.StampLoginKeepsKeys | apps/api/src/services/authService.ts:187-190 | stamping lastLoginAt keeps the keys unique |
| Accounts.SessionKeyInjective | apps/api/src/services/authService.ts:132 | different users have different `refresh_token:<userId>` keys |
| Accounts.CheckRefresh | apps/api/src/services/authService.ts:216-235 | accepts iff the stored token equals the given one and the user exists and is active; a token that is not the stored one gives 'Invalid refresh token', and otherwise the error is 'User not found or inactive' |
| Accounts.RotationRevokesOld | apps/api/src/services/authService.ts:243-244 | after rotation, the old token is refused and the new one is accepted |
| Accounts.OneLiveTokenPerUser | apps/api/src/services/authService.ts:184 | once a new token is stored for a user, every other token of theirs is refused |
| Accounts.LogoutRevokes | apps/api/src/services/authService.ts:264 | after the session entry is deleted, every refresh token of that user is refused |
| Accounts.OtherSessionsUnaffected | apps/api/src/services/authService.ts:244 | storing or deleting one user's session leaves another user's refresh decision unchanged |
| Accounts.CheckLogin | apps/api/src/services/authService.ts:163-175 | unknown email, deactivated account, wrong password and accepted are decided in that order, each iff its condition |
| Accounts.DeactivatedIgnoresPassword | apps/api/src/services/authService.ts:167-169 | whether an account counts as deactivated does not depend on the password |
| AuthService.VerifyAccessToken | apps/api/src/services/authService.ts:69-75 | succeeds iff the library verifies under the access secret, with its payload; otherwise 'Invalid access token' |
| AuthService.VerifyRefreshToken | apps/api/src/services/authService.ts:80-86 | succeeds iff the library verifies under the refresh secret; otherwise 'Invalid refresh token' |
| AuthService.LoginFailure | apps/api/src/services/authService.ts:163-175 | an unknown email and a wrong password give the same message, and only a deactivated account gives 'Account is deactivated' |
| AuthService.AuthService.constructor | apps/api/src/services/authService.ts:1-273 | empty tables and an empty session store satisfy the invariant |
| AuthService.AuthService.Register | apps/api/src/services/authService.ts:91-144 | an existing email is refused with nothing changed; otherwise the user row and a 'Unknown' profile are appended, the refresh token is stored under the user's key, and the reply carries the public fields with `createdAt` set to now |
| AuthService.AuthService.Login | apps/api/src/services/authService.ts:149-206 | a refused login changes nothing; an accepted one stores the new refresh token, stamps lastLoginAt and returns the public fields; afterwards only the new token matches |
| AuthService.AuthService.RefreshToken | apps/api/src/services/authService.ts:211-256 | a failed signature or CheckRefresh changes nothing; success stores the new token in place of the old one, which is then refused, and the reply carries the public fields with `isActive` true |
| AuthService.AuthService.Logout | apps/api/src/services/authService.ts:261-270 | deletes exactly that user's session entry; no token of theirs matches afterwards |
| AuthMiddleware.ExtractToken | apps/api/src/middleware/auth.ts:23-24 | the token is the second space-separated field of a truthy header, when that field is non-empty |
| AuthMiddleware.ExtractBearer | apps/api/src/middleware/auth.ts:24 | `Bearer <token>` yields exactly the token |
| AuthMiddleware.ExtractWithoutScheme | apps/api/src/middleware/auth.ts:24 | a header without a space carries no token |
| AuthMiddleware.Exchange.constructor | apps/api/src/middleware/auth.ts:16-21 | a fresh request with nothing attached, nothing sent and next not called |
| AuthMiddleware.Exchange.AuthenticateToken | apps/api/src/middleware/auth.ts:16-50 | no token gives 401; a failed verification gives 403; otherwise it attaches userId and email and calls next once; exactly one of responding and calling next happens |
| AuthMiddleware.Exchange.OptionalAuth | apps/api/src/middleware/auth.ts:55-82 | never responds and always calls next once; the user is attached iff a token is present and verifies |
| ErrorHandler.NewAppError | apps/api/src/middleware/errorHandler.ts:5-15 | the status defaults to 500 and the operational flag to true |
| ErrorHandler.HandleError | apps/api/src/middleware/errorHandler.ts:20-58 | an AppError sets the status and the message; any other error is a 500 'Internal server error'; the stack and the error appear iff the environment is development |
| ErrorHandler.NotFound | apps/api/src/middleware/errorHandler.ts:63-66 | an operational 404 whose message ends with the original URL |
| Crypto.HexEncode | workers/api/src/utils/crypto.ts:8-9 | two lowercase hex digits per byte |
| Crypto.HexRoundTrip | workers/api/src/utils/crypto.ts:8-9 | decoding the hex text gives back the digest bytes |
| Crypto.HexEncodeInjective | workers/api/src/utils/crypto.ts:8-9 | different digests give different hex texts |
| Crypto.HashPassword | workers/api/src/utils/crypto.ts:4-10 | a 32-byte SHA-256 digest becomes 64 characters |
| Crypto.VerifyPasswordCorrect | workers/api/src/utils/crypto.ts:16-19 | a password verifies against its own hash, and against another password's hash iff the digests agree |
| Crypto.Substring | workers/api/src/utils/crypto.ts:25 | `substring` never exceeds the string or the span between its two indices |
| Crypto.TimestampLacksUnderscore | workers/api/src/utils/crypto.ts:26 | base-36 text contains no underscore |
| Crypto.GenerateIdFields | workers/api/src/utils/crypto.ts:24-28 | the id splits on `_` into prefix, timestamp and random part (or timestamp and random part without a prefix), and the timestamp field reads back as `now` |
| EnvironmentMapper.NamesDistinct | apps/api/src/services/environmentMapper.ts:6-7 | band and weather names are distinct and contain no colon |
| EnvironmentMapper.TimeOfDayBands | apps/api/src/services/environmentMapper.ts:243-252 | each band holds exactly its interval [5,9), [9,12), [12,17), [17,21); night is every other hour |
| EnvironmentMapper.BandChangesOnlyAtBoundaries | apps/api/src/services/environmentMapper.ts:243-252 | consecutive hours differ in band iff the later one is 5, 9, 12, 17 or 21 |
| EnvironmentMapper.BandsContiguous | apps/api/src/services/environmentMapper.ts:243-252 | every band except night is a contiguous run of hours |
| EnvironmentMapper.BandStart | apps/api/src/services/environmentMapper.ts:243-252 | a band's first hour is a clock hour that lies in the band, and the hour before it does not |
| EnvironmentMapper.WeatherBuckets | apps/api/src/services/environmentMapper.ts:254-267 | rain iff 200-599, snow iff 600-699, clear iff 800, clouds iff 801-899, and other for everything else |
| EnvironmentMapper.MoodMapTotal | apps/api/src/services/environmentMapper.ts:27-241 | the table has an entry for every band and weather pair |
| EnvironmentMapper.GetMusicParameters | apps/api/src/services/environmentMapper.ts:269-277 | every entry has a rising tempo range and some instruments and keys; night is always very low energy |
| EnvironmentMapper.GenerateMusicPrompt | apps/api/src/services/environmentMapper.ts:279-289 | the prompt states the mood, the instruments joined by ', ', 'Tempo: lo-hi BPM', the keys joined by ' or ' and the energy |
| GensparkConfig.ModelMappingShape | apps/api/src/config/genspark.ts:9-26 | every work type has an entry, and each entry's primary differs from its fallback |
| GensparkConfig.EnvironmentStylesShape | apps/api/src/config/genspark.ts:29-55 | every band has sunny, cloudy and rainy styles, and none has snowy or stormy |
| GensparkV1.SelectOptimalModel | apps/api/src/services/gensparkMusicService.ts:62-96 | the model for each work type, the rainy and morning exceptions, and elevenlabs for an unknown work type |
| GensparkV1.ModelRulesIndependent | apps/api/src/services/gensparkMusicService.ts:66-92 | only the weather matters for focus and only the band for creative |
| GensparkV1.GetBasePromptForWorkType | apps/api/src/services/gensparkMusicService.ts:119-135 | a non-empty prompt, and the neutral one iff the work type is unknown |
| GensparkV1.GetEnvironmentContext | apps/api/src/services/gensparkMusicService.ts:137-160 | a valid environment gives its time phrase, ', ', then its weather phrase |
| GensparkV1.StyleModifierParts | apps/api/src/services/gensparkMusicService.ts:162-180 | one non-empty part for a non-empty genre list and one for a truthy mood |
| GensparkV1.GetStyleModifiers | apps/api/src/services/gensparkMusicService.ts:162-180 | the parts joined by ', '; empty iff there is neither; an unknown mood stands for itself |
| GensparkV1.PromptSegments | apps/api/src/services/gensparkMusicService.ts:98-117 | base, context, modifiers only when non-empty, 'instrumental', and the duration, none of them empty |
| GensparkV1.PromptEndsWithDuration | apps/api/src/services/gensparkMusicService.ts:98-117 | the prompt ends with 'duration: n seconds' |
| GensparkV1.PromptWithoutModifiers | apps/api/src/services/gensparkMusicService.ts:98-117 | without genre or mood, the prompt has exactly four segments |
| GensparkV1.GenerateTitle | apps/api/src/services/gensparkMusicService.ts:267-273 | the title has eight characters beyond its three words |
| GensparkV1.TitleLayout | apps/api/src/services/gensparkMusicService.ts:267-273 | the title is 'Band Weather - WorkType BGM', each word capitalised, in that position |
| GensparkV1.TitleExample | apps/api/src/services/gensparkMusicService.ts:267-273 | late night, rainy, focus gives 'LateNight Rainy - Focus BGM' |
| GensparkV1.EstimateBpm | apps/api/src/services/gensparkMusicService.ts:278-296 | the tempo is in [60,140], and a raw tempo inside that range is kept |
| GensparkV1.BpmNeverClamped | apps/api/src/services/gensparkMusicService.ts:278-296 | the raw tempo is always in [60,120], so the clamp never changes it and the band does not affect it |
| GensparkV1.KeysFor | apps/api/src/services/gensparkMusicService.ts:301-312 | a band always has some key |
| GensparkV1.SelectMusicalKey | apps/api/src/services/gensparkMusicService.ts:301-312 | the key is one of the band's keys, or a morning key for an unknown band |
| GensparkV1.EveryKeyReachable | apps/api/src/services/gensparkMusicService.ts:301-312 | every key of the band is chosen by some draw |
| GensparkV1.MockGeneration | apps/api/src/services/gensparkMusicService.ts:222-232 | the mock audio has the requested duration |
| GensparkV1.ResponseGenre | apps/api/src/services/gensparkMusicService.ts:247 | the joined genres, or 'ambient' when there are none |
| GensparkV1.ConvertToStandardResponse | apps/api/src/services/gensparkMusicService.ts:238-262 | the id is 'bgm_<now>_<suffix>'; the audio URL, duration and environment are passed through; the mood defaults to 'neutral'; the tempo is the raw tempo; the title is GenerateTitle's, the genre the request's genres joined by ', ', or 'ambient', and the key SelectMusicalKey's, which is one of the band's |
| GensparkV1.GenerateBgm | apps/api/src/services/gensparkMusicService.ts:20-57 | the response keeps the requested duration and environment |
| GensparkV2.BaseModel | apps/api/src/services/gensparkMusicServiceV2.ts:70 | the configured primary model for a known work type, else the default |
| GensparkV2.SelectOptimalGensparkModel | apps/api/src/services/gensparkMusicServiceV2.ts:66-105 | the model is a known one, and for a mapped work type it is that type's primary or fallback |
| GensparkV2.RelaxedAlwaysLyria | apps/api/src/services/gensparkMusicServiceV2.ts:93-95 | relaxed work always gets lyria2 |
| GensparkV2.FocusModel | apps/api/src/services/gensparkMusicServiceV2.ts:73-81 | rain gives lyria2; otherwise late night gives the instrumental generator, and any other band gets the primary |
| GensparkV2.CreativeAndEnergeticModels | apps/api/src/services/gensparkMusicServiceV2.ts:83-102 | creative work uses its fallback only under storm; energetic work always uses its primary |
| GensparkV2.UnmatchedWorkTypeUsesDefault | apps/api/src/services/gensparkMusicServiceV2.ts:104 | an unknown work type gets the default model |
| GensparkV2.GetWorkTypeDescription | apps/api/src/services/gensparkMusicServiceV2.ts:143-151 | non-empty, and the balanced fallback iff the work type is not in the table |
| GensparkV2.GetEnvironmentContext | apps/api/src/services/gensparkMusicServiceV2.ts:156-179 | a valid environment gives its time description, ', ', then its weather description |
| GensparkV2.GetMusicStyle | apps/api/src/services/gensparkMusicServiceV2.ts:184-221 | non-empty, and the fallback style iff the band and weather have no configured style |
| GensparkV2.StyleEnergiesKnown | apps/api/src/services/gensparkMusicServiceV2.ts:184-221 | every configured energy has a phrase |
| GensparkV2.StyleTablesAgree | apps/api/src/services/gensparkMusicServiceV2.ts:184-221 | every configured mood has a phrase, except sunny evening's 'relaxed' |
| GensparkV2.MusicStyleExamples | apps/api/src/services/gensparkMusicServiceV2.ts:187-189 | snow and storm always fall back to the generic style |
| GensparkV2.MoodModifier | apps/api/src/services/gensparkMusicServiceV2.ts:226-244 | non-empty; a mood missing from the table appears in its phrase |
| GensparkV2.ModifierParts | apps/api/src/services/gensparkMusicServiceV2.ts:226-244 | one non-empty part for a non-empty genre list and one for a truthy mood |
| GensparkV2.GetAdditionalModifiers | apps/api/src/services/gensparkMusicServiceV2.ts:226-244 | the parts joined by ', ', and empty iff there is neither |
| GensparkV2.PromptSegments | apps/api/src/services/gensparkMusicServiceV2.ts:110-138 | description, context, style, modifiers only when non-empty, then the three closing segments, none empty |
| GensparkV2.PromptEndsWithDuration | apps/api/src/services/gensparkMusicServiceV2.ts:126-134 | the prompt ends with 'duration approximately n seconds' |
| GensparkV2.PromptWithoutModifiers | apps/api/src/services/gensparkMusicServiceV2.ts:126-134 | without genre or mood, the prompt has exactly six segments |
| GensparkV2.GenerateContextualTitle | apps/api/src/services/gensparkMusicServiceV2.ts:378-405 | after the emoji, the title ends with ' <work name> - <Band> BGM' |
| GensparkV2.ContextualTitleLayout | apps/api/src/services/gensparkMusicServiceV2.ts:378-405 | for a valid environment the title is the band's emoji, then the weather's emoji (both non-empty), then ' <work name> - <Band> BGM' |
| GensparkV2.InferGenre | apps/api/src/services/gensparkMusicServiceV2.ts:410-424 | the joined genres when given; otherwise the model's genre, or 'Background Music' |
| GensparkV2.InferredGenreOfSelectedModel | apps/api/src/services/gensparkMusicServiceV2.ts:410-424 | without genres, the generic genre appears iff the work is creative and the weather is stormy |
| GensparkV2.EstimateContextualBpm | apps/api/src/services/gensparkMusicServiceV2.ts:429-456 | the tempo is in [60,130], an in-range raw tempo is kept, and a low one is raised to 60 |
| GensparkV2.ContextualBpmRange | apps/api/src/services/gensparkMusicServiceV2.ts:429-456 | the raw tempo is in [45,124], so only the lower clamp can apply |
| GensparkV2.KeysFor | apps/api/src/services/gensparkMusicServiceV2.ts:461-472 | every band has four keys |
| GensparkV2.SelectMusicalKey | apps/api/src/services/gensparkMusicServiceV2.ts:461-472 | one of the band's keys, or a morning key for an unknown band |
| GensparkV2.EveryKeyReachable | apps/api/src/services/gensparkMusicServiceV2.ts:461-472 | every key of the band is chosen by some draw |
| GensparkV2.InferMood | apps/api/src/services/gensparkMusicServiceV2.ts:477-499 | a truthy given mood wins; otherwise the inferred mood is one of the four schema moods |
| GensparkV2.InferMoodPriority | apps/api/src/services/gensparkMusicServiceV2.ts:477-499 | sunny morning beats rain, rain beats late night, late night beats creative work; 'inspiring' iff creative work and none of the earlier rules applies |
| GensparkV2.InferMoodValid | apps/api/src/services/gensparkMusicServiceV2.ts:477-499 | a request the schema accepts always gets a schema mood |
| GensparkV2.ConvertGensparkToStandardResponse | apps/api/src/services/gensparkMusicServiceV2.ts:352-373 | id 'bgm_<now>_<suffix>'; the duration is the audio's non-zero duration or the requested one; the tempo is EstimateContextualBpm's, in [60,130]; the title, genre and mood are GenerateContextualTitle's, InferGenre's and InferMood's; the key is SelectMusicalKey's, one of the band's; a valid request gets a schema mood |
| MusicGenerator.ResolveTimeOfDay | apps/api/src/services/musicGenerator.ts:48 | the requested band, or the band of the current hour |
| MusicGenerator.ResolveWeather | apps/api/src/services/musicGenerator.ts:49 | the requested weather, or clear |
| MusicGenerator.CacheKeyFields | apps/api/src/services/musicGenerator.ts:52 | the key splits on ':' into 'bgm', the band and the weather |
| MusicGenerator.CacheKeyInjective | apps/api/src/services/musicGenerator.ts:52 | different band and weather pairs have different keys |
| MusicGenerator.RequestedDuration | apps/api/src/services/musicGenerator.ts:72 | the requested duration, or 180 when it is missing or 0 |
| MusicGenerator.CallElevenLabsApi | apps/api/src/services/musicGenerator.ts:109-156 | without a key, the demo URL; otherwise succeeds iff the reply carries audio_url or url, answering audio_url when it is there and url otherwise; every failure is 'Failed to call ElevenLabs API' |
| MusicGenerator.MissResponse | apps/api/src/services/musicGenerator.ts:65-89 | succeeds iff the audio call does; the response carries the band, the weather and the table's parameters with the tempo as 'lo-hi'; every failure is 'Failed to generate BGM' |
| MusicGenerator.MissPrompt | apps/api/src/services/musicGenerator.ts:69 | a truthy custom prompt is used as is; otherwise the prompt states the tempo range and the keys |
| MusicGenerator.MissWithoutKeySucceeds | apps/api/src/services/musicGenerator.ts:114-118 | without an API key, generation always succeeds with the demo URL |
| MusicGenerator.MusicGeneratorService.constructor | apps/api/src/services/musicGenerator.ts:41 | an empty cache and an empty history |
| MusicGenerator.MusicGeneratorService.SaveBgmHistory | apps/api/src/services/musicGenerator.ts:161-181 | appends one row when the database is available; otherwise the failure is swallowed and nothing changes |
| MusicGenerator.MusicGeneratorService.GenerateBgm | apps/api/src/services/musicGenerator.ts:45-104 | a hit returns the cached response and records history; a miss stores and records the new response; a failure changes nothing |
| Schemas.BGMRequestBoundaries | packages/types/index.ts:19-27 | 30 and 600 seconds and 60 and 180 BPM are accepted, one beyond is refused; a mood outside the four is refused |
| Schemas.ClockTimeShapeOnly | packages/types/index.ts:59-63 | the time pattern checks the HH:MM shape only, so '99:99' passes and '9:00' does not |
| Schemas.ParseUser | packages/types/index.ts:86-93 | accepts exactly the valid records, and the timezone defaults to UTC |
| Schemas.CredentialBoundaries | packages/types/index.ts:97-109 | a six-character password is the shortest accepted; names run from 1 to 100; every registration is also a valid login |
| Schemas.ParsePlaylist | packages/types/index.ts:124-132 | accepts exactly the valid records; a playlist is private unless it says otherwise |
| Schemas.RecordBoundaries | packages/types/index.ts:71-75 | position, total listening time and played duration accept 0 and refuse -1; an activity is one of play, skip, like, download; a playlist name must not be empty (lines 127, 140, 176-183) |
| WorkerAuth.RegisterBodyAllowsLogin | workers/api/src/routes/auth.ts:10-23 | every body that may register is a valid login body |
| WorkerAuth.MessageOr | workers/api/src/routes/auth.ts:87 | `error.message \|\| fallback` is the message when it is non-empty |
| WorkerAuth.LoginRefusal | workers/api/src/routes/auth.ts:106-127 | 401 'Invalid credentials' for an unknown email or a wrong password, 403 'Account is deactivated' otherwise |
| WorkerAuth.MeRoute | workers/api/src/routes/auth.ts:277-302 | a missing header gives 401; otherwise the payload iff the token verifies, or 403 'Invalid token' |
| WorkerAuth.AuthRoutes.constructor | workers/api/src/routes/auth.ts:1-26 | empty tables and an empty session namespace |
| WorkerAuth.AuthRoutes.Register | workers/api/src/routes/auth.ts:28-90 | an invalid body or an existing email is a 400 with nothing written; a clashing id is refused; otherwise a 201 with both rows written and the session stored |
| WorkerAuth.AuthRoutes.Login | workers/api/src/routes/auth.ts:95-170 | an invalid body is a 400; a refusal follows LoginRefusal with nothing changed; success stamps lastLoginAt and stores the refresh token |
| WorkerAuth.AuthRoutes.Refresh | workers/api/src/routes/auth.ts:175-240 | every failure is a 401 that changes nothing; success rotates the stored token, and the old one is refused afterwards |
| WorkerAuth.AuthRoutes.Logout | workers/api/src/routes/auth.ts:245-272 | a missing header gives 401; a failed verification gives 400; success deletes the user's session |
| WorkerBgm.Authenticate | workers/api/src/routes/bgm.ts:17-31 | a missing header gives 401; otherwise the payload iff the token (with 'Bearer ' removed) verifies, or 403 |
| WorkerBgm.AuthenticateBearer | workers/api/src/routes/bgm.ts:24 | 'Bearer <t>' verifies t itself |
| WorkerBgm.AuthenticateRawToken | workers/api/src/routes/bgm.ts:24 | a header without 'Bearer ' is verified as it stands |
| WorkerBgm.GetCurrentTimeOfDay | workers/api/src/routes/bgm.ts:158-165 | the same bands as the API's getTimeOfDay, and always a schema band |
| WorkerBgm.GeneratePromptMentions | workers/api/src/routes/bgm.ts:167-169 | the prompt names the band and the weather |
| WorkerBgm.GetMoodDefined | workers/api/src/routes/bgm.ts:171-178 | a mood other than 'neutral' iff the band is morning, afternoon or evening and the weather is clear, clouds or rain |
| WorkerBgm.NewBgm | workers/api/src/routes/bgm.ts:60-74 | the generated record: a 'bgm' id, the custom or built prompt, fixed tempo, keys, energy and instruments, and the table mood |
| WorkerBgm.BgmRoutes.constructor | workers/api/src/routes/bgm.ts:1-14 | an empty cache and an empty history |
| WorkerBgm.BgmRoutes.SaveBgmHistory | workers/api/src/routes/bgm.ts:184-202 | appends a row when the database is available, and changes nothing otherwise |
| WorkerBgm.BgmRoutes.Generate | workers/api/src/routes/bgm.ts:36-96 | refused authentication or an invalid body changes nothing; a hit answers 200 from the cache; a miss stores the new record and answers 201; both record history |
| WorkerBgm.CacheKeyDomain | workers/api/src/routes/bgm.ts:42-43 | a valid body always resolves to a schema band and a schema weather |
| WorkerEnvironment.GetTimeOfDay | workers/api/src/routes/environment.ts:105-111 | the same bands as the API's getTimeOfDay |
| WorkerEnvironment.NormalizeWeatherCondition | workers/api/src/routes/environment.ts:113-121 | the same buckets as the API's normalizeWeatherCondition |
| WorkerEnvironment.JsRound | workers/api/src/routes/environment.ts:164 | `Math.round` is within half a unit of its argument |
| WorkerEnvironment.FreshWeather | workers/api/src/routes/environment.ts:129-174 | without a key, mock data; otherwise fails iff the provider fails, else the code is bucketed and the temperature rounded |
| WorkerEnvironment.TimeOfDayRoute | workers/api/src/routes/environment.ts:90-102 | the band of the given hour, with that hour |
| WorkerEnvironment.WeatherRoutes.constructor | workers/api/src/routes/environment.ts:1-8 | an empty KV namespace |
| WorkerEnvironment.CoordsKeyFields | workers/api/src/routes/environment.ts:129 | a coordinate key splits at ':' back into 'weather' and its two printed numbers |
| WorkerEnvironment.CoordsKeysDistinct | workers/api/src/routes/environment.ts:129-184 | distinct coordinates get distinct keys, and no coordinate key is a city key |
| WorkerEnvironment.LookupThenHit | workers/api/src/routes/environment.ts:129-177 | after a successful lookup the next one under its key answers the same record and leaves the cache as it is; a failed one stores nothing |
| WorkerEnvironment.WeatherRoutes.GetWeatherByCoords | workers/api/src/routes/environment.ts:123-177 | a hit returns the cached data; a miss fetches, and stores only a success |
| WorkerEnvironment.WeatherRoutes.GetWeatherByCity | workers/api/src/routes/environment.ts:179-229 | a hit returns the cached data; a miss fetches, and stores only a success |
| WorkerEnvironment.WeatherRoutes.CurrentRoute | workers/api/src/routes/environment.ts:9-52 | 400 iff there is no location at all; both coordinates, parsed as numbers, take precedence over the city; each branch answers and caches as its lookup does (a lookup failure is a 400); a lone lat or lon without a city gives no weather and leaves the cache alone |
| WorkerEnvironment.WeatherRoutes.WeatherRoute | workers/api/src/routes/environment.ts:57-85 | 400 iff there is neither a pair of coordinates nor a city; both coordinates, parsed as numbers, take precedence over the city; the reply and the new cache are the lookup's, and a lookup failure is a 400 |
| MusicStore.WithoutId | apps/web/store/musicStore.ts:150 | the filter keeps exactly the tracks with another id |
| MusicStore.WithoutIdConcat | apps/web/store/musicStore.ts:150 | the filter preserves order across a concatenation |
| MusicStore.WithoutAbsentId | apps/web/store/musicStore.ts:150 | filtering an absent id changes nothing |
| MusicStore.WithoutIdUnique | apps/web/store/musicStore.ts:150 | the filter keeps ids unique |
| MusicStore.PushRecent | apps/web/store/musicStore.ts:148-152 | the track comes first, then the filtered list cut to 20 in all |
| MusicStore.PushRecentKeepsUnique | apps/web/store/musicStore.ts:148-152 | the list stays duplicate-free; a new track on a short list is simply prepended |
| MusicStore.PushRecentIdempotent | apps/web/store/musicStore.ts:148-152 | adding the same track twice leaves the list as after the first time |
| MusicStore.MusicStore.constructor | apps/web/store/musicStore.ts:47-54 | the initial state, with volume 0.7 and an empty history |
| MusicStore.MusicStore.SetTrack | apps/web/store/musicStore.ts:56-105 | a new player for the track's URL at the current volume; stopped at position 0; everything else kept |
| MusicStore.MusicStore.SetVolume | apps/web/store/musicStore.ts:128-134 | the store's volume always changes, and the player's only when there is one |
| MusicStore.MusicStore.Seek | apps/web/store/musicStore.ts:136-142 | the position moves only when there is a player |
| MusicStore.MusicStore.SetCurrentTime | apps/web/store/musicStore.ts:144 | changes the position and nothing else |
| MusicStore.MusicStore.SetDuration | apps/web/store/musicStore.ts:146 | changes the duration and nothing else |
| MusicStore.MusicStore.AddToHistory | apps/web/store/musicStore.ts:148-152 | the history becomes PushRecent of the old one, and the bound and uniqueness hold |
| MusicStore.MusicStore.ClearHistory | apps/web/store/musicStore.ts:154 | empties the history and nothing else |
| EnvironmentStore.EnvironmentStore.constructor | apps/web/store/environmentStore.ts:36-40 | everything empty and not loading |
| EnvironmentStore.EnvironmentStore.SetWeather | apps/web/store/environmentStore.ts:42-47 | sets the weather and the update time, clears the error, and keeps the band and the loading flag |
| EnvironmentStore.EnvironmentStore.SetTimeOfDay | apps/web/store/environmentStore.ts:49-54 | sets the band and the update time, clears the error, and keeps the weather and the loading flag |
| EnvironmentStore.EnvironmentStore.SetEnvironment | apps/web/store/environmentStore.ts:56-62 | sets both and the update time, clears the error, and keeps the loading flag |
| EnvironmentStore.EnvironmentStore.SetLoading | apps/web/store/environmentStore.ts:64 | changes the loading flag and nothing else |
| EnvironmentStore.EnvironmentStore.SetError | apps/web/store/environmentStore.ts:66 | records the error and ends loading |
| EnvironmentStore.EnvironmentStore.ClearEnvironment | apps/web/store/environmentStore.ts:68-74 | empties the data fields but keeps the loading flag |

## Observations

These are consequences of the code as written, stated as lemmas above. None of them is
treated as a defect.

- The tempo clamp of `estimateBPM` (gensparkMusicService.ts:278-296) never applies; see `GensparkV1.BpmNeverClamped`.
- `estimateContextualBPM` never reaches its upper clamp of 130; see `GensparkV2.ContextualBpmRange`.
- In `convertToStandardResponse`, the mood default 'neutral' is not one of the schema's four moods.
- The sunny evening style's mood 'relaxed' has no phrase in the mood table; see `GensparkV2.StyleTablesAgree`.
- On the worker, `/current` with only a latitude or only a longitude and no city answers with no weather.
- On the worker, registration writes the user row before the profile row, so a failing profile insert leaves the user behind.
- An unknown email and a wrong password get the same answer in both back ends.
- On the worker, refresh answers every failure with 401, while logout answers a failed verification with 400.

## Left out

- Network calls are parameters: to Genspark, ElevenLabs and OpenWeatherMap, their timeouts, and the JSON the cache round-trips (on the worker, a cached record's `generatedAt` becomes a string, which is not modelled).
- Cache and session TTLs (`CACHE_TTL`, KV expiry, the seven-day session lifetime) are constants only; expiry is not modelled.
- Clocks and `Math.random` are parameters, and the base-36 text of a random draw is taken as given.
- Floating point: tempos and durations are integers; `Math.round` is modelled by its half-unit bound on reals; the store's volume and time are reals.
- Case mapping is ASCII only, and zod string lengths count characters rather than UTF-16 units.
- Schemas.IsEmail: a simplified shape of `z.string().email()`, not zod's full pattern.
- WorkerAuth.ValidationFailed: zod's error message text is not modelled, only the status.
- WorkerAuth.DuplicateKey: the database's refusal text is not modelled.
- AuthService bcrypt: salting is folded into the hash parameter, so the same password always hashes alike.
- V2 `generateBGM`, `callGensparkAudioGeneration`, `buildAudioRequirements` and its mock are network plumbing around the modelled prompt and metadata builders.
- V1 `generateBGMId` is the id shape inside `GensparkV1.ConvertToStandardResponse`; the random suffix is a parameter.
- GensparkV1.GenerateBgm: states only duration and environment; the rest of its response is stated by `GensparkV1.ConvertToStandardResponse`.
- Number parsing and printing (`parseFloat` and the template string of environment.ts:25, 65 and 129) are a `numberText` parameter of the worker routes.
- Logging is not modelled.
- Howler playback is not modelled: `play`, `pause`, `stop` and the load, end and error callbacks of musicStore.ts:66-97.
- `getUserBGMHistory`, `getBGMById` and the worker's `/history` and `/:id` routes are plain queries and are not modelled.
- AuthMiddleware: an exception thrown by `next()` inside the handler's try block is not modelled.
- Concurrency is not modelled: interleaved requests, and the race between reading and writing a cache entry.
- weatherService.ts, validation.ts, the web API client, `asyncHandler` and the React components are not part of this model.
