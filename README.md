# Crop-health assistant: a verified model of its core logic

The application lets farmers photograph a crop and get a disease verdict. It also shows a seven-day
weather forecast, gives administrators a dashboard of users and analyses, and records drone camera
sessions. This project models four parts of it in Dafny and proves properties about them.

- **Crop analysis** (`CropAnalysis`, `CropAnalysisLemmas`): the `analyze-crop` serverless handler.
  - The image is sent for label detection. Every label description that contains a disease or
    healthy keyword adds that label's score to the matching sum, once per keyword it contains.
  - A verdict comes from the two sums: *healthy*, *moderate* or *severe*, a confidence clamped to
    [60, 95], and a fixed list of treatments. The disease name comes from a per-crop table.
  - If the vision call fails or its result has no `labelAnnotations` field, the handler picks at random from a canned
    catalogue per crop.
  - `ProcessVisionResults` is the imperative algorithm: nested loops with accumulators, then
    locals reassigned branch by branch. It is proved equal to the reference function `Classify`.
    The properties are proved as lemmas about `Classify` and its parts.
- **Weather** (`Weather`): the `get-weather` serverless handler.
  - It reshapes the 3-hourly upstream forecast into at most seven daily entries.
  - It computes the cache key.
  - `WeatherCache` is a class over a map of expiring rows. `GetWeather` settles the order in which
    the handler checks the API key, then the cache, then the upstream call, and then writes back.
- **Admin dashboard** (`Admin`).
  - The joins of profiles with roles and of analyses with profiles.
  - The statistic counts.
  - The `AdminPanel` component state: the admin gate, the loading flag, both fetches and deletion.
- **Drone page** (`Drone`). `DronePage` holds:
  - the connection and recording flags;
  - the recorder's chunk buffer, which keeps only non-empty chunks;
  - the single stored recording;
  - the session list. A session is prepended when a recording stops and filtered out on delete.

Shared pieces:

- `Common`: `Option`, a query result type and `Math.round`.
- `Text`: ASCII lower-casing, substring containment and `split(sep)[0]`.
- `Lists`: `find`, `filter` by id and counting.

Clocks, `Math.random()`, the network and the database are not modelled as such. Their results are
method parameters:

- the random draw `rand`, with 0 ≤ `rand` < 1;
- the vision outcome;
- the upstream forecast;
- whether a lookup or upsert reached the cache table;
- the query replies of the admin page;
- the recorder's final chunk and the clock readings of its stop callback.

A lone "leaf spot" label at 0.9 on tomato might be expected to give a *severe* verdict with
confidence 90. In the code, "leaf spot" also contains the healthy keyword "leaf", so both sums are
0.9. The result is *moderate* "Early Blight" with confidence round(0.9·80) = 72.
`TomatoLeafSpotExample` proves this. An empty `labelAnnotations` array is present and therefore
scored: it gives Healthy with confidence 60 (`EmptyLabelsHealthy60`).

The name "Leaf Abnormality Detected" cannot occur (`LeafAbnormalityUnreachable`). With
non-negative scores, a disease sum above zero means some disease keyword was recorded.

## Model

| member | source | states |
|---|---|---|
| Common.Round | supabase/functions/analyze-crop/index.ts:197 | `Math.round`: the result is the integer within half a unit of x, halves going up |
| Text.LowerChar | supabase/functions/analyze-crop/index.ts:159 | the result is never an upper-case letter; upper-case letters map to their lower-case letter; other characters are unchanged |
| Text.ToLower | supabase/functions/analyze-crop/index.ts:159 | the same length as the input, each character lower-cased |
| Text.ToLowerIdempotent | supabase/functions/analyze-crop/index.ts:266 | lower-casing twice equals lower-casing once; a string with no upper-case letter is its own lower-case form |
| Text.PrefixBefore | supabase/functions/get-weather/index.ts:78 | `split(sep)[0]`: a prefix of the input without the separator, ending at the first separator or at the end |
| Lists.FindIndex | src/pages/Admin.tsx:101 | the index of the first element satisfying the predicate, or the length when none does |
| Lists.Find | src/pages/Admin.tsx:141 | `find`: None exactly when no element matches; otherwise the first matching element |
| Lists.WithoutId | src/pages/Admin.tsx:171 | `filter(x => x.id !== id)`: nothing with that id remains, every element without it is kept, and nothing new appears |
| Lists.WithoutIdAppend | src/pages/Drone.tsx:225 | filtering by id distributes over concatenation, so relative order is kept |
| Lists.WithoutIdAbsent | src/pages/Drone.tsx:225 | when no element carries the id, filtering changes nothing |
| Lists.WithoutIdLength | src/pages/Admin.tsx:171 | the filter removes exactly as many elements as carry the id |
| Lists.CountWhere | src/pages/Admin.tsx:259 | `filter(p).length`: at most the length; zero exactly when none match; the length exactly when all do |
| Lists.CountWhereAppend | src/pages/Admin.tsx:273 | counting is additive over concatenation |
| Lists.CountWhereComplement | src/pages/Admin.tsx:273 | a predicate and its negation together count every element |
| CropAnalysis.Clamp | supabase/functions/analyze-crop/index.ts:237 | the confidence lies in [60, 95], is unchanged inside it, and is raised to 60 or cut to 95 outside it |
| CropAnalysis.Lowered | supabase/functions/analyze-crop/index.ts:158-161 | one label per input label, description lower-cased, score kept |
| CropAnalysis.Matches | supabase/functions/analyze-crop/index.ts:180-190 | only keywords from the list that the description contains; completeness and the count per position are `MatchesComplete` and `MatchesCount` |
| CropAnalysis.MockBucket | supabase/functions/analyze-crop/index.ts:270-388 | never empty; the crop's own catalogue for cassava, sugarcane or tomato in any case, else the default entry |
| CropAnalysis.GenerateMockAnalysis | supabase/functions/analyze-crop/index.ts:269-390 | the draw always lands inside the crop's catalogue; an unknown crop always gets the default "Leaf Spot Disease" entry; which entry `rand` selects is `MockDrawUniform` |
| CropAnalysis.ScoreAgainst | supabase/functions/analyze-crop/index.ts:180-190 | the inner loop adds the label's score once per contained keyword and records exactly those keywords in order |
| CropAnalysis.ScoreLabels | supabase/functions/analyze-crop/index.ts:175-192 | the outer loop's two sums and `detectedDiseases` equal the reference functions over all labels |
| CropAnalysis.ProcessVisionResults | supabase/functions/analyze-crop/index.ts:151-240 | a missing result or missing labels gives the mock analysis; otherwise the verdict equals `Classify` on the lower-cased labels |
| CropAnalysis.AnalyzeCrop | supabase/functions/analyze-crop/index.ts:28-102 | a failed vision call, a missing first response or missing labels gives the mock analysis; otherwise the label-scoring verdict |
| CropAnalysisLemmas.MatchScorePerPair | supabase/functions/analyze-crop/index.ts:180-184 | one label adds its score times the number of keywords it contains |
| CropAnalysisLemmas.MatchesEmptyIff | supabase/functions/analyze-crop/index.ts:181 | no keyword is recorded exactly when the description contains none of them |
| CropAnalysisLemmas.MatchesComplete | supabase/functions/analyze-crop/index.ts:180-184 | every keyword the description contains is recorded |
| CropAnalysisLemmas.MatchesCount | supabase/functions/analyze-crop/index.ts:180-184 | one entry is recorded per list position whose keyword the description contains; for a list without repeats, together with `MatchesComplete`, each contained keyword is recorded exactly once |
| CropAnalysisLemmas.MatchesFirst | supabase/functions/analyze-crop/index.ts:180-184 | the first recorded keyword is the earliest contained one in list order |
| CropAnalysisLemmas.DetectedEmptyIff | supabase/functions/analyze-crop/index.ts:179-184 | `detectedDiseases` is empty exactly when no label contains a disease keyword |
| CropAnalysisLemmas.DetectedFirst | supabase/functions/analyze-crop/index.ts:179-184 | `detectedDiseases[0]` comes from the first label that contains any disease keyword |
| CropAnalysisLemmas.FirstRecordedKeyword | supabase/functions/analyze-crop/index.ts:179-207 | the keyword used for the disease name is the earliest keyword of the first matching label |
| CropAnalysisLemmas.NoKeywordNoDiseaseScore | supabase/functions/analyze-crop/index.ts:181-183 | with no recorded keyword, the disease sum is 0 |
| CropAnalysisLemmas.MatchScoreNonNegative | supabase/functions/analyze-crop/index.ts:182 | non-negative scores add a non-negative amount |
| CropAnalysisLemmas.ScoresNonNegative | supabase/functions/analyze-crop/index.ts:175-192 | non-negative label scores give non-negative sums |
| CropAnalysisLemmas.VerdictShape | supabase/functions/analyze-crop/index.ts:195-239 | severity by threshold: healthy iff d ≤ 0.3h, moderate iff 0.3h < d ≤ h, severe iff d > 0.3h and d > h. Never mild. Confidence in [60, 95]. The healthy list ("Continue current care routine"…), the severe list ("Apply appropriate fungicide immediately"…) and the moderate list ("Monitor closely for progression"…), each exactly. The disease name. Healthy confidence is clamp(round(100h/(h+d))), with the divisor 1 when h+d is 0; severe confidence is clamp(round(100d)); moderate is clamp(round(80d)) |
| CropAnalysisLemmas.FallbackNameIsNotAbnormality | supabase/functions/analyze-crop/index.ts:266 | a generic "… Disease Detected" name is never "Leaf Abnormality Detected" |
| CropAnalysisLemmas.CropSpecificDiseaseNeverAbnormality | supabase/functions/analyze-crop/index.ts:242-267 | the per-crop disease name is never "Leaf Abnormality Detected" |
| CropAnalysisLemmas.CropSpecificDiseaseCaseInsensitive | supabase/functions/analyze-crop/index.ts:242-267 | crops equal after lower-casing get the same table name on a hit; for a crop not in the table the generic name keeps the caller's spelling |
| CropAnalysisLemmas.TomatoNames | supabase/functions/analyze-crop/index.ts:258-266 | "Tomato" with "blight" gives Late Blight, "TOMATO" with "leaf spot" gives Early Blight, and "Tomato" with "rust", which its table lacks, gives "Tomato Disease Detected" |
| CropAnalysisLemmas.LeafAbnormalityUnreachable | supabase/functions/analyze-crop/index.ts:204-210 | with non-negative scores, passing the disease threshold implies a recorded keyword, so the abnormality name is never produced |
| CropAnalysisLemmas.NoIndicatorIsHealthy60 | supabase/functions/analyze-crop/index.ts:197-237 | when no label contains any keyword, the denominator falls back to 1, the baseline is 0, and the verdict is Healthy with confidence 60 |
| CropAnalysisLemmas.EmptyLabelsHealthy60 | supabase/functions/analyze-crop/index.ts:154-237 | an empty label array is scored rather than sent to the catalogue, and gives Healthy with confidence 60 |
| CropAnalysisLemmas.NoHealthyScore | supabase/functions/analyze-crop/index.ts:187-191 | with no healthy keyword in any label, the healthy sum is 0 |
| CropAnalysisLemmas.HealthyBaselineAtLeast77 | supabase/functions/analyze-crop/index.ts:197-204 | below the disease threshold with a positive healthy sum, the baseline share is at least 77 |
| CropAnalysisLemmas.HealthyConfidenceBand | supabase/functions/analyze-crop/index.ts:197-237 | a healthy verdict has confidence 60 when the healthy sum is 0, else between 77 and 95 |
| CropAnalysisLemmas.MatchesAppend | supabase/functions/analyze-crop/index.ts:180 | keyword matching distributes over splitting the keyword list |
| CropAnalysisLemmas.MatchesSingleHit | supabase/functions/analyze-crop/index.ts:180-184 | a description containing exactly one keyword records exactly that keyword |
| CropAnalysisLemmas.LeafSpotCountsTowardBoth | supabase/functions/analyze-crop/index.ts:166-192 | "leaf spot" records disease keyword "leaf spot" and healthy keyword "leaf", so one label adds to both sums |
| CropAnalysisLemmas.DiseasedCountsTwice | supabase/functions/analyze-crop/index.ts:166-184 | "diseased" matches both "disease" and "diseased", adding its score twice to the disease sum and nothing to the healthy sum |
| CropAnalysisLemmas.TomatoLeafSpotExample | supabase/functions/analyze-crop/index.ts:151-267 | tomato with the single label "leaf spot" 0.9 gives Early Blight, moderate, confidence 72 |
| CropAnalysisLemmas.MockDrawUniform | supabase/functions/analyze-crop/index.ts:388-389 | `diseases[Math.floor(Math.random() * diseases.length)]` is a uniform draw: with n candidates, entry k is returned exactly when k/n ≤ rand < (k+1)/n (the candidates of each crop are pairwise distinct, `MockBucketDistinct`) |
| CropAnalysisLemmas.MockBucketDistinct | supabase/functions/analyze-crop/index.ts:270-388 | no two candidates of a crop's catalogue are equal, so each cell of [0, 1) yields a different result |
| CropAnalysisLemmas.MockConfidencesNotClamped | supabase/functions/analyze-crop/index.ts:270-389 | catalogue confidences bypass the [60, 95] clamp: "Cassava" gives 96 and "TOMATO" gives 97 |
| CropAnalysisLemmas.MockResultBounds | supabase/functions/analyze-crop/index.ts:269-390 | every mock analysis has at least three treatments and a confidence between 78 and 97 |
| Weather.EveryEighthShape | supabase/functions/get-weather/index.ts:77 | `filter(index % 8 === 0)` keeps ceil(n/8) entries, entry i being input entry 8i |
| Weather.Take | supabase/functions/get-weather/index.ts:77 | `slice(0, n)` keeps a prefix of length min(n, length) |
| Weather.RoundHundredths | supabase/functions/get-weather/index.ts:89 | the result is a whole number of hundredths within 0.005 of the value |
| Weather.ToDays | supabase/functions/get-weather/index.ts:77-90 | the `map` succeeds exactly when every kept entry has a condition, giving one day per entry in order |
| Weather.ReshapeShape | supabase/functions/get-weather/index.ts:74-91 | city and country are copied; the forecast has min(7, ceil(n/8)) days, day i built from upstream entry 8i; reshaping fails exactly when one of those entries has no condition |
| Weather.DayFields | supabase/functions/get-weather/index.ts:78-89 | the date is `dt_txt` up to its first space; night equals min, the rounded minimum; wind goes from m/s to km/h; missing rain gives 0; rain is a whole number of hundredths within 0.005 of the upstream value |
| Weather.CacheKeySharing | supabase/functions/get-weather/index.ts:34 | requests with the same non-empty location share a key whatever their coordinates; a location written as "lat,lon" gets the same key as a request for those coordinates without a location |
| Weather.WeatherCache.constructor | supabase/functions/get-weather/index.ts:37-42 | the cache starts empty |
| Weather.WeatherCache.GetWeather | supabase/functions/get-weather/index.ts:23-110 | No API key gives "Weather service not configured" before any lookup. A hit returns the cached payload with `cached: true` and writes nothing. A non-OK upstream gives "Failed to fetch weather data". A thrown fetch or a failed reshape gives "Internal server error". Error paths leave the cache unchanged. Success returns `cached: false` and, when the upsert lands, replaces only this key's row. Every lookup of that key then serves the fresh payload until one hour after the write and misses from then on. Lookups of every other key are unchanged |
| Admin.RoleFor | src/pages/Admin.tsx:101-107 | the role of the first role row for the user, or "user" when there is none or its role is empty |
| Admin.JoinUsers | src/pages/Admin.tsx:100-109 | one user per profile, in profile order: id and created date copied, missing email or name as "", role from `RoleFor` |
| Admin.ProfileFor | src/pages/Admin.tsx:141-147 | null exactly when no profile has the user id; otherwise the name and email of the first such profile |
| Admin.JoinAnalyses | src/pages/Admin.tsx:140-149 | every analysis kept in order, unchanged, with its author's first matching profile or null |
| Admin.AdminPanel.constructor | src/pages/Admin.tsx:45-48 | empty lists, loading, not admin |
| Admin.AdminPanel.Render | src/pages/Admin.tsx:186-273 | the loading screen first, then access denied for a non-admin, else the dashboard with both totals, "Admin Users" equal to `CountAdmins` and "Issues Found" equal to `CountIssues` |
| Admin.AdminPanel.FetchUsers | src/pages/Admin.tsx:82-120 | the users list becomes `UsersFetched`; nothing else changes |
| Admin.AdminPanel.FetchAnalyses | src/pages/Admin.tsx:122-160 | the analyses list becomes `AnalysesFetched`; nothing else changes |
| Admin.AdminPanel.CheckAdminStatus | src/pages/Admin.tsx:54-80 | No user changes nothing, so loading stays true. Otherwise loading ends false. An error other than PGRST116 leaves the admin flag and lists alone. Otherwise the flag is whether a row came back, and both lists are fetched only for an admin |
| Admin.AdminPanel.DeleteAnalysis | src/pages/Admin.tsx:162-184 | a successful delete drops exactly the entries with that id, keeping the others in order; a failed one changes nothing |
| Admin.RoleDefaultsToUser | src/pages/Admin.tsx:101-107 | a user with no role row is "user", and no listed role is empty |
| Admin.NoRolesNoAdmins | src/pages/Admin.tsx:100-259 | with no role rows, the "Admin Users" count is 0 |
| Admin.IssuesAndHealthyPartition | src/pages/Admin.tsx:273 | issues plus healthy analyses add up to the total |
| Admin.IssuesGrowByNonHealthy | src/pages/Admin.tsx:273 | an extra analysis adds an issue exactly when its severity is not "healthy", so "mild" counts |
| Admin.AdminsGrowByExactRole | src/pages/Admin.tsx:259 | an extra user adds an admin exactly when the role is the exact string "admin" |
| Admin.DeleteRemovesExactlyMatching | src/pages/Admin.tsx:171 | deletion removes as many entries as carry the id, and nothing when none does |
| Drone.DecimalString | src/pages/Drone.tsx:137 | `toString()` of the clock gives a non-empty string of decimal digits |
| Drone.DecimalStringValue | src/pages/Drone.tsx:137 | that digit string reads back as the clock value |
| Drone.WithChunkKeepsBuffer | src/pages/Drone.tsx:125-129 | a chunk event keeps the earlier chunks as a prefix, adds at most one, and never admits an empty chunk |
| Drone.NewSession | src/pages/Drone.tsx:136-143 | A recorded session marked "Recording completed", with the clock's decimal string as id. The name defaults to "Drone Recording <date>" when empty. The location defaults to "Unknown location". The date is the ISO time up to its first "T" |
| Drone.DronePage.constructor | src/pages/Drone.tsx:38-69 | disconnected and idle, with no recording and the three initial sessions |
| Drone.DronePage.SetSessionName | src/pages/Drone.tsx:40 | only the session name changes |
| Drone.DronePage.SetLocation | src/pages/Drone.tsx:41 | only the location changes |
| Drone.DronePage.Connect | src/pages/Drone.tsx:71-96 | a granted camera request connects and attaches the stream; a refused one changes nothing |
| Drone.DronePage.FinishCapture | src/pages/Drone.tsx:125-146 | Runs from a stopping recorder and ends in `Valid()`. The final non-empty chunk joins the buffer. The stored recording is replaced by the one blob. Exactly one session is prepended, with the name and location captured at start |
| Drone.DronePage.StopRecording | src/pages/Drone.tsx:158-169 | only a stored recorder that is not inactive stops: recording ends, the recorder is cleared, and the stop callback runs; otherwise nothing changes |
| Drone.DronePage.Disconnect | src/pages/Drone.tsx:98-114 | Always ends disconnected, with the stream detached. A running recording is stopped through `StopRecording`. A recorder that is already inactive is left as it was |
| Drone.DronePage.StartRecording | src/pages/Drone.tsx:116-156 | without a stream, or when the codec is unsupported and the recorder cannot be built, nothing happens; otherwise a fresh recorder starts with an empty buffer and the current name and location |
| Drone.DronePage.DataAvailable | src/pages/Drone.tsx:125-129 | a running recorder's buffer gains the chunk only when it is non-empty |
| Drone.DronePage.RecorderEnded | src/pages/Drone.tsx:131-146 | a recorder that stops by itself delivers its data and stop callback and becomes inactive, while the page's recording flag stays set |
| Drone.DronePage.DeleteSession | src/pages/Drone.tsx:224-230 | exactly the sessions with that id are removed, the rest keep their order, and nothing else changes |
| Drone.DronePage.Download | src/pages/Drone.tsx:205-222 | nothing when no recording is stored; otherwise the single stored blob, whatever the session id, named after the id |
| Drone.DeleteSessionIdempotent | src/pages/Drone.tsx:224-225 | deleting the same id twice equals deleting it once |

Some reference functions model source code directly but have no row of their own. Their contracts would only restate their bodies, so the rows of the members that state their properties cover them:

- `Text.Contains` (`includes`): `MatchesEmptyIff`, `MatchesComplete`, `LeafSpotCountsTowardBoth`.
- `CropAnalysis.Verdict` and `CropAnalysis.Classify`: `VerdictShape`, `ProcessVisionResults`, `HealthyConfidenceBand`, `LeafAbnormalityUnreachable`.
- `CropAnalysis.CropSpecificDisease`: `CropSpecificDiseaseCaseInsensitive`, `TomatoNames`, `CropSpecificDiseaseNeverAbnormality`.
- `Weather.CacheKey`: `CacheKeySharing`.
- `Weather.WeatherCache.Lookup`: the lookup postconditions of `GetWeather`.
- `Weather.Reshape` and `Weather.ToDay`: `ReshapeShape`, `DayFields`.
- `Drone.WithChunk`: `WithChunkKeepsBuffer`, `DataAvailable`.

Every public `DronePage` method preserves `Valid()`. `FinishCapture`, the stop callback they share, starts from `Stopping()` and ends in `Valid()`. `Valid()` means:

- at most one stored recording;
- the recording flag is set exactly when a recorder is stored;
- a stream is attached only while connected;
- closures are live exactly while the recorder is active;
- no empty chunk is ever kept.

## Left out

- A label without a `description` makes the source throw while lower-casing, and the handler then
  falls back to the catalogue. The model's labels always carry a description, so such a response
  is given to `AnalyzeCrop` as `CallFailed`.
- Lower-casing covers ASCII letters only. The JavaScript `toLowerCase` also maps non-ASCII capitals.
- Table lookups keyed by inherited object properties are not modelled. Examples are a crop named
  "constructor" or "__proto__".
- Floating point is modelled as exact reals. NaN, infinities and rounding error are not modelled.
- Fetching the image and encoding it as base64 are not modelled; they only decide the vision
  outcome, which is an input.
- The handler's "no vision key" branch is not modelled. A literal fallback key is always present,
  so that branch cannot run.
- Request parsing, CORS replies, HTTP status handling and the database insert of the analysis are
  not modelled. Console logging and toasts are not modelled either.
- The weather handler's request body is not parsed. A malformed upstream body that fails
  differently from a missing condition is not modelled; it would also end in "Internal server
  error".
- Timestamps are integer milliseconds. The source compares ISO time strings, which order the same
  way.
- Weather.WeatherCache.Lookup: a failed or ambiguous lookup is a single `lookupOk` flag that reads
  as a miss, the same as in the handler.
- Admin.AdminPanel.CheckAdminStatus: the two fetches run one after the other. The source starts
  them together with `Promise.all`, but they write different fields, so the outcome is the same.
- Queries that return null data without an error are read as empty lists. The source's `|| []`
  does the same.
- Admin.AdminPanel.Render: the table markup and the severity badge colours are left out. Only the
  gate and the four statistics are modelled.
- Drone.DronePage.StartRecording: the method requires that no recording is running. The page shows
  the start button only then. A second recorder started beside a running one is therefore not
  modelled.
- Drone.DronePage.StopRecording: the recorder's asynchronous events are modelled as running
  straight after `stop()`. These are the final `ondataavailable` and `onstop`. No other handler
  runs in between in the model.
- Handlers read the latest state. React's render-time snapshots of `isRecording` and
  `mediaRecorder` are not modelled. The capture of the session name and location at start time is
  modelled.
- Camera access, the video element, screenshots, object URLs and the download click are not
  modelled. Only their effect on the page state is kept.
