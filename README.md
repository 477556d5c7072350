# AI-Video-Engine pipeline orchestration, modelled in Dafny

This project models the orchestration core of AI-Video-Engine: the two entry
scripts that turn a topic (`src/generate-script.ts`) or a scan of recent news
(`src/news-producer.ts`) into stored video scripts. It also models the two
helpers they rely on: the title slug (`src/utils/title-to-filename.ts`) and
thumbnail collection (`src/services/generate-thumbnails.ts`).

What is modelled, in the system's own terms:

- **Title slug.** `Slug.TitleToFileName` lower-cases the title, turns every run
  of characters outside `[a-z0-9]` into one `-`, strips one leading and one
  trailing `-`, and keeps at most 50 characters. An empty title is replaced
  by the generated UUID, which is passed in as a parameter.
- **Thumbnails.** `Thumbnails.GenerateThumbnails` issues one generator call
  per orientation and awaits them all. A single rejection rejects the lot.
  Otherwise the falsy `mediaSrc` values are dropped and the order is kept.
- **Collaborators and effects.** Every collaborator is a function of its
  arguments, held as a field of `Effects.Env`: the language models, the
  script store, speech synthesis, illustration, thumbnails, the transcript
  writer and `JSON.parse`. A call either rejects or resolves with a value
  (`Settled`). Each call the orchestration makes goes through a method of
  `Effects.World`, which appends an `Event` to a ghost trace. The temporary
  files on disk are a function of that trace (`World.TempFiles`):
  - writing the transcript, a resolved synthesis, or a resolved illustration
    or thumbnail with a non-empty `mediaSrc` adds a file;
  - a cleanup request removes the paths it lists.
- **The per-script loop**, shared by both entry scripts (`Pipeline`). The
  `Variant` says which script runs it:
  - only the news pipeline caps the audio duration;
  - only the topic pipeline generates thumbnails.

  Each decoded script becomes `Script` and `Segment` objects. A pass then:
  1. writes the transcript `<slug>.txt`;
  2. requests the speech and sets `script.audioSrc` in place;
  3. issues one illustration request per segment, each setting its own
     segment's `mediaSrc` in place;
  4. generates the thumbnails (topic pipeline only);
  5. calls `saveScript`;
  6. requests the cleanup of the transcript, the audio and every set media
     file.

  A rejection ends the pass and the whole run; no later script is touched.

  The methods are proved against specification functions:
  - `ScriptSteps` for one pass;
  - `LoopSteps` for the loop;
  - `NewsRun` and `TopicRun` for the two entry scripts.
- **The entry scripts.**
  - The news pipeline first reads the ten latest stored scripts and lists
    their titles in the researcher's prompt. Its agent chain is Grok
    researcher, OpenAI writer, Anthropic review agent. It decodes the review and
    falls back to the draft when the review does not decode.
  - The topic pipeline exits with status 1 when the topic is missing or
    empty. Its agent chain is Gemini researcher, OpenAI writer, Anthropic
    review agent. It decodes the review with no fallback.

Behaviour the proofs make explicit:

- A pass that stops early issues no cleanup request. Its transcript, and any
  audio or media it already produced, stay on disk
  (`Pipeline.StoppedPassKeepsTranscript`).
- A run in which every pass finishes leaves, of the files it created, only
  its thumbnail files. Each pass's transcript, audio and media are on that
  pass's cleanup list; its thumbnails are not
  (`Pipeline.FinishedLoopLeavesOnlyThumbnails`). The news pipeline generates
  no thumbnail, so a finished news run leaves nothing behind.
- The 50-character cap can leave a trailing `-`
  (`Slug.TruncationCanLeaveTrailingDash`).

Three facts about the cleanup of temporary files:

- Cleanup happens only on success. The code requests it only at the end of
  a pass that finished; a pass that fails part-way requests none.
- Thumbnail files are never put on a cleanup list, so a finished topic pass
  leaves them behind (see "## Findings").
- The cleanup request is not awaited, so it does not necessarily complete
  before the next script starts. The model records the request as an event.

## Model

| member | source | states |
|---|---|---|
| Slug.CollapseShape | src/utils/title-to-filename.ts:6 | the result uses only `[a-z0-9-]`, never holds `--`, is empty exactly when the input is, starts with `-` exactly when the input starts outside `[a-z0-9]`, and is no longer than the input |
| Slug.TrimDashes | src/utils/title-to-filename.ts:7 | the result is the input after a leading `-` (when there is one), with exactly one more character dropped at the end when, and only when, what is left ends in `-`; on input without `--` it neither starts nor ends with `-` |
| Slug.CollapseWord | src/utils/title-to-filename.ts:6 | letters and digits are copied through unchanged |
| Slug.CollapseRun | src/utils/title-to-filename.ts:6 | a maximal run of one or more characters outside `[a-z0-9]` becomes exactly one `-`; with `CollapseWord` this determines `Collapse` on every input |
| Slug.Truncate | src/utils/title-to-filename.ts:8 | the result is the prefix of length min(length, 50) |
| Slug.TitleToFileName | src/utils/title-to-filename.ts:3-9 | the result is a prefix of at most 50 characters of the untruncated slug of the title, or of the UUID when the title is empty |
| Slug.SlugShape | src/utils/title-to-filename.ts:3-9 | every slug uses only `[a-z0-9-]`, has no `--`, does not start with `-`, and ends with `-` only when the untruncated slug was longer than 50 |
| Slug.UntruncatedKeepsAlnums | src/utils/title-to-filename.ts:5-7 | collapsing and trimming keep every letter and digit of the lower-cased title, in order |
| Slug.SlugEmptyIff | src/utils/title-to-filename.ts:4-8 | the slug is empty exactly when the lower-cased source text has no ASCII letter or digit |
| Slug.SeparatorOnlyTitleGivesEmpty | src/utils/title-to-filename.ts:4-8 | a non-empty title without letters or digits gives the empty slug, not the UUID |
| Slug.EmptyTitleUsesUuid | src/utils/title-to-filename.ts:4 | an empty title is slugged as the UUID would be |
| Slug.EmptyTitleGivesUuid | src/utils/title-to-filename.ts:4-8 | the slug of an empty title is the canonical UUID text itself |
| Slug.CanonicalSlugUnchanged | src/utils/title-to-filename.ts:3-9 | a canonical slug of at most 50 characters is its own slug |
| Slug.SlugIdempotent | src/utils/title-to-filename.ts:3-9 | slugging a slug that does not end in `-` changes nothing |
| Slug.TruncationCanLeaveTrailingDash | src/utils/title-to-filename.ts:7-8 | 49 letters, `-`, a letter: the slug ends in `-`, and slugging it again differs |
| Slug.CollapseKeepsAlnums | src/utils/title-to-filename.ts:6 | replacing separator runs keeps every letter and digit, in order |
| Slug.PunctuationTitleGivesEmpty | src/utils/title-to-filename.ts:4-7 | the title `!!!` gives the empty slug |
| Slug.BlackHolesExample | src/utils/title-to-filename.ts:3-9 | `Black Holes Explained!` gives `black-holes-explained` |
| Thumbnails.AwaitAll | src/services/generate-thumbnails.ts:7-14 | resolves exactly when every per-format call resolves, then with each call's value in format order |
| Thumbnails.KeepTruthy | src/services/generate-thumbnails.ts:16 | keeps no empty string and never lengthens the list |
| Thumbnails.GenerateThumbnails | src/services/generate-thumbnails.ts:6-17 | resolves exactly when every generator call resolves; the result has no empty entry and at most one per format |
| Thumbnails.KeepTruthyIsOrderedSelection | src/services/generate-thumbnails.ts:16 | the kept values are exactly the truthy entries, each once, in their original order |
| Thumbnails.AllTruthyKeepsEveryFormat | src/services/generate-thumbnails.ts:6-17 | when every call yields a non-empty source, there is one thumbnail per format, in format order |
| Types.Normalize | src/news-producer.ts:52 | a single decoded script becomes a one-element list; a decoded list is kept as is |
| Types.Script.constructor | src/news-producer.ts:43-45 | the objects built for a decoded script hold its values, with distinct fresh segment objects |
| Effects.ThumbnailCalls | src/services/generate-thumbnails.ts:8-10 | one thumbnail request per orientation, in order, each with the title and that request's outcome |
| Effects.ApplyThumbnailCalls | src/services/generate-thumbnails.ts:6-17 | once every request resolves, the requests add exactly the files of the thumbnails generateThumbnails returns |
| Effects.World.RetrieveLatestScripts | src/news-producer.ts:27 | returns the store's answer and records one store read |
| Effects.World.Complete | src/news-producer.ts:30 | returns the provider's answer and records the call with its provider, agent and prompt |
| Effects.World.SaveScriptFile | src/news-producer.ts:55 | returns the transcript path and records the write |
| Effects.World.SynthesizeSpeech | src/news-producer.ts:57 | returns how the synthesis settles and records the request with its duration cap |
| Effects.World.GenerateIllustration | src/news-producer.ts:62 | returns how the illustration settles and records the request for that segment |
| Effects.World.GenerateThumbnails | src/generate-script.ts:61 | returns generateThumbnails' result and records one request per orientation, with its outcome |
| Effects.World.SaveScript | src/news-producer.ts:67-73 | returns how saveScript settles and records the call with its five arguments |
| Effects.World.CleanupFiles | src/news-producer.ts:75-81 | records the cleanup request for the listed paths |
| Effects.World.Exit | src/generate-script.ts:30 | records the exit with its status |
| Pipeline.IllustrateOne | src/news-producer.ts:61-64 | issues one illustration request; the segment's `mediaSrc` is set exactly when it resolves |
| Pipeline.IllustrateEach | src/news-producer.ts:60-65 | issues every segment's request in order; succeeds exactly when all resolve; each segment ends with its own result |
| Pipeline.IllustrateSegments | src/news-producer.ts:60-65 | the fan-out on a script object: every request issued, success exactly when all resolve, the segments become `Illustrated` |
| Pipeline.MediaPathsIsMapFilter | src/news-producer.ts:78-80 | the media part of the cleanup list is the `map` to path-or-null followed by `filter(Boolean)` |
| Pipeline.MediaPathsSelectSetSegments | src/news-producer.ts:78-80 | the media part names exactly the segments whose `mediaSrc` is set, each once, in segment order, joined to the output directory |
| Pipeline.Open | src/news-producer.ts:55-57 | writes the transcript named after the slug and requests the speech with the variant's cap |
| Pipeline.CollectThumbnails | src/generate-script.ts:61 | generates the thumbnails in the topic pipeline; the news pipeline gets an empty list with no call |
| Pipeline.PublishScript | src/news-producer.ts:67-81 | thumbnails, then saveScript, then the cleanup request, stopping at a rejection, as `Publish` |
| Pipeline.IllustrateAndPublish | src/news-producer.ts:60-81 | once the synthesis resolved: the fan-out then publishing, exactly the events of `AfterSynthesis`; a finished step leaves the script `Finished`; whether or not the fan-out fails, each segment whose request resolved carries its new `mediaSrc` |
| Pipeline.ProcessScript | src/news-producer.ts:53-81 | one pass on the script objects produces exactly the events of `ScriptSteps`; `audioSrc` is set once the synthesis resolves; once it has, each segment whose illustration resolved carries its new `mediaSrc`, even when the pass then fails; a finished pass leaves the script `Finished` |
| Pipeline.RunScripts | src/news-producer.ts:52-82 | the loop produces exactly the events of `LoopSteps` and succeeds exactly when it does |
| Pipeline.LoopStepsSnoc | src/news-producer.ts:52 | while every earlier pass finished, one more script appends exactly its own pass |
| Pipeline.StopsAtFailure | src/news-producer.ts:52 | once a pass stops early, no later script contributes an event |
| Pipeline.LoopFinishesIff | src/news-producer.ts:52 | the loop finishes exactly when every script's pass finishes |
| Pipeline.PassOpens | src/news-producer.ts:55-57 | every pass starts with the transcript `<slug>.txt` and the speech request, capped in the news pipeline only |
| Pipeline.PassFinishesIff | src/news-producer.ts:55-73 | a pass finishes exactly when synthesis, every illustration, the thumbnails and saveScript resolve |
| Pipeline.IllustrationFailureStopsPass | src/news-producer.ts:60-81 | a rejected illustration ends the pass after the whole fan-out, with no thumbnails, saveScript or cleanup |
| Pipeline.FinishedPassEvents | src/news-producer.ts:67-81 | a finished pass issues saveScript with the illustrated script, metadata `{title, "", [], []}`, the thumbnails, `['Portrait']` and the transcript's basename, then cleanup of transcript, audio and set media in order |
| Pipeline.FinishedPassLeavesOnlyThumbnails | src/generate-script.ts:61-77 | after a finished pass the temporary files are those before it, plus its thumbnail files (none in the news pipeline), minus its cleanup list |
| Pipeline.StoppedPassHasNoCleanup | src/news-producer.ts:55-81 | a pass that stops early issues no cleanup request |
| Pipeline.StoppedPassKeepsTranscript | src/news-producer.ts:55-75 | a pass that stops early leaves its transcript on disk, and every file an earlier event of the pass added (audio, media) stays among the temporary files |
| Pipeline.FinishedLoopLeavesOnlyThumbnails | src/news-producer.ts:52-82 | a run whose every pass finished adds no temporary file other than the thumbnail files of its passes, and none at all in the news pipeline |
| Pipeline.ThumbnailOutlivesPass | src/generate-script.ts:61-77 | as written, a thumbnail file of a finished topic pass that no cleanup request names is still on disk after the pass |
| Pipeline.IntendedCleanupLeavesNoTempFiles | src/generate-script.ts:61-77 | when the thumbnail files are added to the last cleanup list, a finished pass leaves exactly the files before it minus that list |
| Pipeline.SingleLikeList | src/news-producer.ts:52 | a single decoded script runs exactly like a one-element list |
| NewsProducer.ResearchPromptLines | src/news-producer.ts:30 | the prompt's lines are the header, one `- title` per stored script in store order (one empty line when none), an empty line and the request |
| NewsProducer.DecodeWithFallback | src/news-producer.ts:43-50 | decodes exactly when the review or the draft decodes, preferring the review |
| NewsProducer.Decode | src/news-producer.ts:43-50 | parses the review and, only when that throws, the draft, with the outcome of `DecodeWithFallback` |
| NewsProducer.Draft | src/news-producer.ts:27-41 | the store read and the three agent calls, as `Drafting`, stopping at a rejection |
| NewsProducer.Produce | src/news-producer.ts:27-82 | the whole run produces exactly the events of `NewsRun` and succeeds exactly when it does |
| NewsProducer.ReviewPreferred | src/news-producer.ts:44-45 | a review that decodes is the one processed, whatever the draft |
| NewsProducer.DraftFallback | src/news-producer.ts:46-50 | a review that does not decode falls back to the draft |
| NewsProducer.NothingDecodes | src/news-producer.ts:46-50 | when neither decodes the run fails right after the review agent's call, with no script processed |
| GenerateScript.Draft | src/generate-script.ts:33-45 | the three agent calls with their prompts, as `Drafting`, stopping at a rejection |
| GenerateScript.Generate | src/generate-script.ts:27-78 | the whole run produces exactly the events of `TopicRun` and succeeds exactly when it does |
| GenerateScript.MissingTopicExits | src/generate-script.ts:27-31 | the run is a bare exit with status 1 exactly when the topic is missing or empty |
| GenerateScript.StrictDecode | src/generate-script.ts:46 | a review that does not decode fails the run after the three agent calls, with no fallback |

## Left out

- I/O: the transcript file format, the audio and image bytes, console
  logging, and the providers' network calls. Each collaborator is an
  abstract function of its arguments in `Effects.Env`, deterministic within a
  run.
- `JSON.parse` and the script shape it yields are abstract (`Env.parse`,
  `None` when it throws). `saveScriptFile` is modelled as never throwing; its
  path comes from `Env.scriptFilePath`. src/services/save-script-file.ts,
  synthesize-speech, generate-illustration and cleanup-files are not part of
  this model.
- The value of `MAX_AUDIO_DURATION_FOR_SHORTS` is a parameter
  (`Env.maxShortsDuration`). The UUID `v4()` would produce for the k-th
  script is `Env.uuid(k)`.
- Concurrency. `Promise.all` over the segments and over the formats is
  modelled as issuing every request in order and failing when any rejects.
  Interleavings, and requests still running after a rejection, are not
  modelled.
- The cleanup request is not awaited and its own failures are not modelled:
  a request is taken to remove every listed path.
- A thumbnail's `mediaSrc` is taken to name a file in the output directory,
  like an illustration's: both come from the same image-generator interface
  (src/clients/interfaces/ImageGenerator.ts:2-3), and the code joins an
  illustration's `mediaSrc` to that directory.
- Effects.PathJoin: `path.join` also normalises its result (repeated `/`,
  `.` and `..` segments); the model joins by plain concatenation with one
  `/`, so two paths that only normalise to the same file count as two.
- The decoded script objects are built at the start of each pass instead of
  all at once by `JSON.parse`. Nothing in the loop observes the difference.
- Slug.LowerCase: `toLowerCase` is modelled on ASCII letters only, because
  Unicode case mapping is not available here.
- src/clients/kokoro.ts and src/video/TechTunnel.tsx are not part of this
  model.

## Findings

| source | as written | input that shows it | evidently intended | confidence | as-written member | corrected member |
|---|---|---|---|---|---|---|
| src/generate-script.ts:61-77 | the cleanup list names the transcript, the audio and the segments' media, but not the thumbnails generated on line 61 | a topic run whose thumbnail generator resolves with `mediaSrc` "thumb.png" and whose pass finishes: `<publicDir>/thumb.png` is on no cleanup list and stays in the output directory | every file the pass created, thumbnails included, is on its cleanup list, so a finished pass leaves none behind | not executed; medium, because it relies on a thumbnail's `mediaSrc` naming a file in the output directory as an illustration's does | Pipeline.ThumbnailOutlivesPass | Pipeline.IntendedCleanupLeavesNoTempFiles |

The methods and the run functions keep the list the code issues
(`CleanupPaths`). `Pipeline.IntendedCleanupPaths` is that list followed by
the thumbnail files, and the corrected lemma is stated for a finished pass
whose last cleanup request uses it.
