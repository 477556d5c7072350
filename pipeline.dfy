/** What the two entry scripts (src/news-producer.ts, src/generate-script.ts)
    share: the per-script processing, given as a specification of the events
    one script produces, the illustration fan-out that both run verbatim,
    and the cleanup list both build. */
module Pipeline {
  import opened Wrappers
  import opened Types
  import opened Effects
  import Slug
  import Thumbnails

  /** News-scan (src/news-producer.ts) or topic-driven (src/generate-script.ts). */
  datatype Variant = NewsScan | TopicDriven

  /** ENABLED_FORMATS. */
  const EnabledFormats: seq<Orientation> := [Portrait]

  /** The duration cap passed to synthesis: only the news pipeline has one. */
  function MaxDuration(v: Variant, env: Env): Option<nat> {
    if v == NewsScan then Some(env.maxShortsDuration) else None
  }

  /** `${titleToFileName(script.title)}.txt`. */
  function TranscriptFileName(title: string, uuid: string): string {
    Slug.TitleToFileName(title, uuid) + ".txt"
  }

  // ---------------------------------------------------------------------
  // Illustration fan-out

  /** One illustration request per segment, in segment order. */
  function IllustrationEvents(env: Env, segs: seq<SegmentRecord>): seq<Event>
  {
    seq(|segs|, i requires 0 <= i < |segs| => Illustrate(i, segs[i], env.illustrate(segs[i])))
  }

  /** Every illustration call resolved, so `Promise.all` resolves. */
  predicate AllIllustrated(env: Env, segs: seq<SegmentRecord>) {
    forall i :: 0 <= i < |segs| ==> env.illustrate(segs[i]).Resolved?
  }

  /** The segments after the fan-out: each resolved call has set its own
      segment's `mediaSrc`; nothing else changes. */
  function Illustrated(env: Env, segs: seq<SegmentRecord>): seq<SegmentRecord>
  {
    seq(|segs|, i requires 0 <= i < |segs| =>
      var m := env.illustrate(segs[i]);
      if m.Resolved? then segs[i].(mediaSrc := m.value) else segs[i])
  }

  /** One illustration request of the fan-out: the segment's own `mediaSrc`
      is set when the request resolves. */
  method IllustrateOne(w: World, index: nat, segment: Segment, ghost rec: SegmentRecord) returns (resolved: bool)
    requires segment.Record() == rec
    modifies w, segment
    ensures var m := w.env.illustrate(rec);
      resolved == m.Resolved?
      && w.trace == old(w.trace) + [Illustrate(index, rec, m)]
      && segment.mediaSrc == if m.Resolved? then m.value else rec.mediaSrc
  {
    var media := w.GenerateIllustration(index, segment.Record());
    resolved := media.Resolved?;
    if resolved {
      segment.mediaSrc := media.value;
    }
  }

  /** The loop of the fan-out over the segment objects, whose values before
      the step are `before`. */
  method IllustrateEach(w: World, segments: seq<Segment>, ghost before: seq<SegmentRecord>) returns (ok: bool)
    requires |segments| == |before|
    requires forall j :: 0 <= j < |segments| ==> segments[j].Record() == before[j]
    requires forall j, k :: 0 <= j < k < |segments| ==> segments[j] != segments[k]
    modifies w, segments
    ensures w.trace == old(w.trace) + IllustrationEvents(w.env, before)
    ensures ok == AllIllustrated(w.env, before)
    ensures forall j :: 0 <= j < |segments| ==> segments[j].mediaSrc == Illustrated(w.env, before)[j].mediaSrc
  {
    ghost var results := seq(|before|, j requires 0 <= j < |before| => w.env.illustrate(before[j]));
    ghost var calls := IllustrationEvents(w.env, before);
    ok := true;
    var i := 0;
    while i < |segments|
      invariant 0 <= i <= |segments|
      invariant w.trace == old(w.trace) + calls[..i]
      invariant ok == forall j :: 0 <= j < i ==> results[j].Resolved?
      invariant forall j :: 0 <= j < i ==> segments[j].mediaSrc == if results[j].Resolved? then results[j].value else before[j].mediaSrc
      invariant forall j :: i <= j < |segments| ==> segments[j].Record() == before[j]
    {
      var resolved := IllustrateOne(w, i, segments[i], before[i]);
      assert resolved == results[i].Resolved?;
      ok := ok && resolved;
      assert calls[..i + 1] == calls[..i] + [calls[i]];
      i := i + 1;
    }
    assert calls[..i] == calls;
  }

  /** `await Promise.all(script.segments.map(async segment => { segment.mediaSrc =
      await generateIllustration(segment) }))`. Every request is issued; each
      one that resolves sets its own segment's `mediaSrc`; the step fails when
      any request rejects. */
  method IllustrateSegments(w: World, script: Script) returns (ok: bool)
    requires script.Valid()
    modifies w, script.segments
    ensures w.trace == old(w.trace) + IllustrationEvents(w.env, old(script.SegmentRecords()))
    ensures ok == AllIllustrated(w.env, old(script.SegmentRecords()))
    ensures script.SegmentRecords() == Illustrated(w.env, old(script.SegmentRecords()))
  {
    ghost var before := script.SegmentRecords();
    ok := IllustrateEach(w, script.segments, before);
    ghost var after := Illustrated(w.env, before);
    forall j | 0 <= j < |script.segments| ensures script.SegmentRecords()[j] == after[j] {
      assert script.segments[j].Record() == SegmentRecord(before[j].speaker, before[j].text, after[j].mediaSrc);
    }
  }

  // ---------------------------------------------------------------------
  // Cleanup list

  /** `segment.mediaSrc ? path.join(publicDir, segment.mediaSrc) : null`. */
  function MediaPathOrNull(dir: string, s: SegmentRecord): Option<string> {
    if Truthy(s.mediaSrc) then Some(PathJoin(dir, s.mediaSrc.value)) else None
  }

  /** The media part of the cleanup list: the joined path of every segment
      whose `mediaSrc` is set, in segment order. */
  function MediaPaths(dir: string, segs: seq<SegmentRecord>): seq<string>
    decreases |segs|
  {
    if segs == [] then []
    else (if Truthy(segs[0].mediaSrc) then [PathJoin(dir, segs[0].mediaSrc.value)] else []) + MediaPaths(dir, segs[1..])
  }

  /** `segments.map(s => s.mediaSrc ? path.join(publicDir, s.mediaSrc) : null)`. */
  function MediaPathsOrNull(dir: string, segs: seq<SegmentRecord>): (r: seq<Option<string>>)
    ensures |r| == |segs| && forall i :: 0 <= i < |segs| ==> r[i] == MediaPathOrNull(dir, segs[i])
  {
    seq(|segs|, i requires 0 <= i < |segs| => MediaPathOrNull(dir, segs[i]))
  }

  /** The media list is the source's `map` followed by `filter(Boolean)`. */
  lemma {:induction false} MediaPathsIsMapFilter(dir: string, segs: seq<SegmentRecord>)
    ensures MediaPaths(dir, segs) == Thumbnails.KeepTruthy(MediaPathsOrNull(dir, segs))
    decreases |segs|
  {
    if segs != [] {
      MediaPathsIsMapFilter(dir, segs[1..]);
      var xs := MediaPathsOrNull(dir, segs);
      assert xs[1..] == MediaPathsOrNull(dir, segs[1..]);
    }
  }

  /** The list handed to cleanupFiles: the transcript, the audio, then the media. */
  function CleanupPaths(dir: string, transcriptPath: string, audio: string, segs: seq<SegmentRecord>): seq<string> {
    [transcriptPath, PathJoin(dir, audio)] + MediaPaths(dir, segs)
  }

  function MediaSources(segs: seq<SegmentRecord>): (r: seq<Option<string>>)
    ensures |r| == |segs| && forall i :: 0 <= i < |segs| ==> r[i] == segs[i].mediaSrc
  {
    seq(|segs|, i requires 0 <= i < |segs| => segs[i].mediaSrc)
  }

  lemma {:induction false} KeepTruthySameShape(xs: seq<Option<string>>, ys: seq<Option<string>>, dir: string)
    requires |xs| == |ys|
    requires forall i :: 0 <= i < |xs| ==> ys[i] == (if Truthy(xs[i]) then Some(PathJoin(dir, xs[i].value)) else None)
    ensures Thumbnails.TruthyIndices(ys) == Thumbnails.TruthyIndices(xs)
    decreases |xs|
  {
    if xs != [] {
      KeepTruthySameShape(xs[1..], ys[1..], dir);
    }
  }

  /** The media part of the cleanup list names, in segment order, exactly the
      segments whose `mediaSrc` is set: the j-th path joins the output
      directory with the j-th set `mediaSrc`. */
  lemma MediaPathsSelectSetSegments(dir: string, segs: seq<SegmentRecord>)
    ensures var ks := Thumbnails.TruthyIndices(MediaSources(segs));
      |MediaPaths(dir, segs)| == |ks|
      && (forall j :: 0 <= j < |ks| ==>
            ks[j] < |segs| && Truthy(segs[ks[j]].mediaSrc)
            && MediaPaths(dir, segs)[j] == PathJoin(dir, segs[ks[j]].mediaSrc.value))
      && Thumbnails.Increasing(ks)
      && (forall i :: 0 <= i < |segs| && Truthy(segs[i].mediaSrc) ==> i in ks)
  {
    var xs := MediaSources(segs);
    var ys := MediaPathsOrNull(dir, segs);
    MediaPathsIsMapFilter(dir, segs);
    KeepTruthySameShape(xs, ys, dir);
    Thumbnails.KeepTruthyIsOrderedSelection(ys);
    Thumbnails.KeepTruthyIsOrderedSelection(xs);
  }

  // ---------------------------------------------------------------------
  // One script of the loop

  /** The events of a run (or part of one) and whether it got to the end
      without a collaborator rejecting. */
  datatype Run = Run(events: seq<Event>, ok: bool)

  /** The `k`-th script's transcript file name (`v4()` stands in for an
      empty title). */
  function ScriptFileName(env: Env, k: nat, s: ScriptRecord): string {
    TranscriptFileName(s.title, env.uuid(k))
  }

  /** How the speech synthesis for a script settles. */
  function Audio(v: Variant, env: Env, s: ScriptRecord): Settled<string> {
    env.synthesize(s.segments, MaxDuration(v, env))
  }

  /** The thumbnails handed to `saveScript`: generated in the topic pipeline,
      none in the news pipeline. */
  function ThumbnailsFor(v: Variant, env: Env, title: string): Settled<seq<string>> {
    if v == TopicDriven then Thumbnails.GenerateThumbnails(title, EnabledFormats, env.thumbnail) else Resolved([])
  }

  function ThumbnailEvents(v: Variant, env: Env, title: string): seq<Event> {
    if v == TopicDriven then ThumbnailCalls(title, EnabledFormats, env.thumbnail) else []
  }

  /** The script as `saveScript` receives it: the decoded title, the
      illustrated segments and the synthesized audio. */
  function Finished(env: Env, s: ScriptRecord, audio: string): ScriptRecord {
    ScriptRecord(s.title, Illustrated(env, s.segments), Some(audio))
  }

  /** What follows a complete fan-out, for the finished script `done` whose
      transcript is at `path` and whose audio file is `audio`: thumbnails
      (topic pipeline only), `saveScript`, then the cleanup request,
      stopping at a rejection. */
  function Publish(v: Variant, env: Env, done: ScriptRecord, path: string, audio: string): Run {
    var thumbs := ThumbnailsFor(v, env, done.title);
    var drawn := ThumbnailEvents(v, env, done.title);
    if thumbs.Rejected? then Run(drawn, false)
    else
      var metadata := Metadata(done.title, "", [], []);
      var save := SaveScript(done, metadata, thumbs.value, EnabledFormats, env.basename(path));
      if env.saveScript(done, metadata, thumbs.value, EnabledFormats, env.basename(path)).Rejected? then Run(drawn + [save], false)
      else Run(drawn + [save, Cleanup(CleanupPaths(env.publicDir, path, audio, done.segments))], true)
  }

  /** The transcript write and the synthesis request that open each pass. */
  function Opening(v: Variant, env: Env, k: nat, s: ScriptRecord): seq<Event> {
    var name := ScriptFileName(env, k, s);
    [SaveTranscript(s.segments, name, env.scriptFilePath(name)), Synthesize(s.segments, MaxDuration(v, env), Audio(v, env, s))]
  }

  /** The body of the per-script loop, for the `k`-th decoded script `s`:
      transcript, synthesis, the illustration fan-out, thumbnails (topic
      pipeline only), `saveScript`, then the cleanup request. The pass stops
      at the first step that rejects. */
  function ScriptSteps(v: Variant, env: Env, k: nat, s: ScriptRecord): Run {
    var rest := AfterSynthesis(v, env, k, s);
    Run(Opening(v, env, k, s) + rest.events, rest.ok)
  }

  /** The part of a pass after the synthesis request: nothing when the
      synthesis rejects, then the fan-out, then publishing. */
  function AfterSynthesis(v: Variant, env: Env, k: nat, s: ScriptRecord): Run {
    var audio := Audio(v, env, s);
    if audio.Rejected? then Run([], false)
    else
      var calls := IllustrationEvents(env, s.segments);
      if !AllIllustrated(env, s.segments) then Run(calls, false)
      else
        var publish := Publish(v, env, Finished(env, s, audio.value), env.scriptFilePath(ScriptFileName(env, k, s)), audio.value);
        Run(calls + publish.events, publish.ok)
  }

  /** Writes the transcript and requests the speech; returns the transcript
      path and how the synthesis settled. */
  method Open(v: Variant, w: World, k: nat, title: string, segments: seq<SegmentRecord>, ghost s: ScriptRecord)
      returns (path: string, audio: Settled<string>)
    requires s.title == title && s.segments == segments
    modifies w
    ensures path == w.env.scriptFilePath(ScriptFileName(w.env, k, s))
    ensures audio == Audio(v, w.env, s)
    ensures w.trace == old(w.trace) + Opening(v, w.env, k, s)
  {
    var name := TranscriptFileName(title, w.env.uuid(k));
    path := w.SaveScriptFile(segments, name);
    audio := w.SynthesizeSpeech(segments, MaxDuration(v, w.env));
  }

  /** `generateThumbnails(script.title, ENABLED_FORMATS)` in the topic
      pipeline; the news pipeline passes an empty list without a call. */
  method CollectThumbnails(v: Variant, w: World, title: string) returns (thumbs: Settled<seq<string>>)
    modifies w
    ensures thumbs == ThumbnailsFor(v, w.env, title)
    ensures w.trace == old(w.trace) + ThumbnailEvents(v, w.env, title)
  {
    if v == TopicDriven {
      thumbs := w.GenerateThumbnails(title, EnabledFormats);
    } else {
      thumbs := Resolved([]);
    }
  }

  /** Thumbnails (topic pipeline only), `saveScript` and the cleanup request
      for the finished script `done`. */
  method PublishScript(v: Variant, w: World, done: ScriptRecord, path: string, audio: string) returns (ok: bool)
    modifies w
    ensures w.trace == old(w.trace) + Publish(v, w.env, done, path, audio).events
    ensures ok == Publish(v, w.env, done, path, audio).ok
  {
    var thumbs := CollectThumbnails(v, w, done.title);
    if thumbs.Rejected? {
      return false;
    }
    var saved := w.SaveScript(done, Metadata(done.title, "", [], []), thumbs.value, EnabledFormats, w.env.basename(path));
    if saved.Rejected? {
      return false;
    }
    w.CleanupFiles(CleanupPaths(w.env.publicDir, path, audio, done.segments));
    ok := true;
  }

  lemma Assoc(a: seq<Event>, b: seq<Event>, c: seq<Event>)
    ensures a + b + c == a + (b + c)
  {
  }

  lemma Regroup(a: seq<Event>, b: seq<Event>, c: seq<Event>, d: seq<Event>)
    ensures a + b + c + d == a + (b + c + d)
  {
  }

  /** The rest of a pass once the synthesis has resolved with `audio`: the
      fan-out on the script's segments, then publishing. */
  method IllustrateAndPublish(v: Variant, w: World, script: Script, path: string, audio: string,
                              ghost k: nat, ghost s: ScriptRecord) returns (ok: bool)
    requires script.Valid() && script.Record() == s.(audioSrc := Some(audio))
    requires Audio(v, w.env, s) == Resolved(audio)
    requires path == w.env.scriptFilePath(ScriptFileName(w.env, k, s))
    modifies w, script.segments
    ensures w.trace == old(w.trace) + AfterSynthesis(v, w.env, k, s).events
    ensures ok == AfterSynthesis(v, w.env, k, s).ok
    ensures ok ==> script.Record() == Finished(w.env, s, audio)
    ensures script.SegmentRecords() == Illustrated(w.env, s.segments)
  {
    ghost var t0 := w.trace;
    ok := IllustrateSegments(w, script);
    if !ok {
      return;
    }
    assert script.Record() == Finished(w.env, s, audio);
    ok := PublishScript(v, w, script.Record(), path, audio);
    Assoc(t0, IllustrationEvents(w.env, s.segments), Publish(v, w.env, Finished(w.env, s, audio), path, audio).events);
  }

  /** One pass of the per-script loop on the script object `script`, the
      `k`-th of the decoded list. `script.audioSrc` is set as soon as the
      synthesis resolves and each segment's `mediaSrc` by the fan-out; the
      pass ends early when a collaborator rejects. */
  method ProcessScript(v: Variant, w: World, k: nat, script: Script) returns (ok: bool)
    requires script.Valid()
    modifies w, script, script.segments
    ensures var run := ScriptSteps(v, w.env, k, old(script.Record()));
      w.trace == old(w.trace) + run.events && ok == run.ok
    ensures var audio := Audio(v, w.env, old(script.Record()));
      audio.Resolved? ==> script.audioSrc == Some(audio.value)
    ensures ok ==> script.Record() == Finished(w.env, old(script.Record()), Audio(v, w.env, old(script.Record())).value)
    ensures Audio(v, w.env, old(script.Record())).Resolved? ==>
              script.SegmentRecords() == Illustrated(w.env, old(script.SegmentRecords()))
  {
    ghost var s := script.Record();
    ghost var t0 := w.trace;
    var path, audio := Open(v, w, k, script.title, script.SegmentRecords(), s);
    if audio.Rejected? {
      assert w.trace == t0 + (Opening(v, w.env, k, s) + []);
      return false;
    }
    script.audioSrc := Some(audio.value);
    assert script.Record() == s.(audioSrc := Some(audio.value));
    ok := IllustrateAndPublish(v, w, script, path, audio.value, k, s);
    Assoc(t0, Opening(v, w.env, k, s), AfterSynthesis(v, w.env, k, s).events);
  }

  // ---------------------------------------------------------------------
  // The loop over the decoded scripts

  /** The pass of the `k`-th script, as the loop sees it. */
  function Step(v: Variant, env: Env): (nat, ScriptRecord) -> Run {
    (k: nat, s: ScriptRecord) => ScriptSteps(v, env, k, s)
  }

  /** `for (const script of scripts)`: the scripts one after another, in
      list order, the `k`-th one as pass `step(k, script)`; the first pass
      that stops early ends the loop. */
  function LoopSteps(step: (nat, ScriptRecord) -> Run, scripts: seq<ScriptRecord>): Run
    decreases |scripts|
  {
    if scripts == [] then Run([], true)
    else
      var before := LoopSteps(step, scripts[..|scripts| - 1]);
      if !before.ok then before
      else
        var last := step(|scripts| - 1, scripts[|scripts| - 1]);
        Run(before.events + last.events, last.ok)
  }

  /** The per-script loop over the decoded scripts: each is turned into its
      objects and processed in place; the loop stops at the first pass that
      does not finish. */
  method RunScripts(v: Variant, w: World, scripts: seq<ScriptRecord>) returns (ok: bool)
    modifies w
    ensures w.trace == old(w.trace) + LoopSteps(Step(v, w.env), scripts).events
    ensures ok == LoopSteps(Step(v, w.env), scripts).ok
  {
    ghost var step := Step(v, w.env);
    ok := true;
    var i := 0;
    while i < |scripts| && ok
      invariant 0 <= i <= |scripts|
      invariant LoopSteps(step, scripts[..i]).ok == ok
      invariant w.trace == old(w.trace) + LoopSteps(step, scripts[..i]).events
      invariant !ok ==> LoopSteps(step, scripts) == LoopSteps(step, scripts[..i])
    {
      var script := new Script(scripts[i]);
      ghost var t := w.trace;
      ok := ProcessScript(v, w, i, script);
      ghost var pass := step(i, scripts[i]);
      assert pass == ScriptSteps(v, w.env, i, scripts[i]);
      assert w.trace == t + pass.events && ok == pass.ok;
      LoopStepsSnoc(step, scripts, i);
      Assoc(old(w.trace), LoopSteps(step, scripts[..i]).events, pass.events);
      i := i + 1;
      if !ok {
        StopsAtFailure(step, scripts, i);
      }
    }
    assert ok ==> scripts[..i] == scripts;
  }

  /** The loop is sequential: when every earlier pass finished, the loop
      over one more script is the loop so far followed by that script's
      pass, and it finishes when that pass does. */
  lemma LoopStepsSnoc(step: (nat, ScriptRecord) -> Run, scripts: seq<ScriptRecord>, i: nat)
    requires i < |scripts| && LoopSteps(step, scripts[..i]).ok
    ensures LoopSteps(step, scripts[..i + 1])
            == Run(LoopSteps(step, scripts[..i]).events + step(i, scripts[i]).events, step(i, scripts[i]).ok)
  {
    assert scripts[..i + 1][..i] == scripts[..i];
  }

  /** Once a pass has stopped early, no later script is touched. */
  lemma {:induction false} StopsAtFailure(step: (nat, ScriptRecord) -> Run, scripts: seq<ScriptRecord>, n: nat)
    requires n <= |scripts| && !LoopSteps(step, scripts[..n]).ok
    ensures LoopSteps(step, scripts) == LoopSteps(step, scripts[..n])
    decreases |scripts| - n
  {
    if n < |scripts| {
      assert scripts[..|scripts| - 1][..n] == scripts[..n];
      StopsAtFailure(step, scripts[..|scripts| - 1], n);
    } else {
      assert scripts[..n] == scripts;
    }
  }

  // ---------------------------------------------------------------------
  // What one pass does

  /** Every pass starts by writing the transcript `titleToFileName(title) + ".txt"`
      and requesting the speech of the decoded segments, with the duration
      cap in the news pipeline only. */
  lemma PassOpens(v: Variant, env: Env, k: nat, s: ScriptRecord)
    ensures var run := ScriptSteps(v, env, k, s);
      var name := Slug.TitleToFileName(s.title, env.uuid(k)) + ".txt";
      |run.events| >= 2
      && run.events[0] == SaveTranscript(s.segments, name, env.scriptFilePath(name))
      && run.events[1] == Synthesize(s.segments, if v == NewsScan then Some(env.maxShortsDuration) else None, Audio(v, env, s))
  {
  }

  /** A pass finishes exactly when the synthesis, every illustration
      request, the thumbnails and `saveScript` all resolve. */
  lemma PassFinishesIff(v: Variant, env: Env, k: nat, s: ScriptRecord)
    ensures var audio := Audio(v, env, s);
      var thumbs := ThumbnailsFor(v, env, s.title);
      var path := env.scriptFilePath(ScriptFileName(env, k, s));
      ScriptSteps(v, env, k, s).ok <==>
        audio.Resolved? && AllIllustrated(env, s.segments) && thumbs.Resolved?
        && env.saveScript(Finished(env, s, audio.value), Metadata(s.title, "", [], []), thumbs.value,
                          [Portrait], env.basename(path)).Resolved?
  {
    var audio := Audio(v, env, s);
    var rest := AfterSynthesis(v, env, k, s);
    assert ScriptSteps(v, env, k, s).ok == rest.ok;
    if audio.Resolved? && AllIllustrated(env, s.segments) {
      var path := env.scriptFilePath(ScriptFileName(env, k, s));
      var done := Finished(env, s, audio.value);
      assert rest.ok == Publish(v, env, done, path, audio.value).ok;
      PublishOkIff(v, env, done, path, audio.value);
    }
  }

  /** Publishing finishes exactly when the thumbnails and `saveScript` resolve. */
  lemma PublishOkIff(v: Variant, env: Env, done: ScriptRecord, path: string, audio: string)
    ensures var thumbs := ThumbnailsFor(v, env, done.title);
      Publish(v, env, done, path, audio).ok <==>
        thumbs.Resolved?
        && env.saveScript(done, Metadata(done.title, "", [], []), thumbs.value, [Portrait], env.basename(path)).Resolved?
  {
  }

  /** A rejected illustration request ends the pass after the whole fan-out
      has been issued: no thumbnails, no `saveScript`, no cleanup request. */
  lemma IllustrationFailureStopsPass(v: Variant, env: Env, k: nat, s: ScriptRecord)
    requires Audio(v, env, s).Resolved? && !AllIllustrated(env, s.segments)
    ensures var run := ScriptSteps(v, env, k, s);
      !run.ok && run.events == Opening(v, env, k, s) + IllustrationEvents(env, s.segments)
      && forall e :: e in run.events ==> !e.SaveScript? && !e.Cleanup? && !e.GenerateThumbnail?
  {
    var opening := Opening(v, env, k, s);
    var calls := IllustrationEvents(env, s.segments);
    forall e: Event | e in opening + calls ensures !e.SaveScript? && !e.Cleanup? && !e.GenerateThumbnail? {
      if e !in opening {
        var i :| 0 <= i < |calls| && calls[i] == e;
      }
    }
  }

  // ---------------------------------------------------------------------
  // Temporary files

  /** Without a cleanup request, events only add files: what they leave is
      the files before them plus what they write. */
  lemma {:induction false} ApplyAdditive(dir: string, files: set<string>, es: seq<Event>)
    requires NoCleanup(es)
    ensures Apply(dir, files, es) == files + Apply(dir, {}, es)
    decreases |es|
  {
    if es != [] {
      var init := es[..|es| - 1];
      assert NoCleanup(init) by {
        forall i | 0 <= i < |init| ensures !init[i].Cleanup? {
          assert init[i] == es[i];
        }
      }
      ApplyAdditive(dir, files, init);
    }
  }

  /** Without a cleanup request, no temporary file disappears. */
  lemma {:induction false} ApplyGrows(dir: string, files: set<string>, es: seq<Event>)
    requires NoCleanup(es)
    ensures files <= Apply(dir, files, es)
    decreases |es|
  {
    if es != [] {
      ApplyGrows(dir, files, es[..|es| - 1]);
    }
  }

  /** The file a resolved illustration leaves behind is one the cleanup list
      names. */
  lemma MediaFileListed(dir: string, env: Env, segs: seq<SegmentRecord>, i: nat)
    requires i < |segs|
    ensures MediaFile(dir, env.illustrate(segs[i])) <= set p | p in MediaPaths(dir, Illustrated(env, segs))
  {
    var m := env.illustrate(segs[i]);
    if m.Resolved? && Truthy(m.value) {
      var after := Illustrated(env, segs);
      MediaPathsSelectSetSegments(dir, after);
      var ks := Thumbnails.TruthyIndices(MediaSources(after));
      assert Truthy(MediaSources(after)[i]);
      var j :| 0 <= j < |ks| && ks[j] == i;
      assert MediaPaths(dir, after)[j] == PathJoin(dir, m.value.value);
    }
  }

  /** The fan-out only adds files, and only files the cleanup list names. */
  lemma {:induction false} ApplyIllustrations(dir: string, files: set<string>, env: Env, segs: seq<SegmentRecord>, n: nat)
    requires n <= |segs|
    ensures var after := Apply(dir, files, IllustrationEvents(env, segs)[..n]);
      files <= after && after <= files + set p | p in MediaPaths(dir, Illustrated(env, segs))
  {
    var calls := IllustrationEvents(env, segs);
    if n > 0 {
      ApplyIllustrations(dir, files, env, segs, n - 1);
      assert calls[..n] == calls[..n - 1] + [calls[n - 1]];
      ApplyAppend(dir, files, calls[..n - 1], calls[n - 1]);
      MediaFileListed(dir, env, segs, n - 1);
    }
  }

  /** The file bookkeeping of a finished pass, over its events: the
      transcript and audio written first, the fan-out, thumbnail requests,
      `saveScript`, then a cleanup request whose list covers the transcript,
      the audio and the media files. What is left is the files before the
      pass plus what the thumbnail requests wrote, minus that list. */
  lemma ApplyFinishedPass(dir: string, files: set<string>, env: Env, segs: seq<SegmentRecord>,
                          opening: seq<Event>, thumbs: seq<Event>, save: Event, path: string, audio: string,
                          cleanup: seq<string>)
    requires |opening| == 2 && opening[0].SaveTranscript? && opening[0].path == path
    requires opening[1].Synthesize? && opening[1].audio == Resolved(audio)
    requires NoCleanup(thumbs)
    requires save.SaveScript?
    requires forall p :: p in CleanupPaths(dir, path, audio, Illustrated(env, segs)) ==> p in cleanup
    ensures Apply(dir, files, opening + IllustrationEvents(env, segs) + thumbs + [save, Cleanup(cleanup)])
            == (files + Apply(dir, {}, thumbs)) - set p | p in cleanup
  {
    var calls := IllustrationEvents(env, segs);
    var middle := thumbs + [save];
    assert opening + calls + thumbs + [save, Cleanup(cleanup)] == opening + calls + middle + [Cleanup(cleanup)];
    var f1 := Apply(dir, files, opening);
    ApplyOpening(dir, files, opening, path, audio);
    ApplyConcat(dir, files, opening, calls);
    ApplyIllustrations(dir, f1, env, segs, |calls|);
    assert calls[..|calls|] == calls;
    var grown := Apply(dir, f1, calls);
    ApplyConcat(dir, files, opening + calls, middle);
    NoCleanupConcat(thumbs, [save]);
    ApplyAdditive(dir, grown, middle);
    ApplyAppend(dir, {}, thumbs, save);
    ApplyAppend(dir, files, opening + calls + middle, Cleanup(cleanup));
    var shots := Apply(dir, {}, thumbs);
    var media := set p | p in MediaPaths(dir, Illustrated(env, segs));
    RemoveCovered(files + shots, grown + shots, {path, PathJoin(dir, audio)} + media, cleanup);
  }

  /** Removing a list that covers everything added in between undoes the additions. */
  lemma RemoveCovered(files: set<string>, grown: set<string>, added: set<string>, removed: seq<string>)
    requires files <= grown <= files + added
    requires forall p :: p in added ==> p in removed
    ensures grown - (set p | p in removed) == files - (set p | p in removed)
  {
  }

  /** The opening of a pass adds the transcript and the audio file. */
  lemma ApplyOpening(dir: string, files: set<string>, opening: seq<Event>, path: string, audio: string)
    requires |opening| == 2 && opening[0].SaveTranscript? && opening[0].path == path
    requires opening[1].Synthesize? && opening[1].audio == Resolved(audio)
    ensures Apply(dir, files, opening) == files + {path, PathJoin(dir, audio)}
  {
    assert opening == [opening[0]] + [opening[1]];
    ApplyAppend(dir, files, [opening[0]], opening[1]);
    ApplyAppend(dir, files, [], opening[0]);
  }

  /** A finished pass issues the transcript write, the synthesis request,
      every illustration request, the thumbnail requests (topic pipeline
      only), then `saveScript` and, after it, the cleanup request, with these
      exact arguments: the script with its new `audioSrc` and `mediaSrc`
      values, the metadata `{title, "", [], []}`, the thumbnails (none in the
      news pipeline), `['Portrait']` and the transcript's base name; then the
      transcript, the audio file and the set media files, in segment order. */
  lemma FinishedPassEvents(v: Variant, env: Env, k: nat, s: ScriptRecord)
    requires ScriptSteps(v, env, k, s).ok
    ensures var audio := Audio(v, env, s).value;
      var path := env.scriptFilePath(ScriptFileName(env, k, s));
      var done := ScriptRecord(s.title, Illustrated(env, s.segments), Some(audio));
      var thumbs := if v == NewsScan then [] else Thumbnails.GenerateThumbnails(s.title, [Portrait], env.thumbnail).value;
      ScriptSteps(v, env, k, s).events
        == Opening(v, env, k, s) + IllustrationEvents(env, s.segments) + ThumbnailEvents(v, env, s.title)
           + [SaveScript(done, Metadata(s.title, "", [], []), thumbs, [Portrait], env.basename(path)),
              Cleanup([path, PathJoin(env.publicDir, audio)] + MediaPaths(env.publicDir, done.segments))]
  {
    var audio := Audio(v, env, s).value;
    var path := env.scriptFilePath(ScriptFileName(env, k, s));
    var done := Finished(env, s, audio);
    var publish := Publish(v, env, done, path, audio);
    var opening := Opening(v, env, k, s);
    var calls := IllustrationEvents(env, s.segments);
    var thumbs := ThumbnailEvents(v, env, s.title);
    var tail := [SaveScript(done, Metadata(s.title, "", [], []), ThumbnailsFor(v, env, s.title).value, EnabledFormats, env.basename(path)),
                 Cleanup(CleanupPaths(env.publicDir, path, audio, done.segments))];
    assert publish.events == thumbs + tail;
    assert ScriptSteps(v, env, k, s).events == opening + (calls + publish.events);
    Assoc(calls, thumbs, tail);
    Regroup(opening, calls, thumbs, tail);
  }

  /** The thumbnail files a pass leaves in the output directory once its
      thumbnails resolve; none in the news pipeline. */
  function PassThumbnailFiles(v: Variant, env: Env, title: string): set<string> {
    var thumbs := ThumbnailsFor(v, env, title);
    if thumbs.Resolved? then ThumbnailFiles(env.publicDir, thumbs.value) else {}
  }

  /** The thumbnail requests of a pass write exactly its thumbnail files. */
  lemma ApplyThumbnailEvents(v: Variant, env: Env, title: string)
    requires ThumbnailsFor(v, env, title).Resolved?
    ensures Apply(env.publicDir, {}, ThumbnailEvents(v, env, title)) == PassThumbnailFiles(v, env, title)
  {
    if v == TopicDriven {
      ApplyThumbnailCalls(env.publicDir, {}, title, EnabledFormats, env.thumbnail);
    }
  }

  /** A finished pass removes the transcript, the audio and every media file
      it created, all of which are on the cleanup list it issues last; its
      thumbnail files are not on that list and stay. What is left is the
      files before the pass, plus its thumbnail files, minus the list. */
  lemma FinishedPassLeavesOnlyThumbnails(v: Variant, env: Env, k: nat, s: ScriptRecord, files: set<string>)
    requires ScriptSteps(v, env, k, s).ok
    ensures var audio := Audio(v, env, s).value;
      var path := env.scriptFilePath(ScriptFileName(env, k, s));
      var cleanup := CleanupPaths(env.publicDir, path, audio, Illustrated(env, s.segments));
      Apply(env.publicDir, files, ScriptSteps(v, env, k, s).events)
        == (files + PassThumbnailFiles(v, env, s.title)) - set p | p in cleanup
  {
    var audio := Audio(v, env, s).value;
    var path := env.scriptFilePath(ScriptFileName(env, k, s));
    var done := Finished(env, s, audio);
    FinishedPassEvents(v, env, k, s);
    var save := SaveScript(done, Metadata(s.title, "", [], []), ThumbnailsFor(v, env, s.title).value, EnabledFormats, env.basename(path));
    var thumbs := ThumbnailEvents(v, env, s.title);
    assert NoCleanup(thumbs);
    ApplyFinishedPass(env.publicDir, files, env, s.segments, Opening(v, env, k, s), thumbs, save, path, audio,
                      CleanupPaths(env.publicDir, path, audio, Illustrated(env, s.segments)));
    ApplyThumbnailEvents(v, env, s.title);
  }

  /** As written, a finished topic pass leaves its thumbnail files on disk:
      a thumbnail file that no cleanup request of the pass happens to name
      is still there once the pass is over. */
  lemma ThumbnailOutlivesPass(env: Env, k: nat, s: ScriptRecord, files: set<string>, f: string)
    requires ScriptSteps(TopicDriven, env, k, s).ok
    requires f in PassThumbnailFiles(TopicDriven, env, s.title)
    requires forall e :: e in ScriptSteps(TopicDriven, env, k, s).events && e.Cleanup? ==> f !in e.paths
    ensures f in Apply(env.publicDir, files, ScriptSteps(TopicDriven, env, k, s).events)
  {
    var es := ScriptSteps(TopicDriven, env, k, s).events;
    FinishedPassLeavesOnlyThumbnails(TopicDriven, env, k, s, files);
    FinishedPassEvents(TopicDriven, env, k, s);
    assert es[|es| - 1] in es;
  }

  /** The thumbnail files as a list, in thumbnail order. */
  function ThumbnailPaths(dir: string, thumbs: seq<string>): seq<string>
    decreases |thumbs|
  {
    if thumbs == [] then [] else [PathJoin(dir, thumbs[0])] + ThumbnailPaths(dir, thumbs[1..])
  }

  lemma {:induction false} ThumbnailPathsListFiles(dir: string, thumbs: seq<string>)
    ensures forall p :: p in ThumbnailFiles(dir, thumbs) ==> p in ThumbnailPaths(dir, thumbs)
    decreases |thumbs|
  {
    if thumbs != [] {
      ThumbnailPathsListFiles(dir, thumbs[1..]);
    }
  }

  /** The cleanup list a finished pass is meant to issue: the transcript,
      the audio and the media files, then the thumbnail files. */
  function IntendedCleanupPaths(dir: string, path: string, audio: string, segs: seq<SegmentRecord>, thumbs: seq<string>): seq<string> {
    CleanupPaths(dir, path, audio, segs) + ThumbnailPaths(dir, thumbs)
  }

  /** With the intended list in place of the last cleanup request, a
      finished pass leaves no temporary file of its own, thumbnails
      included: what is left is the files before the pass minus the list. */
  lemma IntendedCleanupLeavesNoTempFiles(v: Variant, env: Env, k: nat, s: ScriptRecord, files: set<string>)
    requires ScriptSteps(v, env, k, s).ok
    ensures var es := ScriptSteps(v, env, k, s).events;
      var audio := Audio(v, env, s).value;
      var path := env.scriptFilePath(ScriptFileName(env, k, s));
      var intended := IntendedCleanupPaths(env.publicDir, path, audio, Illustrated(env, s.segments), ThumbnailsFor(v, env, s.title).value);
      |es| > 0 && Apply(env.publicDir, files, es[..|es| - 1] + [Cleanup(intended)]) == files - set p | p in intended
  {
    var audio := Audio(v, env, s).value;
    var path := env.scriptFilePath(ScriptFileName(env, k, s));
    var done := Finished(env, s, audio);
    var thumbs := ThumbnailsFor(v, env, s.title).value;
    var intended := IntendedCleanupPaths(env.publicDir, path, audio, Illustrated(env, s.segments), thumbs);
    ReplaceLastCleanup(v, env, k, s, intended);
    var shots := ThumbnailEvents(v, env, s.title);
    var save := SaveScript(done, Metadata(s.title, "", [], []), thumbs, EnabledFormats, env.basename(path));
    assert NoCleanup(shots);
    ApplyFinishedPass(env.publicDir, files, env, s.segments, Opening(v, env, k, s), shots, save, path, audio, intended);
    ApplyThumbnailEvents(v, env, s.title);
    ThumbnailPathsListFiles(env.publicDir, thumbs);
    var left := PassThumbnailFiles(v, env, s.title);
    RemoveCovered(files, files + left, left, intended);
  }

  /** A finished pass with its last event, the cleanup request, replaced by
      a cleanup request for `paths`. */
  lemma ReplaceLastCleanup(v: Variant, env: Env, k: nat, s: ScriptRecord, paths: seq<string>)
    requires ScriptSteps(v, env, k, s).ok
    ensures var es := ScriptSteps(v, env, k, s).events;
      var audio := Audio(v, env, s).value;
      var path := env.scriptFilePath(ScriptFileName(env, k, s));
      var save := SaveScript(Finished(env, s, audio), Metadata(s.title, "", [], []), ThumbnailsFor(v, env, s.title).value,
                             EnabledFormats, env.basename(path));
      |es| > 0
      && es[..|es| - 1] + [Cleanup(paths)]
         == Opening(v, env, k, s) + IllustrationEvents(env, s.segments) + ThumbnailEvents(v, env, s.title) + [save, Cleanup(paths)]
  {
    var es := ScriptSteps(v, env, k, s).events;
    var audio := Audio(v, env, s).value;
    var path := env.scriptFilePath(ScriptFileName(env, k, s));
    var save := SaveScript(Finished(env, s, audio), Metadata(s.title, "", [], []), ThumbnailsFor(v, env, s.title).value,
                           EnabledFormats, env.basename(path));
    FinishedPassEvents(v, env, k, s);
    var front := Opening(v, env, k, s) + IllustrationEvents(env, s.segments) + ThumbnailEvents(v, env, s.title) + [save];
    assert es == front + [es[|es| - 1]];
    assert es[..|es| - 1] == front;
  }

  predicate NoCleanup(es: seq<Event>) {
    forall i :: 0 <= i < |es| ==> !es[i].Cleanup?
  }

  lemma NoCleanupConcat(a: seq<Event>, b: seq<Event>)
    requires NoCleanup(a) && NoCleanup(b)
    ensures NoCleanup(a + b)
  {
    forall i | 0 <= i < |a + b| ensures !(a + b)[i].Cleanup? {
      if i >= |a| {
        assert (a + b)[i] == b[i - |a|];
      }
    }
  }

  /** A publishing step that stops early issues no cleanup request. */
  lemma StoppedPublishHasNoCleanup(v: Variant, env: Env, done: ScriptRecord, path: string, audio: string)
    requires !Publish(v, env, done, path, audio).ok
    ensures NoCleanup(Publish(v, env, done, path, audio).events)
  {
    var publish := Publish(v, env, done, path, audio);
    var thumbs := ThumbnailEvents(v, env, done.title);
    assert NoCleanup(thumbs);
    if publish.events != thumbs {
      var save := publish.events[|publish.events| - 1];
      assert publish.events == thumbs + [save] && save.SaveScript?;
      NoCleanupConcat(thumbs, [save]);
    }
  }

  /** A pass that stops early issues no cleanup request. */
  lemma StoppedPassHasNoCleanup(v: Variant, env: Env, k: nat, s: ScriptRecord)
    requires !ScriptSteps(v, env, k, s).ok
    ensures NoCleanup(ScriptSteps(v, env, k, s).events)
  {
    var opening := Opening(v, env, k, s);
    var rest := AfterSynthesis(v, env, k, s);
    var audio := Audio(v, env, s);
    assert NoCleanup(opening);
    if audio.Resolved? {
      var calls := IllustrationEvents(env, s.segments);
      assert NoCleanup(calls);
      if AllIllustrated(env, s.segments) {
        var path := env.scriptFilePath(ScriptFileName(env, k, s));
        var done := Finished(env, s, audio.value);
        StoppedPublishHasNoCleanup(v, env, done, path, audio.value);
        NoCleanupConcat(calls, Publish(v, env, done, path, audio.value).events);
      }
    }
    NoCleanupConcat(opening, rest.events);
  }

  /** The first event is the transcript write and no later event removes a file. */
  lemma ApplyKeepsTranscript(dir: string, files: set<string>, es: seq<Event>)
    requires es != [] && es[0].SaveTranscript? && NoCleanup(es)
    ensures es[0].path in Apply(dir, files, es)
  {
    assert es == [es[0]] + es[1..];
    ApplyConcat(dir, files, [es[0]], es[1..]);
    ApplyAppend(dir, files, [], es[0]);
    ApplyGrows(dir, Apply(dir, files, [es[0]]), es[1..]);
  }

  /** A pass that stops early leaves its transcript on disk, and every file
      an earlier event of the pass added (audio, media) stays too: the
      cleanup request is issued only at the end of a finished pass. */
  lemma StoppedPassKeepsTranscript(v: Variant, env: Env, k: nat, s: ScriptRecord, files: set<string>)
    requires !ScriptSteps(v, env, k, s).ok
    ensures env.scriptFilePath(ScriptFileName(env, k, s)) in Apply(env.publicDir, files, ScriptSteps(v, env, k, s).events)
    ensures var es := ScriptSteps(v, env, k, s).events;
      forall j :: 0 <= j <= |es| ==> Apply(env.publicDir, files, es[..j]) <= Apply(env.publicDir, files, es)
  {
    var es := ScriptSteps(v, env, k, s).events;
    PassOpens(v, env, k, s);
    StoppedPassHasNoCleanup(v, env, k, s);
    ApplyKeepsTranscript(env.publicDir, files, es);
    forall j | 0 <= j <= |es| ensures Apply(env.publicDir, files, es[..j]) <= Apply(env.publicDir, files, es) {
      ApplyKeepsPrefix(env.publicDir, files, es, j);
    }
  }

  /** Without a cleanup request, what an earlier event added is never removed. */
  lemma ApplyKeepsPrefix(dir: string, files: set<string>, es: seq<Event>, j: nat)
    requires NoCleanup(es) && j <= |es|
    ensures Apply(dir, files, es[..j]) <= Apply(dir, files, es)
  {
    assert es[..j] + es[j..] == es;
    ApplyConcat(dir, files, es[..j], es[j..]);
    assert NoCleanup(es[j..]) by {
      forall i | 0 <= i < |es[j..]| ensures !es[j..][i].Cleanup? {
        assert es[j..][i] == es[j + i];
      }
    }
    ApplyGrows(dir, Apply(dir, files, es[..j]), es[j..]);
  }

  // ---------------------------------------------------------------------
  // The whole loop

  /** The loop finishes exactly when every script's pass finishes. */
  lemma {:induction false} LoopFinishesIff(step: (nat, ScriptRecord) -> Run, scripts: seq<ScriptRecord>)
    ensures LoopSteps(step, scripts).ok <==> forall k :: 0 <= k < |scripts| ==> step(k, scripts[k]).ok
    decreases |scripts|
  {
    if scripts != [] {
      var n := |scripts| - 1;
      var init := scripts[..n];
      LoopFinishesIff(step, init);
      assert forall k :: 0 <= k < n ==> init[k] == scripts[k];
    }
  }

  /** The thumbnail files of the passes over `scripts`. */
  function LoopThumbnailFiles(v: Variant, env: Env, scripts: seq<ScriptRecord>): set<string>
    decreases |scripts|
  {
    if scripts == [] then {}
    else LoopThumbnailFiles(v, env, scripts[..|scripts| - 1]) + PassThumbnailFiles(v, env, scripts[|scripts| - 1].title)
  }

  /** A finished run (every pass finished) leaves, of the files it created,
      at most the thumbnail files: everything else is on the cleanup list of
      its own pass. The news pipeline leaves none. */
  lemma {:induction false} FinishedLoopLeavesOnlyThumbnails(v: Variant, env: Env, scripts: seq<ScriptRecord>, files: set<string>)
    requires LoopSteps(Step(v, env), scripts).ok
    ensures Apply(env.publicDir, files, LoopSteps(Step(v, env), scripts).events) <= files + LoopThumbnailFiles(v, env, scripts)
    ensures v == NewsScan ==> Apply(env.publicDir, files, LoopSteps(Step(v, env), scripts).events) <= files
    decreases |scripts|
  {
    if scripts != [] {
      var n := |scripts| - 1;
      var step := Step(v, env);
      var before := LoopSteps(step, scripts[..n]);
      var pass := step(n, scripts[n]);
      assert pass == ScriptSteps(v, env, n, scripts[n]);
      assert LoopSteps(step, scripts).events == before.events + pass.events;
      FinishedLoopLeavesOnlyThumbnails(v, env, scripts[..n], files);
      ApplyConcat(env.publicDir, files, before.events, pass.events);
      FinishedPassLeavesOnlyThumbnails(v, env, n, scripts[n], Apply(env.publicDir, files, before.events));
    }
  }

  /** `Array.isArray(scripts) ? scripts : [scripts]`: a decoded single
      script runs exactly as a one-element list. */
  lemma SingleLikeList(step: (nat, ScriptRecord) -> Run, s: ScriptRecord)
    ensures LoopSteps(step, Normalize(Single(s))) == LoopSteps(step, Normalize(Many([s])))
  {
  }
}
