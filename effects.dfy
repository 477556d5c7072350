/** The boundary between the orchestration and its collaborators: the
    language models, speech synthesis, image generation, the script store
    and the filesystem. Each collaborator is a function of its arguments
    (fixed for one run); each call is recorded in a ghost event trace, and
    the temporary files on disk are a function of that trace. */
module Effects {
  import opened Wrappers
  import opened Types
  import Thumbnails

  /** `path.join(dir, name)`, modelled as concatenation with a separator. */
  function PathJoin(dir: string, name: string): string {
    dir + "/" + name
  }

  /** One observable step of a run. */
  datatype Event =
    | RetrieveLatestScripts(count: nat)
    | Complete(provider: Provider, agent: Agent, prompt: string)
    | SaveTranscript(segments: seq<SegmentRecord>, fileName: string, path: string)
    | Synthesize(segments: seq<SegmentRecord>, maxDuration: Option<nat>, audio: Settled<string>)
    | Illustrate(index: nat, segment: SegmentRecord, media: Settled<Option<string>>)
    | GenerateThumbnail(title: string, orientation: Orientation, media: Settled<Option<string>>)
    | SaveScript(script: ScriptRecord, metadata: Metadata, thumbnails: seq<string>,
                 formats: seq<Orientation>, transcriptFileName: string)
    | Cleanup(paths: seq<string>)
    | Exit(status: int)

  /** The collaborators of one run, each as a function of its arguments. */
  datatype Env = Env(
    publicDir: string,                      // the shared output directory
    maxShortsDuration: nat,                 // MAX_AUDIO_DURATION_FOR_SHORTS
    uuid: nat -> string,                    // v4() while slugging the k-th script's title
    retrieveLatestScripts: nat -> Settled<seq<ScriptRecord>>,
    complete: (Provider, Agent, string) -> Settled<string>,
    parse: string -> Option<Decoded>,       // JSON.parse into the script shape; None when it throws
    scriptFilePath: string -> string,       // the path saveScriptFile writes for a file name
    basename: string -> string,             // path.basename
    synthesize: (seq<SegmentRecord>, Option<nat>) -> Settled<string>,  // the audioFileName
    illustrate: SegmentRecord -> Settled<Option<string>>,             // generateIllustration's mediaSrc
    thumbnail: Thumbnails.Generator,
    saveScript: (ScriptRecord, Metadata, seq<string>, seq<Orientation>, string) -> Settled<()>
  )

  /** The file a resolved illustration or thumbnail leaves in the output directory. */
  function MediaFile(dir: string, r: Settled<Option<string>>): set<string> {
    if r.Resolved? && Truthy(r.value) then {PathJoin(dir, r.value.value)} else {}
  }

  /** The files one event writes: the transcript at its path, and the audio,
      illustration or thumbnail under the output directory. */
  function Added(dir: string, e: Event): set<string> {
    match e
    case SaveTranscript(_, _, path) => {path}
    case Synthesize(_, _, r) => if r.Resolved? then {PathJoin(dir, r.value)} else {}
    case Illustrate(_, _, r) => MediaFile(dir, r)
    case GenerateThumbnail(_, _, r) => MediaFile(dir, r)
    case _ => {}
  }

  /** How one event changes the set of temporary files: a cleanup request
      removes the paths it lists, every other event adds what it writes. */
  function Effect(dir: string, files: set<string>, e: Event): set<string> {
    if e.Cleanup? then files - set p | p in e.paths else files + Added(dir, e)
  }

  /** The temporary files after a sequence of events. */
  function Apply(dir: string, files: set<string>, es: seq<Event>): set<string>
    decreases |es|
  {
    if es == [] then files else Effect(dir, Apply(dir, files, es[..|es| - 1]), es[|es| - 1])
  }

  lemma ApplyAppend(dir: string, files: set<string>, es: seq<Event>, e: Event)
    ensures Apply(dir, files, es + [e]) == Effect(dir, Apply(dir, files, es), e)
  {
    assert (es + [e])[..|es|] == es;
  }

  lemma {:induction false} ApplyConcat(dir: string, files: set<string>, a: seq<Event>, b: seq<Event>)
    ensures Apply(dir, files, a + b) == Apply(dir, Apply(dir, files, a), b)
    decreases |b|
  {
    if b == [] {
      assert a + b == a;
    } else {
      var b' := b[..|b| - 1];
      assert a + b == (a + b') + [b[|b| - 1]];
      ApplyAppend(dir, files, a + b', b[|b| - 1]);
      ApplyConcat(dir, files, a, b');
      ApplyAppend(dir, Apply(dir, files, a), b', b[|b| - 1]);
      assert b == b' + [b[|b| - 1]];
    }
  }

  /** The thumbnail requests generateThumbnails issues: one per orientation,
      in order, each with the title and the way that request settles. */
  function ThumbnailCalls(title: string, formats: seq<Orientation>, gen: Thumbnails.Generator): (r: seq<Event>)
    ensures |r| == |formats|
    ensures forall i :: 0 <= i < |formats| ==> r[i] == GenerateThumbnail(title, formats[i], gen(title, formats[i]))
  {
    seq(|formats|, i requires 0 <= i < |formats| => GenerateThumbnail(title, formats[i], gen(title, formats[i])))
  }

  /** The files that thumbnail sources name in the output directory. */
  function ThumbnailFiles(dir: string, thumbs: seq<string>): set<string>
    decreases |thumbs|
  {
    if thumbs == [] then {} else {PathJoin(dir, thumbs[0])} + ThumbnailFiles(dir, thumbs[1..])
  }

  /** Once every thumbnail request resolves, the requests leave exactly the
      files of the thumbnails generateThumbnails hands back. */
  lemma {:induction false} ApplyThumbnailCalls(dir: string, files: set<string>, title: string,
                                              formats: seq<Orientation>, gen: Thumbnails.Generator)
    requires Thumbnails.GenerateThumbnails(title, formats, gen).Resolved?
    ensures Apply(dir, files, ThumbnailCalls(title, formats, gen))
            == files + ThumbnailFiles(dir, Thumbnails.GenerateThumbnails(title, formats, gen).value)
    decreases |formats|
  {
    if formats == [] {
      assert ThumbnailCalls(title, formats, gen) == [];
    } else {
      var first := MediaFile(dir, gen(title, formats[0]));
      ApplyFirstCall(dir, files, title, formats, gen);
      ThumbnailFilesFirst(dir, title, formats, gen);
      ApplyThumbnailCalls(dir, files + first, title, formats[1..], gen);
    }
  }

  /** The first thumbnail request adds its file before the others run. */
  lemma ApplyFirstCall(dir: string, files: set<string>, title: string, formats: seq<Orientation>, gen: Thumbnails.Generator)
    requires formats != []
    ensures Apply(dir, files, ThumbnailCalls(title, formats, gen))
            == Apply(dir, files + MediaFile(dir, gen(title, formats[0])), ThumbnailCalls(title, formats[1..], gen))
  {
    var calls := ThumbnailCalls(title, formats, gen);
    var rest := ThumbnailCalls(title, formats[1..], gen);
    assert calls == [calls[0]] + rest;
    ApplyConcat(dir, files, [calls[0]], rest);
    ApplyAppend(dir, files, [], calls[0]);
    assert [] + [calls[0]] == [calls[0]];
  }

  /** The thumbnail files of all orientations are those of the first one
      and those of the rest, which resolve too. */
  lemma ThumbnailFilesFirst(dir: string, title: string, formats: seq<Orientation>, gen: Thumbnails.Generator)
    requires formats != [] && Thumbnails.GenerateThumbnails(title, formats, gen).Resolved?
    ensures Thumbnails.GenerateThumbnails(title, formats[1..], gen).Resolved?
    ensures ThumbnailFiles(dir, Thumbnails.GenerateThumbnails(title, formats, gen).value)
            == MediaFile(dir, gen(title, formats[0]))
               + ThumbnailFiles(dir, Thumbnails.GenerateThumbnails(title, formats[1..], gen).value)
  {
    var first := gen(title, formats[0]);
    var xs := Thumbnails.AwaitAll(title, formats, gen).value;
    var ys := Thumbnails.AwaitAll(title, formats[1..], gen).value;
    assert xs[0] == first.value && xs[1..] == ys;
    var tail := Thumbnails.KeepTruthy(ys);
    if Truthy(first.value) {
      var kept := [first.value.value] + tail;
      assert Thumbnails.KeepTruthy(xs) == kept;
      assert kept[0] == first.value.value && kept[1..] == tail;
    } else {
      assert Thumbnails.KeepTruthy(xs) == [] + tail == tail;
      assert MediaFile(dir, first) == {};
    }
  }

  /** The world one run acts on. */
  class World {
    const env: Env
    /** Every collaborator call so far, in order. */
    ghost var trace: seq<Event>

    constructor (env: Env)
      ensures this.env == env && trace == []
    {
      this.env := env;
      trace := [];
    }

    /** The temporary files the run has created and not yet handed to
        cleanup (the deletion itself is not awaited): a function of the trace. */
    ghost function TempFiles(): set<string>
      reads this
    {
      Apply(env.publicDir, {}, trace)
    }

    ghost method Log(e: Event)
      modifies this
      ensures trace == old(trace) + [e]
      ensures TempFiles() == Effect(env.publicDir, old(TempFiles()), e)
    {
      ApplyAppend(env.publicDir, {}, trace, e);
      trace := trace + [e];
    }

    /** scriptManagerClient.retrieveLatestScripts(count). */
    method RetrieveLatestScripts(count: nat) returns (r: Settled<seq<ScriptRecord>>)
      modifies this
      ensures r == env.retrieveLatestScripts(count)
      ensures trace == old(trace) + [Event.RetrieveLatestScripts(count)]
    {
      r := env.retrieveLatestScripts(count);
      Log(Event.RetrieveLatestScripts(count));
    }

    /** client.complete(agent, prompt) on the given provider. */
    method Complete(provider: Provider, agent: Agent, prompt: string) returns (r: Settled<string>)
      modifies this
      ensures r == env.complete(provider, agent, prompt)
      ensures trace == old(trace) + [Event.Complete(provider, agent, prompt)]
    {
      r := env.complete(provider, agent, prompt);
      Log(Event.Complete(provider, agent, prompt));
    }

    /** saveScriptFile(segments, fileName): writes the transcript, returns its path. */
    method SaveScriptFile(segments: seq<SegmentRecord>, fileName: string) returns (path: string)
      modifies this
      ensures path == env.scriptFilePath(fileName)
      ensures trace == old(trace) + [Event.SaveTranscript(segments, fileName, path)]
    {
      path := env.scriptFilePath(fileName);
      Log(Event.SaveTranscript(segments, fileName, path));
    }

    /** synthesizeSpeech(segments, maxDuration): the audio file name. */
    method SynthesizeSpeech(segments: seq<SegmentRecord>, maxDuration: Option<nat>) returns (r: Settled<string>)
      modifies this
      ensures r == env.synthesize(segments, maxDuration)
      ensures trace == old(trace) + [Event.Synthesize(segments, maxDuration, r)]
    {
      r := env.synthesize(segments, maxDuration);
      Log(Event.Synthesize(segments, maxDuration, r));
    }

    /** generateIllustration(segment) for the segment at `index`. */
    method GenerateIllustration(index: nat, segment: SegmentRecord) returns (r: Settled<Option<string>>)
      modifies this
      ensures r == env.illustrate(segment)
      ensures trace == old(trace) + [Event.Illustrate(index, segment, r)]
    {
      r := env.illustrate(segment);
      Log(Event.Illustrate(index, segment, r));
    }

    /** generateThumbnails(title, formats): one request per orientation. */
    method GenerateThumbnails(title: string, formats: seq<Orientation>) returns (r: Settled<seq<string>>)
      modifies this
      ensures r == Thumbnails.GenerateThumbnails(title, formats, env.thumbnail)
      ensures trace == old(trace) + ThumbnailCalls(title, formats, env.thumbnail)
    {
      var i := 0;
      while i < |formats|
        invariant 0 <= i <= |formats|
        invariant trace == old(trace) + ThumbnailCalls(title, formats[..i], env.thumbnail)
      {
        var e := Event.GenerateThumbnail(title, formats[i], env.thumbnail(title, formats[i]));
        Log(e);
        assert ThumbnailCalls(title, formats[..i + 1], env.thumbnail) == ThumbnailCalls(title, formats[..i], env.thumbnail) + [e];
        i := i + 1;
      }
      assert formats[..i] == formats;
      r := Thumbnails.GenerateThumbnails(title, formats, env.thumbnail);
    }

    /** scriptManagerClient.saveScript(script, metadata, thumbnails, formats, transcript). */
    method SaveScript(script: ScriptRecord, metadata: Metadata, thumbnails: seq<string>,
                      formats: seq<Orientation>, transcriptFileName: string) returns (r: Settled<()>)
      modifies this
      ensures r == env.saveScript(script, metadata, thumbnails, formats, transcriptFileName)
      ensures trace == old(trace) + [Event.SaveScript(script, metadata, thumbnails, formats, transcriptFileName)]
    {
      r := env.saveScript(script, metadata, thumbnails, formats, transcriptFileName);
      Log(Event.SaveScript(script, metadata, thumbnails, formats, transcriptFileName));
    }

    /** cleanupFiles(paths): the deletion request (not awaited by the caller). */
    method CleanupFiles(paths: seq<string>)
      modifies this
      ensures trace == old(trace) + [Event.Cleanup(paths)]
    {
      Log(Event.Cleanup(paths));
    }

    /** process.exit(status). */
    method Exit(status: int)
      modifies this
      ensures trace == old(trace) + [Event.Exit(status)]
    {
      Log(Event.Exit(status));
    }
  }
}
