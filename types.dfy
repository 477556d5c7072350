/** The script and segment data the two entry scripts work on: decoded
    records, and the objects whose `audioSrc` and `mediaSrc` fields the
    per-script loop sets in place. */
module Types {
  import opened Wrappers

  /** The voice identities (the keys of the voice map in src/clients/kokoro.ts). */
  datatype Speaker = Cody | Felippe

  /** Thumbnail orientations accepted by the image generator. */
  datatype Orientation = Portrait | Landscape

  /** The agent roles the two pipelines use. */
  datatype Agent =
    | Researcher | ScriptWriter | ScriptReviewer
    | NewsResearcher | NewsletterWriter | NewsletterReviewer

  /** The language-model provider a completion goes to. */
  datatype Provider = Gemini | Grok | OpenAI | Anthropic

  /** A segment as a value: what the decoder yields and what a snapshot records. */
  datatype SegmentRecord = SegmentRecord(speaker: Speaker, text: string, mediaSrc: Option<string>)

  /** A titled script as a value. */
  datatype ScriptRecord = ScriptRecord(title: string, segments: seq<SegmentRecord>, audioSrc: Option<string>)

  /** What `JSON.parse` of the review agent's text yields when it succeeds: one
      script object or an array of them. */
  datatype Decoded = Single(script: ScriptRecord) | Many(scripts: seq<ScriptRecord>)

  /** `Array.isArray(scripts) ? scripts : [scripts]`. */
  function Normalize(d: Decoded): (r: seq<ScriptRecord>)
    ensures d.Single? ==> r == [d.script]
    ensures d.Many? ==> r == d.scripts
  {
    match d
    case Single(s) => [s]
    case Many(ss) => ss
  }

  /** The metadata record handed to `saveScript`. */
  datatype Metadata = Metadata(title: string, description: string, hashtags: seq<string>, tags: seq<string>)

  /** One spoken segment; the illustration step sets `mediaSrc` in place. */
  class Segment {
    const speaker: Speaker
    const text: string
    var mediaSrc: Option<string>

    constructor (r: SegmentRecord)
      ensures Record() == r
    {
      speaker, text, mediaSrc := r.speaker, r.text, r.mediaSrc;
    }

    function Record(): SegmentRecord
      reads this
    {
      SegmentRecord(speaker, text, mediaSrc)
    }
  }

  /** A titled script; synthesis sets `audioSrc` in place. */
  class Script {
    const title: string
    const segments: seq<Segment>
    var audioSrc: Option<string>

    /** Decoded JSON never shares one segment object between two positions. */
    ghost predicate Valid()
      reads this
    {
      forall i, j :: 0 <= i < j < |segments| ==> segments[i] != segments[j]
    }

    /** The segments as values, in narration order. */
    function SegmentRecords(): (r: seq<SegmentRecord>)
      reads this, segments
      ensures |r| == |segments|
      ensures forall i :: 0 <= i < |segments| ==> r[i] == segments[i].Record()
    {
      seq(|segments|, i requires 0 <= i < |segments| reads segments => segments[i].Record())
    }

    function Record(): ScriptRecord
      reads this, segments
    {
      ScriptRecord(title, SegmentRecords(), audioSrc)
    }

    /** Builds the objects `JSON.parse` produces for one decoded script. */
    constructor (r: ScriptRecord)
      ensures Valid() && Record() == r
      ensures forall i :: 0 <= i < |segments| ==> fresh(segments[i])
    {
      var segs: seq<Segment> := [];
      var i := 0;
      while i < |r.segments|
        invariant 0 <= i <= |r.segments| && |segs| == i
        invariant forall j :: 0 <= j < i ==> fresh(segs[j]) && segs[j].Record() == r.segments[j]
        invariant forall j, k :: 0 <= j < k < i ==> segs[j] != segs[k]
      {
        var s := new Segment(r.segments[i]);
        segs := segs + [s];
        i := i + 1;
      }
      title, segments, audioSrc := r.title, segs, r.audioSrc;
    }
  }
}
