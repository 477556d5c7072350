/** The news pipeline (src/news-producer.ts): read the titles already
    published, have three agents research, write and review a batch of news
    scripts, decode the review (falling back to the draft), then run every
    decoded script through the shared per-script loop. */
module NewsProducer {
  import opened Wrappers
  import opened Types
  import opened Effects
  import opened Pipeline

  /** How many stored scripts the research prompt lists. */
  const LatestCount: nat := 10

  const Header: string := "We have already published " + "these news articles:"
  const Footer: string := FooterFront + FooterBack
  const FooterFront: string := "Now, research other relevant and " + "recent news articles (from the "
  const FooterBack: string := "past 24 hours) that would be " + "interesting for our audience."

  // ---------------------------------------------------------------------
  // The research prompt

  /** `lines.join('\n')`. */
  function JoinLines(lines: seq<string>): string
    decreases |lines|
  {
    if lines == [] then ""
    else if |lines| == 1 then lines[0]
    else lines[0] + "\n" + JoinLines(lines[1..])
  }

  /** `text.split('\n')`: the pieces between line feeds, empty ones
      included, so there is always at least one. */
  function SplitLines(text: string): (r: seq<string>)
    ensures |r| >= 1
    decreases |text|
  {
    if text == [] then [""]
    else
      var rest := SplitLines(text[1..]);
      if text[0] == '\n' then [""] + rest
      else [[text[0]] + rest[0]] + rest[1..]
  }

  /** `latestScripts.map(s => `- ${s.title}`)`. */
  function Bullets(latest: seq<ScriptRecord>): (r: seq<string>)
    ensures |r| == |latest| && forall i :: 0 <= i < |latest| ==> r[i] == "- " + latest[i].title
  {
    seq(|latest|, i requires 0 <= i < |latest| => "- " + latest[i].title)
  }

  /** The prompt the news researcher receives. */
  function ResearchPrompt(latest: seq<ScriptRecord>): string {
    Header + "\n" + JoinLines(Bullets(latest)) + "\n\n" + Footer
  }

  /** A line feed splits the text into the lines on either side of it. */
  lemma {:induction false} SplitAtLineFeed(x: string, y: string)
    ensures SplitLines(x + "\n" + y) == SplitLines(x) + SplitLines(y)
    decreases |x|
  {
    if x == [] {
      assert x + "\n" + y == ['\n'] + y;
      SplitAfterLineFeed(y);
    } else {
      var w := x[1..] + "\n" + y;
      assert x + "\n" + y == [x[0]] + w;
      assert x == [x[0]] + x[1..];
      SplitAtLineFeed(x[1..], y);
      SplitAtLineFeedStep(x[0], x[1..], w, SplitLines(y));
    }
  }

  /** The inductive step of `SplitAtLineFeed`: a text `w` whose lines are those
      of `u` followed by `q` keeps that shape with one more character in front. */
  lemma SplitAtLineFeedStep(c: char, u: string, w: string, q: seq<string>)
    requires SplitLines(w) == SplitLines(u) + q
    ensures SplitLines([c] + w) == SplitLines([c] + u) + q
  {
    if c == '\n' {
      SplitAfterLineFeed(w);
      SplitAfterLineFeed(u);
    } else {
      SplitAfterChar(c, w);
      SplitAfterChar(c, u);
      ConsFirst(c, SplitLines(u), q);
    }
  }

  /** Gluing a character to the first line commutes with appending more lines. */
  lemma ConsFirst(c: char, r: seq<string>, q: seq<string>)
    requires |r| >= 1
    ensures [[c] + (r + q)[0]] + (r + q)[1..] == ([[c] + r[0]] + r[1..]) + q
  {
    assert (r + q)[0] == r[0] && (r + q)[1..] == r[1..] + q;
  }

  /** A leading line feed starts with an empty line. */
  lemma SplitAfterLineFeed(u: string)
    ensures SplitLines(['\n'] + u) == [""] + SplitLines(u)
  {
    assert (['\n'] + u)[1..] == u;
  }

  /** Any other leading character joins the first line. */
  lemma SplitAfterChar(c: char, u: string)
    requires c != '\n'
    ensures SplitLines([c] + u) == [[c] + SplitLines(u)[0]] + SplitLines(u)[1..]
  {
    assert ([c] + u)[0] == c && ([c] + u)[1..] == u;
  }

  /** Text without a line feed is one line. */
  lemma {:induction false} SplitSingleLine(x: string)
    requires '\n' !in x
    ensures SplitLines(x) == [x]
    decreases |x|
  {
    if x != [] {
      SplitSingleLine(x[1..]);
      assert [x[0]] + x[1..] == x;
    }
  }

  /** Splitting joined lines gives the lines back (one empty line for none). */
  lemma {:induction false} SplitJoin(lines: seq<string>)
    requires forall i :: 0 <= i < |lines| ==> '\n' !in lines[i]
    ensures SplitLines(JoinLines(lines)) == if lines == [] then [""] else lines
    decreases |lines|
  {
    if |lines| == 1 {
      SplitSingleLine(lines[0]);
    } else if |lines| > 1 {
      SplitJoin(lines[1..]);
      SplitSingleLine(lines[0]);
      SplitAtLineFeed(lines[0], JoinLines(lines[1..]));
    }
  }

  lemma NotInConcat(a: string, b: string)
    requires '\n' !in a && '\n' !in b
    ensures '\n' !in a + b
  {
  }

  lemma HeaderIsOneLine()
    ensures '\n' !in Header
  {
    NotInConcat("We have already published ", "these news articles:");
  }

  lemma FooterIsOneLine()
    ensures '\n' !in Footer
  {
    FooterFrontIsOneLine();
    FooterBackIsOneLine();
    NotInConcat(FooterFront, FooterBack);
  }

  lemma FooterFrontIsOneLine()
    ensures '\n' !in FooterFront
  {
    NotInConcat("Now, research other relevant and ", "recent news articles (from the ");
  }

  lemma FooterBackIsOneLine()
    ensures '\n' !in FooterBack
  {
    NotInConcat("past 24 hours) that would be ", "interesting for our audience.");
  }

  /** A header line, the joined lines, an empty line and a closing line. */
  lemma {:induction false} FramedLines(header: string, lines: seq<string>, footer: string)
    requires '\n' !in header && '\n' !in footer
    requires forall i :: 0 <= i < |lines| ==> '\n' !in lines[i]
    ensures SplitLines(header + "\n" + JoinLines(lines) + "\n\n" + footer)
            == [header] + (if lines == [] then [""] else lines) + ["", footer]
  {
    SplitJoin(lines);
    var body := JoinLines(lines);
    var tail := "" + "\n" + footer;
    assert header + "\n" + body + "\n\n" + footer == header + "\n" + (body + "\n" + tail);
    SplitAtLineFeed(header, body + "\n" + tail);
    SplitAtLineFeed(body, tail);
    SplitAtLineFeed("", footer);
    SplitSingleLine(header);
    SplitSingleLine(footer);
  }

  /** The research prompt, line by line: the header, one `- title` line per
      stored script in the order the store returned them (an empty line
      when there is none), an empty line, then the request. */
  lemma ResearchPromptLines(latest: seq<ScriptRecord>)
    requires forall i :: 0 <= i < |latest| ==> '\n' !in latest[i].title
    ensures SplitLines(ResearchPrompt(latest))
            == [Header] + (if latest == [] then [""] else Bullets(latest)) + ["", Footer]
  {
    var bullets := Bullets(latest);
    forall i | 0 <= i < |bullets| ensures '\n' !in bullets[i] {
      assert bullets[i] == "- " + latest[i].title;
    }
    HeaderIsOneLine();
    FooterIsOneLine();
    FramedLines(Header, bullets, Footer);
  }

  // ---------------------------------------------------------------------
  // The run

  /** The scripts decoded from the reviewed text, or from the draft when the
      reviewed text does not decode; `None` when neither does. */
  function DecodeWithFallback(parse: string -> Option<Decoded>, review: string, draft: string): (r: Option<Decoded>)
    ensures r.Some? <==> parse(review).Some? || parse(draft).Some?
    ensures parse(review).Some? ==> r == parse(review)
    ensures parse(review).None? ==> r == parse(draft)
  {
    var first := parse(review);
    if first.Some? then first else parse(draft)
  }

  /** The agent calls before decoding, stopping at the first rejection; the
      `Some` part carries the draft and the review when all resolved. */
  function Drafting(env: Env): (Run, Option<(string, string)>) {
    var latest := env.retrieveLatestScripts(LatestCount);
    var e0 := [RetrieveLatestScripts(LatestCount)];
    if latest.Rejected? then (Run(e0, false), None)
    else
      var prompt := ResearchPrompt(latest.value);
      var research := env.complete(Grok, NewsResearcher, prompt);
      var e1 := e0 + [Complete(Grok, NewsResearcher, prompt)];
      if research.Rejected? then (Run(e1, false), None)
      else
        var draft := env.complete(OpenAI, NewsletterWriter, research.value);
        var e2 := e1 + [Complete(OpenAI, NewsletterWriter, research.value)];
        if draft.Rejected? then (Run(e2, false), None)
        else
          var review := env.complete(Anthropic, NewsletterReviewer, draft.value);
          var e3 := e2 + [Complete(Anthropic, NewsletterReviewer, draft.value)];
          if review.Rejected? then (Run(e3, false), None)
          else (Run(e3, true), Some((draft.value, review.value)))
  }

  /** What one run of src/news-producer.ts does. */
  function NewsRun(env: Env): Run {
    var (agents, texts) := Drafting(env);
    if texts.None? then agents
    else
      var decoded := DecodeWithFallback(env.parse, texts.value.1, texts.value.0);
      if decoded.None? then Run(agents.events, false)
      else
        var loop := LoopSteps(Step(NewsScan, env), Normalize(decoded.value));
        Run(agents.events + loop.events, loop.ok)
  }

  /** The three agent calls and the store read that precede decoding. */
  method Draft(w: World) returns (texts: Option<(string, string)>)
    modifies w
    ensures texts == Drafting(w.env).1
    ensures w.trace == old(w.trace) + Drafting(w.env).0.events
  {
    var latest := w.RetrieveLatestScripts(LatestCount);
    if latest.Rejected? {
      return None;
    }
    var research := w.Complete(Grok, NewsResearcher, ResearchPrompt(latest.value));
    if research.Rejected? {
      return None;
    }
    var draft := w.Complete(OpenAI, NewsletterWriter, research.value);
    if draft.Rejected? {
      return None;
    }
    var review := w.Complete(Anthropic, NewsletterReviewer, draft.value);
    if review.Rejected? {
      return None;
    }
    texts := Some((draft.value, review.value));
  }

  /** The top level of src/news-producer.ts. */
  method Produce(w: World) returns (ok: bool)
    modifies w
    ensures w.trace == old(w.trace) + NewsRun(w.env).events
    ensures ok == NewsRun(w.env).ok
  {
    var texts := Draft(w);
    if texts.None? {
      return false;
    }
    var scripts := Decode(w.env.parse, texts.value.1, texts.value.0);
    if scripts.None? {
      return false;
    }
    ok := RunScripts(NewsScan, w, Normalize(scripts.value));
  }

  /** The `try { JSON.parse(review) } catch { JSON.parse(scriptText) }` step. */
  method Decode(parse: string -> Option<Decoded>, review: string, draft: string) returns (scripts: Option<Decoded>)
    ensures scripts == DecodeWithFallback(parse, review, draft)
  {
    scripts := parse(review);
    if scripts.None? {
      scripts := parse(draft);
    }
  }

  // ---------------------------------------------------------------------
  // Properties of a run

  /** A reviewed text that decodes is the one processed, whatever the draft. */
  lemma ReviewPreferred(env: Env)
    requires Drafting(env).1.Some? && env.parse(Drafting(env).1.value.1).Some?
    ensures NewsRun(env).events
            == Drafting(env).0.events + LoopSteps(Step(NewsScan, env), Normalize(env.parse(Drafting(env).1.value.1).value)).events
  {
  }

  /** A reviewed text that does not decode falls back to the draft. */
  lemma DraftFallback(env: Env)
    requires Drafting(env).1.Some?
    requires env.parse(Drafting(env).1.value.1).None? && env.parse(Drafting(env).1.value.0).Some?
    ensures NewsRun(env).events
            == Drafting(env).0.events + LoopSteps(Step(NewsScan, env), Normalize(env.parse(Drafting(env).1.value.0).value)).events
  {
  }

  /** When neither text decodes the run fails and no script is processed:
      nothing after the review agent's call. */
  lemma NothingDecodes(env: Env)
    requires Drafting(env).1.Some?
    requires env.parse(Drafting(env).1.value.1).None? && env.parse(Drafting(env).1.value.0).None?
    ensures !NewsRun(env).ok && |NewsRun(env).events| == 4
    ensures NewsRun(env).events[3] == Complete(Anthropic, NewsletterReviewer, Drafting(env).1.value.0)
  {
  }
}
