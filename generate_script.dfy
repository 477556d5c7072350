/** The topic pipeline (src/generate-script.ts): check the topic argument,
    have three agents research, write and review scripts on it, decode the
    review with no fallback, then run every decoded script through the
    shared per-script loop, with thumbnails. */
module GenerateScript {
  import opened Wrappers
  import opened Types
  import opened Effects
  import opened Pipeline

  const TopicLabel: string := "Tópico: "
  const ContextRequest: string := "\n\n Utilize o seguinte contexto para escrever um roteiro de vídeo:\n\n"

  /** The researcher's prompt. */
  function ResearchPrompt(topic: string): string {
    TopicLabel + topic
  }

  /** The writer's prompt: the topic, then the research as context. */
  function WriterPrompt(topic: string, research: string): string {
    TopicLabel + topic + ContextRequest + research
  }

  /** The agent calls before decoding, for a topic that is set, stopping at
      the first rejection; the `Some` part is the review when all resolved. */
  function Drafting(env: Env, topic: string): (Run, Option<string>) {
    var prompt := ResearchPrompt(topic);
    var research := env.complete(Gemini, Researcher, prompt);
    var e1 := [Complete(Gemini, Researcher, prompt)];
    if research.Rejected? then (Run(e1, false), None)
    else
      var writerPrompt := WriterPrompt(topic, research.value);
      var draft := env.complete(OpenAI, ScriptWriter, writerPrompt);
      var e2 := e1 + [Complete(OpenAI, ScriptWriter, writerPrompt)];
      if draft.Rejected? then (Run(e2, false), None)
      else
        var review := env.complete(Anthropic, ScriptReviewer, draft.value);
        var e3 := e2 + [Complete(Anthropic, ScriptReviewer, draft.value)];
        if review.Rejected? then (Run(e3, false), None)
        else (Run(e3, true), Some(review.value))
  }

  /** What one run of src/generate-script.ts does with the first command-line
      argument `topic` (`None` when absent). */
  function TopicRun(env: Env, topic: Option<string>): Run {
    if !Truthy(topic) then Run([Exit(1)], false)
    else
      var (agents, review) := Drafting(env, topic.value);
      if review.None? then agents
      else
        var decoded := env.parse(review.value);
        if decoded.None? then Run(agents.events, false)
        else
          var loop := LoopSteps(Step(TopicDriven, env), Normalize(decoded.value));
          Run(agents.events + loop.events, loop.ok)
  }

  /** The three agent calls that precede decoding. */
  method Draft(w: World, topic: string) returns (review: Option<string>)
    modifies w
    ensures review == Drafting(w.env, topic).1
    ensures w.trace == old(w.trace) + Drafting(w.env, topic).0.events
  {
    var research := w.Complete(Gemini, Researcher, ResearchPrompt(topic));
    if research.Rejected? {
      return None;
    }
    var draft := w.Complete(OpenAI, ScriptWriter, WriterPrompt(topic, research.value));
    if draft.Rejected? {
      return None;
    }
    var reviewed := w.Complete(Anthropic, ScriptReviewer, draft.value);
    if reviewed.Rejected? {
      return None;
    }
    review := Some(reviewed.value);
  }

  /** The top level of src/generate-script.ts. */
  method Generate(w: World, topic: Option<string>) returns (ok: bool)
    modifies w
    ensures w.trace == old(w.trace) + TopicRun(w.env, topic).events
    ensures ok == TopicRun(w.env, topic).ok
  {
    if topic.None? || topic.value == "" {
      w.Exit(1);
      return false;
    }
    var review := Draft(w, topic.value);
    if review.None? {
      return false;
    }
    var scripts := w.env.parse(review.value);
    if scripts.None? {
      return false;
    }
    ok := RunScripts(TopicDriven, w, Normalize(scripts.value));
  }

  // ---------------------------------------------------------------------
  // Properties of a run

  /** A missing or empty topic exits with status 1 before any agent call. */
  lemma MissingTopicExits(env: Env, topic: Option<string>)
    ensures !Truthy(topic) <==> TopicRun(env, topic) == Run([Exit(1)], false)
  {
    if Truthy(topic) {
      var (agents, review) := Drafting(env, topic.value);
      DraftingOpens(env, topic.value);
      var run := TopicRun(env, topic);
      if review.Some? && env.parse(review.value).Some? {
        var loop := LoopSteps(Step(TopicDriven, env), Normalize(env.parse(review.value).value));
        assert run.events == agents.events + loop.events;
      } else {
        assert run.events == agents.events;
      }
      assert run.events[0] == agents.events[0];
    }
  }

  /** Every run with a topic starts with the researcher's call. */
  lemma DraftingOpens(env: Env, topic: string)
    ensures var events := Drafting(env, topic).0.events;
      events != [] && events[0] == Complete(Gemini, Researcher, ResearchPrompt(topic))
  {
  }

  /** The reviewed text is decoded with no fallback: when it does not decode
      the run fails with no script processed, the draft unused. */
  lemma StrictDecode(env: Env, topic: string)
    requires topic != "" && Drafting(env, topic).1.Some?
    requires env.parse(Drafting(env, topic).1.value).None?
    ensures TopicRun(env, Some(topic)) == Run(Drafting(env, topic).0.events, false)
    ensures |TopicRun(env, Some(topic)).events| == 3
  {
  }
}
