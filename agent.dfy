/**
 * `Me`: the assistant's identity and context (name, summary, profile text),
 * its system prompt, its tool dispatch and its tool-calling chat loop.
 */
module Agent {
  import opened Wrappers
  import opened Messages
  import opened Tools
  import opened Dispatch
  import opened Conversation

  const OwnerName := "Michael Salami"

  /** Construction refuses to start without a model-API key. */
  datatype ConfigError = MissingApiKey

  /** The text a page contributes: its extracted text, or nothing when there is none. */
  function Extracted(page: Option<string>): string
  {
    match page
    case Some(text) => text
    case None => ""
  }

  /** The profile text: the pages' texts joined in page order (the accumulation of `__init__`). */
  function ProfileText(pages: seq<Option<string>>): string
    decreases |pages|
  {
    if pages == [] then "" else ProfileText(pages[..|pages| - 1]) + Extracted(pages[|pages| - 1])
  }

  /** The pages that have text, in order. */
  function TextPages(pages: seq<Option<string>>): (texts: seq<string>)
    ensures forall t :: t in texts ==> t != ""
  {
    if pages == [] then []
    else
      (match pages[0] case Some(text) => (if text != "" then [text] else []) case None => [])
      + TextPages(pages[1..])
  }

  /** Strings joined with no separator. */
  function Concat(texts: seq<string>): string
  {
    if texts == [] then "" else texts[0] + Concat(texts[1..])
  }

  lemma {:induction false} TextPagesAppend(pages: seq<Option<string>>, page: Option<string>)
    ensures TextPages(pages + [page]) == TextPages(pages) + TextPages([page])
  {
    if pages != [] {
      assert (pages + [page])[1..] == pages[1..] + [page];
      TextPagesAppend(pages[1..], page);
    }
  }

  lemma {:induction false} ConcatAppend(a: seq<string>, b: seq<string>)
    ensures Concat(a + b) == Concat(a) + Concat(b)
  {
    if a == [] {
      assert a + b == b;
    } else {
      assert (a + b)[1..] == a[1..] + b;
      ConcatAppend(a[1..], b);
    }
  }

  /** The profile is the in-order concatenation of the pages that have text; pages without text are skipped. */
  lemma {:induction false} ProfileTextJoinsTextPages(pages: seq<Option<string>>)
    ensures ProfileText(pages) == Concat(TextPages(pages))
  {
    if pages != [] {
      var n := |pages| - 1;
      ProfileTextJoinsTextPages(pages[..n]);
      assert pages[..n] + [pages[n]] == pages;
      TextPagesAppend(pages[..n], pages[n]);
      ConcatAppend(TextPages(pages[..n]), TextPages([pages[n]]));
    }
  }

  /** The introduction's wording; the assistant's name stands between consecutive pieces. */
  const IntroductionPieces: seq<string> := [
    "You are acting as ",
    ". You are answering questions on ",
    "'s website, particularly questions related to ",
    "'s career, background, skills and experience. Your responsibility is to represent ",
    " for interactions on the website as faithfully as possible. You are given a summary of ",
    "'s background and LinkedIn profile which you can use to answer questions. "
    + "Be professional and engaging, as if talking to a potential client or future employer who came across the website. "
    + "If you don't know the answer to any question, use your record_unknown_question tool to record the question that you couldn't answer, even if it's about something trivial or unrelated to career. "
    + "If the user is engaging in discussion, try to steer them towards getting in touch via email; ask for their email and record it using your record_user_details tool. "
  ]

  /** The pieces joined with `name` between each two. */
  function Interleave(pieces: seq<string>, name: string): string
    requires pieces != []
  {
    if |pieces| == 1 then pieces[0] else pieces[0] + name + Interleave(pieces[1..], name)
  }

  /** The fixed part of the prompt that introduces the assistant as `name`. */
  function Introduction(name: string): string
  {
    Interleave(IntroductionPieces, name)
  }

  const SummaryHeading := "\n\n## Summary:\n"
  const ProfileHeading := "\n\n## LinkedIn Profile:\n"

  /** The closing instruction. */
  function Closing(name: string): string
  {
    "\n\nWith this context, please chat with the user, always staying in character as " + name + "."
  }

  /** The prompt layout: the introduction, then the summary and the profile under their headings, then the closing. */
  function Compose(introduction: string, summary: string, profile: string, closing: string): string
  {
    introduction + SummaryHeading + summary + ProfileHeading + profile + closing
  }

  /** The summary and the profile stand verbatim in the prompt, each right after its heading. */
  lemma ComposeEmbedsContext(introduction: string, summary: string, profile: string, closing: string)
    ensures var prompt := Compose(introduction, summary, profile, closing);
      && OccursAt(prompt, introduction + SummaryHeading, 0)
      && OccursAt(prompt, summary, |introduction + SummaryHeading|)
      && OccursAt(prompt, ProfileHeading + profile, |introduction + SummaryHeading + summary|)
      && OccursAt(prompt, closing, |prompt| - |closing|)
  {
  }

  /** The prompt of `me` carries its summary and its profile text verbatim. */
  lemma SystemPromptEmbedsContext(me: Me)
    ensures OccursAt(me.SystemPrompt(), me.summary, |Introduction(me.name) + SummaryHeading|)
    ensures OccursAt(me.SystemPrompt(), ProfileHeading + me.linkedin, |Introduction(me.name) + SummaryHeading + me.summary|)
  {
    ComposeEmbedsContext(Introduction(me.name), me.summary, me.linkedin, Closing(me.name));
  }

  class Me {
    const name: string
    const summary: string
    const linkedin: string
    /** Where `push` sends the recording tools' notifications. */
    const outbox: Outbox

    /** `__init__` after its key check: the fixed name, the profile pages' text, the summary. */
    constructor (pages: seq<Option<string>>, summary: string, outbox: Outbox)
      ensures name == OwnerName && linkedin == ProfileText(pages)
      ensures this.summary == summary && this.outbox == outbox
    {
      name := OwnerName;
      var text := "";
      for i := 0 to |pages|
        invariant text == ProfileText(pages[..i])
      {
        assert pages[..i + 1][..i] == pages[..i];
        var page := pages[i];
        if page.Some? && page.value != "" {
          text := text + page.value;
        }
      }
      assert pages[..|pages|] == pages;
      linkedin := text;
      this.summary := summary;
      this.outbox := outbox;
    }

    /** `Me()`: fails when the API key is unset or empty; otherwise loads the context. */
    static method Create(apiKey: Option<string>, pages: seq<Option<string>>, summary: string, outbox: Outbox)
      returns (r: Result<Me, ConfigError>)
      ensures r.Failure? <==> apiKey == None || apiKey == Some("")
      ensures r.Failure? ==> r.error == MissingApiKey
      ensures r.Success? ==> fresh(r.value) && r.value.name == OwnerName && r.value.linkedin == ProfileText(pages)
      ensures r.Success? ==> r.value.summary == summary && r.value.outbox == outbox
    {
      if apiKey == None || apiKey.value == "" {
        return Failure(MissingApiKey);
      }
      var me := new Me(pages, summary, outbox);
      return Success(me);
    }

    /** `system_prompt`: introduction, summary, profile, closing instruction. */
    function SystemPrompt(): string
    {
      Compose(Introduction(name), summary, linkedin, Closing(name))
    }

    /** The message list a turn starts from: system prompt, the prior history, the new user message. */
    function Opening(history: seq<Message>, message: string): seq<Message>
    {
      [Text(SystemRole, Some(SystemPrompt()))] + history + [Text(UserRole, Some(message))]
    }

    /**
     * `handle_tool_call`: every call resolved and run in order, its
     * notifications pushed, its result message collected; a call that raises
     * aborts the batch with its error.
     */
    method HandleToolCall(calls: seq<ToolCall>) returns (r: Result<seq<Message>, CallError>)
      modifies outbox
      ensures outbox.sent == old(outbox.sent) + RunCalls(Execute, calls).notices
      ensures r == match RunCalls(Execute, calls).error
                   case None => Success(RunCalls(Execute, calls).results)
                   case Some(e) => Failure(e)
    {
      var results := [];
      for i := 0 to |calls|
        invariant RunCalls(Execute, calls[..i]).error == None
        invariant results == RunCalls(Execute, calls[..i]).results
        invariant outbox.sent == old(outbox.sent) + RunCalls(Execute, calls[..i]).notices
      {
        var call := calls[i];
        assert calls[..i + 1][..i] == calls[..i];
        var payload;
        match Resolve(call.name) {
          case Some(tool) =>
            var outcome := Invoke(tool, call.arguments);
            if outcome.Failure? {
              RunCallsErrorPersists(Execute, calls, i + 1);
              return Failure(outcome.error);
            }
            outbox.Push(outcome.value.notices[0]);
            payload := outcome.value.payload;
          case None =>
            payload := EmptyObject;
        }
        results := results + [ToolResult(Dumps(payload), call.id)];
      }
      assert calls[..|calls|] == calls;
      return Success(results);
    }

    /**
     * `chat`: the opening messages, then model calls answered by `script`
     * in order; a "tool_calls" response has its calls run and its message
     * and results appended, any other response ends the turn with its
     * content.
     */
    method Chat(message: string, history: seq<Message>, script: seq<Response>) returns (run: ChatRun)
      modifies outbox
      ensures run == Converse(Execute, Opening(history, message), script)
      ensures outbox.sent == old(outbox.sent) + Notified(Execute, Opening(history, message), script)
      ensures Opening(history, message) <= run.transcript
    {
      run := Loop(Opening(history, message), script);
    }

    /** The loop of `chat`, from the opening messages on. */
    method Loop(opening: seq<Message>, script: seq<Response>) returns (run: ChatRun)
      modifies outbox
      ensures run == Converse(Execute, opening, script)
      ensures outbox.sent == old(outbox.sent) + Notified(Execute, opening, script)
      ensures opening <= run.transcript
    {
      var messages := opening;
      ghost var goal := Converse(Execute, opening, script);
      ghost var finalSent := old(outbox.sent) + Notified(Execute, opening, script);
      ResumeStart(Execute, opening, script, outbox.sent);
      assert script[0..] == script;
      var calls := 0;
      var done := false;
      var reply: Option<string> := None;
      while !done && calls < |script|
        invariant calls <= |script|
        invariant !done ==> Resumes(Execute, goal, finalSent, calls, messages, script[calls..], outbox.sent)
        invariant done ==> 0 < calls && goal == ChatRun(messages, calls - 1, Answered(reply)) && finalSent == outbox.sent
        decreases |script| - calls
      {
        ghost var remaining := script[calls..];
        var response := script[calls];
        assert remaining[0] == response && remaining[1..] == script[calls + 1..];
        if response.finishReason == ToolCallsReason {
          ghost var sent := outbox.sent;
          var results := HandleToolCall(response.completion.toolCalls);
          if results.Failure? {
            ResumeToolFailure(Execute, goal, finalSent, calls, messages, remaining, sent);
            run := ChatRun(messages, calls, ToolFailed(results.error));
            ConverseKeepsPrefix(Execute, opening, script);
            return;
          }
          ResumeToolRound(Execute, goal, finalSent, calls, messages, remaining, sent);
          assert messages + [CompletionMessage(response.completion)] + results.value == messages + Block(Execute, response);
          messages := messages + [CompletionMessage(response.completion)] + results.value;
        } else {
          ResumeAnswer(Execute, goal, finalSent, calls, messages, remaining, outbox.sent);
          done := true;
          reply := response.completion.content;
        }
        calls := calls + 1;
      }
      if done {
        run := ChatRun(messages, calls - 1, Answered(reply));
      } else {
        ResumeExhausted(Execute, goal, finalSent, calls, messages, outbox.sent);
        run := ChatRun(messages, calls, ScriptExhausted);
      }
      ConverseKeepsPrefix(Execute, opening, script);
    }
  }
}
