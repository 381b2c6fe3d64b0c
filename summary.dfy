// `SummaryGenerator.generate_summary`: a guard, a truncation, one call to the
// chat-completion model (abstract here) and a fallback to the transcript.

module Summary {
  import opened Common

  /** What the chat-completion call yields: an exception, or the response's
      choices, each with its (possibly absent) message content. */
  datatype LlmReply = ApiError | Reply(choices: seq<Option<string>>)

  /** The model, as a function of the user prompt (the system prompt, model
      name and token limit are fixed). */
  type Llm = string -> LlmReply

  /** The most transcript text sent to the model. */
  const MaxPromptText: nat := 4000

  const PromptHead: string := "Summarize the following:\n\n"

  /** The transcript text sent to the model: stripped, then cut to its first
      4000 characters. */
  function SentText(transcript: Option<string>): (r: string)
    ensures r <= Stripped(transcript)
    ensures |r| == Min(|Stripped(transcript)|, MaxPromptText)
  {
    var text := Stripped(transcript);
    if |text| > MaxPromptText then text[..MaxPromptText] else text
  }

  /** `(transcript or "").strip()` */
  function Stripped(transcript: Option<string>): string
  {
    if transcript.Some? then Strip(transcript.value) else ""
  }

  function UserPrompt(text: string): string
  {
    PromptHead + text
  }

  /** `response.choices[0].message.content if response.choices else None` */
  function Completion(reply: LlmReply): Option<string>
  {
    if reply.Reply? && reply.choices != [] then reply.choices[0] else None
  }

  /** `generate_summary`: "" for a blank transcript; otherwise the model's
      non-empty completion, stripped, or else the stripped transcript. */
  function GenerateSummary(transcript: Option<string>, llm: Llm): (r: string)
    ensures Stripped(transcript) == "" ==> r == ""
    ensures var c := Completion(llm(UserPrompt(SentText(transcript))));
            r == Stripped(transcript) || (c.Some? && c.value != "" && r == Strip(c.value))
    ensures var c := Completion(llm(UserPrompt(SentText(transcript))));
            c.None? || c == Some("") ==> r == Stripped(transcript)
  {
    var text := Stripped(transcript);
    if text == "" then ""
    else
      var completion := Completion(llm(UserPrompt(SentText(transcript))));
      if completion.Some? && completion.value != "" then Strip(completion.value)
      else text
  }

  /** A blank or absent transcript summarises to "", whatever the model would
      say: the model is not consulted. */
  lemma BlankTranscript(transcript: Option<string>, llm1: Llm, llm2: Llm)
    requires transcript.None? || AllSpace(transcript.value)
    ensures GenerateSummary(transcript, llm1) == GenerateSummary(transcript, llm2) == ""
  {
    if transcript.Some? {
      StripEmptyIffAllSpace(transcript.value);
    }
  }

  /** The model sees only the prompt built from the cut text: two models that
      answer that prompt alike give the same summary. */
  lemma OnlyThePromptMatters(transcript: Option<string>, llm1: Llm, llm2: Llm)
    requires llm1(UserPrompt(SentText(transcript))) == llm2(UserPrompt(SentText(transcript)))
    ensures GenerateSummary(transcript, llm1) == GenerateSummary(transcript, llm2)
  {
  }

  /** A non-empty completion is the summary, stripped. */
  lemma CompletionIsSummary(transcript: Option<string>, llm: Llm, c: string)
    requires Stripped(transcript) != ""
    requires c != "" && Completion(llm(UserPrompt(SentText(transcript)))) == Some(c)
    ensures GenerateSummary(transcript, llm) == Strip(c)
  {
  }

  /** An API error, no choices or an empty completion fall back to the whole
      stripped transcript, not the cut one; no error escapes. */
  lemma FallbackIsWholeTranscript(transcript: Option<string>, llm: Llm)
    requires Completion(llm(UserPrompt(SentText(transcript)))) in {None, Some("")}
    ensures GenerateSummary(transcript, llm) == Stripped(transcript)
    ensures |Stripped(transcript)| > MaxPromptText ==> |GenerateSummary(transcript, llm)| > |SentText(transcript)|
  {
  }

  /** A long transcript is cut at 4000 characters before the model sees it. */
  lemma LongTranscriptIsCut(transcript: Option<string>)
    requires |Stripped(transcript)| > MaxPromptText
    ensures SentText(transcript) == Stripped(transcript)[..4000]
  {
  }
}
