/**
 * The two LLM round trips: the provider is an oracle answering each attempt at
 * a prompt with text or an exception; `json.loads` and `json.dumps` are
 * oracles too. What is modelled exactly is the fence stripping, the error
 * dictionaries, the five-attempt retry and the prompt's raw-text section.
 */
module LlmService {
  import opened Wrappers
  import opened PyStr
  import opened Values

  // ---------------------------------------------------------------- parsing

  /** The outcome of `json.loads`: a value, a `JSONDecodeError`, or any other exception. */
  datatype DecodeOutcome = Decoded(value: Value) | DecodeError(message: string) | OtherDecodeError(message: string)

  type Decoder = string -> DecodeOutcome

  /** The text handed to `json.loads`: a leading "```json" or "```" fence and the last three characters are cut off. */
  function StripFences(output: string): string
  {
    var trimmed := Strip(output);
    if StartsWith(trimmed, "```json") then Strip(SliceDropLast(trimmed, 7, 3))
    else if StartsWith(trimmed, "```") then Strip(SliceDropLast(trimmed, 3, 3))
    else output
  }

  /** `parse_llm_json_output`: never raises; a failed decode becomes an error dictionary holding the text it tried. */
  function ParseLlmJsonOutput(loads: Decoder, output: string): (r: Value)
    ensures loads(StripFences(output)).Decoded? ==> r == loads(StripFences(output)).value
    ensures loads(StripFences(output)).DecodeError? ==>
              r == VDict(map["error" := VStr("Failed to parse LLM output"),
                             "details" := VStr(loads(StripFences(output)).message),
                             "raw_output" := VStr(StripFences(output))])
    ensures loads(StripFences(output)).OtherDecodeError? ==>
              r == VDict(map["error" := VStr("Unexpected error parsing LLM output"),
                             "details" := VStr(loads(StripFences(output)).message),
                             "raw_output" := VStr(StripFences(output))])
  {
    var text := StripFences(output);
    match loads(text)
    case Decoded(v) => v
    case DecodeError(msg) =>
      VDict(map["error" := VStr("Failed to parse LLM output"), "details" := VStr(msg), "raw_output" := VStr(text)])
    case OtherDecodeError(msg) =>
      VDict(map["error" := VStr("Unexpected error parsing LLM output"), "details" := VStr(msg), "raw_output" := VStr(text)])
  }

  lemma {:induction false} TrimLeftSpaces(w: string, x: string)
    requires AllSpace(w)
    ensures TrimLeft(w + x) == TrimLeft(x)
    decreases |w|
  {
    if w != [] {
      assert (w + x)[0] == w[0];
      assert (w + x)[1..] == w[1..] + x;
      TrimLeftSpaces(w[1..], x);
    } else {
      assert w + x == x;
    }
  }

  lemma {:induction false} TrimRightSpaces(x: string, w: string)
    requires AllSpace(w)
    ensures TrimRight(x + w) == TrimRight(x)
    decreases |w|
  {
    if w != [] {
      var n := |w| - 1;
      assert (x + w)[|x + w| - 1] == w[n];
      assert (x + w)[..|x + w| - 1] == x + w[..n];
      TrimRightSpaces(x, w[..n]);
    } else {
      assert x + w == x;
    }
  }

  /** Trailing whitespace does not change what `strip` keeps. */
  lemma {:induction false} StripTrailingSpaces(x: string, w: string)
    requires AllSpace(w)
    ensures Strip(x + w) == Strip(x)
    decreases |x|
  {
    if x == [] {
      assert x + w == w;
      TrimLeftSpaces(w, "");
      assert w + "" == w;
    } else if IsSpace(x[0]) {
      assert (x + w)[1..] == x[1..] + w;
      StripTrailingSpaces(x[1..], w);
    } else {
      TrimRightSpaces(x, w);
    }
  }

  /** Surrounding whitespace does not change what `strip` keeps. */
  lemma StripSurroundingSpaces(w1: string, x: string, w2: string)
    requires AllSpace(w1) && AllSpace(w2)
    ensures Strip(w1 + x + w2) == Strip(x)
  {
    TrimLeftSpaces(w1, x + w2);
    assert w1 + x + w2 == w1 + (x + w2);
    StripTrailingSpaces(x, w2);
  }

  /** A string that neither starts nor ends with whitespace is its own `strip`. */
  lemma StripNoOuterSpace(s: string)
    requires s != [] && !IsSpace(s[0]) && !IsSpace(s[|s| - 1])
    ensures Strip(s) == s
  {
  }

  /** The "```json" branch of `StripFences`. */
  lemma JsonFenceBranch(output: string)
    requires StartsWith(Strip(output), "```json")
    ensures StripFences(output) == Strip(SliceDropLast(Strip(output), 7, 3))
  {
  }

  /** The generic "```" branch of `StripFences`. */
  lemma GenericFenceBranch(output: string)
    requires !StartsWith(Strip(output), "```json") && StartsWith(Strip(output), "```")
    ensures StripFences(output) == Strip(SliceDropLast(Strip(output), 3, 3))
  {
  }

  /**
   * Round trip: JSON text wrapped as "```json\n" + t + "\n```" reaches
   * `json.loads` as `t.strip()`, so a decoder that ignores surrounding
   * whitespace (as `json.loads` does) parses it exactly as it parses `t`.
   */
  lemma FencedRoundTrip(loads: Decoder, t: string)
    requires loads(t).Decoded? && loads(Strip(t)) == loads(t)
    requires !StartsWith(Strip(t), "```")
    ensures StripFences("```json\n" + t + "\n```") == Strip(t)
    ensures ParseLlmJsonOutput(loads, "```json\n" + t + "\n```") == ParseLlmJsonOutput(loads, t)
  {
    var open, close := "```json\n", "\n```";
    var s := open + t + close;
    assert s[0] == '`' && s[|s| - 1] == '`';
    StripNoOuterSpace(s);
    assert s[..7] == "```json";
    JsonFenceBranch(s);
    assert s[7..|s| - 3] == "\n" + t + "\n";
    assert AllSpace("\n");
    StripSurroundingSpaces("\n", t, "\n");
    assert !StartsWith(Strip(t), "```json");
    assert StripFences(t) == t;
    assert StripFences(s) == Strip(t);
  }

  /**
   * Once an opening "```json" is seen, the last three characters are dropped
   * whether or not they close the fence: an unclosed block loses the end of its JSON.
   */
  lemma ClosingFenceNotChecked(t: string)
    requires |t| >= 3 && !IsSpace(t[|t| - 1])
    ensures StripFences("```json" + t) == Strip(t[..|t| - 3])
  {
    var s := "```json" + t;
    assert s[0] == '`';
    StripNoOuterSpace(s);
    assert s[..7] == "```json";
    JsonFenceBranch(s);
    assert s[7..|s| - 3] == t[..|t| - 3];
  }

  /** An upper-case "```JSON" fence takes the generic branch, so the text keeps its "JSON" tag. */
  lemma UpperCaseTagKept(t: string)
    requires |t| >= 3 && !IsSpace(t[|t| - 1])
    ensures StripFences("```JSON" + t) == Strip(("JSON" + t)[..|t| + 1])
    ensures StartsWith(StripFences("```JSON" + t), "JSON")
  {
    var s := "```JSON" + t;
    assert s[0] == '`';
    StripNoOuterSpace(s);
    assert s[3] == 'J' && "```json"[3] == 'j';
    assert s[..3] == "```";
    GenericFenceBranch(s);
    var u := ("JSON" + t)[..|t| + 1];
    assert s[3..|s| - 3] == u;
    assert u[0] == 'J' && u[3] == 'N';
    var r := TrimRight(TrimLeft(u));
    assert TrimLeft(u) == u;
    TrimRightShape(u);
    assert r[..4] == u[..4] == "JSON";
  }

  // ---------------------------------------------------------------- retry

  datatype ErrorKind = ResourceExhausted | TooManyRequests | OtherError

  /** An exception raised by the provider; `message` is its `str(e)`. */
  datatype ProviderError = ProviderError(kind: ErrorKind, message: string)

  datatype Attempt = Answer(text: string) | Raise(error: ProviderError)

  /** The parameters of the two prompt templates. */
  datatype Prompt =
    | ExtractionPrompt(resumeText: string)
    | AnalysisPrompt(extractedDataJson: string, rawTextSection: string)

  /** The provider's behaviour: its outcome on the n-th attempt (from 1) at a prompt. */
  type Provider = (Prompt, nat) -> Attempt

  const MaxAttempts: nat := 5
  const MinWait: nat := 4
  const MaxWait: nat := 60

  function Pow2(n: nat): nat
  {
    if n == 0 then 1 else 2 * Pow2(n - 1)
  }

  /** `wait_exponential(multiplier=1, min=4, max=60)` after the given failed attempt. */
  function Backoff(attempt: nat): (w: nat)
    requires attempt >= 1
    ensures MinWait <= w <= MaxWait
  {
    var raw := Pow2(attempt - 1);
    if raw < MinWait then MinWait else if raw > MaxWait then MaxWait else raw
  }

  datatype RetryResult = Returned(text: string) | Reraised(error: ProviderError)

  /** Attempts `from`, `from + 1`, ... until one answers or the fifth has raised; with the number of the last attempt made. */
  function RetryFrom(provider: Provider, prompt: Prompt, from: nat): (RetryResult, nat)
    requires 1 <= from <= MaxAttempts
    decreases MaxAttempts - from
  {
    match provider(prompt, from)
    case Answer(t) => (Returned(t), from)
    case Raise(e) => if from == MaxAttempts then (Reraised(e), from) else RetryFrom(provider, prompt, from + 1)
  }

  function Retry(provider: Provider, prompt: Prompt): (RetryResult, nat)
  {
    RetryFrom(provider, prompt, 1)
  }

  /** Every attempt before `n` raised. */
  predicate FailedBefore(provider: Provider, prompt: Prompt, n: nat)
  {
    forall k :: 1 <= k < n ==> provider(prompt, k).Raise?
  }

  /**
   * At most five calls; the first answer is returned; after five exceptions of
   * any kind the last one is re-raised.
   */
  lemma {:induction false} RetryContract(provider: Provider, prompt: Prompt, from: nat)
    requires 1 <= from <= MaxAttempts
    requires FailedBefore(provider, prompt, from)
    ensures var (res, calls) := RetryFrom(provider, prompt, from);
      from <= calls <= MaxAttempts && FailedBefore(provider, prompt, calls) &&
      (res.Returned? <==> provider(prompt, calls).Answer?) &&
      (res.Returned? ==> res.text == provider(prompt, calls).text) &&
      (res.Reraised? ==> calls == MaxAttempts && res.error == provider(prompt, MaxAttempts).error)
    decreases MaxAttempts - from
  {
    if provider(prompt, from).Raise? && from < MaxAttempts {
      RetryContract(provider, prompt, from + 1);
    }
  }

  /** `_invoke_llm_chain_with_retry`: the attempt loop, with the back-off waits it sleeps between attempts. */
  method InvokeWithRetry(provider: Provider, prompt: Prompt) returns (res: RetryResult, calls: nat, waits: seq<nat>)
    ensures (res, calls) == Retry(provider, prompt)
    ensures 1 <= calls <= MaxAttempts && |waits| == calls - 1
    ensures forall i :: 0 <= i < |waits| ==> waits[i] == Backoff(i + 1) && MinWait <= waits[i] <= MaxWait
  {
    calls := 1;
    waits := [];
    var outcome := provider(prompt, 1);
    while outcome.Raise? && calls < MaxAttempts
      invariant 1 <= calls <= MaxAttempts && |waits| == calls - 1
      invariant outcome == provider(prompt, calls)
      invariant RetryFrom(provider, prompt, calls) == Retry(provider, prompt)
      invariant forall i :: 0 <= i < |waits| ==> waits[i] == Backoff(i + 1)
      decreases MaxAttempts - calls
    {
      waits := waits + [Backoff(calls)];
      calls := calls + 1;
      outcome := provider(prompt, calls);
    }
    res := if outcome.Answer? then Returned(outcome.text) else Reraised(outcome.error);
  }

  /** Before the third attempt the wait has grown to 4 s, and before the fifth to 8 s. */
  lemma BackoffSchedule()
    ensures Backoff(1) == 4 && Backoff(2) == 4 && Backoff(3) == 4 && Backoff(4) == 8
  {
    assert Pow2(3) == 8;
  }

  // ---------------------------------------------------------------- extraction and analysis

  /** The LLM client: whether it was initialised, and the oracles it stands for. */
  datatype Llm = Llm(initialised: bool, provider: Provider, loads: Decoder, dumps: Value -> string)

  const NotInitialised := VDict(map["error" := VStr("LLM not initialized")])

  /** What a call that has exhausted its retries returns. */
  function InvocationError(e: ProviderError, rateLimited: string, failed: string): Value
  {
    if e.kind == ResourceExhausted then ErrorDict(rateLimited, e.message) else ErrorDict(failed, e.message)
  }

  /** `extract_resume_data_from_text`, with the number of provider calls it made. */
  function Extraction(llm: Llm, resumeText: string): (Value, nat)
  {
    if !llm.initialised then (NotInitialised, 0)
    else
      var (res, calls) := Retry(llm.provider, ExtractionPrompt(resumeText));
      match res
      case Returned(t) => (ParseLlmJsonOutput(llm.loads, t), calls)
      case Reraised(e) => (InvocationError(e, "LLM rate limit exceeded", "LLM chain invocation failed for extraction"), calls)
  }

  method ExtractResumeDataFromText(llm: Llm, resumeText: string) returns (r: Value, calls: nat)
    ensures (r, calls) == Extraction(llm, resumeText)
    ensures !llm.initialised ==> r == NotInitialised && calls == 0
    ensures llm.initialised ==> 1 <= calls <= MaxAttempts
  {
    if !llm.initialised {
      return NotInitialised, 0;
    }
    var res, waits;
    res, calls, waits := InvokeWithRetry(llm.provider, ExtractionPrompt(resumeText));
    match res
    case Returned(t) =>
      r := ParseLlmJsonOutput(llm.loads, t);
    case Reraised(e) =>
      r := InvocationError(e, "LLM rate limit exceeded", "LLM chain invocation failed for extraction");
  }

  const RawTextHeader := "Full Resume Text (for context):\n```text\n"

  /** The prompt's optional section carrying the whole resume text. */
  function RawTextSection(rawResumeText: Option<string>): (section: string)
    ensures section == "" <==> rawResumeText.None? || rawResumeText.value == ""
    ensures section != "" ==>
      StartsWith(section, RawTextHeader) &&
      |section| == |RawTextHeader| + |rawResumeText.value| + 4 &&
      section[|RawTextHeader|..|section| - 4] == rawResumeText.value &&
      section[|section| - 4..] == "\n```"
  {
    if rawResumeText.Some? && rawResumeText.value != "" then RawTextHeader + rawResumeText.value + "\n```" else ""
  }

  function AnalysisPromptFor(llm: Llm, extracted: Value, rawResumeText: Option<string>): Prompt
  {
    AnalysisPrompt(llm.dumps(extracted), RawTextSection(rawResumeText))
  }

  /** `analyze_resume_content`, with the number of provider calls it made. */
  function Analysis(llm: Llm, extracted: Value, rawResumeText: Option<string>): (Value, nat)
  {
    if !llm.initialised then (NotInitialised, 0)
    else
      var (res, calls) := Retry(llm.provider, AnalysisPromptFor(llm, extracted, rawResumeText));
      match res
      case Returned(t) => (ParseLlmJsonOutput(llm.loads, t), calls)
      case Reraised(e) => (InvocationError(e, "LLM rate limit exceeded for analysis", "LLM chain invocation failed for analysis"), calls)
  }

  method AnalyzeResumeContent(llm: Llm, extracted: Value, rawResumeText: Option<string>) returns (r: Value, calls: nat)
    ensures (r, calls) == Analysis(llm, extracted, rawResumeText)
    ensures !llm.initialised ==> r == NotInitialised && calls == 0
    ensures llm.initialised ==> 1 <= calls <= MaxAttempts
  {
    if !llm.initialised {
      return NotInitialised, 0;
    }
    var res, waits;
    res, calls, waits := InvokeWithRetry(llm.provider, AnalysisPromptFor(llm, extracted, rawResumeText));
    match res
    case Returned(t) =>
      r := ParseLlmJsonOutput(llm.loads, t);
    case Reraised(e) =>
      r := InvocationError(e, "LLM rate limit exceeded for analysis", "LLM chain invocation failed for analysis");
  }

  /**
   * Error classification: five `ResourceExhausted` in a row give the rate-limit
   * error; five failures ending in any other kind, `TooManyRequests` included,
   * give the generic one.
   */
  lemma ExtractionErrorKinds(llm: Llm, resumeText: string)
    requires llm.initialised
    requires forall n :: 1 <= n <= MaxAttempts ==> llm.provider(ExtractionPrompt(resumeText), n).Raise?
    ensures var e := llm.provider(ExtractionPrompt(resumeText), MaxAttempts).error;
      Extraction(llm, resumeText) ==
        (if e.kind == ResourceExhausted then ErrorDict("LLM rate limit exceeded", e.message)
         else ErrorDict("LLM chain invocation failed for extraction", e.message), MaxAttempts)
  {
    RetryContract(llm.provider, ExtractionPrompt(resumeText), 1);
  }

  /** The same classification for the analysis call, with its own messages. */
  lemma AnalysisErrorKinds(llm: Llm, extracted: Value, rawResumeText: Option<string>)
    requires llm.initialised
    requires forall n :: 1 <= n <= MaxAttempts ==> llm.provider(AnalysisPromptFor(llm, extracted, rawResumeText), n).Raise?
    ensures var e := llm.provider(AnalysisPromptFor(llm, extracted, rawResumeText), MaxAttempts).error;
      Analysis(llm, extracted, rawResumeText) ==
        (if e.kind == ResourceExhausted then ErrorDict("LLM rate limit exceeded for analysis", e.message)
         else ErrorDict("LLM chain invocation failed for analysis", e.message), MaxAttempts)
  {
    RetryContract(llm.provider, AnalysisPromptFor(llm, extracted, rawResumeText), 1);
  }

  /** A provider that fails four times and then answers is called exactly five times, and its answer is parsed. */
  lemma FifthAttemptAnswers(llm: Llm, resumeText: string)
    requires llm.initialised
    requires forall n :: 1 <= n < MaxAttempts ==> llm.provider(ExtractionPrompt(resumeText), n).Raise?
    requires llm.provider(ExtractionPrompt(resumeText), MaxAttempts).Answer?
    ensures Extraction(llm, resumeText) ==
      (ParseLlmJsonOutput(llm.loads, llm.provider(ExtractionPrompt(resumeText), MaxAttempts).text), MaxAttempts)
  {
    RetryContract(llm.provider, ExtractionPrompt(resumeText), 1);
  }
}
