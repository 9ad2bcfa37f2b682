/**
 * The voice-driven field collector. Speech output is an always-successful
 * `Speak` that appends to a log of utterances; speech recognition is a script
 * of outcomes, one consumed by each `Listen`.
 */
module Voice {
  import opened Promises
  import opened Text

  /** A template field descriptor. An absent attribute is the empty string (both are falsy). */
  datatype Field = Field(name: string, prompt: string, fieldType: string)

  /** What collecting one field gives: a transcript, the `'ABORT'` signal, or `null`. */
  datatype FieldResult = Collected(transcript: string) | Abort | NotCollected

  const AbortKeywords: seq<string> := ["stop", "quit", "exit", "cancel", "abort"]
  const DefaultMaxRetries: nat := 3
  const NotProvided: string := "Not provided"

  const CancelledNotice: string := "Data collection cancelled"
  const RepeatPrompt: string := "I didn't catch that. Please repeat."
  const IntroNotice: string := "Please answer the following questions. You can say stop or quit at any time to cancel."
  const CompleteNotice: string := "Thank you. Data collection complete."

  function InvalidPrompt(fieldType: string): string {
    "Invalid " + fieldType + ". Please try again."
  }

  /** The prompt spoken for a field, with its default. */
  function FieldPrompt(f: Field): string {
    if f.prompt != "" then f.prompt
    else "Please provide " + (if f.name != "" then f.name else "unknown")
  }

  /** The declared type of a field, `string` when absent. */
  function FieldTypeOf(f: Field): string {
    if f.fieldType != "" then f.fieldType else "string"
  }

  lemma KeywordsAreSolid()
    ensures forall k :: k in AbortKeywords ==> Solid(k)
  {
    LowerWordIsSolid("stop");
    LowerWordIsSolid("quit");
    LowerWordIsSolid("exit");
    LowerWordIsSolid("cancel");
    LowerWordIsSolid("abort");
  }

  /** The lower-cased text contains an abort keyword somewhere. */
  ghost predicate MentionsAbortWord(text: string) {
    exists k :: k in AbortKeywords && Occurs(ToLower(text), k)
  }

  /** Some character is not whitespace. */
  ghost predicate NonBlank(s: string) {
    exists i :: 0 <= i < |s| && !IsWhitespace(s[i])
  }

  /** Some character is a digit. */
  ghost predicate HasDigit(s: string) {
    exists i :: 0 <= i < |s| && IsDigit(s[i])
  }

  /** `keywords.some(keyword => text.includes(keyword))`. */
  function SomeIncluded(text: string, keywords: seq<string>): bool {
    keywords != [] && (Includes(text, keywords[0]) || SomeIncluded(text, keywords[1..]))
  }

  /** Does a transcript ask to cancel? */
  function IsAbortCommand(text: string): bool {
    if text == "" then false
    else
      var textLower := Trim(ToLower(text));
      SomeIncluded(textLower, AbortKeywords)
  }

  lemma {:induction false} SomeIncludedSpec(text: string, keywords: seq<string>)
    ensures SomeIncluded(text, keywords) <==> exists k :: k in keywords && Includes(text, k)
  {
    if keywords != [] {
      SomeIncludedSpec(text, keywords[1..]);
      if Includes(text, keywords[0]) {
        assert keywords[0] in keywords;
      } else if k :| k in keywords && Includes(text, k) {
        assert k != keywords[0];
        assert k in keywords[1..];
      }
    }
  }

  /**
   * A non-empty transcript aborts exactly when its lower-cased form contains
   * one of the keywords anywhere, even inside another word; the empty one
   * never does.
   */
  lemma IsAbortCommandSpec(text: string)
    ensures IsAbortCommand(text) <==> text != "" && MentionsAbortWord(text)
  {
    if text != "" {
      var lower := ToLower(text);
      SomeIncludedSpec(Trim(lower), AbortKeywords);
      KeywordsAreSolid();
      forall k | k in AbortKeywords ensures Includes(Trim(lower), k) <==> Occurs(lower, k) {
        IncludesIgnoresTrim(lower, k);
        IncludesIsOccurs(lower, k);
      }
    }
  }

  /** `response.trim()` is empty for empty or whitespace-only input. */
  lemma TrimBlank(response: string)
    ensures Trim(response) == "" <==> !NonBlank(response)
  {
    TrimEmptyIffWhitespace(response);
  }

  /**
   * Does a transcript fit the field type? Whitespace-only text never does; an
   * `integer` needs some digit; any other type accepts every non-blank text.
   */
  function ValidateResponse(response: string, fieldType: string): bool {
    if response == "" || Trim(response) == "" then false
    else if fieldType == "integer" then TestDigits(response)
    else if fieldType == "string" then |response| > 0
    else true
  }

  lemma ValidateResponseSpec(response: string, fieldType: string)
    ensures ValidateResponse(response, fieldType) <==>
              NonBlank(response) && (fieldType == "integer" ==> HasDigit(response))
  {
    TrimBlank(response);
    MatchDigitsSpec(response);
  }

  /** The next outcome the recogniser delivers; an exhausted script behaves as a rejection. */
  function NextOutcome(script: seq<Settled<string>>): Settled<string> {
    if script == [] then Rejected else script[0]
  }

  /** The script after `n` listens. */
  function Advance(script: seq<Settled<string>>, n: nat): seq<Settled<string>> {
    if n >= |script| then [] else script[n..]
  }

  /** The outcome of the listen numbered `k` (from 0). */
  function OutcomeAt(script: seq<Settled<string>>, k: nat): Settled<string> {
    NextOutcome(Advance(script, k))
  }

  lemma AdvanceTwice(script: seq<Settled<string>>, m: nat, n: nat)
    ensures Advance(Advance(script, m), n) == Advance(script, m + n)
  {
  }

  /** The listen numbered `j` after one listen is the listen numbered `j + 1`. */
  lemma OutcomeAtShift(script: seq<Settled<string>>, j: nat)
    ensures OutcomeAt(Advance(script, 1), j) == OutcomeAt(script, j + 1)
  {
    AdvanceTwice(script, 1, j);
  }

  /** A failed first listen followed by `n` failed listens is `n + 1` failed listens. */
  lemma ShiftFailures(judge: Settled<string> -> FieldResult, script: seq<Settled<string>>, n: nat)
    requires judge(OutcomeAt(script, 0)).NotCollected?
    requires forall j :: 0 <= j < n ==> judge(OutcomeAt(Advance(script, 1), j)).NotCollected?
    ensures forall j :: 0 <= j < n + 1 ==> judge(OutcomeAt(script, j)).NotCollected?
  {
    forall j | 0 < j < n + 1 ensures judge(OutcomeAt(script, j)).NotCollected? {
      OutcomeAtShift(script, j - 1);
    }
  }

  /** What a run of attempts amounts to: its result, how many listens it made, what it said. */
  datatype FieldRun = FieldRun(result: FieldResult, listens: nat, speech: seq<string>)

  /** A run that was preceded by `listens` listens and the utterances `speech`. */
  function After(listens: nat, speech: seq<string>, run: FieldRun): FieldRun {
    FieldRun(run.result, listens + run.listens, speech + run.speech)
  }

  lemma AfterAfter(m: nat, s: seq<string>, n: nat, t: seq<string>, run: FieldRun)
    ensures After(m, s, After(n, t, run)) == After(m + n, s + t, run)
  {
    assert s + (t + run.speech) == (s + t) + run.speech;
  }

  /** How one heard outcome ends an attempt: the abort check comes before validation. */
  function Judge(o: Settled<string>, fieldType: string): FieldResult {
    if o.Resolved? && IsAbortCommand(o.value) then Abort
    else if o.Resolved? && ValidateResponse(o.value, fieldType) then Collected(o.value)
    else NotCollected
  }

  /** `Judge` for one field type, as a value the attempt loop can be stated over. */
  function JudgeFor(fieldType: string): Settled<string> -> FieldResult {
    o => Judge(o, fieldType)
  }

  /**
   * An attempt ends the field with `'ABORT'` exactly when it heard an abort
   * word, and with a value exactly when it heard a transcript that is no
   * abort command and validates; that value is the transcript unchanged.
   */
  lemma JudgeSpec(o: Settled<string>, fieldType: string)
    ensures Judge(o, fieldType).Abort? <==> o.Resolved? && o.value != "" && MentionsAbortWord(o.value)
    ensures Judge(o, fieldType).Collected? <==>
              && o.Resolved? && !(o.value != "" && MentionsAbortWord(o.value))
              && NonBlank(o.value) && (fieldType == "integer" ==> HasDigit(o.value))
    ensures Judge(o, fieldType).Collected? ==> Judge(o, fieldType).transcript == o.value
  {
    if o.Resolved? {
      IsAbortCommandSpec(o.value);
      ValidateResponseSpec(o.value, fieldType);
    }
  }

  /** The correction for a failed attempt: a request to repeat after a recogniser error, the type hint after a transcript. */
  function CorrectionFor(o: Settled<string>, fieldType: string): string {
    if o.Rejected? then RepeatPrompt else InvalidPrompt(fieldType)
  }

  /** The correction spoken after a failed attempt, only when another attempt follows. */
  function Correction(o: Settled<string>, fieldType: string, attempt: nat, maxRetries: nat): seq<string> {
    if attempt < maxRetries - 1 then [CorrectionFor(o, fieldType)] else []
  }

  /** What one attempt says: the prompt, then a cancellation notice or a correction. */
  function AttemptSpeech(prompt: string, o: Settled<string>, verdict: FieldResult, fieldType: string,
                         attempt: nat, maxRetries: nat): seq<string> {
    [prompt] + match verdict {
      case Abort => [CancelledNotice]
      case Collected(_) => []
      case NotCollected => Correction(o, fieldType, attempt, maxRetries)
    }
  }

  /**
   * The attempts numbered `attempt` to `maxRetries - 1` of collecting one
   * field, where `judge` says how each heard outcome ends an attempt.
   */
  function RunAttempts(prompt: string, fieldType: string, judge: Settled<string> -> FieldResult,
                       attempt: nat, maxRetries: nat, script: seq<Settled<string>>): FieldRun
    decreases maxRetries - attempt
  {
    if attempt >= maxRetries then FieldRun(NotCollected, 0, [])
    else
      var o := NextOutcome(script);
      var speech := AttemptSpeech(prompt, o, judge(o), fieldType, attempt, maxRetries);
      if judge(o).NotCollected? then
        After(1, speech, RunAttempts(prompt, fieldType, judge, attempt + 1, maxRetries, Advance(script, 1)))
      else FieldRun(judge(o), 1, speech)
  }

  /** One attempt either ends the run with its verdict or leaves the attempts after it. */
  lemma RunAttemptsStep(prompt: string, fieldType: string, judge: Settled<string> -> FieldResult,
                        attempt: nat, maxRetries: nat, script: seq<Settled<string>>,
                        listens: nat, speech: seq<string>, total: FieldRun)
    requires attempt < maxRetries
    requires total == After(listens, speech, RunAttempts(prompt, fieldType, judge, attempt, maxRetries, script))
    ensures var o := NextOutcome(script);
      var step := AttemptSpeech(prompt, o, judge(o), fieldType, attempt, maxRetries);
      if judge(o).NotCollected? then
        total == After(listens + 1, speech + step, RunAttempts(prompt, fieldType, judge, attempt + 1, maxRetries, Advance(script, 1)))
      else
        total == FieldRun(judge(o), listens + 1, speech + step)
  {
    var o := NextOutcome(script);
    var step := AttemptSpeech(prompt, o, judge(o), fieldType, attempt, maxRetries);
    if judge(o).NotCollected? {
      AfterAfter(listens, speech, 1, step, RunAttempts(prompt, fieldType, judge, attempt + 1, maxRetries, Advance(script, 1)));
    }
  }

  /** With no attempt left the run adds nothing. */
  lemma RunAttemptsDone(prompt: string, fieldType: string, judge: Settled<string> -> FieldResult,
                        maxRetries: nat, script: seq<Settled<string>>, listens: nat, speech: seq<string>, total: FieldRun)
    requires total == After(listens, speech, RunAttempts(prompt, fieldType, judge, maxRetries, maxRetries, script))
    ensures total == FieldRun(NotCollected, listens, speech)
  {
    assert speech + [] == speech;
  }

  /** Collecting field `f` with `maxRetries` attempts against `script`. */
  function RunField(f: Field, maxRetries: nat, script: seq<Settled<string>>): FieldRun {
    RunAttempts(FieldPrompt(f), FieldTypeOf(f), JudgeFor(FieldTypeOf(f)), 0, maxRetries, script)
  }

  /**
   * The attempts stop at the first outcome that ends one (an abort word or a
   * valid transcript) among the first `maxRetries - attempt` listens, and
   * its verdict is their result.
   */
  lemma {:induction false} RunAttemptsDecided(prompt: string, fieldType: string, judge: Settled<string> -> FieldResult,
                                              attempt: nat, maxRetries: nat, script: seq<Settled<string>>, k: nat)
    requires attempt + k < maxRetries
    requires !judge(OutcomeAt(script, k)).NotCollected?
    requires forall j :: 0 <= j < k ==> judge(OutcomeAt(script, j)).NotCollected?
    ensures RunAttempts(prompt, fieldType, judge, attempt, maxRetries, script).result == judge(OutcomeAt(script, k))
    ensures RunAttempts(prompt, fieldType, judge, attempt, maxRetries, script).listens == k + 1
    decreases k
  {
    if k > 0 {
      assert judge(OutcomeAt(script, 0)).NotCollected?;
      forall j | 0 <= j < k - 1 ensures judge(OutcomeAt(Advance(script, 1), j)).NotCollected? {
        AdvanceTwice(script, 1, j);
        assert judge(OutcomeAt(script, j + 1)).NotCollected?;
      }
      AdvanceTwice(script, 1, k - 1);
      RunAttemptsDecided(prompt, fieldType, judge, attempt + 1, maxRetries, Advance(script, 1), k - 1);
    }
  }

  /** With no outcome that ends an attempt, every attempt is used and nothing is collected. */
  lemma {:induction false} RunAttemptsExhausted(prompt: string, fieldType: string, judge: Settled<string> -> FieldResult,
                                                attempt: nat, maxRetries: nat, script: seq<Settled<string>>)
    requires attempt <= maxRetries
    requires forall j :: 0 <= j < maxRetries - attempt ==> judge(OutcomeAt(script, j)).NotCollected?
    ensures RunAttempts(prompt, fieldType, judge, attempt, maxRetries, script).result == NotCollected
    ensures RunAttempts(prompt, fieldType, judge, attempt, maxRetries, script).listens == maxRetries - attempt
    decreases maxRetries - attempt
  {
    if attempt < maxRetries {
      assert judge(OutcomeAt(script, 0)).NotCollected?;
      forall j | 0 <= j < maxRetries - (attempt + 1) ensures judge(OutcomeAt(Advance(script, 1), j)).NotCollected? {
        AdvanceTwice(script, 1, j);
        assert judge(OutcomeAt(script, j + 1)).NotCollected?;
      }
      RunAttemptsExhausted(prompt, fieldType, judge, attempt + 1, maxRetries, Advance(script, 1));
    }
  }

  /**
   * Every attempt listens once, so a run makes at most `maxRetries - attempt`
   * listens, and exactly that many when nothing is collected; a result other
   * than `null` is the verdict on the last outcome heard, and every earlier
   * outcome was judged a failed attempt.
   */
  lemma {:induction false} RunAttemptsBounds(prompt: string, fieldType: string, judge: Settled<string> -> FieldResult,
                                             attempt: nat, maxRetries: nat, script: seq<Settled<string>>)
    requires attempt <= maxRetries
    ensures var r := RunAttempts(prompt, fieldType, judge, attempt, maxRetries, script);
      && r.listens <= maxRetries - attempt
      && (attempt < maxRetries ==> r.listens >= 1)
      && (r.result.NotCollected? ==> r.listens == maxRetries - attempt)
      && (!r.result.NotCollected? ==> r.listens >= 1 && r.result == judge(OutcomeAt(script, r.listens - 1)))
      && (forall j :: 0 <= j < r.listens - 1 ==> judge(OutcomeAt(script, j)).NotCollected?)
    decreases maxRetries - attempt
  {
    if attempt < maxRetries {
      var o := NextOutcome(script);
      if judge(o).NotCollected? {
        var rest := RunAttempts(prompt, fieldType, judge, attempt + 1, maxRetries, Advance(script, 1));
        var r := RunAttempts(prompt, fieldType, judge, attempt, maxRetries, script);
        RunAttemptsBounds(prompt, fieldType, judge, attempt + 1, maxRetries, Advance(script, 1));
        assert r.listens == 1 + rest.listens && r.result == rest.result;
        if rest.listens > 0 {
          OutcomeAtShift(script, rest.listens - 1);
          ShiftFailures(judge, script, rest.listens - 1);
        }
      }
    }
  }

  /** `sp` is `n` prompts with one utterance between each two of them: the speech of `n` failed attempts. */
  predicate Alternating(sp: seq<string>, prompt: string, n: nat) {
    && |sp| == 2 * n - 1
    && sp[|sp| - 1] == prompt
    && (forall i :: 0 <= i < n ==> sp[2 * i] == prompt)
  }

  lemma AlternatingCons(prompt: string, c: string, tail: seq<string>, n: nat)
    requires n >= 1 && Alternating(tail, prompt, n)
    ensures Alternating([prompt, c] + tail, prompt, n + 1)
  {
    var sp := [prompt, c] + tail;
    forall i | 1 <= i < n + 1 ensures sp[2 * i] == prompt {
      var k := 2 * (i - 1);
      assert 2 * i == 2 + k && sp[2 + k] == tail[k];
    }
  }

  /**
   * In a run that collects nothing, the utterance after the prompt of
   * attempt `i` (when one follows) answers the outcome of listen `i`.
   */
  lemma {:induction false} FailedRunCorrectionAt(prompt: string, fieldType: string, judge: Settled<string> -> FieldResult,
                                                 attempt: nat, maxRetries: nat, script: seq<Settled<string>>, i: nat)
    requires attempt + i + 1 < maxRetries
    requires RunAttempts(prompt, fieldType, judge, attempt, maxRetries, script).result.NotCollected?
    ensures var sp := RunAttempts(prompt, fieldType, judge, attempt, maxRetries, script).speech;
      2 * i + 1 < |sp| && sp[2 * i + 1] == CorrectionFor(OutcomeAt(script, i), fieldType)
    decreases i
  {
    var o := NextOutcome(script);
    var rest := RunAttempts(prompt, fieldType, judge, attempt + 1, maxRetries, Advance(script, 1));
    var sp := RunAttempts(prompt, fieldType, judge, attempt, maxRetries, script).speech;
    assert judge(o).NotCollected?;
    assert sp == [prompt, CorrectionFor(o, fieldType)] + rest.speech;
    if i == 0 {
      OutcomeAtFirst(script);
    } else {
      var k := 2 * (i - 1) + 1;
      FailedRunCorrectionAt(prompt, fieldType, judge, attempt + 1, maxRetries, Advance(script, 1), i - 1);
      assert rest.speech[k] == CorrectionFor(OutcomeAt(script, i), fieldType) by {
        OutcomeAtShift(script, i - 1);
      }
      ConsPairAt(prompt, CorrectionFor(o, fieldType), rest.speech, k);
      assert k + 2 == 2 * i + 1;
    }
  }

  lemma ConsPairAt(a: string, b: string, tail: seq<string>, k: nat)
    requires k < |tail|
    ensures ([a, b] + tail)[k + 2] == tail[k]
  {
  }

  /** The listen numbered 0 is the next one. */
  lemma OutcomeAtFirst(script: seq<Settled<string>>)
    ensures OutcomeAt(script, 0) == NextOutcome(script)
  {
    assert Advance(script, 0) == script;
  }

  /**
   * A correction is spoken only when another attempt follows: a run that
   * collects nothing alternates prompt and correction and ends on the
   * prompt. Each correction is the request to repeat when that attempt's
   * listen failed, and the type hint when it heard an invalid transcript.
   */
  lemma {:induction false} FailedRunSpeech(prompt: string, fieldType: string, judge: Settled<string> -> FieldResult,
                                           attempt: nat, maxRetries: nat, script: seq<Settled<string>>)
    requires attempt < maxRetries
    requires RunAttempts(prompt, fieldType, judge, attempt, maxRetries, script).result.NotCollected?
    ensures var sp := RunAttempts(prompt, fieldType, judge, attempt, maxRetries, script).speech;
      && Alternating(sp, prompt, maxRetries - attempt)
      && forall i :: 0 <= i < maxRetries - attempt - 1 ==> sp[2 * i + 1] == CorrectionFor(OutcomeAt(script, i), fieldType)
    decreases maxRetries - attempt
  {
    var o := NextOutcome(script);
    var rest := RunAttempts(prompt, fieldType, judge, attempt + 1, maxRetries, Advance(script, 1));
    var sp := RunAttempts(prompt, fieldType, judge, attempt, maxRetries, script).speech;
    assert judge(o).NotCollected?;
    if attempt < maxRetries - 1 {
      var c := CorrectionFor(o, fieldType);
      assert sp == [prompt, c] + rest.speech;
      FailedRunSpeech(prompt, fieldType, judge, attempt + 1, maxRetries, Advance(script, 1));
      AlternatingCons(prompt, c, rest.speech, maxRetries - attempt - 1);
    } else {
      assert sp == [prompt] + [];
    }
    forall i | 0 <= i < maxRetries - attempt - 1 ensures sp[2 * i + 1] == CorrectionFor(OutcomeAt(script, i), fieldType) {
      FailedRunCorrectionAt(prompt, fieldType, judge, attempt, maxRetries, script, i);
    }
  }

  /** An aborted run ends with the cancellation notice. */
  lemma {:induction false} RunAttemptsBoundsSpeech(prompt: string, fieldType: string, judge: Settled<string> -> FieldResult,
                                                   attempt: nat, maxRetries: nat, script: seq<Settled<string>>)
    requires RunAttempts(prompt, fieldType, judge, attempt, maxRetries, script).result.Abort?
    ensures var sp := RunAttempts(prompt, fieldType, judge, attempt, maxRetries, script).speech;
      |sp| >= 1 && sp[|sp| - 1] == CancelledNotice
    decreases maxRetries - attempt
  {
    var o := NextOutcome(script);
    if judge(o).NotCollected? {
      RunAttemptsBoundsSpeech(prompt, fieldType, judge, attempt + 1, maxRetries, Advance(script, 1));
    }
  }

  /**
   * The `'ABORT'` and `null` results of the source never collide with a
   * collected transcript: one is never `"ABORT"` and never empty.
   */
  lemma CollectedIsNotASentinel(t: string, fieldType: string)
    requires ValidateResponse(t, fieldType) && !IsAbortCommand(t)
    ensures t != "ABORT" && t != ""
  {
    AbortSignalAborts();
  }

  /** The word `ABORT` is itself an abort command. */
  lemma AbortSignalAborts()
    ensures IsAbortCommand("ABORT")
  {
    IsAbortCommandSpec("ABORT");
    LowerAbort();
    assert OccursAt("abort", "abort", 0);
    assert "abort" in AbortKeywords;
  }

  lemma LowerAbort()
    ensures ToLower("ABORT") == "abort"
  {
    var lower := ToLower("ABORT");
    assert |lower| == 5;
    assert lower[0] == 'a' && lower[1] == 'b' && lower[2] == 'o' && lower[3] == 'r' && lower[4] == 't';
  }

  /**
   * One field's run in the terms of the source: at most `maxRetries` listens,
   * all of them when nothing is collected. A collected value is the last
   * transcript heard, no abort command, non-blank, with a digit for an
   * `integer` field; `'ABORT'` means the last transcript heard mentions an
   * abort word. Every earlier outcome was a rejection or a transcript that
   * was neither.
   */
  lemma RunFieldSpec(f: Field, maxRetries: nat, script: seq<Settled<string>>)
    ensures var run := RunField(f, maxRetries, script);
      && run.listens <= maxRetries
      && (maxRetries > 0 ==> run.listens >= 1)
      && (run.result.NotCollected? ==> run.listens == maxRetries)
      && (run.result.Collected? ==>
            && OutcomeAt(script, run.listens - 1) == Resolved(run.result.transcript)
            && !MentionsAbortWord(run.result.transcript)
            && NonBlank(run.result.transcript)
            && (FieldTypeOf(f) == "integer" ==> HasDigit(run.result.transcript)))
      && (run.result.Abort? ==>
            && OutcomeAt(script, run.listens - 1).Resolved?
            && MentionsAbortWord(OutcomeAt(script, run.listens - 1).value))
      && (forall j :: 0 <= j < run.listens - 1 ==> Judge(OutcomeAt(script, j), FieldTypeOf(f)).NotCollected?)
  {
    var t := FieldTypeOf(f);
    var run := RunField(f, maxRetries, script);
    RunAttemptsBounds(FieldPrompt(f), t, JudgeFor(t), 0, maxRetries, script);
    if !run.result.NotCollected? {
      JudgeSpec(OutcomeAt(script, run.listens - 1), t);
    }
    forall j | 0 <= j < run.listens - 1 ensures Judge(OutcomeAt(script, j), t).NotCollected? {
      assert JudgeFor(t)(OutcomeAt(script, j)).NotCollected?;
    }
  }

  /** `response === 'ABORT'`: the signal, or a transcript that happens to spell it. */
  predicate IsAbortSignal(r: FieldResult) {
    r.Abort? || r == Collected("ABORT")
  }

  /**
   * A field's run never yields a transcript that the caller would mistake
   * for the abort signal or for `null`.
   */
  lemma RunFieldSignals(f: Field, maxRetries: nat, script: seq<Settled<string>>)
    ensures var r := RunField(f, maxRetries, script).result;
      && (IsAbortSignal(r) <==> r.Abort?)
      && (r.Collected? ==> r.transcript != "")
  {
    var t := FieldTypeOf(f);
    var run := RunField(f, maxRetries, script);
    RunAttemptsBounds(FieldPrompt(f), t, JudgeFor(t), 0, maxRetries, script);
    if run.result.Collected? {
      var o := OutcomeAt(script, run.listens - 1);
      assert run.result == Judge(o, t);
      CollectedIsNotASentinel(o.value, t);
    }
  }

  /**
   * The value stored for a field that was not aborted (never asked of an
   * aborted one): `'Not provided'` when nothing (or nothing truthy) was collected, the first run of digits for an
   * `integer` field (the whole transcript if it has none), the transcript
   * otherwise.
   */
  function StoredValue(fieldType: string, r: FieldResult): string {
    if r.Collected? && r.transcript != "" then
      if fieldType == "integer" then
        match MatchDigits(r.transcript)
        case Some(d) => d
        case None => r.transcript
      else r.transcript
    else NotProvided
  }

  /**
   * An `integer` answer with a digit is stored as its first maximal run of
   * digits; any other collected answer is stored unchanged.
   */
  lemma StoredValueSpec(fieldType: string, t: string)
    requires t != ""
    ensures fieldType == "integer" && HasDigit(t) ==> IsFirstDigitRun(t, FirstDigitIndex(t), StoredValue(fieldType, Collected(t)))
    ensures fieldType != "integer" ==> StoredValue(fieldType, Collected(t)) == t
  {
    MatchDigitsSpec(t);
  }

  /** What collecting a whole template amounts to: the record (`null` on abort), listens made, utterances. */
  datatype Session = Session(record: Option<map<string, string>>, listens: nat, speech: seq<string>)

  lemma ConcatAssoc(a: seq<string>, b: seq<string>, c: seq<string>)
    ensures (a + b) + c == a + (b + c)
  {
  }

  /** A session that was preceded by `listens` listens and the utterances `speech`. */
  function SessionAfter(listens: nat, speech: seq<string>, s: Session): Session {
    Session(s.record, listens + s.listens, speech + s.speech)
  }

  /** How the session collects one field from a script: `collectFieldData` with its default of three attempts. */
  function Ask(f: Field, script: seq<Settled<string>>): FieldRun {
    RunField(f, DefaultMaxRetries, script)
  }

  /** What the session relies on about one field's run. */
  predicate RunWellBehaved(run: FieldRun) {
    && run.listens <= DefaultMaxRetries
    && (IsAbortSignal(run.result) <==> run.result.Abort?)
    && (run.result.Collected? ==> run.result.transcript != "")
    && (run.result.Abort? ==> |run.speech| >= 1 && run.speech[|run.speech| - 1] == CancelledNotice)
  }

  /**
   * What the session relies on about every field's run: at most three
   * listens, a transcript never mistaken for the abort signal, a collected
   * transcript never empty, and an abort announced by the field itself.
   */
  ghost predicate WellBehaved(ask: (Field, seq<Settled<string>>) -> FieldRun) {
    forall f, script :: RunWellBehaved(ask(f, script))
  }

  lemma AskWellBehaved()
    ensures WellBehaved(Ask)
  {
    forall f, script ensures RunWellBehaved(Ask(f, script)) {
      var t := FieldTypeOf(f);
      RunFieldSpec(f, DefaultMaxRetries, script);
      RunFieldSignals(f, DefaultMaxRetries, script);
      if Ask(f, script).result.Abort? {
        RunAttemptsBoundsSpeech(FieldPrompt(f), t, JudgeFor(t), 0, DefaultMaxRetries, script);
      }
    }
  }

  /**
   * The fields from `fields` on, each collected by `ask` in order against
   * `script` and stored into `data`, keyed by the field name; the first abort
   * ends everything.
   */
  function CollectFields(ask: (Field, seq<Settled<string>>) -> FieldRun, fields: seq<Field>,
                         script: seq<Settled<string>>, data: map<string, string>): Session
    decreases |fields|
  {
    if fields == [] then Session(Some(data), 0, [])
    else
      var f := fields[0];
      var run := ask(f, script);
      if IsAbortSignal(run.result) then Session(None, run.listens, run.speech + [CancelledNotice])
      else
        var rest := CollectFields(ask, fields[1..], Advance(script, run.listens), Store(data, f, run.result));
        Session(rest.record, run.listens + rest.listens, run.speech + rest.speech)
  }

  /** The record once field `f` has ended with `r`: its name mapped to the value stored for `r`. */
  function Store(data: map<string, string>, f: Field, r: FieldResult): map<string, string> {
    data[f.name := StoredValue(FieldTypeOf(f), r)]
  }

  /** One step of the session, for a well-behaved first run. */
  lemma CollectFieldsCons(ask: (Field, seq<Settled<string>>) -> FieldRun, fields: seq<Field>,
                          script: seq<Settled<string>>, data: map<string, string>)
    requires fields != [] && RunWellBehaved(ask(fields[0], script))
    ensures var run := ask(fields[0], script);
      CollectFields(ask, fields, script, data) ==
        if run.result.Abort? then Session(None, run.listens, run.speech + [CancelledNotice])
        else SessionAfter(run.listens, run.speech,
                          CollectFields(ask, fields[1..], Advance(script, run.listens), Store(data, fields[0], run.result)))
  {
  }

  /** Asking the field at position `i` either ends the session on an abort or leaves the fields after it. */
  lemma CollectFieldsStep(ask: (Field, seq<Settled<string>>) -> FieldRun, fields: seq<Field>, i: nat,
                          script: seq<Settled<string>>, data: map<string, string>,
                          listens: nat, speech: seq<string>, total: Session)
    requires i < |fields|
    requires total == SessionAfter(listens, speech, CollectFields(ask, fields[i..], script, data))
    ensures var run := ask(fields[i], script);
      if IsAbortSignal(run.result) then
        total == Session(None, listens + run.listens, speech + run.speech + [CancelledNotice])
      else
        total == SessionAfter(listens + run.listens, speech + run.speech,
                              CollectFields(ask, fields[i + 1..], Advance(script, run.listens), Store(data, fields[i], run.result)))
  {
    assert fields[i..][0] == fields[i] && fields[i..][1..] == fields[i + 1..];
    var run := ask(fields[i], script);
    if IsAbortSignal(run.result) {
      ConcatAssoc(speech, run.speech, [CancelledNotice]);
    } else {
      var rest := CollectFields(ask, fields[i + 1..], Advance(script, run.listens), Store(data, fields[i], run.result));
      ConcatAssoc(speech, run.speech, rest.speech);
    }
  }

  /** `collectAllData`: the introduction, the fields, and the closing notice when not aborted. */
  function CollectAll(ask: (Field, seq<Settled<string>>) -> FieldRun, fields: seq<Field>,
                      script: seq<Settled<string>>): Session {
    var s := CollectFields(ask, fields, script, map[]);
    Session(s.record, s.listens, if s.record.Some? then [IntroNotice] + s.speech + [CompleteNotice] else [IntroNotice] + s.speech)
  }

  /** The runs of the fields actually asked: every field up to and including the first abort. */
  function Runs(ask: (Field, seq<Settled<string>>) -> FieldRun, fields: seq<Field>,
                script: seq<Settled<string>>): seq<FieldRun>
    decreases |fields|
  {
    if fields == [] then []
    else
      var run := ask(fields[0], script);
      [run] + (if run.result.Abort? then [] else Runs(ask, fields[1..], Advance(script, run.listens)))
  }

  /** The listens made by the first `i` runs. */
  function ListensBefore(runs: seq<FieldRun>, i: nat): nat
    requires i <= |runs|
  {
    if i == 0 then 0 else ListensBefore(runs, i - 1) + runs[i - 1].listens
  }

  lemma {:induction false} ListensBeforeCons(run: FieldRun, rest: seq<FieldRun>, i: nat)
    requires 1 <= i <= |rest| + 1
    ensures ListensBefore([run] + rest, i) == run.listens + ListensBefore(rest, i - 1)
    decreases i
  {
    if i > 1 {
      ListensBeforeCons(run, rest, i - 1);
      assert ([run] + rest)[i - 1] == rest[i - 2];
    }
  }

  /** The utterances of the runs, in order. */
  function SpeechOf(runs: seq<FieldRun>): seq<string>
    decreases |runs|
  {
    if runs == [] then [] else runs[0].speech + SpeechOf(runs[1..])
  }

  /** Some run asked was aborted. */
  ghost predicate SomeAborted(runs: seq<FieldRun>) {
    exists i :: 0 <= i < |runs| && runs[i].result.Abort?
  }

  lemma SomeAbortedCons(run: FieldRun, rest: seq<FieldRun>)
    ensures SomeAborted([run] + rest) <==> run.result.Abort? || SomeAborted(rest)
  {
    var runs := [run] + rest;
    if SomeAborted(runs) && !run.result.Abort? {
      var i :| 0 <= i < |runs| && runs[i].result.Abort?;
      assert i > 0 && rest[i - 1].result.Abort?;
    }
    if SomeAborted(rest) {
      var i :| 0 <= i < |rest| && rest[i].result.Abort?;
      assert runs[i + 1].result.Abort?;
    }
    if run.result.Abort? {
      assert runs[0].result.Abort?;
    }
  }

  /**
   * Aborting is final: only the last run can be an abort, and a field is
   * left unasked only after one.
   */
  lemma {:induction false} RunsShape(ask: (Field, seq<Settled<string>>) -> FieldRun, fields: seq<Field>,
                                     script: seq<Settled<string>>)
    ensures var runs := Runs(ask, fields, script);
      && |runs| <= |fields|
      && (fields != [] ==> |runs| >= 1)
      && (forall i :: 0 <= i < |runs| - 1 ==> !runs[i].result.Abort?)
      && (|runs| < |fields| ==> runs[|runs| - 1].result.Abort?)
    decreases |fields|
  {
    if fields != [] {
      var run := ask(fields[0], script);
      var runs := Runs(ask, fields, script);
      if !run.result.Abort? {
        var next := Advance(script, run.listens);
        var rest := Runs(ask, fields[1..], next);
        RunsShape(ask, fields[1..], next);
        assert runs == [run] + rest;
        forall i | 0 <= i < |runs| - 1 ensures !runs[i].result.Abort? {
          if i > 0 {
            assert runs[i] == rest[i - 1];
          }
        }
      }
    }
  }

  /** The field at position `i`, if asked, is collected from what the fields before it left of the script. */
  lemma {:induction false} RunsScriptAt(ask: (Field, seq<Settled<string>>) -> FieldRun, fields: seq<Field>,
                                        script: seq<Settled<string>>, i: nat)
    requires i < |Runs(ask, fields, script)| && i < |fields|
    ensures var runs := Runs(ask, fields, script);
      runs[i] == ask(fields[i], Advance(script, ListensBefore(runs, i)))
    decreases i
  {
    var run := ask(fields[0], script);
    var runs := Runs(ask, fields, script);
    if i == 0 {
      assert Advance(script, 0) == script;
    } else {
      var next := Advance(script, run.listens);
      var rest := Runs(ask, fields[1..], next);
      assert runs == [run] + rest;
      assert runs[i] == rest[i - 1];
      RunsScriptAt(ask, fields[1..], next, i - 1);
      assert Advance(script, ListensBefore(runs, i)) == Advance(next, ListensBefore(rest, i - 1)) by {
        ListensBeforeCons(run, rest, i);
        AdvanceTwice(script, run.listens, ListensBefore(rest, i - 1));
      }
      assert fields[1..][i - 1] == fields[i];
    }
  }

  /** Each field asked is collected from what the fields before it left of the script. */
  lemma RunsScripts(ask: (Field, seq<Settled<string>>) -> FieldRun, fields: seq<Field>, script: seq<Settled<string>>)
    ensures var runs := Runs(ask, fields, script);
      forall i :: 0 <= i < |runs| && i < |fields| ==> runs[i] == ask(fields[i], Advance(script, ListensBefore(runs, i)))
  {
    forall i | 0 <= i < |Runs(ask, fields, script)| && i < |fields|
      ensures Runs(ask, fields, script)[i] == ask(fields[i], Advance(script, ListensBefore(Runs(ask, fields, script), i)))
    {
      RunsScriptAt(ask, fields, script, i);
    }
  }

  /** The field names from `fields`, as a set. */
  function Names(fields: seq<Field>): set<string> {
    set f | f in fields :: f.name
  }

  lemma NamesCons(fields: seq<Field>)
    requires fields != []
    ensures Names(fields) == {fields[0].name} + Names(fields[1..])
  {
    forall g | g in fields ensures g == fields[0] || g in fields[1..] {
      var i :| 0 <= i < |fields| && fields[i] == g;
      if i > 0 {
        assert fields[1..][i - 1] == g;
      }
    }
  }

  /** Collection stops with `null` exactly when some field asked was aborted. */
  lemma {:induction false} CollectFieldsAborted(ask: (Field, seq<Settled<string>>) -> FieldRun, fields: seq<Field>,
                                                script: seq<Settled<string>>, data: map<string, string>)
    requires WellBehaved(ask)
    ensures CollectFields(ask, fields, script, data).record.None? <==> SomeAborted(Runs(ask, fields, script))
    decreases |fields|
  {
    if fields != [] {
      var run := ask(fields[0], script);
      var next := Advance(script, run.listens);
      CollectFieldsCons(ask, fields, script, data);
      SomeAbortedCons(run, if run.result.Abort? then [] else Runs(ask, fields[1..], next));
      if !run.result.Abort? {
        CollectFieldsAborted(ask, fields[1..], next, Store(data, fields[0], run.result));
      }
    }
  }

  /**
   * A completed session asked every field, and its record holds the keys it
   * started with plus exactly the field names.
   */
  lemma {:induction false} CollectFieldsKeys(ask: (Field, seq<Settled<string>>) -> FieldRun, fields: seq<Field>,
                                             script: seq<Settled<string>>, data: map<string, string>)
    requires WellBehaved(ask)
    requires CollectFields(ask, fields, script, data).record.Some?
    ensures |Runs(ask, fields, script)| == |fields|
    ensures CollectFields(ask, fields, script, data).record.value.Keys == data.Keys + Names(fields)
    decreases |fields|
  {
    if fields != [] {
      var run := ask(fields[0], script);
      var next := Advance(script, run.listens);
      CollectFieldsCons(ask, fields, script, data);
      CollectFieldsKeys(ask, fields[1..], next, Store(data, fields[0], run.result));
      NamesCons(fields);
    }
  }

  /** `name` is not the name of any field from index `i` on. */
  ghost predicate NotNamedFrom(fields: seq<Field>, i: int, name: string) {
    forall j :: 0 <= i <= j < |fields| ==> fields[j].name != name
  }

  lemma NotNamedFromTail(fields: seq<Field>, i: nat, name: string)
    requires fields != [] && 0 < i && NotNamedFrom(fields, i, name)
    ensures NotNamedFrom(fields[1..], i - 1, name)
  {
    forall j | i - 1 <= j < |fields[1..]| ensures fields[1..][j].name != name {
      assert fields[1..][j] == fields[j + 1];
    }
  }

  /** In a completed record a key that names no field keeps its original value. */
  lemma {:induction false} CollectFieldsKeeps(ask: (Field, seq<Settled<string>>) -> FieldRun, fields: seq<Field>,
                                              script: seq<Settled<string>>, data: map<string, string>, k: string)
    requires WellBehaved(ask)
    requires CollectFields(ask, fields, script, data).record.Some?
    requires k in data && NotNamedFrom(fields, 0, k)
    ensures var m := CollectFields(ask, fields, script, data).record.value;
      k in m && m[k] == data[k]
    decreases |fields|
  {
    if fields != [] {
      var run := ask(fields[0], script);
      var data' := Store(data, fields[0], run.result);
      CollectFieldsCons(ask, fields, script, data);
      assert fields[0].name != k && data'[k] == data[k];
      NotNamedFromTail(fields, 1, k);
      CollectFieldsKeeps(ask, fields[1..], Advance(script, run.listens), data', k);
    }
  }

  /**
   * In a completed record the name of the field at position `i`, when no
   * later field has that name, holds the value its run stored.
   */
  lemma {:induction false} CollectFieldsValueAt(ask: (Field, seq<Settled<string>>) -> FieldRun, fields: seq<Field>,
                                                script: seq<Settled<string>>, data: map<string, string>, i: nat)
    requires WellBehaved(ask)
    requires CollectFields(ask, fields, script, data).record.Some?
    requires i < |fields| && NotNamedFrom(fields, i + 1, fields[i].name)
    ensures var m := CollectFields(ask, fields, script, data).record.value;
      var runs := Runs(ask, fields, script);
      && i < |runs| && !runs[i].result.Abort? && fields[i].name in m
      && m[fields[i].name] == StoredValue(FieldTypeOf(fields[i]), runs[i].result)
    decreases i
  {
    var run := ask(fields[0], script);
    var next := Advance(script, run.listens);
    var data' := Store(data, fields[0], run.result);
    CollectFieldsCons(ask, fields, script, data);
    var rest := Runs(ask, fields[1..], next);
    assert Runs(ask, fields, script) == [run] + rest;
    NotNamedFromTail(fields, i + 1, fields[i].name);
    if i == 0 {
      if 1 < |fields| {
        CollectFieldsKeeps(ask, fields[1..], next, data', fields[0].name);
      }
    } else {
      assert fields[1..][i - 1] == fields[i];
      CollectFieldsValueAt(ask, fields[1..], next, data', i - 1);
    }
  }

  /**
   * In a completed record each field name holds the value stored for the last
   * field of that name, and every other key keeps its original value.
   */
  lemma CollectFieldsValues(ask: (Field, seq<Settled<string>>) -> FieldRun, fields: seq<Field>,
                            script: seq<Settled<string>>, data: map<string, string>)
    requires WellBehaved(ask)
    requires CollectFields(ask, fields, script, data).record.Some?
    ensures var m := CollectFields(ask, fields, script, data).record.value;
      var runs := Runs(ask, fields, script);
      && |runs| == |fields|
      && (forall i :: 0 <= i < |fields| && NotNamedFrom(fields, i + 1, fields[i].name) ==>
            !runs[i].result.Abort? && fields[i].name in m
            && m[fields[i].name] == StoredValue(FieldTypeOf(fields[i]), runs[i].result))
      && (forall k :: k in data && NotNamedFrom(fields, 0, k) ==> k in m && m[k] == data[k])
  {
    CollectFieldsKeys(ask, fields, script, data);
    forall i | 0 <= i < |fields| && NotNamedFrom(fields, i + 1, fields[i].name) {
      CollectFieldsValueAt(ask, fields, script, data, i);
    }
    forall k | k in data && NotNamedFrom(fields, 0, k) {
      CollectFieldsKeeps(ask, fields, script, data, k);
    }
  }

  /** Each field listens at most three times. */
  lemma {:induction false} CollectFieldsListens(ask: (Field, seq<Settled<string>>) -> FieldRun, fields: seq<Field>,
                                                script: seq<Settled<string>>, data: map<string, string>)
    requires WellBehaved(ask)
    ensures CollectFields(ask, fields, script, data).listens <= DefaultMaxRetries * |fields|
    decreases |fields|
  {
    if fields != [] {
      var run := ask(fields[0], script);
      CollectFieldsCons(ask, fields, script, data);
      if !run.result.Abort? {
        CollectFieldsListens(ask, fields[1..], Advance(script, run.listens), Store(data, fields[0], run.result));
      }
    }
  }

  /**
   * The session listens exactly as often as the runs of the fields asked
   * together: no field after an abort takes a listen.
   */
  lemma {:induction false} CollectFieldsListensRuns(ask: (Field, seq<Settled<string>>) -> FieldRun, fields: seq<Field>,
                                                    script: seq<Settled<string>>, data: map<string, string>)
    requires WellBehaved(ask)
    ensures var runs := Runs(ask, fields, script);
      CollectFields(ask, fields, script, data).listens == ListensBefore(runs, |runs|)
    decreases |fields|
  {
    if fields != [] {
      var run := ask(fields[0], script);
      CollectFieldsCons(ask, fields, script, data);
      var rest := if run.result.Abort? then [] else Runs(ask, fields[1..], Advance(script, run.listens));
      assert Runs(ask, fields, script) == [run] + rest;
      if !run.result.Abort? {
        CollectFieldsListensRuns(ask, fields[1..], Advance(script, run.listens), Store(data, fields[0], run.result));
      }
      ListensBeforeCons(run, rest, |rest| + 1);
      assert ListensBefore(rest, 0) == 0;
    }
  }

  /**
   * The session says exactly what the runs of the fields asked say, in
   * order, followed by the cancellation notice when one aborted: no field
   * after an abort is prompted.
   */
  lemma {:induction false} CollectFieldsSpeechRuns(ask: (Field, seq<Settled<string>>) -> FieldRun, fields: seq<Field>,
                                                   script: seq<Settled<string>>, data: map<string, string>)
    requires WellBehaved(ask)
    ensures var s := CollectFields(ask, fields, script, data);
      s.speech == SpeechOf(Runs(ask, fields, script)) + (if s.record.None? then [CancelledNotice] else [])
    decreases |fields|
  {
    if fields != [] {
      var run := ask(fields[0], script);
      CollectFieldsCons(ask, fields, script, data);
      var runs := Runs(ask, fields, script);
      if run.result.Abort? {
        assert runs == [run] && runs[1..] == [];
      } else {
        var next, data' := Advance(script, run.listens), Store(data, fields[0], run.result);
        var rest := Runs(ask, fields[1..], next);
        var s' := CollectFields(ask, fields[1..], next, data');
        assert runs == [run] + rest && runs[1..] == rest;
        CollectFieldsSpeechRuns(ask, fields[1..], next, data');
        ConcatAssoc(run.speech, SpeechOf(rest), if s'.record.None? then [CancelledNotice] else []);
      }
    }
  }

  /** The last two utterances are the cancellation notice. */
  predicate EndsCancelledTwice(sp: seq<string>) {
    |sp| >= 2 && sp[|sp| - 1] == CancelledNotice && sp[|sp| - 2] == CancelledNotice
  }

  lemma EndsCancelledTwiceAfter(a: seq<string>, b: seq<string>)
    requires EndsCancelledTwice(b)
    ensures EndsCancelledTwice(a + b)
  {
    assert (a + b)[|a| + |b| - 1] == b[|b| - 1] && (a + b)[|a| + |b| - 2] == b[|b| - 2];
  }

  lemma EndsCancelledTwiceOnAbort(a: seq<string>)
    requires |a| >= 1 && a[|a| - 1] == CancelledNotice
    ensures EndsCancelledTwice(a + [CancelledNotice])
  {
    assert (a + [CancelledNotice])[|a| - 1] == a[|a| - 1];
  }

  /** After an abort the cancellation notice is spoken twice: by the field and by the session. */
  lemma {:induction false} CollectFieldsAbortSpeech(ask: (Field, seq<Settled<string>>) -> FieldRun, fields: seq<Field>,
                                                    script: seq<Settled<string>>, data: map<string, string>)
    requires WellBehaved(ask)
    requires CollectFields(ask, fields, script, data).record.None?
    ensures EndsCancelledTwice(CollectFields(ask, fields, script, data).speech)
    decreases |fields|
  {
    assert fields != [];
    var run := ask(fields[0], script);
    assert RunWellBehaved(run);
    CollectFieldsCons(ask, fields, script, data);
    if run.result.Abort? {
      EndsCancelledTwiceOnAbort(run.speech);
    } else {
      var next, data' := Advance(script, run.listens), Store(data, fields[0], run.result);
      CollectFieldsAbortSpeech(ask, fields[1..], next, data');
      EndsCancelledTwiceAfter(run.speech, CollectFields(ask, fields[1..], next, data').speech);
    }
  }

  /**
   * A whole session opens with the introduction and makes at most three
   * listens per field.
   */
  lemma CollectAllBounds(ask: (Field, seq<Settled<string>>) -> FieldRun, fields: seq<Field>, script: seq<Settled<string>>)
    requires WellBehaved(ask)
    ensures var s := CollectAll(ask, fields, script);
      s.listens <= DefaultMaxRetries * |fields| && |s.speech| > 0 && s.speech[0] == IntroNotice
  {
    CollectFieldsListens(ask, fields, script, map[]);
  }

  /**
   * A whole session ends with `null` exactly when some field asked was
   * aborted, and then the cancellation notice was spoken twice.
   */
  lemma CollectAllAborted(ask: (Field, seq<Settled<string>>) -> FieldRun, fields: seq<Field>, script: seq<Settled<string>>)
    requires WellBehaved(ask)
    ensures var s := CollectAll(ask, fields, script);
      && (s.record.None? <==> SomeAborted(Runs(ask, fields, script)))
      && (s.record.None? ==> EndsCancelledTwice(s.speech))
  {
    var c := CollectFields(ask, fields, script, map[]);
    CollectFieldsAborted(ask, fields, script, map[]);
    if c.record.None? {
      CollectFieldsAbortSpeech(ask, fields, script, map[]);
      EndsCancelledTwiceAfter([IntroNotice], c.speech);
    }
  }

  /**
   * A whole session takes exactly the listens of the runs of the fields
   * asked, and says the introduction, what those runs say, and then the
   * cancellation or the completion notice. With `RunsShape`, nothing is
   * heard from or said for a field after an abort.
   */
  lemma CollectAllRuns(ask: (Field, seq<Settled<string>>) -> FieldRun, fields: seq<Field>, script: seq<Settled<string>>)
    requires WellBehaved(ask)
    ensures var s := CollectAll(ask, fields, script);
      var runs := Runs(ask, fields, script);
      && s.listens == ListensBefore(runs, |runs|)
      && s.speech == [IntroNotice] + SpeechOf(runs) + [if s.record.None? then CancelledNotice else CompleteNotice]
  {
    var c := CollectFields(ask, fields, script, map[]);
    var runs := Runs(ask, fields, script);
    CollectFieldsListensRuns(ask, fields, script, map[]);
    CollectFieldsSpeechRuns(ask, fields, script, map[]);
    if c.record.None? {
      ConcatAssoc([IntroNotice], SpeechOf(runs), [CancelledNotice]);
    } else {
      assert SpeechOf(runs) + [] == SpeechOf(runs);
    }
  }

  /**
   * A session that is not aborted asks every field; its record holds exactly
   * the field names, each mapped to what its field's run stored (the last
   * field wins for a repeated name), and it closes with the completion
   * notice.
   */
  lemma CollectAllCompleted(ask: (Field, seq<Settled<string>>) -> FieldRun, fields: seq<Field>, script: seq<Settled<string>>)
    requires WellBehaved(ask)
    requires CollectAll(ask, fields, script).record.Some?
    ensures var s := CollectAll(ask, fields, script);
      var runs := Runs(ask, fields, script);
      && s.record.value.Keys == Names(fields)
      && |runs| == |fields|
      && (forall i :: 0 <= i < |fields| && NotNamedFrom(fields, i + 1, fields[i].name) ==>
            s.record.value[fields[i].name] == StoredValue(FieldTypeOf(fields[i]), runs[i].result))
      && s.speech[|s.speech| - 1] == CompleteNotice
  {
    CollectFieldsKeys(ask, fields, script, map[]);
    CollectFieldsValues(ask, fields, script, map[]);
  }

  /** The bookkeeping of one iteration of the loop of `collectAllData`. */
  lemma AskFieldsStep(ask: (Field, seq<Settled<string>>) -> FieldRun, fields: seq<Field>, i: nat,
                      script0: seq<Settled<string>>, spoken0: seq<string>,
                      listened: nat, said: seq<string>, data: map<string, string>, total: Session,
                      before: seq<Settled<string>>, run: FieldRun)
    requires i < |fields| && before == Advance(script0, listened) && run == ask(fields[i], before)
    requires total == SessionAfter(listened, said, CollectFields(ask, fields[i..], before, data))
    ensures Advance(before, run.listens) == Advance(script0, listened + run.listens)
    ensures spoken0 + said + run.speech == spoken0 + (said + run.speech)
    ensures IsAbortSignal(run.result) ==>
      total == Session(None, listened + run.listens, said + run.speech + [CancelledNotice])
      && spoken0 + (said + run.speech) + [CancelledNotice] == spoken0 + (said + run.speech + [CancelledNotice])
    ensures !IsAbortSignal(run.result) ==>
      total == SessionAfter(listened + run.listens, said + run.speech,
                            CollectFields(ask, fields[i + 1..], Advance(before, run.listens), Store(data, fields[i], run.result)))
  {
    CollectFieldsStep(ask, fields, i, before, data, listened, said, total);
    AdvanceTwice(script0, listened, run.listens);
    ConcatAssoc(spoken0, said, run.speech);
    ConcatAssoc(spoken0, said + run.speech, [CancelledNotice]);
  }

  /** The record, the script left and the utterances after asking `fields` from `script` once `spoken` was said. */
  ghost predicate AskedFields(fields: seq<Field>, script: seq<Settled<string>>, spoken: seq<string>,
                              record: Option<map<string, string>>, scriptAfter: seq<Settled<string>>, spokenAfter: seq<string>) {
    var s := CollectFields(Ask, fields, script, map[]);
    && record == s.record
    && scriptAfter == Advance(script, s.listens)
    && spokenAfter == spoken + s.speech
  }

  /**
   * The collector. `script` holds what the recogniser will still deliver,
   * `spoken` every utterance so far.
   */
  class VoiceInput {
    var isListening: bool
    var script: seq<Settled<string>>
    var spoken: seq<string>
    /** How many times `listen` was called. */
    ghost var listenCount: nat

    constructor (script: seq<Settled<string>>)
      ensures !isListening && this.script == script && spoken == [] && listenCount == 0
    {
      isListening := false;
      this.script := script;
      spoken := [];
      listenCount := 0;
    }

    /** Speaking always completes. */
    method Speak(text: string)
      modifies this`spoken
      ensures spoken == old(spoken) + [text]
    {
      spoken := spoken + [text];
    }

    /** One single-shot capture: the next scripted outcome. */
    method Listen() returns (heard: Settled<string>)
      modifies this`isListening, this`script, this`listenCount
      ensures heard == NextOutcome(old(script)) && script == Advance(old(script), 1)
      ensures !isListening && listenCount == old(listenCount) + 1
    {
      isListening := true;
      listenCount := listenCount + 1;
      heard := NextOutcome(script);
      script := Advance(script, 1);
      isListening := false;
    }

    /** One attempt: speak the prompt, listen once, then check for abort words and validate. */
    method Attempt(prompt: string, fieldType: string, attempt: nat, maxRetries: nat) returns (r: FieldResult)
      requires attempt < maxRetries
      modifies this
      ensures r == Judge(NextOutcome(old(script)), fieldType)
      ensures script == Advance(old(script), 1) && listenCount == old(listenCount) + 1
      ensures spoken == old(spoken) + AttemptSpeech(prompt, NextOutcome(old(script)), r, fieldType, attempt, maxRetries)
    {
      Speak(prompt);
      var response := Listen();
      if response.Resolved? && IsAbortCommand(response.value) {
        Speak(CancelledNotice);
        return Abort;
      }
      if response.Resolved? && ValidateResponse(response.value, fieldType) {
        return Collected(response.value);
      }
      if attempt < maxRetries - 1 {
        Speak(if response.Rejected? then RepeatPrompt else InvalidPrompt(fieldType));
      }
      r := NotCollected;
    }

    /** Up to `maxRetries` attempts; the first that ends the collection decides it. */
    method CollectFieldData(field: Field, maxRetries: nat) returns (r: FieldResult)
      modifies this
      ensures var run := RunField(field, maxRetries, old(script));
        && r == run.result
        && script == Advance(old(script), run.listens)
        && listenCount == old(listenCount) + run.listens
        && spoken == old(spoken) + run.speech
    {
      var prompt := FieldPrompt(field);
      var fieldType := FieldTypeOf(field);
      ghost var total := RunField(field, maxRetries, script);
      ghost var said: seq<string> := [];
      ghost var script0, spoken0, count0 := script, spoken, listenCount;
      for attempt := 0 to maxRetries
        invariant script == Advance(script0, attempt) && listenCount == count0 + attempt
        invariant spoken == spoken0 + said
        invariant total == After(attempt, said, RunAttempts(prompt, fieldType, JudgeFor(fieldType), attempt, maxRetries, script))
      {
        ghost var before := script;
        r := Attempt(prompt, fieldType, attempt, maxRetries);
        ghost var step := AttemptSpeech(prompt, NextOutcome(before), r, fieldType, attempt, maxRetries);
        RunAttemptsStep(prompt, fieldType, JudgeFor(fieldType), attempt, maxRetries, before, attempt, said, total);
        AdvanceTwice(script0, attempt, 1);
        ConcatAssoc(spoken0, said, step);
        said := said + step;
        if !r.NotCollected? {
          return;
        }
      }
      RunAttemptsDone(prompt, fieldType, JudgeFor(fieldType), maxRetries, script, maxRetries, said, total);
      r := NotCollected;
    }

    /** `collectFieldData(field)`, with its default of three attempts. */
    method CollectField(field: Field) returns (r: FieldResult)
      modifies this
      ensures var run := Ask(field, old(script));
        && r == run.result
        && script == Advance(old(script), run.listens)
        && spoken == old(spoken) + run.speech
      ensures listenCount == old(listenCount) + Ask(field, old(script)).listens <= old(listenCount) + DefaultMaxRetries
    {
      RunFieldSpec(field, DefaultMaxRetries, script);
      r := CollectFieldData(field, DefaultMaxRetries);
    }

    /**
     * The loop of `collectAllData`: every field in order until one is
     * aborted, storing each collected value; the record, or `null` after an
     * abort, whose cancellation notice it speaks.
     */
    method AskFields(fields: seq<Field>) returns (record: Option<map<string, string>>)
      modifies this
      ensures AskedFields(fields, old(script), old(spoken), record, script, spoken)
      ensures listenCount == old(listenCount) + CollectFields(Ask, fields, old(script), map[]).listens
    {
      ghost var script0, spoken0 := old(script), old(spoken);
      ghost var count0 := listenCount;
      ghost var total := CollectFields(Ask, fields, old(script), map[]);
      var collectedData: map<string, string> := map[];
      ghost var listened: nat, said: seq<string> := 0, [];
      for i := 0 to |fields|
        invariant script == Advance(script0, listened)
        invariant spoken == spoken0 + said
        invariant listenCount == count0 + listened
        invariant total == SessionAfter(listened, said, CollectFields(Ask, fields[i..], script, collectedData))
      {
        var field := fields[i];
        ghost var before := script;
        ghost var run := Ask(field, before);
        AskFieldsStep(Ask, fields, i, script0, spoken0, listened, said, collectedData, total, before, run);
        var response := CollectField(field);
        if IsAbortSignal(response) {
          Speak(CancelledNotice);
          record := None;
          assert AskedFields(fields, script0, spoken0, record, script, spoken);
          return;
        }
        collectedData := Store(collectedData, field, response);
        listened, said := listened + run.listens, said + run.speech;
      }
      assert fields[|fields|..] == [] && said + [] == said;
      assert total == Session(Some(collectedData), listened, said);
      record := Some(collectedData);
      assert AskedFields(fields, script0, spoken0, record, script, spoken);
    }

    /**
     * The whole session: the introduction, the fields, and the completion
     * notice unless it was aborted.
     */
    method CollectAllData(fields: seq<Field>) returns (record: Option<map<string, string>>)
      modifies this
      ensures var s := CollectAll(Ask, fields, old(script));
        && record == s.record
        && script == Advance(old(script), s.listens)
        && listenCount == old(listenCount) + s.listens
        && spoken == old(spoken) + s.speech
    {
      ghost var spoken0, script0 := spoken, script;
      ghost var s := CollectFields(Ask, fields, script, map[]);
      Speak(IntroNotice);
      record := AskFields(fields);
      ConcatAssoc(spoken0, [IntroNotice], s.speech);
      if record.Some? {
        Speak(CompleteNotice);
        ConcatAssoc(spoken0, [IntroNotice] + s.speech, [CompleteNotice]);
      }
    }
  }
}
