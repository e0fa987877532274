/** The conversation session of the OpenAI chat core: the prompt history kept as rounds of a
    user entry and an assistant entry, one token count per round, the window of recent rounds
    packed into a token budget for each request, and the name-keyed registry of sessions. */
module ChatSession {
  import opened Wrappers
  import opened PyStrings

  /** One prompt entry, `{'role': ..., 'content': ...}`. */
  datatype PromptEntry = PromptEntry(role: string, content: string)

  // ---------------------------------------------------------------- the packing window

  function Sum(s: seq<int>): int {
    if s == [] then 0 else s[0] + Sum(s[1..])
  }

  /** Summing a prefix one element longer adds that element. */
  lemma {:induction false} SumSnoc(s: seq<int>, i: nat)
    requires i < |s|
    ensures Sum(s[..i + 1]) == Sum(s[..i]) + s[i]
  {
    if i > 0 {
      assert s[..i + 1][1..] == s[1..][..i];
      assert s[..i][1..] == s[1..][..i - 1];
      SumSnoc(s[1..], i - 1);
    }
  }

  /** `for token_count in counts: total += token_count`. */
  method Total(counts: seq<int>) returns (total: int)
    ensures total == Sum(counts)
  {
    total := 0;
    for i := 0 to |counts|
      invariant total == Sum(counts[..i])
    {
      SumSnoc(counts, i);
      total := total + counts[i];
    }
    assert counts[..|counts|] == counts;
  }

  /** The tokens of the newest `j` rounds. */
  function SuffixSum(counts: seq<int>, j: nat): int
    requires j <= |counts|
  {
    Sum(counts[|counts| - j..])
  }

  lemma SuffixSumStep(counts: seq<int>, j: nat)
    requires j < |counts|
    ensures SuffixSum(counts, j + 1) == counts[|counts| - 1 - j] + SuffixSum(counts, j)
  {
    assert counts[|counts| - (j + 1)..][1..] == counts[|counts| - j..];
  }

  /** The rounds the loop can reach: it stops when either index runs below zero. */
  function Available(counts: seq<int>, promptLen: nat): (r: nat)
    ensures r <= |counts|
  {
    if |counts| <= (promptLen + 1) / 2 then |counts| else (promptLen + 1) / 2
  }

  /** Greedy packing from round `j` on: take the next older round while it fits. */
  function Greedy(counts: seq<int>, avail: nat, budget: int, j: nat): (r: nat)
    requires j <= avail <= |counts|
    ensures j <= r <= avail
    decreases avail - j
  {
    if j < avail && SuffixSum(counts, j + 1) <= budget then Greedy(counts, avail, budget, j + 1) else j
  }

  /** How many of the newest rounds `cut_out` packs. */
  function PackedRounds(counts: seq<int>, promptLen: nat, budget: int): (r: nat)
    ensures r <= Available(counts, promptLen)
  {
    Greedy(counts, Available(counts, promptLen), budget, 0)
  }

  lemma {:induction false} GreedyFacts(counts: seq<int>, avail: nat, budget: int, j: nat)
    requires j <= avail <= |counts|
    requires forall m :: 0 < m <= j ==> SuffixSum(counts, m) <= budget
    ensures forall m :: 0 < m <= Greedy(counts, avail, budget, j) ==> SuffixSum(counts, m) <= budget
    ensures var k := Greedy(counts, avail, budget, j); k == avail || SuffixSum(counts, k + 1) > budget
    decreases avail - j
  {
    if j < avail && SuffixSum(counts, j + 1) <= budget {
      GreedyFacts(counts, avail, budget, j + 1);
    }
  }

  lemma GreedyStep(counts: seq<int>, avail: nat, budget: int, j: nat)
    requires j < avail <= |counts| && SuffixSum(counts, j + 1) <= budget
    ensures Greedy(counts, avail, budget, j) == Greedy(counts, avail, budget, j + 1)
  {
  }

  lemma GreedyStop(counts: seq<int>, avail: nat, budget: int, j: nat)
    requires j <= avail <= |counts| && (j == avail || SuffixSum(counts, j + 1) > budget)
    ensures Greedy(counts, avail, budget, j) == j
  {
  }

  /** The window is greedy from the newest round: every packed prefix fits the budget, and
      packing stops at the first older round that would not fit (or when history runs out). */
  lemma PackingIsGreedy(counts: seq<int>, promptLen: nat, budget: int)
    ensures var k := PackedRounds(counts, promptLen, budget);
      && k <= Available(counts, promptLen)
      && (forall m :: 0 < m <= k ==> SuffixSum(counts, m) <= budget)
      && (k == Available(counts, promptLen) || SuffixSum(counts, k + 1) > budget)
  {
    GreedyFacts(counts, Available(counts, promptLen), budget, 0);
  }

  /** The packed history entries after `k` rounds, in original order. With an odd-length
      prompt the last round's second insert reads `prompt[-1]`, the newest entry. */
  function History(prompt: seq<PromptEntry>, k: nat): seq<PromptEntry>
    requires k <= (|prompt| + 1) / 2
  {
    if 2 * k <= |prompt| then prompt[|prompt| - 2 * k..] else [prompt[|prompt| - 1]] + prompt
  }

  /** One loop step of `cut_out` adds the next older round in front of the history. */
  lemma HistoryStep(prompt: seq<PromptEntry>, j: nat)
    requires 2 * j + 1 <= |prompt|
    ensures History(prompt, j + 1) == [PyAt(prompt, |prompt| - 2 - 2 * j)] + ([prompt[|prompt| - 1 - 2 * j]] + History(prompt, j))
  {
    if 2 * (j + 1) <= |prompt| {
      assert prompt[|prompt| - 2 * (j + 1)..] == [prompt[|prompt| - 2 - 2 * j], prompt[|prompt| - 1 - 2 * j]] + prompt[|prompt| - 2 * j..];
    } else {
      assert |prompt| == 2 * j + 1;
      assert prompt[|prompt| - 2 * j..] == prompt[1..];
      assert prompt == [prompt[0]] + prompt[1..];
    }
  }

  /** One loop step of `cut_out` puts the next older count in front of the packed counts. */
  lemma CountsStep(counts: seq<int>, j: nat)
    requires j < |counts|
    ensures counts[|counts| - (j + 1)..] == [counts[|counts| - 1 - j]] + counts[|counts| - j..]
  {
  }

  /** The loop test `changable_index >= 0 and token_count_index >= 0` at round `j`. */
  lemma LoopTest(prompt: seq<PromptEntry>, counts: seq<int>, j: nat)
    ensures (|prompt| - 1 - 2 * j >= 0 && |counts| - 1 - j >= 0) <==> j < Available(counts, |prompt|)
  {
  }

  /** The request `cut_out` returns: the default prompt, the packed history, then the new
      question. */
  function WindowRequest(defaultPrompt: seq<PromptEntry>, prompt: seq<PromptEntry>, counts: seq<int>,
                         msg: string, maxTokens: int): seq<PromptEntry>
  {
    defaultPrompt + History(prompt, PackedRounds(counts, |prompt|, maxTokens)) + [PromptEntry("user", msg)]
  }

  /** The token counts `cut_out` returns: those of the packed rounds, oldest first. */
  function WindowCounts(counts: seq<int>, promptLen: nat, maxTokens: int): seq<int> {
    counts[|counts| - PackedRounds(counts, promptLen, maxTokens)..]
  }

  /** The count `append` records for a round: the total usage of the request minus the
      tokens of the history packed into it. */
  function RoundTokens(counts: seq<int>, promptLen: nat, maxTokens: int, totalToken: int): int {
    totalToken - Sum(WindowCounts(counts, promptLen, maxTokens))
  }

  /** With the round invariant `|prompt| == 2 * |counts|` the packed history is a
      contiguous suffix of the prompt covering exactly the packed rounds. */
  lemma BalancedWindow(defaultPrompt: seq<PromptEntry>, prompt: seq<PromptEntry>, counts: seq<int>,
                       msg: string, maxTokens: int)
    requires |prompt| == 2 * |counts|
    ensures var k := PackedRounds(counts, |prompt|, maxTokens);
      && 2 * k <= |prompt|
      && WindowRequest(defaultPrompt, prompt, counts, msg, maxTokens)
           == defaultPrompt + prompt[|prompt| - 2 * k..] + [PromptEntry("user", msg)]
      && |WindowCounts(counts, |prompt|, maxTokens)| == k
  {
  }

  /** Python's `seq[i]` with a possibly negative index. */
  function PyAt<T>(s: seq<T>, i: int): T
    requires -|s| <= i < |s|
  {
    if i < 0 then s[|s| + i] else s[i]
  }

  // ---------------------------------------------------------------- persistence key

  datatype PersistOutcome =
    | Skipped                                      // prompt equals the default prompt
    | Row(subjectType: string, subjectNumber: int) // handed to the database
    | NameIndexError                               // no '_' in the name
    | NameValueError                               // segment 1 is not an integer
  {
    /** `persistence` raises instead of writing or skipping. */
    predicate Raises() { NameIndexError? || NameValueError? }
  }

  /** A `persistence` call was made and raised. */
  predicate PersistRaised(p: Option<PersistOutcome>) {
    p.Some? && p.value.Raises()
  }

  predicate IsDigit(c: char) { '0' <= c <= '9' }

  function DigitsValue(s: string): int
    requires forall k :: 0 <= k < |s| ==> IsDigit(s[k])
  {
    if s == [] then 0 else DigitsValue(s[..|s| - 1]) * 10 + (s[|s| - 1] as int - '0' as int)
  }

  /** Digits with single underscores between them, as Python's `int()` accepts: digits at
      both ends, and a digit after every underscore. */
  predicate IsDigitRun(s: string) {
    && s != [] && IsDigit(s[0]) && IsDigit(s[|s| - 1])
    && (forall k :: 0 <= k < |s| ==> IsDigit(s[k]) || s[k] == '_')
    && (forall i, j :: 0 <= i < |s| && j == i + 1 && j < |s| && s[i] == '_' ==> IsDigit(s[j]))
  }

  function RemoveUnderscores(s: string): (r: string)
    ensures |r| <= |s|
    ensures (forall k :: 0 <= k < |s| ==> IsDigit(s[k]) || s[k] == '_') ==> forall k :: 0 <= k < |r| ==> IsDigit(r[k])
    ensures '_' !in s ==> r == s
  {
    if s == [] then [] else (if s[0] == '_' then [] else [s[0]]) + RemoveUnderscores(s[1..])
  }

  /** Python `int(text)` for ASCII decimal text: surrounding whitespace, an optional sign and
      a digit run. */
  function ParseInt(text: string): Option<int> {
    ParseSigned(Strip(text))
  }

  /** `int()` on text already stripped: an optional sign, then a digit run. */
  function ParseSigned(t: string): Option<int> {
    var negative := t != [] && t[0] == '-';
    var body := if t != [] && (t[0] == '-' || t[0] == '+') then t[1..] else t;
    if !IsDigitRun(body) then None
    else
      var v := DigitsValue(RemoveUnderscores(body));
      Some(if negative then -v else v)
  }

  /** The key `persistence` hands to the database: nothing when the prompt is the default
      prompt; otherwise the name split at '_', segment 0 and `int(segment 1)`. */
  function PersistenceKey(name: string, prompt: seq<PromptEntry>, currentDefault: seq<PromptEntry>): PersistOutcome {
    if prompt == currentDefault then Skipped
    else
      var parts := Split(name, '_');
      if |parts| < 2 then NameIndexError
      else match ParseInt(parts[1])
        case None => NameValueError
        case Some(n) => Row(parts[0], n)
  }

  function DigitChar(d: int): char
    requires 0 <= d < 10
  {
    ('0' as int + d) as char
  }

  /** The decimal text of a number, as `str(n)` writes it. */
  function DecimalString(n: nat): (r: string)
    ensures r != [] && forall k :: 0 <= k < |r| ==> IsDigit(r[k])
  {
    if n < 10 then [DigitChar(n)] else DecimalString(n / 10) + [DigitChar(n % 10)]
  }

  lemma {:induction false} DecimalRoundTrip(n: nat)
    ensures DigitsValue(DecimalString(n)) == n
  {
    var s := DecimalString(n);
    if n < 10 {
      assert s[..0] == [];
    } else {
      DecimalRoundTrip(n / 10);
      assert s[..|s| - 1] == DecimalString(n / 10);
    }
  }

  /** Plain digits form a digit run without underscores. */
  lemma DigitsAreRun(d: string)
    requires d != [] && forall k :: 0 <= k < |d| ==> IsDigit(d[k])
    ensures IsDigitRun(d) && '_' !in d && RemoveUnderscores(d) == d
  {
    assert '_' !in d by {
      forall k | 0 <= k < |d| ensures d[k] != '_' { assert IsDigit(d[k]); }
    }
  }

  lemma SignedDigits(d: string)
    requires d != [] && forall k :: 0 <= k < |d| ==> IsDigit(d[k])
    ensures ParseSigned(d) == Some(DigitsValue(d))
  {
    DigitsAreRun(d);
    assert IsDigit(d[0]);
  }

  lemma StripDigits(d: string)
    requires d != [] && forall k :: 0 <= k < |d| ==> IsDigit(d[k])
    ensures Strip(d) == d
  {
    assert IsDigit(d[0]) && IsDigit(d[|d| - 1]);
    StripUnpadded(d);
  }

  /** Unsigned, unpadded digits parse to their value. */
  lemma ParseDigits(d: string)
    requires d != [] && forall k :: 0 <= k < |d| ==> IsDigit(d[k])
    ensures ParseInt(d) == Some(DigitsValue(d))
  {
    StripDigits(d);
    SignedDigits(d);
  }

  /** `int(str(n))` is `n`. */
  lemma ParseDecimal(n: nat)
    ensures ParseInt(DecimalString(n)) == Some(n)
  {
    ParseDigits(DecimalString(n));
    DecimalRoundTrip(n);
  }

  /** `(t + "_" + d).split("_")` is `[t, d]` when neither side holds '_'. */
  lemma SplitTwo(t: string, d: string)
    requires '_' !in t && '_' !in d
    ensures Split(t + "_" + d, '_') == [t, d]
  {
    SplitAtSep(t, '_', d);
    SplitWithoutSep(t, '_');
    SplitWithoutSep(d, '_');
    assert t + "_" + d == t + ['_'] + d;
  }

  /** A session named `type + "_" + str(number)` persists under that type and number. */
  lemma PersistenceKeyOfName(subjectType: string, number: nat, prompt: seq<PromptEntry>, currentDefault: seq<PromptEntry>)
    requires '_' !in subjectType && prompt != currentDefault
    ensures PersistenceKey(subjectType + "_" + DecimalString(number), prompt, currentDefault) == Row(subjectType, number)
  {
    var d := DecimalString(number);
    assert '_' !in d by {
      forall k | 0 <= k < |d| ensures d[k] != '_' { assert IsDigit(d[k]); }
    }
    SplitTwo(subjectType, d);
    ParseDecimal(number);
  }

  /** A name without '_' makes `persistence` fail with an index error. */
  lemma PersistenceNeedsUnderscore(name: string, prompt: seq<PromptEntry>, currentDefault: seq<PromptEntry>)
    requires '_' !in name && prompt != currentDefault
    ensures PersistenceKey(name, prompt, currentDefault) == NameIndexError
  {
    SplitWithoutSep(name, '_');
  }

  // ---------------------------------------------------------------- sessions

  /** What `append` produced: the plugin event prevented it (`None`), or the request went out
      and the reply came back; `answer` is `None` where `res_ans[0]` raises because the
      stripped reply is empty (the history has been extended by then). */
  datatype AppendOutcome =
    | Prevented
    | Completed(request: seq<PromptEntry>, answer: Option<string>)

  /** The answer `append` hands back from the stripped reply: `res_ans[0]` fails on an empty
      reply, and a leading newline is dropped. */
  function ReplyAnswer(resAns: string): Option<string> {
    if resAns == [] then None
    else if resAns[0] != '\n' then Some(resAns)
    else Some(resAns[1..])
  }

  /** On a stripped reply the newline branch never fires: the answer is the stripped reply,
      and there is none exactly when the reply is all whitespace. */
  lemma StrippedAnswer(reply: string)
    ensures ReplyAnswer(Strip(reply)) == (if Strip(reply) == [] then None else Some(Strip(reply)))
    ensures ReplyAnswer(Strip(reply)).None? <==> forall k :: 0 <= k < |reply| ==> IsSpace(reply[k])
  {
    var r := Strip(reply);
    if r != [] {
      assert !IsSpace(r[0]);
    }
    StripAllSpace(reply);
  }

  /** The loop of `cut_out` on the session's history: walks it from the newest round, two
      entries and one count at a time, while the packed tokens stay within `maxTokens`. */
  method PackWindow(defaultPrompt: seq<PromptEntry>, prompt: seq<PromptEntry>, tokenCounts: seq<int>,
                    msg: string, maxTokens: int)
    returns (resultPrompt: seq<PromptEntry>, counts: seq<int>)
    ensures resultPrompt == WindowRequest(defaultPrompt, prompt, tokenCounts, msg, maxTokens)
    ensures counts == WindowCounts(tokenCounts, |prompt|, maxTokens)
  {
    var changablePrompts: seq<PromptEntry> := [];
    var changableCounts: seq<int> := [];
    var changableIndex := |prompt| - 1;
    var tokenCountIndex := |tokenCounts| - 1;
    var packedTokens := 0;
    ghost var avail := Available(tokenCounts, |prompt|);
    ghost var j: nat := 0;

    while changableIndex >= 0 && tokenCountIndex >= 0
      invariant j <= avail
      invariant changableIndex == |prompt| - 1 - 2 * j
      invariant tokenCountIndex == |tokenCounts| - 1 - j
      invariant packedTokens == SuffixSum(tokenCounts, j)
      invariant changableCounts == tokenCounts[|tokenCounts| - j..]
      invariant changablePrompts == History(prompt, j)
      invariant Greedy(tokenCounts, avail, maxTokens, 0) == Greedy(tokenCounts, avail, maxTokens, j)
      decreases tokenCountIndex
    {
      LoopTest(prompt, tokenCounts, j);
      SuffixSumStep(tokenCounts, j);
      if packedTokens + tokenCounts[tokenCountIndex] > maxTokens {
        GreedyStop(tokenCounts, avail, maxTokens, j);
        break;
      }
      GreedyStep(tokenCounts, avail, maxTokens, j);
      HistoryStep(prompt, j);
      CountsStep(tokenCounts, j);
      changablePrompts := [prompt[changableIndex]] + changablePrompts;
      changablePrompts := [PyAt(prompt, changableIndex - 1)] + changablePrompts;
      changableCounts := [tokenCounts[tokenCountIndex]] + changableCounts;
      packedTokens := packedTokens + tokenCounts[tokenCountIndex];
      changableIndex := changableIndex - 2;
      tokenCountIndex := tokenCountIndex - 1;
      j := j + 1;
    }
    LoopTest(prompt, tokenCounts, j);
    if j == avail {
      GreedyStop(tokenCounts, avail, maxTokens, j);
    }
    assert j == PackedRounds(tokenCounts, |prompt|, maxTokens);
    resultPrompt := defaultPrompt + changablePrompts;
    resultPrompt := resultPrompt + [PromptEntry("user", msg)];
    counts := changableCounts;
  }

  class Session {
    var name: string
    var prompt: seq<PromptEntry>
    var tokenCounts: seq<int>
    var defaultPrompt: seq<PromptEntry>
    var createTimestamp: int
    var lastInteractTimestamp: int
    var justSwitchedToExistSession: bool

    /** One token count per round of two entries. */
    predicate Balanced()
      reads this
    {
      |prompt| == 2 * |tokenCounts|
    }

    /** `Session(name)`: the clock reading `now` and the default prompt chosen by the
        prompt mode are inputs. */
    constructor (name: string, defaultPrompt: seq<PromptEntry>, now: int)
      ensures this.name == name && this.defaultPrompt == defaultPrompt
      ensures prompt == [] && tokenCounts == [] && Balanced()
      ensures createTimestamp == now && lastInteractTimestamp == now
      ensures !justSwitchedToExistSession
    {
      this.name := name;
      this.defaultPrompt := defaultPrompt;
      prompt, tokenCounts := [], [];
      createTimestamp, lastInteractTimestamp := now, now;
      justSwitchedToExistSession := false;
    }

    /** `cut_out`: the packing loop on this session's history. Changes nothing. */
    method CutOut(msg: string, maxTokens: int) returns (resultPrompt: seq<PromptEntry>, counts: seq<int>)
      ensures resultPrompt == WindowRequest(defaultPrompt, prompt, tokenCounts, msg, maxTokens)
    ensures counts == WindowCounts(tokenCounts, |prompt|, maxTokens)
    {
      resultPrompt, counts := PackWindow(defaultPrompt, prompt, tokenCounts, msg, maxTokens);
    }

    /** The two `prompt.append` calls and the `token_counts.append` of `append`. */
    method AddRound(question: string, answer: string, tokens: int)
      modifies this`prompt, this`tokenCounts
      ensures prompt == old(prompt) + [PromptEntry("user", question), PromptEntry("assistant", answer)]
      ensures tokenCounts == old(tokenCounts) + [tokens]
      ensures old(Balanced()) ==> Balanced()
    {
      prompt := prompt + [PromptEntry("user", question)];
      prompt := prompt + [PromptEntry("assistant", answer)];
      tokenCounts := tokenCounts + [tokens];
    }

    /** `append`, with the plugin event's verdict, the submit length from the config, the
        completion's reply text and total token usage, and the clock as inputs. */
    method Append(text: string, maxLength: int, firstMessagePrevented: bool, reply: string, totalToken: int, now: int)
      returns (outcome: AppendOutcome)
      modifies this
      ensures lastInteractTimestamp == now
      ensures name == old(name) && defaultPrompt == old(defaultPrompt) && createTimestamp == old(createTimestamp)
      ensures outcome.Prevented? <==> old(prompt) == [] && firstMessagePrevented
      ensures outcome.Prevented? ==>
        (prompt == old(prompt) && tokenCounts == old(tokenCounts)
         && justSwitchedToExistSession == old(justSwitchedToExistSession))
      ensures outcome.Completed? ==>
        outcome.request == WindowRequest(old(defaultPrompt), old(prompt), old(tokenCounts), text, maxLength)
      ensures outcome.Completed? ==>
        prompt == old(prompt) + [PromptEntry("user", text), PromptEntry("assistant", Strip(reply))]
      ensures outcome.Completed? ==>
        tokenCounts == old(tokenCounts) + [RoundTokens(old(tokenCounts), |old(prompt)|, maxLength, totalToken)]
      ensures outcome.Completed? ==> !justSwitchedToExistSession && outcome.answer == ReplyAnswer(Strip(reply))
      ensures old(Balanced()) ==> Balanced()
    {
      lastInteractTimestamp := now;
      if prompt == [] && firstMessagePrevented {
        return Prevented;
      }
      outcome := Complete(text, maxLength, reply, totalToken);
    }

    /** The part of `append` after the plugin event: the request window, the round added to
        the history and the answer. */
    method Complete(text: string, maxLength: int, reply: string, totalToken: int)
      returns (outcome: AppendOutcome)
      modifies this`prompt, this`tokenCounts, this`justSwitchedToExistSession
      ensures outcome.Completed?
      ensures outcome.request == WindowRequest(defaultPrompt, old(prompt), old(tokenCounts), text, maxLength)
      ensures prompt == old(prompt) + [PromptEntry("user", text), PromptEntry("assistant", Strip(reply))]
      ensures tokenCounts == old(tokenCounts) + [RoundTokens(old(tokenCounts), |old(prompt)|, maxLength, totalToken)]
      ensures !justSwitchedToExistSession && outcome.answer == ReplyAnswer(Strip(reply))
      ensures old(Balanced()) ==> Balanced()
    {
      var prompts, counts := CutOut(text, maxLength);

      var totalTokenBeforeQuery := Total(counts);
      assert totalToken - totalTokenBeforeQuery == RoundTokens(tokenCounts, |prompt|, maxLength, totalToken);

      var resAns := Strip(reply);
      AddRound(text, resAns, totalToken - totalTokenBeforeQuery);
      if justSwitchedToExistSession {
        justSwitchedToExistSession := false;
      }
      return Completed(prompts, ReplyAnswer(resAns));
    }

    /** `undo`: fails with fewer than two entries; otherwise hands back the last question and
        drops the last round. */
    method Undo(now: int) returns (r: Result<string, string>)
      modifies this
      ensures lastInteractTimestamp == now
      ensures name == old(name) && defaultPrompt == old(defaultPrompt) && createTimestamp == old(createTimestamp)
      ensures justSwitchedToExistSession == old(justSwitchedToExistSession)
      ensures r.Failure? <==> |old(prompt)| < 2
      ensures r.Failure? ==> prompt == old(prompt) && tokenCounts == old(tokenCounts)
      ensures r.Success? ==>
        && r.value == old(prompt)[|old(prompt)| - 2].content
        && prompt == old(prompt)[..|old(prompt)| - 2]
        && tokenCounts == (if old(tokenCounts) == [] then [] else old(tokenCounts)[..|old(tokenCounts)| - 1])
      ensures old(Balanced()) ==> Balanced()
    {
      lastInteractTimestamp := now;
      if |prompt| < 2 {
        return Failure("之前无对话，无法撤销");
      }
      var question := prompt[|prompt| - 2].content;
      prompt := prompt[..|prompt| - 2];
      tokenCounts := if tokenCounts == [] then [] else tokenCounts[..|tokenCounts| - 1];
      return Success(question);
    }

    /** `reset`: a non-empty history is persisted first, and a persistence that raises
        leaves the session as it was; otherwise a fresh default prompt (from the prompt mode,
        an input here, as is the current default prompt `currentDefault`) and an empty
        history. Returns the key of the persistence step, `None` when it is not called; the
        database bookkeeping and the timer are not modelled. */
    method Reset(newDefaultPrompt: seq<PromptEntry>, currentDefault: seq<PromptEntry>, now: int)
      returns (persisted: Option<PersistOutcome>)
      modifies this
      ensures name == old(name)
      ensures persisted.None? <==> old(prompt) == []
      ensures old(prompt) != [] ==> persisted == Some(PersistenceKey(name, old(prompt), currentDefault))
      ensures PersistRaised(persisted) ==>
        && prompt == old(prompt) && tokenCounts == old(tokenCounts) && defaultPrompt == old(defaultPrompt)
        && createTimestamp == old(createTimestamp) && lastInteractTimestamp == old(lastInteractTimestamp)
        && justSwitchedToExistSession == old(justSwitchedToExistSession)
      ensures !PersistRaised(persisted) ==>
        && defaultPrompt == newDefaultPrompt && prompt == [] && tokenCounts == []
        && createTimestamp == now && lastInteractTimestamp == now && !justSwitchedToExistSession
        && Balanced()
    {
      persisted := None;
      if prompt != [] {
        persisted := Some(PersistenceKey(name, prompt, currentDefault));
        if persisted.value.Raises() {
          return;
        }
      }
      defaultPrompt := newDefaultPrompt;
      prompt := [];
      tokenCounts := [];
      createTimestamp := now;
      lastInteractTimestamp := now;
      justSwitchedToExistSession := false;
    }
  }

  /** `append` followed by `undo` on one session: when the append went through, the undo
      hands back its question and restores the history and the counts; when the plugin
      prevented it, the history was empty and the undo fails. */
  method AppendUndoRestores(s: Session, text: string, maxLength: int, firstMessagePrevented: bool,
                            reply: string, totalToken: int, now: int, later: int)
    returns (appended: AppendOutcome, undone: Result<string, string>)
    modifies s
    ensures appended.Completed? ==> undone == Success(text)
    ensures appended.Prevented? ==> undone.Failure?
    ensures s.prompt == old(s.prompt) && s.tokenCounts == old(s.tokenCounts)
    ensures s.lastInteractTimestamp == later
  {
    appended := s.Append(text, maxLength, firstMessagePrevented, reply, totalToken, now);
    undone := s.Undo(later);
  }

  /** The module-level `sessions` dict. */
  class SessionRegistry {
    var sessions: map<string, Session>

    constructor ()
      ensures sessions == map[]
    {
      sessions := map[];
    }

    /** `get_session`: the registered session of that name, or a new one registered under it. */
    method GetSession(sessionName: string, defaultPrompt: seq<PromptEntry>, now: int) returns (s: Session)
      modifies this
      ensures sessionName in old(sessions) ==> s == old(sessions)[sessionName] && sessions == old(sessions)
      ensures sessionName !in old(sessions) ==>
        && fresh(s) && sessions == old(sessions)[sessionName := s]
        && s.name == sessionName && s.prompt == [] && s.tokenCounts == [] && s.defaultPrompt == defaultPrompt
    {
      if sessionName !in sessions {
        var created := new Session(sessionName, defaultPrompt, now);
        sessions := sessions[sessionName := created];
      }
      s := sessions[sessionName];
    }

    /** `dump_session`: persists and unregisters the session; a no-op for an unknown name.
        Returns the key the persistence step computes; when it raises, the session stays
        registered. */
    method DumpSession(sessionName: string, currentDefault: seq<PromptEntry>) returns (persisted: Option<PersistOutcome>)
      modifies this
      ensures PersistRaised(persisted) ==> sessions == old(sessions)
      ensures !PersistRaised(persisted) ==> sessions == old(sessions) - {sessionName}
      ensures sessionName !in old(sessions) <==> persisted.None?
      ensures sessionName in old(sessions) ==>
        persisted == Some(PersistenceKey(old(sessions)[sessionName].name, old(sessions)[sessionName].prompt, currentDefault))
    {
      if sessionName in sessions {
        var s := sessions[sessionName];
        persisted := Some(PersistenceKey(s.name, s.prompt, currentDefault));
        if persisted.value.Raises() {
          return;
        }
        sessions := sessions - {sessionName};
      } else {
        persisted := None;
      }
    }
  }
}
