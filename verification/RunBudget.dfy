/**
 The budget of one agent run: it ends a run that keeps printing the same output or keeps
 being denied the same permission. Fingerprints are taken as injective, so the trimmed
 text stands for its digest; which texts are denials is a parameter.
 */
module RunBudget {
  import opened Common
  import opened Text

  datatype Limits = Limits(repeatedOutput: int, permissionDenial: int)

  datatype Reason = NoProgress(updates: nat) | PermissionDenials(denials: nat)

  // ---------- What the budget promises ----------

  // The outputs that count: trimmed, without the blank ones.
  function Texts(history: seq<string>): seq<string> {
    if history == [] then []
    else
      var earlier := Texts(history[..|history| - 1]);
      var text := Trim(history[|history| - 1]);
      if text == "" then earlier else earlier + [text]
  }

  predicate LastEqual(texts: seq<string>, n: nat)
    requires n > 0
  {
    |texts| >= n && forall i :: |texts| - n <= i < |texts| ==> texts[i] == texts[|texts| - 1]
  }

  function Occurrences(texts: seq<string>, text: string): nat {
    if texts == [] then 0
    else Occurrences(texts[..|texts| - 1], text) + if texts[|texts| - 1] == text then 1 else 0
  }

  predicate DeniedOften(limits: Limits, denial: string -> bool, texts: seq<string>) {
    exists t :: t in texts && denial(t) && Occurrences(texts, t) >= limits.permissionDenial
  }

  // The last outputs are all the same, or the same permission was denied too often.
  predicate Exhausted(limits: Limits, denial: string -> bool, texts: seq<string>) {
    LastEqual(texts, Max(1, limits.repeatedOutput)) || DeniedOften(limits, denial, texts)
  }

  function ReasonAt(limits: Limits, texts: seq<string>): Reason
    requires texts != []
  {
    if LastEqual(texts, Max(1, limits.repeatedOutput)) then NoProgress(Max(1, limits.repeatedOutput))
    else PermissionDenials(Max(1, limits.permissionDenial))
  }

  // The reason of the first output with which the budget is exhausted.
  function Verdict(limits: Limits, denial: string -> bool, history: seq<string>): Option<Reason> {
    if history == [] then None
    else
      var earlier := Verdict(limits, denial, history[..|history| - 1]);
      if earlier.Some? then earlier
      else if Texts(history) != [] && Exhausted(limits, denial, Texts(history)) then
        Some(ReasonAt(limits, Texts(history)))
      else None
  }

  lemma {:induction false} TerminalIffExhaustedOnce(limits: Limits, denial: string -> bool, history: seq<string>)
    ensures Verdict(limits, denial, history).Some?
            <==> exists k :: 0 <= k <= |history| && Exhausted(limits, denial, Texts(history[..k]))
  {
    assert history[..|history|] == history;
    if history == [] {
      assert !Exhausted(limits, denial, Texts([]));
    } else {
      var earlier := history[..|history| - 1];
      TerminalIffExhaustedOnce(limits, denial, earlier);
      forall k | 0 <= k < |history| ensures history[..k] == earlier[..k] {}
      if Verdict(limits, denial, earlier).Some? {
        var k :| 0 <= k <= |earlier| && Exhausted(limits, denial, Texts(earlier[..k]));
        assert Exhausted(limits, denial, Texts(history[..k]));
      }
    }
  }

  lemma {:induction false} VerdictStays(limits: Limits, denial: string -> bool, history: seq<string>, more: seq<string>)
    requires Verdict(limits, denial, history).Some?
    ensures Verdict(limits, denial, history + more) == Verdict(limits, denial, history)
  {
    if more == [] {
      assert history + more == history;
    } else {
      assert (history + more)[..|history + more| - 1] == history + more[..|more| - 1];
      VerdictStays(limits, denial, history, more[..|more| - 1]);
    }
  }

  // ---------- The counters ----------

  // How many of the last texts are the same.
  function Repeated(texts: seq<string>): nat {
    if texts == [] then 0
    else if |texts| > 1 && texts[|texts| - 2] == texts[|texts| - 1] then 1 + Repeated(texts[..|texts| - 1])
    else 1
  }

  lemma {:induction false} RepeatedMeans(texts: seq<string>, n: nat)
    requires n > 0
    ensures Repeated(texts) >= n <==> LastEqual(texts, n)
  {
    if |texts| > 1 {
      var earlier := texts[..|texts| - 1];
      if n > 1 {
        RepeatedMeans(earlier, n - 1);
        if LastEqual(texts, n) {
          assert texts[|texts| - 2] == texts[|texts| - 1];
          assert LastEqual(earlier, n - 1);
        }
      }
    }
  }

  lemma {:induction false} OccursIffCounted(texts: seq<string>, t: string)
    ensures t in texts <==> Occurrences(texts, t) > 0
  {
    if texts != [] {
      OccursIffCounted(texts[..|texts| - 1], t);
      assert texts == texts[..|texts| - 1] + [texts[|texts| - 1]];
    }
  }

  // Only the text that came last can newly have been denied too often.
  lemma OnlyTheLastCanBeNew(limits: Limits, denial: string -> bool, earlier: seq<string>, text: string)
    requires !DeniedOften(limits, denial, earlier)
    ensures DeniedOften(limits, denial, earlier + [text])
            <==> denial(text) && Occurrences(earlier, text) + 1 >= limits.permissionDenial
  {
  }

  class AgentTeamRunBudget {
    const limits: Limits
    const denial: string -> bool
    var lastOutput: Option<string>
    var repeatedCount: nat
    var denials: map<string, nat>
    var terminalReason: Option<Reason>
    ghost var history: seq<string>

    ghost predicate Counts(texts: seq<string>)
      reads `lastOutput, `repeatedCount, `denials
    {
      && lastOutput == (if texts == [] then None else Some(texts[|texts| - 1]))
      && repeatedCount == Repeated(texts)
      && !Exhausted(limits, denial, texts)
      && forall t :: LookupOr(denials, t, 0) == if denial(t) then Occurrences(texts, t) else 0
    }

    ghost predicate Valid()
      reads this
    {
      && terminalReason == Verdict(limits, denial, history)
      && (terminalReason.None? ==> Counts(Texts(history)))
    }

    constructor (limits: Limits, denial: string -> bool)
      ensures Valid() && history == [] && this.limits == limits && this.denial == denial
    {
      this.limits := limits;
      this.denial := denial;
      lastOutput, repeatedCount, denials, terminalReason, history := None, 0, map[], None, [];
    }

    method CountRepeat(text: string, ghost earlier: seq<string>)
      requires lastOutput == if earlier == [] then None else Some(earlier[|earlier| - 1])
      requires repeatedCount == Repeated(earlier)
      modifies `lastOutput, `repeatedCount
      ensures lastOutput == Some(text) && repeatedCount == Repeated(earlier + [text])
    {
      assert (earlier + [text])[..|earlier|] == earlier;
      if Some(text) == lastOutput {
        repeatedCount := repeatedCount + 1;
      } else {
        lastOutput := Some(text);
        repeatedCount := 1;
      }
    }

    method CountDenial(text: string, ghost earlier: seq<string>) returns (count: nat)
      requires denial(text)
      requires forall t :: LookupOr(denials, t, 0) == if denial(t) then Occurrences(earlier, t) else 0
      modifies `denials
      ensures forall t :: LookupOr(denials, t, 0) == if denial(t) then Occurrences(earlier + [text], t) else 0
      ensures count == Occurrences(earlier, text) + 1
    {
      assert (earlier + [text])[..|earlier|] == earlier;
      count := LookupOr(denials, text, 0) + 1;
      denials := denials[text := count];
    }

    // Counts a text that is not blank, and says whether that ends the run.
    method CountText(text: string, ghost earlier: seq<string>) returns (reason: Option<Reason>)
      requires Counts(earlier)
      modifies `lastOutput, `repeatedCount, `denials
      ensures var texts := earlier + [text];
              && reason == (if Exhausted(limits, denial, texts) then Some(ReasonAt(limits, texts)) else None)
              && (reason.None? ==> Counts(texts))
    {
      SmallLimits(limits, denial, earlier, text);
      CountRepeat(text, earlier);
      if repeatedCount >= limits.repeatedOutput {
        return Some(NoProgress(repeatedCount));
      }
      if denial(text) {
        var count := CountDenial(text, earlier);
        if count >= limits.permissionDenial {
          return Some(PermissionDenials(count));
        }
      } else {
        NoDenial(denial, earlier, text);
      }
      reason := None;
    }

    method Observe(output: string) returns (reason: Option<Reason>)
      requires Valid()
      modifies this
      ensures Valid() && history == old(history) + [output]
      ensures reason == Verdict(limits, denial, history)
    {
      assert (history + [output])[..|history|] == history;
      var normalized := Trim(output);
      if terminalReason.None? && normalized != "" {
        NextVerdict(limits, denial, history, output);
        terminalReason := CountText(normalized, Texts(history));
      }
      history := history + [output];
      reason := terminalReason;
    }
  }

  // What one more text, that is not blank, does to the verdict.
  lemma NextVerdict(limits: Limits, denial: string -> bool, before: seq<string>, output: string)
    requires Verdict(limits, denial, before).None? && Trim(output) != ""
    ensures var texts := Texts(before) + [Trim(output)];
            && Texts(before + [output]) == texts
            && Verdict(limits, denial, before + [output])
               == if Exhausted(limits, denial, texts) then Some(ReasonAt(limits, texts)) else None
  {
  }

  lemma NoDenial(denial: string -> bool, earlier: seq<string>, text: string)
    requires !denial(text)
    ensures forall t :: denial(t) ==> Occurrences(earlier + [text], t) == Occurrences(earlier, t)
  {
  }

  // The counters decide exhaustion, and reach the limits without jumping over them.
  lemma SmallLimits(limits: Limits, denial: string -> bool, earlier: seq<string>, text: string)
    requires !Exhausted(limits, denial, earlier)
    ensures var texts := earlier + [text];
            var repeated := Repeated(texts);
            && (LastEqual(texts, Max(1, limits.repeatedOutput)) <==> repeated >= limits.repeatedOutput)
            && (repeated >= limits.repeatedOutput ==> repeated == Max(1, limits.repeatedOutput))
            && (DeniedOften(limits, denial, texts)
                <==> denial(text) && Occurrences(earlier, text) + 1 >= limits.permissionDenial)
            && (DeniedOften(limits, denial, texts)
                ==> Occurrences(earlier, text) + 1 == Max(1, limits.permissionDenial))
  {
    var texts := earlier + [text];
    assert texts[..|earlier|] == earlier;
    RepeatedMeans(texts, Max(1, limits.repeatedOutput));
    RepeatedMeans(earlier, Max(1, limits.repeatedOutput));
    OnlyTheLastCanBeNew(limits, denial, earlier, text);
    OccursIffCounted(earlier, text);
  }
}
