/** The `TickerInput` form: the input cell `ticker`, its `onChange` normalisation, the
    submit guard and the loading messages, all driven by the hook's current step. */
module TickerInput {
  import opened Results
  import opened Text
  import opened ResearchTypes
  import CompanyResearch

  /** The input keeps at most this many characters. */
  const MaxInputLength: nat := 5

  const FetchingMessage: string := "Fetching company filings..."
  const AnalyzingMessage: string := "Analyzing data with AI..."
  const GeneratingMessage: string := "Generating report..."

  /** An analysis is in flight. */
  predicate IsLoading(step: AnalysisStep) {
    step == Fetching || step == Analyzing || step == Generating
  }

  /** The progress line shown under the form: one fixed message per loading step, none in
      any other step. */
  function StepMessage(step: AnalysisStep): (m: Option<string>)
    ensures m.Some? <==> IsLoading(step)
    ensures step == Fetching ==> m == Some(FetchingMessage)
    ensures step == Analyzing ==> m == Some(AnalyzingMessage)
    ensures step == Generating ==> m == Some(GeneratingMessage)
  {
    match step
    case Fetching => Some(FetchingMessage)
    case Analyzing => Some(AnalyzingMessage)
    case Generating => Some(GeneratingMessage)
    case _ => None
  }

  /** What `onChange` stores for a typed value: the value upper-cased and cut to its first
      five characters. */
  function NormalizeInput(value: string): (r: string)
    ensures |r| == Min(MaxInputLength, |value|) && |r| <= MaxInputLength
    ensures forall i :: 0 <= i < |r| ==> r[i] == UpperChar(value[i])
    ensures NoLower(r)
  {
    ToUpper(value)[..Min(MaxInputLength, |value|)]
  }

  class TickerForm {
    var ticker: string

    constructor ()
      ensures ticker == ""
    {
      ticker := "";
    }

    /** The submit button is disabled: the input is blank or an analysis is in flight. */
    predicate ButtonDisabled(step: AnalysisStep)
      reads this
    {
      Trim(ticker) == "" || IsLoading(step)
    }

    /** `onChange`: store the normalised value. The input is disabled while an analysis is in
        flight, so this happens only in a step that is not loading. */
    method OnChange(value: string, step: AnalysisStep)
      requires !IsLoading(step)
      modifies this
      ensures ticker == NormalizeInput(value)
    {
      ticker := ToUpper(value)[..Min(MaxInputLength, |value|)];
    }

    /** `handleSubmit`: `fired` is the value passed to `onAnalyze`, if it is called. It is
        called exactly when the button is enabled, and with the stored value as it is,
        untrimmed. */
    method HandleSubmit(step: AnalysisStep) returns (fired: Option<string>)
      ensures fired.Some? <==> !ButtonDisabled(step)
      ensures fired.Some? ==> fired.value == ticker
    {
      if Trim(ticker) != "" && !IsLoading(step) {
        fired := Some(ticker);
      } else {
        fired := None;
      }
    }
  }

  /** Normalising a stored value again leaves it as it is. */
  lemma NormalizeIdempotent(value: string)
    ensures NormalizeInput(NormalizeInput(value)) == NormalizeInput(value)
  {
    var r := NormalizeInput(value);
    var rr := NormalizeInput(r);
    assert |rr| == |r|;
    forall i | 0 <= i < |r| ensures rr[i] == r[i] {
      assert !IsLower(r[i]);
    }
  }

  /** A typed value of at most five upper-case letters is stored unchanged. */
  lemma ShortUpperKept(value: string)
    requires |value| <= MaxInputLength && NoLower(value)
    ensures NormalizeInput(value) == value
  {
    var r := NormalizeInput(value);
    forall i | 0 <= i < |value| ensures r[i] == value[i] {
      assert !IsLower(value[i]);
    }
  }

  /** While an analysis shows any state but its last, the form cannot submit again; once it
      has settled, the form can submit a non-blank input. */
  lemma NoSubmitInFlight(reply: CompanyResearch.InvokeReply, k: int)
    requires 0 <= k < |CompanyResearch.AnalyzeSnapshots(reply)|
    ensures IsLoading(CompanyResearch.AnalyzeSnapshots(reply)[k].step) <==> k < |CompanyResearch.AnalyzeSnapshots(reply)| - 1
  {
    CompanyResearch.AnalysisStartsLoading(reply);
    CompanyResearch.FinalStep(reply);
  }
}
