/** The `useCompanyResearch` hook: three state cells (`report`, `step`, `error`) that
    `analyzeCompany`, `reset` and `saveReport` update in sequence.

    The hook is a class whose fields are the three cells. What the page can observe of an
    analysis is the state at each point where the hook yields (an `await`, or the end of a
    handler); the ghost field `history` records those states. The replies of
    `supabase.functions.invoke`, `auth.getUser` and the insert are parameters; the names the
    edge function was invoked with are recorded in the ghost field `invoked`. */
module CompanyResearch {
  import opened Results
  import opened Text
  import opened ResearchTypes

  const FallbackMessage: string := "Failed to analyze company"

  /** The observable value of the three state cells. */
  datatype Snapshot = Snapshot(report: Option<CompanyReport>, step: AnalysisStep, error: Option<string>)

  /** What `supabase.functions.invoke('analyze-company', …)` hands back: a transport error
      with its message, or the decoded body, which carries an `error` field on failure and
      is the report otherwise. */
  datatype InvokeReply =
    | InvokeFailed(message: string)
    | InvokeData(error: Option<string>, payload: CompanyReport)

  /** What `supabase.auth.getUser()` yields: a signed-in user, nobody, or a thrown error. */
  datatype UserLookup = SignedIn(id: string) | SignedOut | LookupFailed

  /** Which toast `saveReport` ends with, if any. */
  datatype SaveOutcome = NothingToSave | SignInRequired | Saved | SaveFailed

  /** Report and error are present exactly in the step that announces them, and an error
      message is never empty. */
  predicate Consistent(s: Snapshot) {
    && (s.report.Some? <==> s.step == Complete)
    && (s.error.Some? <==> s.step == Error)
    && (s.error.Some? ==> s.error.value != "")
  }

  /** The message `analyzeCompany` throws for a reply, or `None` when the reply is a report. */
  function ThrownMessage(reply: InvokeReply): (m: Option<string>)
    ensures m.None? <==> reply.InvokeData? && !Truthy(reply.error)
    ensures m.Some? ==> m.value != ""
  {
    match reply
    case InvokeFailed(message) => Some(if message != "" then message else FallbackMessage)
    case InvokeData(error, _) => if Truthy(error) then Some(error.value) else None
  }

  /** The states an analysis shows, in order: fetching, analyzing, then either the error or
      generating followed by the completed report. */
  function AnalyzeSnapshots(reply: InvokeReply): (r: seq<Snapshot>)
    ensures |r| >= 3
  {
    var fetching := Snapshot(None, Fetching, None);
    var analyzing := Snapshot(None, Analyzing, None);
    match ThrownMessage(reply)
    case Some(message) => [fetching, analyzing, Snapshot(None, Error, Some(message))]
    case None => [fetching, analyzing, Snapshot(None, Generating, None), Snapshot(Some(reply.payload), Complete, None)]
  }

  /** The row `saveReport` inserts into `company_reports` for a user and a report. */
  function SavedRow(userId: string, r: CompanyReport): SavedReport {
    SavedReport(userId, r.ticker, r.companyName, r.brief, r.comparables)
  }

  class ResearchSession {
    var report: Option<CompanyReport>
    var step: AnalysisStep
    var error: Option<string>
    /** The states shown at each point where the hook yielded, oldest first. */
    ghost var history: seq<Snapshot>
    /** The `ticker` bodies the edge function was invoked with, oldest first. */
    ghost var invoked: seq<string>

    function Current(): Snapshot
      reads this
    {
      Snapshot(report, step, error)
    }

    ghost predicate Valid()
      reads this
    {
      Consistent(Current())
    }

    constructor ()
      ensures Valid()
      ensures Current() == Snapshot(None, Idle, None)
      ensures history == [] && invoked == []
    {
      report, step, error := None, Idle, None;
      history, invoked := [], [];
    }

    /** `analyzeCompany(ticker)`, with `reply` as the outcome of the invocation. */
    method AnalyzeCompany(ticker: string, reply: InvokeReply)
      requires Valid()
      modifies this
      ensures Valid()
      ensures invoked == old(invoked) + [Trim(ToUpper(ticker))]
      ensures history == old(history) + AnalyzeSnapshots(reply)
      ensures Current() == AnalyzeSnapshots(reply)[|AnalyzeSnapshots(reply)| - 1]
    {
      ghost var shown: seq<Snapshot> := [];
      error := None;
      report := None;
      step := Fetching;
      shown := shown + [Snapshot(report, step, error)];
      step := Analyzing;
      shown := shown + [Snapshot(report, step, error)];
      var thrown := ThrownMessage(reply);
      if thrown.None? {
        step := Generating;
        shown := shown + [Snapshot(report, step, error)];
        report := Some(reply.payload);
        step := Complete;
      } else {
        error := thrown;
        step := Error;
      }
      shown := shown + [Snapshot(report, step, error)];
      assert shown == AnalyzeSnapshots(reply);
      SnapshotsConsistent(reply);
      history := history + shown;
      // The edge function is invoked between the second and the third state; the two logs
      // are kept apart, so the invocation is recorded here.
      invoked := invoked + [Trim(ToUpper(ticker))];
    }

    /** `reset()`: back to the idle state. */
    method Reset()
      requires Valid()
      modifies this
      ensures Valid()
      ensures Current() == Snapshot(None, Idle, None)
      ensures history == old(history) + [Current()]
      ensures invoked == old(invoked)
    {
      report := None;
      step := Idle;
      error := None;
      history := history + [Current()];
    }

    /** `saveReport()`, with `user` as the outcome of `getUser` and `insertError` as that of
        the insert. `inserted` is the row sent to `company_reports`, if any; the state cells
        do not change. */
    method SaveReport(user: UserLookup, insertError: Option<string>) returns (inserted: Option<SavedReport>, outcome: SaveOutcome)
      ensures report.None? ==> inserted.None? && outcome == NothingToSave
      ensures report.Some? && !user.SignedIn? ==> inserted.None?
      ensures report.Some? && user == SignedOut ==> outcome == SignInRequired
      ensures report.Some? && user.SignedIn? ==> inserted == Some(SavedRow(user.id, report.value))
      ensures outcome == Saved <==> report.Some? && user.SignedIn? && insertError.None?
      ensures outcome == SaveFailed <==> report.Some? && (user == LookupFailed || (user.SignedIn? && insertError.Some?))
    {
      inserted := None;
      if report.None? {
        return inserted, NothingToSave;
      }
      match user {
        case LookupFailed =>
          outcome := SaveFailed;
        case SignedOut =>
          outcome := SignInRequired;
        case SignedIn(id) =>
          var r := report.value;
          inserted := Some(SavedReport(id, r.ticker, r.companyName, r.brief, r.comparables));
          outcome := if insertError.Some? then SaveFailed else Saved;
      }
    }
  }

  // ---------------------------------------------------------------------------------------
  // Properties of an analysis

  /** Every state an analysis shows is consistent. */
  lemma SnapshotsConsistent(reply: InvokeReply)
    ensures forall k :: 0 <= k < |AnalyzeSnapshots(reply)| ==> Consistent(AnalyzeSnapshots(reply)[k])
  {
  }

  /** An analysis first clears the report and the error while fetching, then shows
      analyzing; every state before the last is a loading step with neither report nor
      error. */
  lemma AnalysisStartsLoading(reply: InvokeReply)
    ensures AnalyzeSnapshots(reply)[0] == Snapshot(None, Fetching, None)
    ensures AnalyzeSnapshots(reply)[1] == Snapshot(None, Analyzing, None)
    ensures forall k :: 0 <= k < |AnalyzeSnapshots(reply)| - 1 ==>
      var s := AnalyzeSnapshots(reply)[k];
      s.step in {Fetching, Analyzing, Generating} && s.report.None? && s.error.None?
  {
  }

  /** A failed invocation ends in the error step without a report; the message is the
      transport error's, or the fallback when that is empty, or the body's `error` verbatim. */
  lemma FailureOutcome(reply: InvokeReply)
    requires ThrownMessage(reply).Some?
    ensures AnalyzeSnapshots(reply) == [Snapshot(None, Fetching, None), Snapshot(None, Analyzing, None),
      Snapshot(None, Error, ThrownMessage(reply))]
    ensures reply.InvokeFailed? && reply.message != "" ==> ThrownMessage(reply) == Some(reply.message)
    ensures reply.InvokeFailed? && reply.message == "" ==> ThrownMessage(reply) == Some(FallbackMessage)
    ensures reply.InvokeData? ==> ThrownMessage(reply) == reply.error
  {
  }

  /** A report without an `error` goes through generating to the completed state, which
      holds exactly that report and no error. */
  lemma SuccessOutcome(reply: InvokeReply)
    requires reply.InvokeData? && !Truthy(reply.error)
    ensures AnalyzeSnapshots(reply) == [Snapshot(None, Fetching, None), Snapshot(None, Analyzing, None),
      Snapshot(None, Generating, None), Snapshot(Some(reply.payload), Complete, None)]
  {
  }

  /** The final state of an analysis is complete exactly when the reply is a report without
      an error, and is the error step otherwise. */
  lemma FinalStep(reply: InvokeReply)
    ensures var ss := AnalyzeSnapshots(reply);
      (ss[|ss| - 1].step == Complete <==> reply.InvokeData? && !Truthy(reply.error))
      && (ss[|ss| - 1].step == Complete || ss[|ss| - 1].step == Error)
  {
  }
}
