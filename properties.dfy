/**
 * What the handlers of the `Home` page guarantee (frontend/src/app/home/page.tsx, lines 132-228):
 * the score trace and final state of every way a run can end, the mint guards and payload, the
 * identity stub, and the invariants of the page over any sequence of user actions.
 */
module HomeProperties {
  import opened Wrappers
  import opened HomeState
  import opened HomeHandlers

  // ---------------------------------------------------------------------------------------------
  // handleAnalyze

  /** The state right after the reset at the start of a run. */
  function Reset(s: PageState, f: Candidate): PageState {
    s.(score := 0, logs := [UploadStarted(f.name)], result := None, loading := true)
  }

  /** Starting a run zeroes the score, drops the result and replaces the logs by the upload line naming the file. */
  lemma RunReset(s: PageState, f: Candidate)
    ensures Exec(s, StartEffects(f)) == Reset(s, f)
    ensures ScoreTrace(StartEffects(f)) == [0]
  {
    Display5(s, SetLoading(true), SetScore(0), SetLogs([]), SetResult(None), AddLog(UploadStarted(f.name)));
    assert [] + [UploadStarted(f.name)] == [UploadStarted(f.name)];
  }

  /** With no file selected the handler only reports an error: nothing in the page state changes. */
  lemma NoFileIsNoOp(s: PageState, reply: Reply)
    requires s.file.None?
    ensures Step(s, Analyze(reply)) == s
    ensures AnalyzeOutcome(s.file, reply) == NoFileSelected
  {
  }

  /** The catch path: one critical-error line after the upload line, score left at 0, no result. */
  lemma TransportFailurePath(s: PageState, f: Candidate, reply: Reply)
    requires reply.TransportError? || reply.body.analysis.None?
    ensures ScoreTrace(AnalyzeEffects(Some(f), reply)) == [0]
    ensures Exec(s, AnalyzeEffects(Some(f), reply))
         == s.(score := 0, logs := [UploadStarted(f.name), BackendConnectionFailed], result := None, loading := false)
    ensures AnalyzeOutcome(Some(f), reply) == AnalysisError
  {
    RunReset(s, f);
    assert ScoringEffects(reply) == CrashEffects;
    CrashSteps(Reset(s, f));
    Append(s, StartEffects(f), CrashEffects);
  }

  lemma ExtractionSteps(s: PageState, a: Analysis)
    ensures Exec(s, ExtractionEffects(a))
         == s.(score := 50, logs := s.logs + [MetadataLine(a.bondName), FaceValueReported(ExtractedFaceValue(a.faceValueAmount))])
    ensures ScoreTrace(ExtractionEffects(a)) == [20, 50]
  {
    var fv := ExtractedFaceValue(a.faceValueAmount);
    Display4(s, SetScore(20), AddLog(MetadataLine(a.bondName)), SetScore(50), AddLog(FaceValueReported(fv)));
    assert s.logs + [MetadataLine(a.bondName)] + [FaceValueReported(fv)]
        == s.logs + [MetadataLine(a.bondName), FaceValueReported(fv)];
  }

  /** The last step of a successful run: score 80, the yield line, score 100, the result, and the run ends. */
  lemma ConfirmSteps(t: PageState, a: Analysis, o: Oracle)
    ensures Exec(t, [SetScore(80)] + ConfirmEffects(a, Some(o)))
         == t.(score := 100, logs := t.logs + [YieldFeed(o.liveYield)], result := Some(Report(a, o)), loading := false)
    ensures ScoreTrace([SetScore(80)] + ConfirmEffects(a, Some(o))) == [80, 100]
  {
    var confirm := ConfirmEffects(a, Some(o));
    Display1(t, SetScore(80));
    Display4(t.(score := 80), AddLog(YieldFeed(o.liveYield)), SetScore(100), SetResult(Some(Report(a, o))), SetLoading(false));
    Append(t, [SetScore(80)], confirm);
  }

  /** The failure exit: the FAIL line, score 10, and the run ends. */
  lemma FailSteps(t: PageState)
    ensures Exec(t, FailEffects) == t.(score := 10, logs := t.logs + [NoReserveValue], loading := false)
    ensures ScoreTrace(FailEffects) == [10]
  {
    Display3(t, AddLog(NoReserveValue), SetScore(10), SetLoading(false));
  }

  /** The catch block: the critical-error line, and the run ends. */
  lemma CrashSteps(t: PageState)
    ensures Exec(t, CrashEffects) == t.(logs := t.logs + [BackendConnectionFailed], loading := false)
    ensures ScoreTrace(CrashEffects) == []
  {
    Display2(t, AddLog(BackendConnectionFailed), SetLoading(false));
  }

  /** Reading the oracle data throws right after the score was set to 80. */
  lemma CrashAfter80Steps(t: PageState)
    ensures Exec(t, [SetScore(80)] + CrashEffects)
         == t.(score := 80, logs := t.logs + [BackendConnectionFailed], loading := false)
    ensures ScoreTrace([SetScore(80)] + CrashEffects) == [80]
  {
    Display1(t, SetScore(80));
    CrashSteps(t.(score := 80));
    Append(t, [SetScore(80)], CrashEffects);
  }

  /** A run whose response has `ai_analysis`: reset, the two extraction steps, then `tail`. */
  lemma ExtractedRun(s: PageState, f: Candidate, a: Analysis, tail: seq<Effect>)
    ensures Exec(s, StartEffects(f) + (ExtractionEffects(a) + tail))
         == Exec(Reset(s, f).(score := 50, logs := [UploadStarted(f.name), MetadataLine(a.bondName),
                                                   FaceValueReported(ExtractedFaceValue(a.faceValueAmount))]), tail)
    ensures ScoreTrace(StartEffects(f) + (ExtractionEffects(a) + tail)) == [0, 20, 50] + ScoreTrace(tail)
  {
    var fv := ExtractedFaceValue(a.faceValueAmount);
    RunReset(s, f);
    ExtractionSteps(Reset(s, f), a);
    assert [UploadStarted(f.name)] + [MetadataLine(a.bondName), FaceValueReported(fv)]
        == [UploadStarted(f.name), MetadataLine(a.bondName), FaceValueReported(fv)];
    Append(Reset(s, f), ExtractionEffects(a), tail);
    Append(s, StartEffects(f), ExtractionEffects(a) + tail);
  }

  /**
   * Success: with a positive face value and the oracle data present, the score takes the values
   * 0, 20, 50, 80, 100 in that order, the response becomes the confirmed result and the run ends.
   */
  lemma SuccessPath(s: PageState, f: Candidate, body: Response, a: Analysis, o: Oracle)
    requires body.analysis == Some(a) && body.oracle == Some(o)
    requires a.faceValueAmount.Some? && a.faceValueAmount.value > 0
    ensures ScoreTrace(AnalyzeEffects(Some(f), Replied(body))) == [0, 20, 50, 80, 100]
    ensures Exec(s, AnalyzeEffects(Some(f), Replied(body)))
         == s.(score := 100,
               logs := [UploadStarted(f.name), MetadataLine(a.bondName),
                        FaceValueReported(a.faceValueAmount.value), YieldFeed(o.liveYield)],
               result := Some(Report(a, o)),
               loading := false)
    ensures AnalyzeOutcome(Some(f), Replied(body)) == VerificationComplete
  {
    var tail := [SetScore(80)] + ConfirmEffects(a, Some(o));
    assert AnalyzeEffects(Some(f), Replied(body)) == StartEffects(f) + (ExtractionEffects(a) + tail);
    ExtractedRun(s, f, a, tail);
    ConfirmSteps(Reset(s, f).(score := 50, logs := [UploadStarted(f.name), MetadataLine(a.bondName),
                                                   FaceValueReported(a.faceValueAmount.value)]), a, o);
  }

  /**
   * Failure: an absent, zero or negative face value logs the face-value line and the FAIL line,
   * forces the score to 10 and stores no result; no yield line is logged.
   */
  lemma FailurePath(s: PageState, f: Candidate, body: Response, a: Analysis)
    requires body.analysis == Some(a)
    requires a.faceValueAmount.None? || a.faceValueAmount.value <= 0
    ensures ScoreTrace(AnalyzeEffects(Some(f), Replied(body))) == [0, 20, 50, 10]
    ensures Exec(s, AnalyzeEffects(Some(f), Replied(body)))
         == s.(score := 10,
               logs := [UploadStarted(f.name), MetadataLine(a.bondName),
                        FaceValueReported(ExtractedFaceValue(a.faceValueAmount)), NoReserveValue],
               result := None,
               loading := false)
    ensures forall l | l in Exec(s, AnalyzeEffects(Some(f), Replied(body))).logs :: !l.YieldFeed?
    ensures AnalyzeOutcome(Some(f), Replied(body)) == VerificationFailed
  {
    var tail := FailEffects;
    assert AnalyzeEffects(Some(f), Replied(body)) == StartEffects(f) + (ExtractionEffects(a) + tail);
    ExtractedRun(s, f, a, tail);
    FailSteps(Reset(s, f).(score := 50, logs := [UploadStarted(f.name), MetadataLine(a.bondName),
                                                FaceValueReported(ExtractedFaceValue(a.faceValueAmount))]));
  }

  /**
   * A response whose `oracle_data` is missing throws after the score was set to 80: the catch path
   * logs the critical error, no result is stored, yet the gauge caption reads "Verified".
   */
  lemma MissingOraclePath(s: PageState, f: Candidate, body: Response, a: Analysis)
    requires body.analysis == Some(a) && body.oracle.None?
    requires a.faceValueAmount.Some? && a.faceValueAmount.value > 0
    ensures ScoreTrace(AnalyzeEffects(Some(f), Replied(body))) == [0, 20, 50, 80]
    ensures Exec(s, AnalyzeEffects(Some(f), Replied(body)))
         == s.(score := 80,
               logs := [UploadStarted(f.name), MetadataLine(a.bondName),
                        FaceValueReported(a.faceValueAmount.value), BackendConnectionFailed],
               result := None,
               loading := false)
    ensures VerifiedBadge(Exec(s, AnalyzeEffects(Some(f), Replied(body))))
    ensures !MintCardShown(Exec(s, AnalyzeEffects(Some(f), Replied(body))))
    ensures AnalyzeOutcome(Some(f), Replied(body)) == AnalysisError
  {
    var tail := [SetScore(80)] + CrashEffects;
    assert AnalyzeEffects(Some(f), Replied(body)) == StartEffects(f) + (ExtractionEffects(a) + tail);
    ExtractedRun(s, f, a, tail);
    CrashAfter80Steps(Reset(s, f).(score := 50, logs := [UploadStarted(f.name), MetadataLine(a.bondName),
                                                        FaceValueReported(a.faceValueAmount.value)]));
  }

  /** Every run that starts ends with `loading` false, the upload line first, and a result only on success. */
  lemma RunEnds(s: PageState, f: Candidate, reply: Reply)
    ensures var t := Exec(s, AnalyzeEffects(Some(f), reply));
      !t.loading && |t.logs| >= 2 && t.logs[0] == UploadStarted(f.name) &&
      (t.result.Some? <==> AnalyzeOutcome(Some(f), reply) == VerificationComplete) &&
      (t.score == 10 <==> AnalyzeOutcome(Some(f), reply) == VerificationFailed) &&
      (t.result.Some? ==> t.score == 100 && t.result.value.analysis == reply.body.analysis.value &&
                          Some(t.result.value.oracle) == reply.body.oracle) &&
      t.file == s.file && t.signerConnected == s.signerConnected
  {
    if reply.TransportError? || reply.body.analysis.None? {
      TransportFailurePath(s, f, reply);
    } else {
      var a := reply.body.analysis.value;
      if a.faceValueAmount.None? || a.faceValueAmount.value <= 0 {
        FailurePath(s, f, reply.body, a);
      } else if reply.body.oracle.None? {
        MissingOraclePath(s, f, reply.body, a);
      } else {
        SuccessPath(s, f, reply.body, a, reply.body.oracle.value);
      }
    }
  }

  /** When the Analyze button is enabled (line 355) the handler always starts a run. */
  lemma EnabledButtonStartsRun(s: PageState, reply: Reply)
    requires AnalyzeEnabled(s)
    ensures AnalyzeOutcome(s.file, reply) != NoFileSelected
    ensures var t := Step(s, Analyze(reply));
      |t.logs| >= 2 && t.logs[0] == UploadStarted(s.file.value.name) && !t.loading &&
      (MintCardShown(t) <==> AnalyzeOutcome(s.file, reply) == VerificationComplete)
  {
    RunEnds(s, s.file.value, reply);
  }

  /** A bond certificate the service reads completely: score 100, its name and yield logged, 432 hundredths minted. */
  lemma ExampleVerifiedBond(s: PageState)
    requires s.file.Some?
    ensures var body := Response(Some(Analysis(Some("T-Bond 2030"), Some("US1234"), Some(1000000))), Some(Oracle(4.32)));
      var t := Step(s, Analyze(Replied(body)));
      t.score == 100 && MetadataExtracted("T-Bond 2030") in t.logs && YieldFeed(4.32) in t.logs &&
      MintCall(t.(signerConnected := true))
        == Some(ExecuteCall(ContractId(), "createAsset", AssetArgs("T-Bond 2030", "US1234", 1000000, 432, "QmMockHashForDemo")))
  {
    var a := Analysis(Some("T-Bond 2030"), Some("US1234"), Some(1000000));
    var body := Response(Some(a), Some(Oracle(4.32)));
    SuccessPath(s, s.file.value, body, a, Oracle(4.32));
    var t := Step(s, Analyze(Replied(body)));
    assert t.logs[1] == MetadataExtracted("T-Bond 2030");
    assert t.logs[3] == YieldFeed(4.32);
    assert Hundredths(4.32) == 432;
  }

  /** A certificate without a reserve value: score 10, no result, and no mint can follow. */
  lemma ExampleWorthlessBond(s: PageState)
    requires s.file.Some?
    ensures var body := Response(Some(Analysis(None, None, Some(0))), Some(Oracle(4.32)));
      var t := Step(s, Analyze(Replied(body)));
      t.score == 10 && t.result.None? && MintCall(t.(signerConnected := true)).None?
  {
    var a := Analysis(None, None, Some(0));
    FailurePath(s, s.file.value, Response(Some(a), Some(Oracle(4.32))), a);
  }

  /**
   * A run forgets everything before it: two states with the same file and wallet end in the same
   * state, so after two runs the logs and score reflect only the second.
   */
  lemma RunForgetsPriorState(s1: PageState, s2: PageState, reply: Reply)
    requires s1.file.Some? && s1.file == s2.file && s1.signerConnected == s2.signerConnected
    ensures Step(s1, Analyze(reply)) == Step(s2, Analyze(reply))
  {
    var f := s1.file.value;
    RunReset(s1, f);
    RunReset(s2, f);
    assert Reset(s1, f) == Reset(s2, f);
    Append(s1, StartEffects(f), ScoringEffects(reply));
    Append(s2, StartEffects(f), ScoringEffects(reply));
  }

  lemma SecondRunSupersedesFirst(s: PageState, first: Reply, second: Reply)
    requires s.file.Some?
    ensures Step(Step(s, Analyze(first)), Analyze(second)) == Step(s, Analyze(second))
  {
    RunEnds(s, s.file.value, first);
    RunForgetsPriorState(Step(s, Analyze(first)), s, second);
  }

  // ---------------------------------------------------------------------------------------------
  // handleMint

  /**
   * The guards: with no wallet, or with no confirmed result, no execute call is issued and the
   * logs are untouched; the wallet is checked first.
   */
  lemma MintGuards(s: PageState, outcome: ExecOutcome)
    ensures MintCall(s).None? <==> !s.signerConnected || s.result.None?
    ensures MintCall(s).None? ==> Step(s, Mint(outcome)) == s
    ensures !s.signerConnected ==> MintOutcome(s, outcome) == WalletNotConnected
    ensures s.signerConnected && s.result.None? ==> MintOutcome(s, outcome) == NotAnalyzed
  {
  }

  /**
   * A mint that passes the guards appends the signature line and then either the transaction and
   * confirmation lines or one error line; it changes nothing else, in particular neither the
   * score nor the result.
   */
  lemma MintLogging(s: PageState, outcome: ExecOutcome)
    requires s.signerConnected && s.result.Some?
    ensures outcome.Executed? ==>
      Step(s, Mint(outcome)) == s.(logs := s.logs + [SignatureRequested, TxSent(OrDefault(outcome.txHash, PendingTxHash)), BlockConfirmed])
    ensures outcome.Rejected? ==>
      Step(s, Mint(outcome)) == s.(logs := s.logs + [SignatureRequested, MintError(outcome.errorMessage.GetOr(UnknownErrorMessage))])
    ensures Step(s, Mint(outcome)).score == s.score && Step(s, Mint(outcome)).result == s.result
  {
    match outcome
    case Executed(h) =>
      var tx := OrDefault(h, PendingTxHash);
      assert MintEffects(s, outcome) == [AddLog(SignatureRequested), AddLog(TxSent(tx)), AddLog(BlockConfirmed)];
      Display3(s, AddLog(SignatureRequested), AddLog(TxSent(tx)), AddLog(BlockConfirmed));
      assert s.logs + [SignatureRequested] + [TxSent(tx)] + [BlockConfirmed]
          == s.logs + [SignatureRequested, TxSent(tx), BlockConfirmed];
    case Rejected(m) =>
      var msg := m.GetOr(UnknownErrorMessage);
      assert MintEffects(s, outcome) == [AddLog(SignatureRequested), AddLog(MintError(msg))];
      Display2(s, AddLog(SignatureRequested), AddLog(MintError(msg)));
      assert s.logs + [SignatureRequested] + [MintError(msg)] == s.logs + [SignatureRequested, MintError(msg)];
  }

  /** The one execute call: contract id without `0x`, method `createAsset`, arguments with the page's defaults. */
  lemma MintPayload(s: PageState, r: Report)
    requires s.signerConnected && s.result == Some(r)
    ensures MintCall(s).Some?
    ensures var call := MintCall(s).value;
      "0x" + call.contract == ContractAddress &&
      call.methodName == "createAsset" &&
      call.args.name == (if Truthy(r.analysis.bondName) then r.analysis.bondName.value else "Unknown Bond") &&
      call.args.isin == (if Truthy(r.analysis.isin) then r.analysis.isin.value else "UNKN") &&
      call.args.faceValue == (if r.analysis.faceValueAmount.Some? && r.analysis.faceValueAmount.value != 0
                              then r.analysis.faceValueAmount.value else 1000000) &&
      call.args.initialYield as real <= r.oracle.liveYield * 100.0 < call.args.initialYield as real + 1.0 &&
      call.args.ipfsHash == "QmMockHashForDemo"
  {
  }

  /** For a result the pipeline confirmed, the face value sent is the extracted one: the placeholder is never used. */
  lemma ConfirmedPayloadFaceValue(s: PageState)
    requires Consistent(s) && s.signerConnected && s.result.Some?
    ensures MintCall(s).Some?
    ensures MintCall(s).value.args.faceValue == s.result.value.analysis.faceValueAmount.value > 0
  {
  }

  // ---------------------------------------------------------------------------------------------
  // handleKYC

  /** The identity stub logs the masked address and then the confirmation, and nothing else changes. */
  lemma KycLogging(s: PageState, address: Option<string>)
    ensures !s.signerConnected || address.None? ==> Step(s, Kyc(address)) == s
    ensures s.signerConnected && address.Some? ==>
      Step(s, Kyc(address)) == s.(logs := s.logs + [IdentityScan(Masked(address.value)), IdentityVerified])
  {
    if s.signerConnected && address.Some? {
      var es := KycEffects(s, address);
      Display2(Initial, AddLog(IdentityScan(Masked(address.value))), AddLog(IdentityVerified));
      ExecAppendsLines(s, es);
    }
  }

  // ---------------------------------------------------------------------------------------------
  // The page over any sequence of actions

  /** Every action keeps the page's invariant. */
  lemma StepKeepsConsistent(s: PageState, act: Action)
    requires Consistent(s)
    ensures Consistent(Step(s, act))
  {
    match act
    case PickFile(f) => Display1(s, SetFile(f));
    case Wallet(c) => Display1(s, SetSigner(c));
    case Analyze(reply) =>
      if s.file.Some? {
        RunEnds(s, s.file.value, reply);
        var t := Step(s, Analyze(reply));
        if t.result.Some? {
          var a := reply.body.analysis.value;
          SuccessPath(s, s.file.value, reply.body, a, reply.body.oracle.value);
        }
      }
    case Mint(outcome) =>
      if s.signerConnected && s.result.Some? { MintLogging(s, outcome); }
    case Kyc(address) => KycLogging(s, address);
  }

  /** In every state the page can reach, a stored result is one the pipeline confirmed. */
  lemma {:induction false} ReachableConsistent(acts: seq<Action>)
    ensures Consistent(Run(Initial, acts))
    decreases |acts|
  {
    if acts != [] {
      ReachableConsistent(acts[..|acts| - 1]);
      StepKeepsConsistent(Run(Initial, acts[..|acts| - 1]), acts[|acts| - 1]);
    }
  }

  /**
   * The render guards in every reachable state: the Analyze button (line 355) is enabled exactly
   * when a file is selected, and the mint card (line 500) is only ever shown under the "Verified"
   * caption (lines 415-416).
   */
  lemma ReachableGuards(acts: seq<Action>)
    ensures AnalyzeEnabled(Run(Initial, acts)) <==> Run(Initial, acts).file.Some?
    ensures MintCardShown(Run(Initial, acts)) ==> VerifiedBadge(Run(Initial, acts))
  {
    ReachableConsistent(acts);
  }

  /** Only an analysis run changes the score or the result; picking files, the wallet, mints and KYC checks never do. */
  lemma {:induction false} OnlyRunsChangeVerdict(s: PageState, acts: seq<Action>)
    requires forall i :: 0 <= i < |acts| ==> !acts[i].Analyze?
    ensures Run(s, acts).score == s.score && Run(s, acts).result == s.result && Run(s, acts).loading == s.loading
    decreases |acts|
  {
    if acts != [] {
      var init := acts[..|acts| - 1];
      OnlyRunsChangeVerdict(s, init);
      var t := Run(s, init);
      match acts[|acts| - 1]
      case PickFile(f) => Display1(t, SetFile(f));
      case Wallet(c) => Display1(t, SetSigner(c));
      case Mint(outcome) =>
        if t.signerConnected && t.result.Some? { MintLogging(t, outcome); }
      case Kyc(address) => KycLogging(t, address);
    }
  }

  /** After a run that stored no result, nothing short of a new run lets a mint reach the contract. */
  lemma NoMintWithoutNewRun(s: PageState, acts: seq<Action>)
    requires s.result.None?
    requires forall i :: 0 <= i < |acts| ==> !acts[i].Analyze?
    ensures MintCall(Run(s, acts)).None?
  {
    OnlyRunsChangeVerdict(s, acts);
  }
}
