/**
 * The `Home` component of frontend/src/app/home/page.tsx as an object: its `useState` slots are
 * fields, every setter call is a method that updates one field, and the event handlers call the
 * setters in the order the page does.  A ghost history of the setter calls ties the fields to the
 * effect programs of `HomeHandlers`, about which `HomeProperties` proves what the page promises.
 */
module HomePage {
  import opened Wrappers
  import opened HomeState
  import opened HomeHandlers
  import opened HomeProperties
  import opened Strings

  /** An action's setter calls, made on top of a tracked history, give the action's step and keep the invariant. */
  lemma TrackedStep(h0: seq<Effect>, s: PageState, act: Action)
    requires Exec(Initial, h0) == s && Consistent(s)
    ensures Exec(Initial, h0 + ActionEffects(s, act)) == Step(s, act)
    ensures Consistent(Step(s, act))
  {
    ExecAppend(Initial, h0, ActionEffects(s, act));
    StepKeepsConsistent(s, act);
  }

  class Home {
    var file: Option<Candidate>
    var signerConnected: bool
    var trustScore: int
    var logs: seq<LogLine>
    var aiData: Option<Report>
    var loading: bool
    /** Every setter call since the page mounted, in order. */
    ghost var history: seq<Effect>

    /** The fields as a value. */
    function State(): PageState
      reads this
    {
      PageState(file, signerConnected, trustScore, logs, aiData, loading)
    }

    /** The fields are what the setter calls so far made of the initial state. */
    ghost predicate Tracked()
      reads this
    {
      Exec(Initial, history) == State()
    }

    ghost predicate Valid()
      reads this
    {
      Tracked() && Consistent(State())
    }

    /** Mounting the page: every slot at its `useState` initial value (lines 101-107). */
    constructor ()
      ensures Valid() && State() == Initial && history == []
    {
      file, signerConnected, trustScore, logs, aiData, loading := None, false, 0, [], None, false;
      history := [];
    }

    // -------------------------------------------------------------------------------------------
    // The state setters

    method UpdateFile(f: Option<Candidate>)
      requires Tracked()
      modifies this
      ensures Tracked() && history == old(history) + [SetFile(f)] && State() == old(State()).(file := f)
    {
      Snoc(Initial, history, SetFile(f));
      file := f;
      history := history + [SetFile(f)];
    }

    method UpdateSigner(connected: bool)
      requires Tracked()
      modifies this
      ensures Tracked() && history == old(history) + [SetSigner(connected)]
      ensures State() == old(State()).(signerConnected := connected)
    {
      Snoc(Initial, history, SetSigner(connected));
      signerConnected := connected;
      history := history + [SetSigner(connected)];
    }

    method UpdateTrustScore(n: int)
      requires Tracked()
      modifies this
      ensures Tracked() && history == old(history) + [SetScore(n)] && State() == old(State()).(score := n)
    {
      Snoc(Initial, history, SetScore(n));
      trustScore := n;
      history := history + [SetScore(n)];
    }

    method UpdateLogs(l: seq<LogLine>)
      requires Tracked()
      modifies this
      ensures Tracked() && history == old(history) + [SetLogs(l)] && State() == old(State()).(logs := l)
    {
      Snoc(Initial, history, SetLogs(l));
      logs := l;
      history := history + [SetLogs(l)];
    }

    /** `addLog` (line 115): append one line to the latest list. */
    method AppendLog(line: LogLine)
      requires Tracked()
      modifies this
      ensures Tracked() && history == old(history) + [AddLog(line)]
      ensures State() == old(State()).(logs := old(logs) + [line])
    {
      Snoc(Initial, history, AddLog(line));
      logs := logs + [line];
      history := history + [AddLog(line)];
    }

    method UpdateAiData(r: Option<Report>)
      requires Tracked()
      modifies this
      ensures Tracked() && history == old(history) + [SetResult(r)] && State() == old(State()).(result := r)
    {
      Snoc(Initial, history, SetResult(r));
      aiData := r;
      history := history + [SetResult(r)];
    }

    method UpdateLoading(b: bool)
      requires Tracked()
      modifies this
      ensures Tracked() && history == old(history) + [SetLoading(b)] && State() == old(State()).(loading := b)
    {
      Snoc(Initial, history, SetLoading(b));
      loading := b;
      history := history + [SetLoading(b)];
    }

    // -------------------------------------------------------------------------------------------
    // The event handlers

    /** The file input's change handler (line 334). */
    method PickFile(picked: Option<Candidate>)
      requires Valid()
      modifies this
      ensures Valid() && history == old(history) + [SetFile(picked)]
      ensures State() == old(State()).(file := picked)
    {
      UpdateFile(picked);
    }

    /** The navbar hands the page a signer on connect and `null` on disconnect (line 240). */
    method ConnectWallet(connected: bool)
      requires Valid()
      modifies this
      ensures Valid() && history == old(history) + [SetSigner(connected)]
      ensures State() == old(State()).(signerConnected := connected)
    {
      UpdateSigner(connected);
    }

    /**
     * `handleAnalyze` (lines 132-185), given what the analysis call returns.  It makes exactly the
     * setter calls of `AnalyzeEffects`, so its score trace and final state are those proved in
     * `HomeProperties`.
     */
    method HandleAnalyze(reply: Reply) returns (outcome: RunOutcome)
      requires Valid()
      modifies this
      ensures Valid()
      ensures history == old(history) + AnalyzeEffects(old(file), reply)
      ensures State() == Step(old(State()), Analyze(reply))
      ensures outcome == AnalyzeOutcome(old(file), reply)
    {
      ghost var s0 := State();
      ghost var h0 := history;
      if file.None? {
        outcome := NoFileSelected;
        assert history == h0 + [];
      } else {
        outcome := RunAnalysis(file.value, reply);
      }
      TrackedStep(h0, s0, Analyze(reply));
    }

    /** A run on a selected file: the reset, then the scoring of the reply (lines 134-184). */
    method RunAnalysis(f: Candidate, reply: Reply) returns (outcome: RunOutcome)
      requires Tracked()
      modifies this
      ensures Tracked() && history == old(history) + AnalyzeEffects(Some(f), reply)
      ensures outcome == AnalyzeOutcome(Some(f), reply)
    {
      ghost var h0 := history;
      StartRun(f);
      outcome := ScoreReply(reply);
      assert history == h0 + (StartEffects(f) + ScoringEffects(reply));
    }

    /** The reset and the upload line (lines 134-139). */
    method StartRun(f: Candidate)
      requires Tracked()
      modifies this
      ensures Tracked() && history == old(history) + StartEffects(f)
    {
      ghost var h0 := history;
      UpdateLoading(true);
      UpdateTrustScore(0);
      UpdateLogs([]);
      UpdateAiData(None);
      AppendLog(UploadStarted(f.name));
      assert history == h0 + StartEffects(f);
    }

    /** Everything after the analysis call returned or threw (lines 146-184). */
    method ScoreReply(reply: Reply) returns (outcome: RunOutcome)
      requires Tracked()
      modifies this
      ensures Tracked() && history == old(history) + ScoringEffects(reply)
      ensures outcome == ScoringOutcome(reply)
    {
      ghost var h0 := history;
      if reply.TransportError? || reply.body.analysis.None? {
        Crash();
        outcome := AnalysisError;
      } else {
        var analysis := reply.body.analysis.value;
        var faceValue := ExtractedFaceValue(analysis.faceValueAmount);
        Extract(analysis);
        ghost var h1 := history;
        if faceValue <= 0 {
          FailRun();
          outcome := VerificationFailed;
        } else {
          UpdateTrustScore(80);
          if reply.body.oracle.None? {
            Crash();
            outcome := AnalysisError;
          } else {
            Confirm(analysis, reply.body.oracle.value);
            outcome := VerificationComplete;
          }
          assert history == h1 + ([SetScore(80)] + ConfirmEffects(analysis, reply.body.oracle));
        }
        assert history == h0 + ScoringEffects(reply);
      }
    }

    /** The first two scoring steps (lines 150-162). */
    method Extract(analysis: Analysis)
      requires Tracked()
      modifies this
      ensures Tracked() && history == old(history) + ExtractionEffects(analysis)
    {
      ghost var h0 := history;
      UpdateTrustScore(20);
      if analysis.bondName == Some(UnknownBondName) || !Truthy(analysis.bondName) {
        AppendLog(BondNameUnidentified);
      } else {
        AppendLog(MetadataExtracted(analysis.bondName.value));
      }
      UpdateTrustScore(50);
      AppendLog(FaceValueReported(ExtractedFaceValue(analysis.faceValueAmount)));
      assert history == h0 + ExtractionEffects(analysis);
    }

    /** The failure exit (lines 163-168). */
    method FailRun()
      requires Tracked()
      modifies this
      ensures Tracked() && history == old(history) + FailEffects
    {
      ghost var h0 := history;
      AppendLog(NoReserveValue);
      UpdateTrustScore(10);
      UpdateLoading(false);
      assert history == h0 + FailEffects;
    }

    /** The last step once the score is 80: the yield line, score 100, the result, and the run ends (lines 174-177, 184). */
    method Confirm(analysis: Analysis, oracle: Oracle)
      requires Tracked()
      modifies this
      ensures Tracked() && history == old(history) + ConfirmEffects(analysis, Some(oracle))
    {
      ghost var h0 := history;
      AppendLog(YieldFeed(oracle.liveYield));
      UpdateTrustScore(100);
      UpdateAiData(Some(Report(analysis, oracle)));
      UpdateLoading(false);
      assert history == h0 + ConfirmEffects(analysis, Some(oracle));
    }

    /** The catch block and the final `setLoading(false)` (lines 180-184). */
    method Crash()
      requires Tracked()
      modifies this
      ensures Tracked() && history == old(history) + CrashEffects
    {
      ghost var h0 := history;
      AppendLog(BackendConnectionFailed);
      UpdateLoading(false);
      assert history == h0 + CrashEffects;
    }

    /**
     * `handleMint` (lines 187-218), given how the execute call settles.  Returns the execute call it
     * issued, if any, and which notification it shows.
     */
    method HandleMint(settled: ExecOutcome) returns (call: Option<ExecuteCall>, status: MintStatus)
      requires Valid()
      modifies this
      ensures Valid()
      ensures history == old(history) + MintEffects(old(State()), settled)
      ensures State() == Step(old(State()), Mint(settled))
      ensures call == MintCall(old(State()))
      ensures status == MintOutcome(old(State()), settled)
      ensures trustScore == old(trustScore) && aiData == old(aiData) && loading == old(loading)
    {
      ghost var s0 := State();
      ghost var h0 := history;
      if !signerConnected {
        call, status := None, WalletNotConnected;
        assert history == h0 + [];
      } else if aiData.None? {
        call, status := None, NotAnalyzed;
        assert history == h0 + [];
      } else {
        var r := aiData.value;
        AppendLog(SignatureRequested);
        var args := AssetArgs(
          OrDefault(r.analysis.bondName, DefaultBondName),
          OrDefault(r.analysis.isin, DefaultIsin),
          FaceValueOrDefault(r.analysis.faceValueAmount),
          Hundredths(r.oracle.liveYield),
          MockIpfsHash);
        call := Some(ExecuteCall(RemoveFirst(ContractAddress, "0x"), CreateAssetMethod, args));
        match settled {
          case Executed(h) =>
            AppendLog(TxSent(OrDefault(h, PendingTxHash)));
            AppendLog(BlockConfirmed);
            status := Minted;
          case Rejected(m) =>
            AppendLog(MintError(m.GetOr(UnknownErrorMessage)));
            status := MintFailed;
        }
        assert history == h0 + MintEffects(s0, settled);
      }
      TrackedStep(h0, s0, Mint(settled));
    }

    /**
     * `handleKYC` (lines 220-228), given what `getAddress` resolved to (None: it rejected, and the
     * rejection escapes the handler before anything is logged).
     */
    method HandleKyc(address: Option<string>) returns (status: KycStatus)
      requires Valid()
      modifies this
      ensures Valid()
      ensures history == old(history) + KycEffects(old(State()), address)
      ensures State() == Step(old(State()), Kyc(address))
      ensures status == KycOutcome(old(State()), address)
      ensures trustScore == old(trustScore) && aiData == old(aiData) && loading == old(loading)
    {
      ghost var s0 := State();
      ghost var h0 := history;
      if !signerConnected {
        status := KycWalletNotConnected;
        assert history == h0 + [];
      } else if address.None? {
        status := AddressUnavailable;
        assert history == h0 + [];
      } else {
        AppendLog(IdentityScan(Masked(address.value)));
        AppendLog(IdentityVerified);
        status := KycPassed;
        assert history == h0 + KycEffects(s0, address);
      }
      TrackedStep(h0, s0, Kyc(address));
    }
  }
}
