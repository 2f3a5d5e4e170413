/**
 * The component-local state of the `Home` page (frontend/src/app/home/page.tsx, lines 101-107)
 * and the state setters that change it.  React applies queued setter calls in order, so the
 * state after a handler is the fold of its setter calls over the state before it.
 */
module HomeState {
  import opened Wrappers

  /** The file picked in the upload zone; only its name is observable by the workflow. */
  datatype Candidate = Candidate(name: string, size: nat)

  /** `ai_analysis` of the analysis response; every field may be absent. */
  datatype Analysis = Analysis(bondName: Option<string>, isin: Option<string>, faceValueAmount: Option<int>)

  /** `oracle_data` of the analysis response.  The yield is the exact value of the number received. */
  datatype Oracle = Oracle(liveYield: real)

  /** The body of the analysis response, as received: either part may be missing. */
  datatype Response = Response(analysis: Option<Analysis>, oracle: Option<Oracle>)

  /** A response that passed every check of the scoring pipeline, kept as the confirmed result (`aiData`). */
  datatype Report = Report(analysis: Analysis, oracle: Oracle)

  /** What the analysis call delivers: a response body, or a network / non-2xx failure. */
  datatype Reply = Replied(body: Response) | TransportError

  /**
   * One line of the on-page terminal.  Each constructor is one message template of the page;
   * its parameters are the values interpolated into the template.
   */
  datatype LogLine =
    | UploadStarted(fileName: string)
    | BondNameUnidentified
    | MetadataExtracted(bondName: string)
    | FaceValueReported(faceValue: int)
    | NoReserveValue
    | YieldFeed(liveYield: real)
    | BackendConnectionFailed
    | SignatureRequested
    | TxSent(txHash: string)
    | BlockConfirmed
    | MintError(message: string)
    | IdentityScan(addressPrefix: string)
    | IdentityVerified

  /** The page state: `file`, `signer` (connected or not), `trustScore`, `logs`, `aiData` and `loading`. */
  datatype PageState = PageState(
    file: Option<Candidate>,
    signerConnected: bool,
    score: int,
    logs: seq<LogLine>,
    result: Option<Report>,
    loading: bool)

  /** The state when the page mounts: every `useState` initial value. */
  const Initial := PageState(None, false, 0, [], None, false)

  /** One call of a state setter (`setFile`, `setSigner`, `setTrustScore`, `setLogs`, `addLog`, `setAiData`, `setLoading`). */
  datatype Effect =
    | SetFile(newFile: Option<Candidate>)
    | SetSigner(connected: bool)
    | SetScore(newScore: int)
    | SetLogs(newLogs: seq<LogLine>)
    | AddLog(line: LogLine)
    | SetResult(newResult: Option<Report>)
    | SetLoading(newLoading: bool)

  /** The state after one setter call: each setter gives its own slot the value passed; `addLog` appends to the latest list of lines. */
  function Apply(s: PageState, e: Effect): (t: PageState)
    ensures e.SetFile? ==> t.file == e.newFile
    ensures e.SetSigner? ==> t.signerConnected == e.connected
    ensures e.SetScore? ==> t.score == e.newScore
    ensures e.SetLogs? ==> t.logs == e.newLogs
    ensures e.AddLog? ==> t.logs == s.logs + [e.line]
    ensures e.SetResult? ==> t.result == e.newResult
    ensures e.SetLoading? ==> t.loading == e.newLoading
    ensures !e.AddLog? && !e.SetLogs? ==> t.logs == s.logs
    ensures !e.SetScore? ==> t.score == s.score
    ensures !e.SetResult? ==> t.result == s.result
    ensures !e.SetLoading? ==> t.loading == s.loading
    ensures !e.SetFile? ==> t.file == s.file
    ensures !e.SetSigner? ==> t.signerConnected == s.signerConnected
  {
    match e
    case SetFile(f) => s.(file := f)
    case SetSigner(c) => s.(signerConnected := c)
    case SetScore(n) => s.(score := n)
    case SetLogs(l) => s.(logs := l)
    case AddLog(l) => s.(logs := s.logs + [l])
    case SetResult(r) => s.(result := r)
    case SetLoading(b) => s.(loading := b)
  }

  /** The state after a sequence of setter calls, applied first to last. */
  function Exec(s: PageState, es: seq<Effect>): PageState
    decreases |es|
  {
    if es == [] then s else Apply(Exec(s, es[..|es| - 1]), es[|es| - 1])
  }

  /** The score a single setter call sets, if it is a `setTrustScore`. */
  function ScoreOf(e: Effect): seq<int> {
    if e.SetScore? then [e.newScore] else []
  }

  /** The line a single setter call appends, if it is an `addLog`. */
  function LineOf(e: Effect): seq<LogLine> {
    if e.AddLog? then [e.line] else []
  }

  /** The values given to `setTrustScore`, in call order. */
  function ScoreTrace(es: seq<Effect>): seq<int>
    decreases |es|
  {
    if es == [] then [] else ScoreTrace(es[..|es| - 1]) + ScoreOf(es[|es| - 1])
  }

  /** The lines given to `addLog`, in call order. */
  function LinesAdded(es: seq<Effect>): seq<LogLine>
    decreases |es|
  {
    if es == [] then [] else LinesAdded(es[..|es| - 1]) + LineOf(es[|es| - 1])
  }

  /** Analyze button enabled (line 355): no run in flight and a file is selected. */
  predicate AnalyzeEnabled(s: PageState) {
    !s.loading && s.file.Some?
  }

  /** The gauge's caption reads "Verified" (lines 415-416) once the score reaches 80. */
  predicate VerifiedBadge(s: PageState) {
    s.score >= 80
  }

  /** The mint card, holding the KYC and mint buttons, is shown (line 500) only while a confirmed result exists. */
  predicate MintCardShown(s: PageState) {
    s.result.Some?
  }

  // ---------------------------------------------------------------------------------------------
  // Facts about setter sequences

  /** One more setter call at the end. */
  lemma Snoc(s: PageState, es: seq<Effect>, e: Effect)
    ensures Exec(s, es + [e]) == Apply(Exec(s, es), e)
    ensures ScoreTrace(es + [e]) == ScoreTrace(es) + ScoreOf(e)
    ensures LinesAdded(es + [e]) == LinesAdded(es) + LineOf(e)
  {
    assert (es + [e])[..|es|] == es;
  }

  // `ScoreTraceSnoc` and `LinesAddedSnoc` repeat two clauses of `Snoc` on their own: the append
  // lemmas below need only the trace fact, and the `Exec` clause alone makes their proofs run
  // out of resource.
  lemma ScoreTraceSnoc(es: seq<Effect>, e: Effect)
    ensures ScoreTrace(es + [e]) == ScoreTrace(es) + ScoreOf(e)
  {
    assert (es + [e])[..|es|] == es;
  }

  lemma LinesAddedSnoc(es: seq<Effect>, e: Effect)
    ensures LinesAdded(es + [e]) == LinesAdded(es) + LineOf(e)
  {
    assert (es + [e])[..|es|] == es;
  }

  /**
   * Unfolding a short, literal list of setter calls.  `Exec` recurses on the last element, and the
   * verifier does not unfold it over a sequence display by itself; one lemma per length keeps every
   * step a single `Snoc`.
   */
  lemma Display1(s: PageState, a: Effect)
    ensures Exec(s, [a]) == Apply(s, a)
    ensures ScoreTrace([a]) == ScoreOf(a) && LinesAdded([a]) == LineOf(a)
  {
    Snoc(s, [], a);
    assert [] + [a] == [a];
  }

  lemma Display2(s: PageState, a: Effect, b: Effect)
    ensures Exec(s, [a, b]) == Apply(Apply(s, a), b)
    ensures ScoreTrace([a, b]) == ScoreOf(a) + ScoreOf(b)
    ensures LinesAdded([a, b]) == LineOf(a) + LineOf(b)
  {
    Display1(s, a);
    Snoc(s, [a], b);
    assert [a] + [b] == [a, b];
  }

  lemma Display3(s: PageState, a: Effect, b: Effect, c: Effect)
    ensures Exec(s, [a, b, c]) == Apply(Apply(Apply(s, a), b), c)
    ensures ScoreTrace([a, b, c]) == ScoreOf(a) + ScoreOf(b) + ScoreOf(c)
    ensures LinesAdded([a, b, c]) == LineOf(a) + LineOf(b) + LineOf(c)
  {
    Display2(s, a, b);
    Snoc(s, [a, b], c);
    assert [a, b] + [c] == [a, b, c];
  }

  lemma Display4(s: PageState, a: Effect, b: Effect, c: Effect, d: Effect)
    ensures Exec(s, [a, b, c, d]) == Apply(Apply(Apply(Apply(s, a), b), c), d)
    ensures ScoreTrace([a, b, c, d]) == ScoreOf(a) + ScoreOf(b) + ScoreOf(c) + ScoreOf(d)
    ensures LinesAdded([a, b, c, d]) == LineOf(a) + LineOf(b) + LineOf(c) + LineOf(d)
  {
    Display3(s, a, b, c);
    Snoc(s, [a, b, c], d);
    assert [a, b, c] + [d] == [a, b, c, d];
  }

  lemma Display5(s: PageState, a: Effect, b: Effect, c: Effect, d: Effect, e: Effect)
    ensures Exec(s, [a, b, c, d, e]) == Apply(Apply(Apply(Apply(Apply(s, a), b), c), d), e)
    ensures ScoreTrace([a, b, c, d, e]) == ScoreOf(a) + ScoreOf(b) + ScoreOf(c) + ScoreOf(d) + ScoreOf(e)
    ensures LinesAdded([a, b, c, d, e]) == LineOf(a) + LineOf(b) + LineOf(c) + LineOf(d) + LineOf(e)
  {
    Display4(s, a, b, c, d);
    Snoc(s, [a, b, c, d], e);
    assert [a, b, c, d] + [e] == [a, b, c, d, e];
  }

  /** Running two setter sequences one after the other is running their concatenation. */
  lemma {:induction false} ExecAppend(s: PageState, a: seq<Effect>, b: seq<Effect>)
    ensures Exec(s, a + b) == Exec(Exec(s, a), b)
    decreases |b|
  {
    if b == [] {
      assert a + b == a;
    } else {
      var b' := b[..|b| - 1];
      var e := b[|b| - 1];
      assert b == b' + [e];
      assert a + b == (a + b') + [e];
      Snoc(s, a + b', e);
      ExecAppend(s, a, b');
      Snoc(Exec(s, a), b', e);
    }
  }

  lemma {:induction false} ScoreTraceAppend(a: seq<Effect>, b: seq<Effect>)
    ensures ScoreTrace(a + b) == ScoreTrace(a) + ScoreTrace(b)
    decreases |b|
  {
    if b == [] {
      assert a + b == a;
    } else {
      var b' := b[..|b| - 1];
      var e := b[|b| - 1];
      assert b == b' + [e];
      assert a + b == (a + b') + [e];
      ScoreTraceSnoc(a + b', e);
      ScoreTraceSnoc(b', e);
      ScoreTraceAppend(a, b');
      calc {
        ScoreTrace(a + b);
        ScoreTrace(a + b') + ScoreOf(e);
        ScoreTrace(a) + ScoreTrace(b') + ScoreOf(e);
        ScoreTrace(a) + ScoreTrace(b);
      }
    }
  }

  lemma {:induction false} LinesAddedAppend(a: seq<Effect>, b: seq<Effect>)
    ensures LinesAdded(a + b) == LinesAdded(a) + LinesAdded(b)
    decreases |b|
  {
    if b == [] {
      assert a + b == a;
    } else {
      var b' := b[..|b| - 1];
      var e := b[|b| - 1];
      assert b == b' + [e];
      assert a + b == (a + b') + [e];
      LinesAddedSnoc(a + b', e);
      LinesAddedSnoc(b', e);
      LinesAddedAppend(a, b');
      calc {
        LinesAdded(a + b);
        LinesAdded(a + b') + LineOf(e);
        LinesAdded(a) + LinesAdded(b') + LineOf(e);
        LinesAdded(a) + LinesAdded(b);
      }
    }
  }

  /** `ExecAppend`, `ScoreTraceAppend` and `LinesAddedAppend` together. */
  lemma Append(s: PageState, a: seq<Effect>, b: seq<Effect>)
    ensures Exec(s, a + b) == Exec(Exec(s, a), b)
    ensures ScoreTrace(a + b) == ScoreTrace(a) + ScoreTrace(b)
    ensures LinesAdded(a + b) == LinesAdded(a) + LinesAdded(b)
  {
    ExecAppend(s, a, b);
    ScoreTraceAppend(a, b);
    LinesAddedAppend(a, b);
  }

  /** Every call in the list is an `addLog`. */
  predicate OnlyAppendsLogs(es: seq<Effect>) {
    forall i :: 0 <= i < |es| ==> es[i].AddLog?
  }

  /** A sequence of `addLog` calls appends exactly its lines and changes nothing else. */
  lemma {:induction false} ExecAppendsLines(s: PageState, es: seq<Effect>)
    requires OnlyAppendsLogs(es)
    ensures Exec(s, es) == s.(logs := s.logs + LinesAdded(es))
    decreases |es|
  {
    if es == [] {
      assert s.logs + [] == s.logs;
    } else {
      var es' := es[..|es| - 1];
      assert OnlyAppendsLogs(es') by {
        forall i | 0 <= i < |es'| ensures es'[i].AddLog? { assert es'[i] == es[i]; }
      }
      ExecAppendsLines(s, es');
      assert s.logs + LinesAdded(es') + [es[|es| - 1].line] == s.logs + LinesAdded(es);
    }
  }
}
