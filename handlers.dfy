/**
 * What each event handler of the `Home` page does, as the ordered list of setter calls it makes
 * (frontend/src/app/home/page.tsx, lines 132-228), and the contract call it issues.
 */
module HomeHandlers {
  import opened Wrappers
  import opened HomeState
  import opened Strings

  // ---------------------------------------------------------------------------------------------
  // Constants of the page

  /** The configured asset-registry contract address (line 12): `0x` and forty hex digits. */
  const ContractAddress: string := "0x" + "E715acd4c54F030d021b7147c20786623fFf482a"
  const CreateAssetMethod: string := "createAsset"
  const MockIpfsHash: string := "QmMockHashForDemo"
  const DefaultBondName: string := "Unknown Bond"
  const DefaultIsin: string := "UNKN"
  const DefaultFaceValue: int := 1000000
  /** The bond name the analysis service reports when it could not read one. */
  const UnknownBondName: string := "Unknown"
  const PendingTxHash: string := "pending"
  const UnknownErrorMessage: string := "Unknown error"
  /** How many leading characters of the wallet address the identity line shows (`slice(0, 6)`). */
  const MaskedLength: nat := 6

  // ---------------------------------------------------------------------------------------------
  // Value coercions

  /** JavaScript truthiness of an optional string: absent and the empty string are falsy. */
  predicate Truthy(s: Option<string>) {
    s.Some? && s.value != ""
  }

  /** `s || d` on an optional string. */
  function OrDefault(s: Option<string>, d: string): (r: string)
    ensures Truthy(s) ==> r == s.value
    ensures !Truthy(s) ==> r == d
  {
    if Truthy(s) then s.value else d
  }

  /** `parseInt(face_value_amount || 0)` (line 148): an absent amount counts as 0. */
  function ExtractedFaceValue(raw: Option<int>): (n: int)
    ensures raw.None? ==> n == 0
    ensures raw.Some? ==> n == raw.value
  {
    raw.GetOr(0)
  }

  /** `face_value_amount || 1000000` (line 202): absent and 0 fall back to the placeholder amount. */
  function FaceValueOrDefault(raw: Option<int>): (n: int)
    ensures n != 0
    ensures raw.Some? && raw.value != 0 ==> n == raw.value
    ensures raw.None? || raw.value == 0 ==> n == DefaultFaceValue
  {
    if raw.Some? && raw.value != 0 then raw.value else DefaultFaceValue
  }

  /** `Math.floor(live_yield * 100)` (line 203) on the exact value of the yield. */
  function Hundredths(y: real): (r: int)
    ensures r as real <= y * 100.0 < r as real + 1.0
  {
    (y * 100.0).Floor
  }

  /** The contract id handed to the wallet (line 197): the address without its `0x`. */
  function ContractId(): (id: string)
    ensures "0x" + id == ContractAddress
  {
    assert ContractAddress[..2] == "0x";
    RemoveFirst(ContractAddress, "0x")
  }

  /** `userAddr.slice(0, 6)` (line 223). */
  function Masked(address: string): (r: string)
    ensures |r| == if |address| < MaskedLength then |address| else MaskedLength
    ensures r <= address
  {
    if |address| < MaskedLength then address else address[..MaskedLength]
  }

  // ---------------------------------------------------------------------------------------------
  // handleAnalyze (lines 132-185)

  /** The metadata line (lines 153-157): a warning for an absent, empty or "Unknown" name, else the name. */
  function MetadataLine(bondName: Option<string>): (l: LogLine)
    ensures l == BondNameUnidentified <==> bondName == Some(UnknownBondName) || !Truthy(bondName)
    ensures l != BondNameUnidentified ==> l == MetadataExtracted(bondName.value) && bondName.value != UnknownBondName
  {
    if bondName == Some(UnknownBondName) || !Truthy(bondName) then BondNameUnidentified
    else MetadataExtracted(bondName.value)
  }

  /** The reset at the start of a run and its upload line (lines 134-139). */
  function StartEffects(f: Candidate): seq<Effect> {
    [SetLoading(true), SetScore(0), SetLogs([]), SetResult(None), AddLog(UploadStarted(f.name))]
  }

  /** The catch block and the final `setLoading(false)` (lines 180-184). */
  const CrashEffects: seq<Effect> := [AddLog(BackendConnectionFailed), SetLoading(false)]

  /** The scoring pipeline once the analysis call has returned (lines 146-179), with its two exits. */
  function ScoringEffects(reply: Reply): seq<Effect> {
    match reply
    case TransportError => CrashEffects
    case Replied(body) =>
      match body.analysis
      // reading `face_value_amount` of an absent `ai_analysis` throws before any score is set
      case None => CrashEffects
      case Some(a) =>
        ExtractionEffects(a) +
        if ExtractedFaceValue(a.faceValueAmount) <= 0 then FailEffects
        else [SetScore(80)] + ConfirmEffects(a, body.oracle)
  }

  /** The first two scoring steps (lines 150-162): score 20, the metadata line, score 50, the face-value line. */
  function ExtractionEffects(a: Analysis): seq<Effect> {
    [SetScore(20), AddLog(MetadataLine(a.bondName)), SetScore(50),
     AddLog(FaceValueReported(ExtractedFaceValue(a.faceValueAmount)))]
  }

  /** The failure exit (lines 163-168). */
  const FailEffects: seq<Effect> := [AddLog(NoReserveValue), SetScore(10), SetLoading(false)]

  /** The last step (lines 174-177, 184); reading `live_yield` of an absent `oracle_data` throws. */
  function ConfirmEffects(a: Analysis, oracle: Option<Oracle>): seq<Effect> {
    match oracle
    case None => CrashEffects
    case Some(o) => [AddLog(YieldFeed(o.liveYield)), SetScore(100), SetResult(Some(Report(a, o))), SetLoading(false)]
  }

  /** Every setter call of `handleAnalyze`; with no file selected it only shows an error (line 133). */
  function AnalyzeEffects(file: Option<Candidate>, reply: Reply): seq<Effect> {
    match file
    case None => []
    case Some(f) => StartEffects(f) + ScoringEffects(reply)
  }

  /** The notification a run ends with. */
  datatype RunOutcome = NoFileSelected | AnalysisError | VerificationFailed | VerificationComplete

  function AnalyzeOutcome(file: Option<Candidate>, reply: Reply): RunOutcome {
    if file.None? then NoFileSelected else ScoringOutcome(reply)
  }

  function ScoringOutcome(reply: Reply): RunOutcome {
    match reply
    case TransportError => AnalysisError
    case Replied(body) =>
      if body.analysis.None? then AnalysisError
      else if ExtractedFaceValue(body.analysis.value.faceValueAmount) <= 0 then VerificationFailed
      else if body.oracle.None? then AnalysisError
      else VerificationComplete
  }

  // ---------------------------------------------------------------------------------------------
  // handleMint (lines 187-218)

  /** The argument record of `createAsset` (lines 199-205). */
  datatype AssetArgs = AssetArgs(name: string, isin: string, faceValue: int, initialYield: int, ipfsHash: string)

  /** One call of the wallet's contract-execution capability. */
  datatype ExecuteCall = ExecuteCall(contract: string, methodName: string, args: AssetArgs)

  /** How the execute call settles: a receipt with an optional hash, or a thrown value (`Error` message, or none). */
  datatype ExecOutcome = Executed(txHash: Option<string>) | Rejected(errorMessage: Option<string>)

  datatype MintStatus = WalletNotConnected | NotAnalyzed | Minted | MintFailed

  /** The arguments built from a confirmed result, with the page's fixed defaults. */
  function AssetArgsOf(r: Report): AssetArgs {
    AssetArgs(
      OrDefault(r.analysis.bondName, DefaultBondName),
      OrDefault(r.analysis.isin, DefaultIsin),
      FaceValueOrDefault(r.analysis.faceValueAmount),
      Hundredths(r.oracle.liveYield),
      MockIpfsHash)
  }

  /** The two guards of `handleMint` (lines 188-189): a wallet is connected and a confirmed result exists. */
  predicate MintAllowed(s: PageState) {
    s.signerConnected && s.result.Some?
  }

  /** The execute call `handleMint` issues, if its guards let it through. */
  function MintCall(s: PageState): (call: Option<ExecuteCall>)
    ensures call.Some? <==> MintAllowed(s)
    ensures call.Some? ==> "0x" + call.value.contract == ContractAddress && call.value.methodName == CreateAssetMethod
    ensures call.Some? ==> call.value.args == AssetArgsOf(s.result.value)
  {
    if !s.signerConnected then None
    else match s.result
      case None => None
      case Some(r) => Some(ExecuteCall(ContractId(), CreateAssetMethod, AssetArgsOf(r)))
  }

  /** The log lines of `handleMint` (lines 193, 208-209, 216). */
  function MintEffects(s: PageState, outcome: ExecOutcome): seq<Effect> {
    if !MintAllowed(s) then []
    else
      [AddLog(SignatureRequested)] +
      (match outcome
       case Executed(h) => [AddLog(TxSent(OrDefault(h, PendingTxHash))), AddLog(BlockConfirmed)]
       case Rejected(m) => [AddLog(MintError(m.GetOr(UnknownErrorMessage)))])
  }

  function MintOutcome(s: PageState, outcome: ExecOutcome): MintStatus {
    if !s.signerConnected then WalletNotConnected
    else if s.result.None? then NotAnalyzed
    else if outcome.Executed? then Minted
    else MintFailed
  }

  // ---------------------------------------------------------------------------------------------
  // handleKYC (lines 220-228)

  datatype KycStatus = KycWalletNotConnected | AddressUnavailable | KycPassed

  /** The identity lines; `address` is what `getAddress` resolved to (None: it rejected, so nothing is logged). */
  function KycEffects(s: PageState, address: Option<string>): seq<Effect> {
    if !s.signerConnected then []
    else match address
      case None => []
      case Some(a) => [AddLog(IdentityScan(Masked(a))), AddLog(IdentityVerified)]
  }

  function KycOutcome(s: PageState, address: Option<string>): KycStatus {
    if !s.signerConnected then KycWalletNotConnected
    else if address.None? then AddressUnavailable
    else KycPassed
  }

  // ---------------------------------------------------------------------------------------------
  // The page as a state machine over user actions

  /** A user action with the answers of the outside world it waits for. */
  datatype Action =
    | PickFile(picked: Option<Candidate>)
    | Wallet(connected: bool)
    | Analyze(reply: Reply)
    | Mint(outcome: ExecOutcome)
    | Kyc(address: Option<string>)

  /** The setter calls of one action: the file input (line 334), the navbar's `setSigner`, or a handler. */
  function ActionEffects(s: PageState, act: Action): seq<Effect> {
    match act
    case PickFile(f) => [SetFile(f)]
    case Wallet(c) => [SetSigner(c)]
    case Analyze(reply) => AnalyzeEffects(s.file, reply)
    case Mint(outcome) => MintEffects(s, outcome)
    case Kyc(address) => KycEffects(s, address)
  }

  function Step(s: PageState, act: Action): PageState {
    Exec(s, ActionEffects(s, act))
  }

  /** The state after a sequence of actions, each run to completion. */
  function Run(s: PageState, acts: seq<Action>): PageState
    decreases |acts|
  {
    if acts == [] then s else Step(Run(s, acts[..|acts| - 1]), acts[|acts| - 1])
  }

  /**
   * The page's invariant between actions: no run is in flight, and a stored result is one the
   * pipeline confirmed: score 100 and a positive extracted face value.
   */
  predicate Consistent(s: PageState) {
    !s.loading &&
    (s.result.Some? ==> s.score == 100 && ExtractedFaceValue(s.result.value.analysis.faceValueAmount) > 0)
  }
}
