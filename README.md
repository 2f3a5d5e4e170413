# Verification workflow of the VerifyChain RWA home page

This project models the verification workflow controller of the `Home` page in
`frontend/src/app/home/page.tsx`. A user uploads a bond certificate, and an analysis service extracts
its metadata and an oracle yield. The page moves a trust score through a fixed, ordered pipeline,
keeps a terminal log, and stores the confirmed result. It can then mint the asset through the
wallet's contract-execution call, or run a cosmetic KYC check.

Modules:

- `Wrappers` (wrappers.dfy): `Option`, standing for `null` and `undefined`.
- `Strings` (strings.dfy): `String.prototype.replace` with a string pattern, which `handleMint`
  applies to the contract address, and the facts that say which occurrence it removes.
- `HomeState` (state.dfy): the `useState` slots the workflow reads and writes, as a `PageState`
  value, and the setter calls as `Effect`s. There are six such slots: `file`, `signer`,
  `trustScore`, `logs`, `aiData` and `loading`. `registry` is the seventh, and nothing ever sets it.
  `Exec` folds a list of setter calls over a state, in the order React applies them.
  `ScoreTrace` lists the values given to `setTrustScore`. It also holds the three render guards:
  the Analyze button's `disabled` condition, the "Verified" caption, and the mint card's condition.
- `HomeHandlers` (handlers.dfy): each handler as the exact ordered list of setter calls it makes
  (`AnalyzeEffects`, `MintEffects`, `KycEffects`). These lists cover every branch of the handlers
  and the exceptions that come from failed calls or absent response parts. The malformed values
  listed under "Left out" are not covered. It also holds the `createAsset` call that `handleMint`
  issues, with the page's constants and defaults, and the page as a state machine over user
  actions (`Step`, `Run`).
- `HomeProperties` (properties.dfy): what those programs guarantee. This covers the score trace
  and final state of every way a run can end, the mint guards, logging and payload, the KYC
  stub, and invariants over any sequence of actions.
- `HomePage` (page.dfy): the component as a class. The slots are fields and each setter is a
  method. The handlers call the setters in the page's order. A ghost `history` of setter calls
  ties the fields to `Exec(Initial, history)`, so each handler's postcondition is an equation with
  its effect program, and the lemmas of `HomeProperties` apply to it.

Log lines are a datatype with one constructor per message template of the page. Each constructor
carries the values its template depends on, not the text. `FaceValueReported` carries the
extracted integer, and the template prints "Unknown" instead of an amount when that integer is not
positive (line 162).

The effect programs have no contract of their own. The lemmas about them state what they do:

- `AnalyzeEffects` and `ScoringEffects` are specified by `RunReset`, `TransportFailurePath`,
  `SuccessPath`, `FailurePath`, `MissingOraclePath` and `RunEnds`.
- `MintEffects` is specified by `MintGuards` and `MintLogging`.
- `KycEffects` is specified by `KycLogging`.
- `AssetArgsOf` is specified by `MintPayload`.
- The render guards `AnalyzeEnabled`, `VerifiedBadge` and `MintCardShown` are specified by
  `ReachableGuards`, `EnabledButtonStartsRun` and `MissingOraclePath`.

Behaviour of page.tsx that the lemmas make explicit:

- A successful mint appends three lines: the signature request (line 193), the transaction line
  and the confirmation. A failed mint appends the signature request and one `[Error]` line.
- The yield is scaled with `Math.floor` (line 203). This differs from truncation for negative
  yields.
- Two reads of the response can throw. A response without `ai_analysis` throws at line 148, and
  one without `oracle_data` throws at line 174. The second happens after the score was set to 80.
  The run then ends on the critical-error path with score 80 and no result, while the gauge
  caption already reads "Verified" (lines 415-416). `MissingOraclePath` states this.
- Nothing discards a stale run's completions. The page only disables the Analyze button while
  `loading` (line 355).

## Model

| member | source | states |
|---|---|---|
| `HomeState.Apply` | frontend/src/app/home/page.tsx:101-107 | each setter gives its own slot the value passed and leaves every other slot alone; `addLog` appends its line to the latest list |
| `HomeHandlers.ExtractedFaceValue` | frontend/src/app/home/page.tsx:148 | `face_value_amount \|\| 0`: an absent amount counts as 0, a present one is kept |
| `HomeHandlers.MintCall` | frontend/src/app/home/page.tsx:188-205 | an execute call is issued exactly when a wallet is connected and a result exists; it targets the configured contract without `0x`, method `createAsset`, with the arguments built from the result |
| `HomeHandlers.OrDefault` | frontend/src/app/home/page.tsx:200-201 | `s \|\| d` on an optional string: the string when it is present and non-empty, otherwise the default |
| `HomeHandlers.FaceValueOrDefault` | frontend/src/app/home/page.tsx:202 | the face value sent is never 0: absent or 0 becomes 1000000, any other amount is kept |
| `HomeHandlers.Hundredths` | frontend/src/app/home/page.tsx:203 | the yield in hundredths is the largest integer not above yield × 100 |
| `Strings.RemoveFirst` | frontend/src/app/home/page.tsx:197 | `replace(p, "")` shortens the string by `\|p\|` when `p` occurs, returns the string unchanged when it does not, and strips a prefix occurrence |
| `Strings.RemoveFirstOccurrence` | frontend/src/app/home/page.tsx:197 | when `p` occurs, `replace(p, "")` cuts out exactly the first occurrence and keeps everything before and after it |
| `Strings.ContainsOccurs` | frontend/src/app/home/page.tsx:197 | the "occurs" test used above is occurrence at some index |
| `HomeHandlers.ContractId` | frontend/src/app/home/page.tsx:12 | the contract id handed to the wallet is the configured address without its leading `0x` |
| `HomeHandlers.Masked` | frontend/src/app/home/page.tsx:223 | the identity line shows a prefix of the address of length min(6, length) |
| `HomeHandlers.MetadataLine` | frontend/src/app/home/page.tsx:153-157 | the warning line if and only if the bond name is absent, empty or "Unknown"; otherwise the metadata line carrying that name |
| `HomeProperties.RunReset` | frontend/src/app/home/page.tsx:134-139 | starting a run sets score 0 and `loading`, drops the result, and leaves only the upload line naming the file |
| `HomeProperties.NoFileIsNoOp` | frontend/src/app/home/page.tsx:133 | with no file selected, score, logs, result and `loading` are all unchanged |
| `HomeProperties.TransportFailurePath` | frontend/src/app/home/page.tsx:145-148 | a failed call, or a body without `ai_analysis`, gives score trace [0], logs [upload, critical error], no result, `loading` false |
| `HomeProperties.ExtractionSteps` | frontend/src/app/home/page.tsx:150-162 | the first two steps set 20 then 50 and append the metadata and face-value lines |
| `HomeProperties.ConfirmSteps` | frontend/src/app/home/page.tsx:171-177 | the last step sets 80 then 100, appends the yield line and stores the response as the result |
| `HomeProperties.FailSteps` | frontend/src/app/home/page.tsx:163-168 | the failure exit appends the FAIL line, sets 10 and ends the run |
| `HomeProperties.CrashSteps` | frontend/src/app/home/page.tsx:180-184 | the catch path appends the critical-error line and ends the run without setting a score |
| `HomeProperties.SuccessPath` | frontend/src/app/home/page.tsx:150-177 | a positive face value with oracle data gives the score trace exactly [0, 20, 50, 80, 100], the four log lines in order, the response as result, `loading` false |
| `HomeProperties.FailurePath` | frontend/src/app/home/page.tsx:162-169 | an absent, zero or negative face value gives the trace [0, 20, 50, 10], the face-value then FAIL lines, no result, no yield line, `loading` false |
| `HomeProperties.MissingOraclePath` | frontend/src/app/home/page.tsx:171-174 | a body without `oracle_data` ends at score 80 on the critical-error path with no result; the caption reads "Verified" but the mint card is hidden |
| `HomeProperties.RunEnds` | frontend/src/app/home/page.tsx:132-185 | every started run ends with `loading` false and the upload line first; it stores a result exactly when it completes, and then the score is 100 |
| `HomeProperties.EnabledButtonStartsRun` | frontend/src/app/home/page.tsx:355 | when the Analyze button is enabled, the handler always runs; the mint card shows afterwards exactly when verification completed |
| `HomeProperties.ExampleVerifiedBond` | frontend/src/app/home/page.tsx:150-205 | from any state with a file selected, "T-Bond 2030" with a face value of 1000000 and yield 4.32 ends at 100, logs the name and the yield, and mints with yield 432 |
| `HomeProperties.ExampleWorthlessBond` | frontend/src/app/home/page.tsx:162-169 | from any state with a file selected, a zero face value ends at 10 with no result, and then no mint call can be made |
| `HomeProperties.RunForgetsPriorState` | frontend/src/app/home/page.tsx:134-139 | a run's end state depends only on the file, the wallet and the reply, not on earlier runs |
| `HomeProperties.SecondRunSupersedesFirst` | frontend/src/app/home/page.tsx:132-185 | after two runs the page is exactly as if only the second had run |
| `HomeProperties.MintGuards` | frontend/src/app/home/page.tsx:188-189 | no execute call is issued, and nothing changes, exactly when the wallet or the result is missing; the wallet is checked first |
| `HomeProperties.MintLogging` | frontend/src/app/home/page.tsx:193-216 | success appends the signature, transaction (hash or "pending") and confirmation lines; failure appends the signature line and one error line ("Unknown error" for a non-`Error` value); score and result never change |
| `HomeProperties.MintPayload` | frontend/src/app/home/page.tsx:196-205 | the call's contract, method and every argument, with the defaults "Unknown Bond", "UNKN" and 1000000, the floored yield and the fixed IPFS hash |
| `HomeProperties.ConfirmedPayloadFaceValue` | frontend/src/app/home/page.tsx:202 | for a confirmed result the face value sent is the extracted positive amount, never the placeholder |
| `HomeProperties.KycLogging` | frontend/src/app/home/page.tsx:220-228 | with a wallet and an address, the identity stub appends the masked-address line then the confirmation; otherwise nothing changes |
| `HomeProperties.StepKeepsConsistent` | frontend/src/app/home/page.tsx:177 | every user action keeps the invariant: no run in flight, and a stored result has score 100 and a positive face value |
| `HomeProperties.ReachableConsistent` | frontend/src/app/home/page.tsx:132-228 | the invariant holds in every state reachable from the initial one |
| `HomeProperties.ReachableGuards` | frontend/src/app/home/page.tsx:355-500 | in every reachable state the Analyze button is enabled exactly when a file is selected, and the mint card only shows under the "Verified" caption |
| `HomeProperties.OnlyRunsChangeVerdict` | frontend/src/app/home/page.tsx:187-228 | any sequence of file picks, wallet changes, mints and KYC checks leaves score, result and `loading` unchanged |
| `HomeProperties.NoMintWithoutNewRun` | frontend/src/app/home/page.tsx:189 | after a run that stored no result, no mint call can be made until a new run |
| `HomePage.Home.constructor` | frontend/src/app/home/page.tsx:101-107 | the page mounts with no file, no wallet, score 0, empty logs, no result, not loading |
| `HomePage.Home.UpdateSigner` | frontend/src/app/home/page.tsx:101 | `setSigner` replaces the signer and nothing else; the call is recorded |
| `HomePage.Home.UpdateFile` | frontend/src/app/home/page.tsx:102 | `setFile` replaces the file and nothing else; the call is recorded |
| `HomePage.Home.UpdateAiData` | frontend/src/app/home/page.tsx:103 | `setAiData` replaces the result and nothing else; the call is recorded |
| `HomePage.Home.UpdateLoading` | frontend/src/app/home/page.tsx:104 | `setLoading` replaces `loading` and nothing else; the call is recorded |
| `HomePage.Home.UpdateLogs` | frontend/src/app/home/page.tsx:105 | `setLogs` replaces the logs and nothing else; the call is recorded |
| `HomePage.Home.UpdateTrustScore` | frontend/src/app/home/page.tsx:107 | `setTrustScore` replaces the score and nothing else; the call is recorded |
| `HomePage.Home.AppendLog` | frontend/src/app/home/page.tsx:115 | appends one line to the logs and changes nothing else |
| `HomePage.Home.PickFile` | frontend/src/app/home/page.tsx:334 | selecting a file replaces the file only |
| `HomePage.Home.ConnectWallet` | frontend/src/app/home/page.tsx:240 | connecting or disconnecting the wallet changes the signer only |
| `HomePage.Home.HandleAnalyze` | frontend/src/app/home/page.tsx:132-185 | makes exactly the setter calls of the analyze program, keeps the invariant, and returns the notification it shows |
| `HomePage.Home.RunAnalysis` | frontend/src/app/home/page.tsx:134-184 | on a selected file, makes the reset calls and then the scoring calls of the reply, and returns the notification |
| `HomePage.Home.StartRun` | frontend/src/app/home/page.tsx:134-139 | makes the reset calls and appends the upload line |
| `HomePage.Home.ScoreReply` | frontend/src/app/home/page.tsx:146-184 | makes the scoring calls of the reply's path and returns which way the run ended |
| `HomePage.Home.Extract` | frontend/src/app/home/page.tsx:150-162 | makes the calls of the first two scoring steps |
| `HomePage.Home.FailRun` | frontend/src/app/home/page.tsx:163-168 | appends the FAIL line, sets the score to 10 and clears `loading` |
| `HomePage.Home.Confirm` | frontend/src/app/home/page.tsx:174-177 | appends the yield line, sets the score to 100 and stores the result; the final `setLoading(false)` of line 184 follows |
| `HomePage.Home.Crash` | frontend/src/app/home/page.tsx:180-184 | appends the critical-error line and clears `loading` |
| `HomePage.Home.HandleMint` | frontend/src/app/home/page.tsx:187-218 | returns the execute call it issued and the notification; appends only the mint lines; leaves score, result and `loading` alone |
| `HomePage.Home.HandleKyc` | frontend/src/app/home/page.tsx:220-228 | appends only the identity lines, returns the KYC notification, and leaves score, result and `loading` alone |

## Left out

- `registry` (line 106): the seventh slot is never set by any handler, so the model has no field for it.
- Rendering, animation and notifications: the JSX, framer-motion, the gauge's floating-point SVG
  arithmetic (lines 31-66), the sparkline and the toasts. Each handler returns which notification
  it shows, as a value.
- Text of the log lines: each line is kept as its template and values. `toLocaleString` of the
  face value and JavaScript's number-to-string of the yield are locale and floating-point
  formatting.
- The pacing delays: the three 600 ms waits and the 1500 ms KYC delay. The model keeps only the
  order of the setter calls, and each handler runs to completion before the next action.
- Interleaving across `await`s: actions during a run, and a stale run finishing after a newer one
  started. This is concurrency, and the page has no guard against it beyond the disabled button.
- The network and wallet calls themselves (the POST at line 145, `contracts.execute`,
  `getAddress`). They are inputs: the reply, how the execute call settles, and the resolved
  address, with `None` when `getAddress` rejects.
- `fetchRegistry` (lines 117-126) and its call after a mint: console output only.
- Hundredths: the product yield × 100 is exact, not rounded to a double as `Math.floor(live_yield * 100)` is.
- Face value coercion: `face_value_amount` is taken to be an integer, absent or present. The number
  to string to integer round trip of `parseInt` is not modelled. That round trip truncates
  fractions and misreads exponent forms such as 1e21. Non-numeric values, which would give
  `NaN`, are not modelled either.
- Malformed values beyond absent parts: a `live_yield` that is not a number, and an execute call
  that resolves to a non-object.
- The rest of the repository: the landing page, the navbar's wallet plumbing, the course pages
  and data, the portfolio page, the next.js configuration and the Flask backend.
