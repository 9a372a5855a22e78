# erc20-go-demo: settings resolver and the transfer and mint pipelines

This project models the command-line ERC-20 demo `erc20-go-demo` in Dafny.
It covers three parts.

- **Settings resolver** (`cmd/common.go`). `loadCfg` turns the process
  environment into a `Cfg` record, or into the error that `log.Fatal` reports.
  `mustEnv` requires a variable to be non-empty. `big.Int.SetString(s, 10)`
  accepts an optional `+` or `-` followed by one or more ASCII digits. The
  checks run in source order: CHAIN_ID, INITIAL_SUPPLY_WEI, the optional
  TRANSFER_AMOUNT_WEI, then RPC_URL, PRIVATE_KEY, TOKEN_NAME and TOKEN_SYMBOL.
  TO_ADDRESS is read but never required. `signer` removes one leading `0x`
  from the key and binds the key to the chain id.
- **Transfer flow** (`cmd/transfer.go`). Its `main` is a method, `RunTransfer`.
  It runs a staged pipeline and records the stages it enters as a trace:
  load, gate, dial, sign, bind, submit, wait, report, and finally the
  deferred close. It returns either the mined hash or the fatal error that
  ended the run.
- **Mint flow** (`cmd/mint.go`). `RunMint` is the same pipeline with no gate
  and a fixed amount of 10 * 10^18 base units.

The library and network calls are inputs to the model. They are gathered in
an `Oracle` that says whether each call succeeds and which hash the submission
returns. Each flow method is proved against a run predicate, `IsRun`. It says:

- the trace is a prefix of the flow's stage order;
- every stage before the last one succeeded;
- a run that stops early stops at a failing stage, with that stage's error;
- the run is mined exactly when every stage was entered;
- every stage carries the resolved settings.

Lemmas then derive the ordering guarantees of each flow from that predicate.

Modules: `Wrappers` (Option and Result), `Decimal` (base-10 parsing),
`Config` (`cmd/common.go`), `Pipeline` (stages, outcomes, the run predicate,
and the dial-to-close stages both flows share), `Transfer` and `Mint`.

Behaviours of the code that the model keeps as they are:

- No sign check: a negative CHAIN_ID or INITIAL_SUPPLY_WEI is accepted
  (`Config.LoadEnvRoundTrip`, `Decimal.MinusSignNegates`).
- The transfer gate refuses only a zero amount; a negative amount is
  submitted unchanged (`Transfer.TransferNegativeAmountSubmitted`).
- The recipient's form is never checked, in either flow
  (`Mint.MintRecipientUnchecked`).
- `log.Fatal` exits without running deferred calls, so `Close` is entered
  only after a successful run (`Pipeline.SubmitAndConfirm`).
- INITIAL_SUPPLY_WEI and TRANSFER_AMOUNT_WEI are checked in every flow,
  mint included, though mint uses neither (`Mint.MintNeedsUnusedSettings`).

## Model

| member | source | states |
|---|---|---|
| Decimal.ScanDigits | cmd/common.go:39-43 | The digit scan succeeds exactly when every character is an ASCII digit. Its value is the accumulator shifted by the digit count, plus the reference value of the digits. |
| Decimal.ParseDecimal | cmd/common.go:39-43 | Base-10 SetString succeeds exactly on the grammar `[+-]?[0-9]+`, with nothing else accepted. The value is the signed reference value. |
| Decimal.ParseFormatRoundTrip | cmd/common.go:39-56 | Parsing the canonical decimal text of any integer gives that integer back. |
| Decimal.PlusSignIsNeutral | cmd/common.go:39-43 | A leading `+` does not change the parse of an unsigned string. |
| Decimal.MinusSignNegates | cmd/common.go:39-43 | A leading `-` negates the value. No sign check rejects it. |
| Config.MustEnv | cmd/common.go:28-34 | Succeeds exactly when the variable is set and non-empty, returning its value. Otherwise fails with "missing env" naming the key. |
| Config.LoadCfgFields | cmd/common.go:36-68 | On success each numeric field is the decimal value of its variable, with TRANSFER_AMOUNT_WEI 0 when empty or unset. The four required strings are copied verbatim and are non-empty. ToAddress is TO_ADDRESS, possibly empty. |
| Config.FirstFailure | cmd/common.go:39-64 | An independent statement of the checks: returns nothing exactly when every rule holds, else the error of the first rule that fails. |
| Config.NumericChecksFirst | cmd/common.go:39-56 | The numeric rules come first, in this order: CHAIN_ID missing or invalid, INITIAL_SUPPLY_WEI missing or invalid, TRANSFER_AMOUNT_WEI invalid when set. |
| Config.StringChecksInOrder | cmd/common.go:58-64 | The required strings are checked in the order the Cfg literal reads them: RPC_URL, PRIVATE_KEY, TOKEN_NAME, TOKEN_SYMBOL. |
| Config.LoadCfgFollowsChecks | cmd/common.go:36-68 | loadCfg fails exactly when some rule fails, with the error of the first failing rule. |
| Config.LoadEnvRoundTrip | cmd/common.go:36-68 | Resolving the environment written from any record with non-empty strings gives that record back. Negative integers included. |
| Config.ToAddressNotRequired | cmd/common.go:65 | Changing TO_ADDRESS changes neither whether resolution succeeds nor the error, only the ToAddress field. Removing it gives an empty ToAddress. |
| Config.StripHexPrefix | cmd/common.go:79 | A key starting with `0x` loses exactly that prefix; any other key is unchanged. |
| Config.StripHexPrefixOnce | cmd/common.go:79 | Only one prefix is removed, even when the rest starts with `0x` again. |
| Config.Signer | cmd/common.go:78-91 | Succeeds exactly when the key decodes and the transactor is built. A key failure is reported as a bad key before any transactor failure. The key text is PRIVATE_KEY without its `0x`. The chain id is passed unchanged. |
| Config.SignerIgnoresHexPrefix | cmd/common.go:79-84 | PRIVATE_KEY with or without a leading `0x` gives the same signer. |
| Pipeline.EnteredIffEarlierSucceeded | cmd/transfer.go:14-46 | In a run over a stage order with no repeats, a stage is entered exactly when every earlier stage succeeded. |
| Pipeline.RunFacts | cmd/mint.go:15-44 | A run follows its stage order position by position. Every stage but the last succeeded. A run that stops early stops at a failing stage, whose error names that stage. It is mined exactly when every stage was entered. |
| Pipeline.MinedIffAllSucceeded | cmd/mint.go:15-44 | A run ends mined exactly when every stage before the closing one succeeded. |
| Pipeline.NoStageRepeated | cmd/mint.go:15-44 | No stage is entered twice, so nothing is submitted twice. |
| Pipeline.Connect | cmd/transfer.go:20-31 | dialClient, signer and the binding at the fixed address, each fatal on error. A failure ends the run as a valid run with that failure. Success leaves the run in progress, three stages on. |
| Pipeline.SubmitAndConfirm | cmd/transfer.go:33-45 | The submission, WaitMined, the mined report and the deferred Close. Ends in a valid run: fatal at the first failing call, else mined with the submitted hash. |
| Transfer.RunTransfer | cmd/transfer.go:14-46 | The transfer main: its trace and outcome form a valid transfer run on the resolved settings and the call outcomes. |
| Transfer.TransferConfigFailure | cmd/transfer.go:15 | Settings that do not resolve end the run after the load stage, with the resolver's error. |
| Transfer.TransferGateRejects | cmd/transfer.go:16-18 | An empty TO_ADDRESS or a zero amount ends the run at the gate. No network stage is entered. |
| Transfer.TransferDialsIffGatePasses | cmd/transfer.go:16-20 | Dial is entered exactly when the settings resolve, the recipient is non-empty and the amount is non-zero. |
| Transfer.TransferNeedsAmount | cmd/transfer.go:16 | With TRANSFER_AMOUNT_WEI unset, the defaulted zero makes the run fatal before dialing. |
| Transfer.TransferNegativeAmountSubmitted | cmd/transfer.go:16 | The gate refuses only zero. A negative amount is submitted unchanged once the connection succeeds. |
| Transfer.TransferBindFailure | cmd/transfer.go:28-31 | A bind failure ends the run fatally before any submission. |
| Transfer.TransferWaitsOnlyAfterSubmission | cmd/transfer.go:34-41 | WaitMined is entered exactly when a transfer was submitted after every earlier stage succeeded. A failed submission never waits. |
| Transfer.TransferMinedIffAllSucceeded | cmd/transfer.go:41-45 | "Transfer mined" is reported exactly when the run ends mined. That happens exactly when every call, the wait included, succeeded, and the run carries the submitted hash. |
| Transfer.TransferSendsConfiguredAmount | cmd/transfer.go:26-34 | Every submission sends TransferWei to ToAddress. Every bind uses the fixed contract address. No stage repeats. |
| Mint.RunMint | cmd/mint.go:15-44 | The mint main: its trace and outcome form a valid mint run on the resolved settings and the call outcomes. |
| Mint.MintAmountParses | cmd/mint.go:29-31 | The amount literal parses to 10 * 10^18, so ignoring SetString's flag loses nothing. |
| Mint.MintConfigFailure | cmd/mint.go:16 | Settings that do not resolve end the run after the load stage, with the resolver's error. |
| Mint.MintDialsIffLoaded | cmd/mint.go:16-17 | There is no gate: dial is entered exactly when the settings resolve. |
| Mint.MintRecipientUnchecked | cmd/mint.go:28-33 | Once the connection succeeds, the mint is submitted to TO_ADDRESS as resolved, the empty string included. |
| Mint.MintSendsFixedAmount | cmd/mint.go:22-33 | Every submission mints the fixed amount to ToAddress. Every bind uses the fixed contract address. The stages follow the mint order with none repeated. |
| Mint.MintBindFailure | cmd/mint.go:23-26 | A bind failure ends the run fatally before any submission. |
| Mint.MintWaitsOnlyAfterSubmission | cmd/mint.go:33-39 | WaitMined is entered exactly when a mint was submitted after every earlier stage succeeded. |
| Mint.MintMinedIffAllSucceeded | cmd/mint.go:39-43 | "Mint mined" is reported exactly when the run ends mined. That happens exactly when every call, the wait included, succeeded, with the submitted hash. |
| Mint.MintNeedsUnusedSettings | cmd/mint.go:16 | A malformed INITIAL_SUPPLY_WEI or TRANSFER_AMOUNT_WEI stops the mint before dialing, though mint uses neither. |

## Left out

- `godotenv.Load` (cmd/common.go:37) is not modelled, because it is file I/O that merges a `.env` file into the process environment. The environment is taken as already populated.
- `ethclient.Dial`, `crypto.HexToECDSA`, `bind.NewKeyedTransactorWithChainID`, `token.NewMyToken`, the `Transfer` and `Mint` calls and `bind.WaitMined` are not modelled. Each is a boolean outcome, or an optional hash, fixed for the run. The outcomes do not depend on the arguments. The trace records which arguments each call receives.
- `common.HexToAddress` is not modelled. The recipient and the contract address stay as strings. In Go a malformed address silently becomes some address, with no error (the zero address for an empty string or the contract placeholder); which address that is lies outside the model.
- The private key returned by `signer`, the `auth.Context` assignment and the `Auth` contents beyond the key text and the chain id are not modelled. They are construction only.
- A transaction hash is an opaque string.
- Pipeline.SubmitAndConfirm: the wait always ends in the model, either mined or with `WaitFailed`. In Go, `bind.WaitMined` is called with `context.Background()`, which is never cancelled, so it polls until a receipt arrives: the wait can block forever, and its error path (the "wait mined" `log.Fatalf`, cmd/transfer.go:43 and cmd/mint.go:41) cannot happen. The model's `WaitFailed` outcome over-approximates that, and gives every run an end.
- WaitMined succeeding is read as "mined". Go's `WaitMined` also returns without error for a reverted transaction, and that receipt status is not modelled.
- Printed output (submitted hashes, the mined messages) and process exit codes are not modelled. A `log.Fatal` is the `Fatal` outcome carrying the failure.
- `cmd/deploy.go` is not part of this model. It only calls the deploy binding and view calls and prints the results.
- `Pipeline.Connect` and `Pipeline.SubmitAndConfirm` split the dial-to-close stages that `cmd/transfer.go` and `cmd/mint.go` repeat line for line. The Go code keeps them inline in each `main`.
