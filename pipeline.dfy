/**
 * What the two command flows have in common: the stages a run enters, the
 * outcomes of the library and network calls (given, not computed), the
 * terminal outcome, and what it means for a run to stop at its first
 * failing stage.
 */
module Pipeline {
  import opened Wrappers
  import opened Config

  /** A transaction hash, as the node returns it on submission. */
  type TxHash = string

  /** The contract address both flows bind to; a fixed literal, not a setting. */
  const ContractAddress := "<PUT-YOUR-CONTRACT-ADDRESS>"

  /** A stage entered, with the values handed to the call it makes. */
  datatype Stage =
    | Load
    | Gate
    | Dial(url: string)
    | Sign(keyHex: string, chainId: int)
    | Bind(contract: string)
    | Submit(to: string, amount: int)
    | Wait(tx: TxHash)
    | Report
    | Close
  {
    function Kind(): StageKind
    {
      match this
      case Load => LoadStage
      case Gate => GateStage
      case Dial(_) => DialStage
      case Sign(_, _) => SignStage
      case Bind(_) => BindStage
      case Submit(_, _) => SubmitStage
      case Wait(_) => WaitStage
      case Report => ReportStage
      case Close => CloseStage
    }
  }

  datatype StageKind =
    LoadStage | GateStage | DialStage | SignStage | BindStage | SubmitStage | WaitStage | ReportStage | CloseStage

  function Kinds(trace: seq<Stage>): (kinds: seq<StageKind>)
    ensures |kinds| == |trace|
    ensures forall i :: 0 <= i < |trace| ==> kinds[i] == trace[i].Kind()
  {
    if trace == [] then [] else Kinds(trace[..|trace| - 1]) + [trace[|trace| - 1].Kind()]
  }

  /**
   * The outcomes of the calls a flow cannot see into: ethclient.Dial,
   * crypto.HexToECDSA, bind.NewKeyedTransactorWithChainID, token.NewMyToken,
   * the Transfer or Mint submission (a hash, or nothing on error) and
   * bind.WaitMined.
   */
  datatype Oracle = Oracle(
    dialOk: bool,
    keyOk: bool,
    transactorOk: bool,
    bindOk: bool,
    submitted: Option<TxHash>,
    minedOk: bool)

  /** The fatal errors of a flow, one per stage that can fail. */
  datatype Failure =
    | ConfigError(cfgError: CfgError)
    | GateRejected
    | DialFailed
    | SignFailed(signError: SignError)
    | BindFailed
    | SubmitFailed
    | WaitFailed(pending: TxHash)

  /** A run ends with the transaction mined, or with the fatal error that stopped it. */
  datatype Outcome = Mined(tx: TxHash) | Fatal(failure: Failure)

  /** The stage whose failure a fatal error reports. */
  function StageOf(f: Failure): StageKind
  {
    match f
    case ConfigError(_) => LoadStage
    case GateRejected => GateStage
    case DialFailed => DialStage
    case SignFailed(_) => SignStage
    case BindFailed => BindStage
    case SubmitFailed => SubmitStage
    case WaitFailed(_) => WaitStage
  }

  predicate Distinct(order: seq<StageKind>)
  {
    forall i, j :: 0 <= i < j < |order| ==> order[i] != order[j]
  }

  /**
   * A run that enters the stages of `order` one after another, each only
   * after every earlier one succeeded (verdicts[i] says whether stage i
   * succeeds), and stops at the first stage that fails.
   */
  predicate StopsAtFirstFailure(kinds: seq<StageKind>, order: seq<StageKind>, verdicts: seq<bool>)
  {
    && |verdicts| == |order|
    && 0 < |kinds| <= |order|
    && kinds == order[..|kinds|]
    && (forall i :: 0 <= i < |kinds| - 1 ==> verdicts[i])
    && (|kinds| < |order| ==> !verdicts[|kinds| - 1])
  }

  /** A stage is entered exactly when every stage before it succeeded. */
  lemma EnteredIffEarlierSucceeded(
    kinds: seq<StageKind>, order: seq<StageKind>, verdicts: seq<bool>, j: nat)
    requires StopsAtFirstFailure(kinds, order, verdicts) && Distinct(order)
    requires j < |order|
    ensures order[j] in kinds <==> forall i :: 0 <= i < j ==> verdicts[i]
  {
  }

  /** What each stage of a run hands to the call it makes, given the settings and the amount sent. */
  predicate StageCarries(s: Stage, cfg: Cfg, amount: int, o: Oracle)
  {
    match s
    case Dial(url) => url == cfg.rpcUrl
    case Sign(keyHex, chainId) => keyHex == StripHexPrefix(cfg.privateKeyHex) && chainId == cfg.chainId
    case Bind(contract) => contract == ContractAddress
    case Submit(to, amt) => to == cfg.toAddress && amt == amount
    case Wait(tx) => o.submitted == Some(tx)
    case _ => true
  }

  predicate CarriesConfig(trace: seq<Stage>, cfg: Cfg, amount: int, o: Oracle)
  {
    forall i :: 0 <= i < |trace| ==> StageCarries(trace[i], cfg, amount, o)
  }

  /** The payload of a fatal error agrees with the call that failed. */
  predicate FailureExplained(f: Failure, loaded: Result<Cfg, CfgError>, o: Oracle)
  {
    match f
    case ConfigError(e) => loaded == Err(e)
    case SignFailed(e) => loaded.Ok? && Signer(loaded.value, o.keyOk, o.transactorOk) == Err(e)
    case WaitFailed(tx) => o.submitted == Some(tx)
    case _ => true
  }

  /**
   * A run of a flow with stage order `order` and stage verdicts `verdicts`
   * on resolved settings `loaded`: it stops at the first failure; it is mined exactly
   * when it went through every stage, with the submitted hash; a fatal
   * error names the last stage entered and agrees with the failing call;
   * and every stage carries the resolved settings and `amount`.
   */
  predicate IsRun(loaded: Result<Cfg, CfgError>, o: Oracle, order: seq<StageKind>, verdicts: seq<bool>,
                  amount: int, trace: seq<Stage>, outcome: Outcome)
  {
    var kinds := Kinds(trace);
    && StopsAtFirstFailure(kinds, order, verdicts)
    && (outcome.Mined? <==> kinds == order)
    && (outcome.Mined? ==> o.submitted == Some(outcome.tx))
    && (outcome.Fatal? ==> StageOf(outcome.failure) == kinds[|kinds| - 1])
    && (outcome.Fatal? ==> FailureExplained(outcome.failure, loaded, o))
    && (loaded.Ok? ==> CarriesConfig(trace, loaded.value, amount, o))
  }

  /** The facts a run gives about its stages one by one. */
  lemma RunFacts(loaded: Result<Cfg, CfgError>, o: Oracle, order: seq<StageKind>, verdicts: seq<bool>,
                 amount: int, trace: seq<Stage>, outcome: Outcome)
    requires IsRun(loaded, o, order, verdicts, amount, trace, outcome)
    ensures 0 < |trace| <= |order| == |verdicts|
    ensures forall i :: 0 <= i < |trace| ==> trace[i].Kind() == order[i]
    ensures forall i :: 0 <= i < |trace| - 1 ==> verdicts[i]
    ensures |trace| < |order| ==> !verdicts[|trace| - 1]
    ensures outcome.Mined? <==> |trace| == |order|
    ensures outcome.Fatal? ==> StageOf(outcome.failure) == order[|trace| - 1]
  {
  }

  /** A run is mined exactly when every stage before the last one succeeded. */
  lemma MinedIffAllSucceeded(loaded: Result<Cfg, CfgError>, o: Oracle, order: seq<StageKind>, verdicts: seq<bool>,
                             amount: int, trace: seq<Stage>, outcome: Outcome)
    requires IsRun(loaded, o, order, verdicts, amount, trace, outcome)
    ensures outcome.Mined? <==> forall i :: 0 <= i < |order| - 1 ==> verdicts[i]
  {
  }

  /** With distinct stage kinds, no stage of a run is entered twice: nothing is resubmitted. */
  lemma NoStageRepeated(loaded: Result<Cfg, CfgError>, o: Oracle, order: seq<StageKind>, verdicts: seq<bool>,
                        amount: int, trace: seq<Stage>, outcome: Outcome)
    requires IsRun(loaded, o, order, verdicts, amount, trace, outcome) && Distinct(order)
    ensures forall i, j :: 0 <= i < j < |trace| ==> trace[i].Kind() != trace[j].Kind()
  {
  }

  // ---------------------------------------------------------------------
  // Building a run stage by stage.
  // ---------------------------------------------------------------------

  /**
   * A run in progress, defined stage by stage: its last stage is the next
   * one of `order` and carries the settings, and it was entered only because
   * the stage before it succeeded.
   */
  predicate InProgress(loaded: Result<Cfg, CfgError>, o: Oracle, order: seq<StageKind>, verdicts: seq<bool>,
                       amount: int, trace: seq<Stage>)
    decreases |trace|
  {
    && |verdicts| == |order|
    && 0 < |trace| <= |order|
    && trace[|trace| - 1].Kind() == order[|trace| - 1]
    && (loaded.Ok? ==> StageCarries(trace[|trace| - 1], loaded.value, amount, o))
    && (|trace| > 1 ==>
          verdicts[|trace| - 2] && InProgress(loaded, o, order, verdicts, amount, trace[..|trace| - 1]))
  }

  /** What a run in progress has established about all of its stages. */
  lemma {:induction false} InProgressFacts(loaded: Result<Cfg, CfgError>, o: Oracle, order: seq<StageKind>,
                                           verdicts: seq<bool>, amount: int, trace: seq<Stage>)
    requires InProgress(loaded, o, order, verdicts, amount, trace)
    ensures Kinds(trace) == order[..|trace|]
    ensures forall i :: 0 <= i < |trace| - 1 ==> verdicts[i]
    ensures loaded.Ok? ==> CarriesConfig(trace, loaded.value, amount, o)
    decreases |trace|
  {
    var n := |trace|;
    if n > 1 {
      var init := trace[..n - 1];
      InProgressFacts(loaded, o, order, verdicts, amount, init);
      assert trace == init + [trace[n - 1]];
      assert order[..n] == order[..n - 1] + [order[n - 1]];
    } else {
      assert Kinds(trace) == [trace[0].Kind()];
    }
  }

  /** The first stage of the order is entered unconditionally. */
  lemma Start(loaded: Result<Cfg, CfgError>, o: Oracle, order: seq<StageKind>, verdicts: seq<bool>, amount: int,
              s: Stage)
    requires |verdicts| == |order| && 0 < |order| && s.Kind() == order[0]
    requires loaded.Ok? ==> StageCarries(s, loaded.value, amount, o)
    ensures InProgress(loaded, o, order, verdicts, amount, [s])
  {
  }

  /** The current stage succeeded, so the next stage of the order is entered. */
  lemma Advance(loaded: Result<Cfg, CfgError>, o: Oracle, order: seq<StageKind>, verdicts: seq<bool>, amount: int,
                trace: seq<Stage>, s: Stage)
    requires InProgress(loaded, o, order, verdicts, amount, trace)
    requires |trace| < |order| && verdicts[|trace| - 1] && s.Kind() == order[|trace|]
    requires loaded.Ok? ==> StageCarries(s, loaded.value, amount, o)
    ensures InProgress(loaded, o, order, verdicts, amount, trace + [s])
  {
  }

  /** The current stage failed: the run ends here with that stage's error. */
  lemma Abort(loaded: Result<Cfg, CfgError>, o: Oracle, order: seq<StageKind>, verdicts: seq<bool>, amount: int,
              trace: seq<Stage>, f: Failure)
    requires InProgress(loaded, o, order, verdicts, amount, trace)
    requires |trace| < |order| && !verdicts[|trace| - 1] && StageOf(f) == order[|trace| - 1]
    requires FailureExplained(f, loaded, o)
    ensures IsRun(loaded, o, order, verdicts, amount, trace, Fatal(f))
  {
    InProgressFacts(loaded, o, order, verdicts, amount, trace);
  }

  /** Every stage was entered: the run ends with the submitted transaction mined. */
  lemma Finish(loaded: Result<Cfg, CfgError>, o: Oracle, order: seq<StageKind>, verdicts: seq<bool>, amount: int,
               trace: seq<Stage>, tx: TxHash)
    requires InProgress(loaded, o, order, verdicts, amount, trace)
    requires |trace| == |order| && o.submitted == Some(tx)
    ensures IsRun(loaded, o, order, verdicts, amount, trace, Mined(tx))
  {
    InProgressFacts(loaded, o, order, verdicts, amount, trace);
    assert order[..|order|] == order;
  }

  // ---------------------------------------------------------------------
  // The network stages both flows share once their settings resolved.
  // ---------------------------------------------------------------------

  /** The stages from dialClient on, in the order both flows enter them. */
  const NetworkOrder: seq<StageKind> := [DialStage, SignStage, BindStage, SubmitStage, WaitStage, ReportStage, CloseStage]

  /** Whether each stage of NetworkOrder succeeds, given the call outcomes. */
  function NetworkVerdicts(o: Oracle): seq<bool>
  {
    [o.dialOk, o.keyOk && o.transactorOk, o.bindOk, o.submitted.Some?, o.minedOk, true, true]
  }

  /**
   * dialClient, signer and token.NewMyToken on the fixed contract address,
   * each fatal on error; on success the run goes on to the submission.
   */
  method Connect(loaded: Result<Cfg, CfgError>, o: Oracle, ghost order: seq<StageKind>, ghost verdicts: seq<bool>,
                 amount: int, trace: seq<Stage>)
    returns (next: seq<Stage>, failure: Option<Failure>)
    requires loaded.Ok? && InProgress(loaded, o, order, verdicts, amount, trace)
    requires |trace| + 7 == |order| && verdicts[|trace| - 1]
    requires order[|trace|..] == NetworkOrder && verdicts[|trace|..] == NetworkVerdicts(o)
    ensures failure.Some? ==> IsRun(loaded, o, order, verdicts, amount, next, Fatal(failure.value))
    ensures failure.None? ==> |next| == |trace| + 3 && InProgress(loaded, o, order, verdicts, amount, next)
    ensures failure.None? ==> verdicts[|next| - 1] && order[|next|..] == NetworkOrder[3..]
    ensures failure.None? ==> verdicts[|next|..] == NetworkVerdicts(o)[3..]
  {
    var cfg := loaded.value;
    Advance(loaded, o, order, verdicts, amount, trace, Dial(cfg.rpcUrl));
    next := trace + [Dial(cfg.rpcUrl)];
    if !o.dialOk {
      failure := Some(DialFailed);
      Abort(loaded, o, order, verdicts, amount, next, failure.value);
      return;
    }

    var sign := Sign(StripHexPrefix(cfg.privateKeyHex), cfg.chainId);
    Advance(loaded, o, order, verdicts, amount, next, sign);
    next := next + [sign];
    var auth := Signer(cfg, o.keyOk, o.transactorOk);
    if auth.Err? {
      failure := Some(SignFailed(auth.error));
      Abort(loaded, o, order, verdicts, amount, next, failure.value);
      return;
    }

    Advance(loaded, o, order, verdicts, amount, next, Bind(ContractAddress));
    next := next + [Bind(ContractAddress)];
    if !o.bindOk {
      failure := Some(BindFailed);
      Abort(loaded, o, order, verdicts, amount, next, failure.value);
      return;
    }
    failure := None;
  }

  /**
   * The submission of `amount` to the configured recipient, bind.WaitMined
   * on its hash, the success report and the deferred client.Close.
   */
  method SubmitAndConfirm(loaded: Result<Cfg, CfgError>, o: Oracle, ghost order: seq<StageKind>,
                          ghost verdicts: seq<bool>, amount: int, trace: seq<Stage>)
    returns (next: seq<Stage>, outcome: Outcome)
    requires loaded.Ok? && InProgress(loaded, o, order, verdicts, amount, trace)
    requires |trace| + 4 == |order| && verdicts[|trace| - 1]
    requires order[|trace|..] == NetworkOrder[3..] && verdicts[|trace|..] == NetworkVerdicts(o)[3..]
    ensures IsRun(loaded, o, order, verdicts, amount, next, outcome)
  {
    var submit := Submit(loaded.value.toAddress, amount);
    Advance(loaded, o, order, verdicts, amount, trace, submit);
    next := trace + [submit];
    if o.submitted.None? {
      outcome := Fatal(SubmitFailed);
      Abort(loaded, o, order, verdicts, amount, next, outcome.failure);
      return;
    }
    var tx := o.submitted.value;

    Advance(loaded, o, order, verdicts, amount, next, Wait(tx));
    next := next + [Wait(tx)];
    if !o.minedOk {
      outcome := Fatal(WaitFailed(tx));
      Abort(loaded, o, order, verdicts, amount, next, outcome.failure);
      return;
    }

    // The "mined" report, then the deferred client.Close of a run that did not abort.
    Advance(loaded, o, order, verdicts, amount, next, Report);
    next := next + [Report];
    Advance(loaded, o, order, verdicts, amount, next, Close);
    next := next + [Close];
    outcome := Mined(tx);
    Finish(loaded, o, order, verdicts, amount, next, tx);
  }
}
