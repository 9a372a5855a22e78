/**
 * cmd/transfer.go: resolve the settings, refuse to go on without a
 * recipient and a non-zero amount, then dial, sign, bind to the fixed
 * contract, submit the transfer, wait for it to be mined and report.
 * Every stage aborts the run on error.
 */
module Transfer {
  import opened Wrappers
  import opened Config
  import opened Pipeline

  const TransferOrder: seq<StageKind> := [LoadStage, GateStage] + NetworkOrder

  /** The precondition gate: a recipient is set and the amount's sign is not zero. */
  predicate GatePasses(cfg: Cfg)
  {
    cfg.toAddress != "" && cfg.transferWei != 0
  }

  /** Whether each stage of TransferOrder succeeds, given the environment and the call outcomes. */
  function TransferVerdicts(loaded: Result<Cfg, CfgError>, o: Oracle): seq<bool>
  {
    [loaded.Ok?, loaded.Ok? && GatePasses(loaded.value)] + NetworkVerdicts(o)
  }

  /** A transfer run on what loadCfg returned: the common run shape, sending the configured amount. */
  predicate IsTransferRun(loaded: Result<Cfg, CfgError>, o: Oracle, trace: seq<Stage>, outcome: Outcome)
  {
    IsRun(loaded, o, TransferOrder, TransferVerdicts(loaded, o),
          if loaded.Ok? then loaded.value.transferWei else 0, trace, outcome)
  }

  /** main of cmd/transfer.go; returns the stages entered and how the run ended. */
  method RunTransfer(env: Env, o: Oracle) returns (trace: seq<Stage>, outcome: Outcome)
    ensures IsTransferRun(LoadCfg(env), o, trace, outcome)
  {
    var loaded := LoadCfg(env);
    ghost var verdicts := TransferVerdicts(loaded, o);
    ghost var amount := if loaded.Ok? then loaded.value.transferWei else 0;
    Start(loaded, o, TransferOrder, verdicts, amount, Load);
    trace := [Load];
    if loaded.Err? {
      outcome := Fatal(ConfigError(loaded.error));
      Abort(loaded, o, TransferOrder, verdicts, amount, trace, outcome.failure);
      return;
    }
    var cfg := loaded.value;
    var failure: Option<Failure>;

    Advance(loaded, o, TransferOrder, verdicts, amount, trace, Gate);
    trace := trace + [Gate];
    if cfg.toAddress == "" || cfg.transferWei == 0 {
      outcome := Fatal(GateRejected);
      Abort(loaded, o, TransferOrder, verdicts, amount, trace, outcome.failure);
      return;
    }

    assert TransferOrder[|trace|..] == NetworkOrder && verdicts[|trace|..] == NetworkVerdicts(o);
    trace, failure := Connect(loaded, o, TransferOrder, verdicts, cfg.transferWei, trace);
    if failure.Some? {
      outcome := Fatal(failure.value);
      return;
    }
    trace, outcome := SubmitAndConfirm(loaded, o, TransferOrder, verdicts, cfg.transferWei, trace);
  }

  // ---------------------------------------------------------------------
  // What every transfer run guarantees.
  // ---------------------------------------------------------------------

  lemma TransferOrderDistinct()
    ensures Distinct(TransferOrder)
  {
  }

  /** The stage order and the verdicts, position by position. */
  lemma TransferTable(loaded: Result<Cfg, CfgError>, o: Oracle)
    ensures TransferOrder ==
      [LoadStage, GateStage, DialStage, SignStage, BindStage, SubmitStage, WaitStage, ReportStage, CloseStage]
    ensures TransferVerdicts(loaded, o) ==
      [loaded.Ok?, loaded.Ok? && GatePasses(loaded.value), o.dialOk, o.keyOk && o.transactorOk, o.bindOk,
       o.submitted.Some?, o.minedOk, true, true]
  {
  }

  /** Settings that do not resolve end the run at the load stage with that error. */
  lemma TransferConfigFailure(loaded: Result<Cfg, CfgError>, o: Oracle, trace: seq<Stage>, outcome: Outcome)
    requires IsTransferRun(loaded, o, trace, outcome) && loaded.Err?
    ensures trace == [Load] && outcome == Fatal(ConfigError(loaded.error))
  {
    TransferTable(loaded, o);
    RunFacts(loaded, o, TransferOrder, TransferVerdicts(loaded, o), 0, trace, outcome);
    assert !TransferVerdicts(loaded, o)[0];
    assert |trace| == 1 && trace[0].Kind() == LoadStage;
  }

  /**
   * The gate comes before the network: with an empty recipient or a zero
   * amount the run ends at the gate and never dials, signs, binds, submits
   * or waits.
   */
  lemma TransferGateRejects(loaded: Result<Cfg, CfgError>, o: Oracle, trace: seq<Stage>, outcome: Outcome)
    requires IsTransferRun(loaded, o, trace, outcome)
    requires loaded.Ok? && (loaded.value.toAddress == "" || loaded.value.transferWei == 0)
    ensures trace == [Load, Gate] && outcome == Fatal(GateRejected)
  {
    TransferTable(loaded, o);
    RunFacts(loaded, o, TransferOrder, TransferVerdicts(loaded, o), loaded.value.transferWei, trace, outcome);
    assert TransferVerdicts(loaded, o)[0] && !TransferVerdicts(loaded, o)[1];
    assert |trace| == 2 && trace[0].Kind() == LoadStage && trace[1].Kind() == GateStage;
  }

  /** The network is reached exactly when the settings resolve and the gate lets the run through. */
  lemma TransferDialsIffGatePasses(loaded: Result<Cfg, CfgError>, o: Oracle, trace: seq<Stage>, outcome: Outcome)
    requires IsTransferRun(loaded, o, trace, outcome)
    ensures DialStage in Kinds(trace) <==> loaded.Ok? && GatePasses(loaded.value)
  {
    TransferOrderDistinct();
    TransferTable(loaded, o);
    var v := TransferVerdicts(loaded, o);
    assert (forall i :: 0 <= i < 2 ==> v[i]) <==> v[0] && v[1];
    EnteredIffEarlierSucceeded(Kinds(trace), TransferOrder, v, 2);
  }

  /** Left unset, TRANSFER_AMOUNT_WEI resolves to zero, so the run stops before the network. */
  lemma TransferNeedsAmount(env: Env, o: Oracle, trace: seq<Stage>, outcome: Outcome)
    requires IsTransferRun(LoadCfg(env), o, trace, outcome) && Getenv(env, TransferAmountKey) == ""
    ensures DialStage !in Kinds(trace) && outcome.Fatal?
  {
    LoadCfgFields(env);
    TransferDialsIffGatePasses(LoadCfg(env), o, trace, outcome);
  }

  /**
   * Only a zero amount is refused: a negative amount passes the gate and,
   * when the connection succeeds, is submitted as it is.
   */
  lemma TransferNegativeAmountSubmitted(loaded: Result<Cfg, CfgError>, o: Oracle, trace: seq<Stage>,
                                        outcome: Outcome)
    requires IsTransferRun(loaded, o, trace, outcome)
    requires loaded.Ok? && loaded.value.toAddress != "" && loaded.value.transferWei < 0
    requires o.dialOk && o.keyOk && o.transactorOk && o.bindOk
    ensures Submit(loaded.value.toAddress, loaded.value.transferWei) in trace
  {
    var cfg := loaded.value;
    var v := TransferVerdicts(loaded, o);
    TransferTable(loaded, o);
    RunFacts(loaded, o, TransferOrder, v, cfg.transferWei, trace, outcome);
    assert v[0] && v[1] && v[2] && v[3] && v[4];
    assert |trace| > 5 && trace[5].Kind() == SubmitStage;
    assert StageCarries(trace[5], cfg, cfg.transferWei, o);
  }

  /** A failed bind means no transfer is ever submitted. */
  lemma TransferBindFailure(loaded: Result<Cfg, CfgError>, o: Oracle, trace: seq<Stage>, outcome: Outcome)
    requires IsTransferRun(loaded, o, trace, outcome) && !o.bindOk
    ensures SubmitStage !in Kinds(trace) && outcome.Fatal?
  {
    TransferOrderDistinct();
    TransferTable(loaded, o);
    var v := TransferVerdicts(loaded, o);
    assert (forall i :: 0 <= i < 5 ==> v[i]) <==> v[0] && v[1] && v[2] && v[3] && v[4];
    EnteredIffEarlierSucceeded(Kinds(trace), TransferOrder, v, 5);
  }

  /** WaitMined is entered exactly when a transfer was submitted, after every earlier stage succeeded. */
  lemma TransferWaitsOnlyAfterSubmission(loaded: Result<Cfg, CfgError>, o: Oracle, trace: seq<Stage>,
                                         outcome: Outcome)
    requires IsTransferRun(loaded, o, trace, outcome)
    ensures WaitStage in Kinds(trace) <==>
      loaded.Ok? && GatePasses(loaded.value) && o.dialOk && o.keyOk && o.transactorOk && o.bindOk &&
      o.submitted.Some?
  {
    TransferOrderDistinct();
    TransferTable(loaded, o);
    var v := TransferVerdicts(loaded, o);
    assert (forall i :: 0 <= i < 6 ==> v[i]) <==> v[0] && v[1] && v[2] && v[3] && v[4] && v[5];
    EnteredIffEarlierSucceeded(Kinds(trace), TransferOrder, v, 6);
  }

  /**
   * "Transfer mined" is reported exactly when every call succeeded, the
   * wait included, and the run then ends mined with the submitted hash.
   */
  lemma TransferMinedIffAllSucceeded(loaded: Result<Cfg, CfgError>, o: Oracle, trace: seq<Stage>,
                                     outcome: Outcome)
    requires IsTransferRun(loaded, o, trace, outcome)
    ensures ReportStage in Kinds(trace) <==> outcome.Mined?
    ensures outcome.Mined? <==>
      loaded.Ok? && GatePasses(loaded.value) && o.dialOk && o.keyOk && o.transactorOk && o.bindOk &&
      o.submitted.Some? && o.minedOk
    ensures outcome.Mined? ==> o.submitted == Some(outcome.tx)
  {
    var v := TransferVerdicts(loaded, o);
    TransferOrderDistinct();
    TransferTable(loaded, o);
    assert (forall i :: 0 <= i < 7 ==> v[i]) <==> v[0] && v[1] && v[2] && v[3] && v[4] && v[5] && v[6];
    EnteredIffEarlierSucceeded(Kinds(trace), TransferOrder, v, 7);
    MinedIffAllSucceeded(loaded, o, TransferOrder, v,
                         if loaded.Ok? then loaded.value.transferWei else 0, trace, outcome);
  }

  /**
   * What is sent: a transfer of the configured amount to the configured
   * recipient, on the contract at the fixed address, entered at most once.
   */
  lemma TransferSendsConfiguredAmount(loaded: Result<Cfg, CfgError>, o: Oracle, trace: seq<Stage>,
                                      outcome: Outcome)
    requires IsTransferRun(loaded, o, trace, outcome) && loaded.Ok?
    ensures forall i :: 0 <= i < |trace| && trace[i].Submit? ==>
      trace[i] == Submit(loaded.value.toAddress, loaded.value.transferWei)
    ensures forall i :: 0 <= i < |trace| && trace[i].Bind? ==> trace[i] == Bind(ContractAddress)
    ensures forall i, j :: 0 <= i < j < |trace| ==> trace[i].Kind() != trace[j].Kind()
  {
  }
}
