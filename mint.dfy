/**
 * cmd/mint.go: resolve the settings, then dial, sign, bind to the fixed
 * contract, mint a fixed 10 * 10^18 base units to the configured
 * recipient, wait for it to be mined and report. There is no gate: an
 * empty recipient becomes the zero address through HexToAddress and the
 * mint is attempted.
 */
module Mint {
  import opened Wrappers
  import opened Decimal
  import opened Config
  import opened Pipeline

  const MintOrder: seq<StageKind> := [LoadStage] + NetworkOrder

  /** The amount literal the mint flow parses, in base units. */
  const MintAmountText := "10000000000000000000"

  /** Ten tokens of 18 decimals. */
  const MintAmount: int := 10_000_000_000_000_000_000

  /** The literal is a one followed by eighteen zeros and one more. */
  lemma MintAmountDigits()
    ensures MintAmountText == "1" + Zeros(19)
  {
  }

  /** The literal is a well-formed decimal worth ten tokens, so ignoring SetString's flag loses nothing. */
  lemma MintAmountParses()
    ensures ParseDecimal(MintAmountText) == Some(MintAmount)
  {
    MintAmountDigits();
    assert Pow10(19) == MintAmount by {
      assert Pow10(10) == 10_000_000_000;
    }
    FormatPow10(19);
    ParseFormatRoundTrip(Pow10(19));
  }

  /** Whether each stage of MintOrder succeeds, given the environment and the call outcomes. */
  function MintVerdicts(loaded: Result<Cfg, CfgError>, o: Oracle): seq<bool>
  {
    [loaded.Ok?] + NetworkVerdicts(o)
  }

  /** A mint run on what loadCfg returned: the common run shape, sending the fixed amount. */
  predicate IsMintRun(loaded: Result<Cfg, CfgError>, o: Oracle, trace: seq<Stage>, outcome: Outcome)
  {
    IsRun(loaded, o, MintOrder, MintVerdicts(loaded, o), MintAmount, trace, outcome)
  }

  /** main of cmd/mint.go; returns the stages entered and how the run ended. */
  method RunMint(env: Env, o: Oracle) returns (trace: seq<Stage>, outcome: Outcome)
    ensures IsMintRun(LoadCfg(env), o, trace, outcome)
  {
    var loaded := LoadCfg(env);
    ghost var verdicts := MintVerdicts(loaded, o);
    Start(loaded, o, MintOrder, verdicts, MintAmount, Load);
    trace := [Load];
    if loaded.Err? {
      outcome := Fatal(ConfigError(loaded.error));
      Abort(loaded, o, MintOrder, verdicts, MintAmount, trace, outcome.failure);
      return;
    }

    var failure;
    assert MintOrder[|trace|..] == NetworkOrder && verdicts[|trace|..] == NetworkVerdicts(o);
    trace, failure := Connect(loaded, o, MintOrder, verdicts, MintAmount, trace);
    if failure.Some? {
      outcome := Fatal(failure.value);
      return;
    }

    // SetString's ok flag is ignored; the literal always parses.
    var parsed := ParseDecimal(MintAmountText);
    MintAmountParses();
    var amount := parsed.value;
    trace, outcome := SubmitAndConfirm(loaded, o, MintOrder, verdicts, amount, trace);
  }

  // ---------------------------------------------------------------------
  // What every mint run guarantees.
  // ---------------------------------------------------------------------

  lemma MintOrderDistinct()
    ensures Distinct(MintOrder)
  {
  }

  /** The stage order and the verdicts, position by position. */
  lemma MintTable(loaded: Result<Cfg, CfgError>, o: Oracle)
    ensures MintOrder == [LoadStage, DialStage, SignStage, BindStage, SubmitStage, WaitStage, ReportStage, CloseStage]
    ensures MintVerdicts(loaded, o) ==
      [loaded.Ok?, o.dialOk, o.keyOk && o.transactorOk, o.bindOk, o.submitted.Some?, o.minedOk, true, true]
  {
  }

  /** Settings that do not resolve end the run at the load stage with that error. */
  lemma MintConfigFailure(loaded: Result<Cfg, CfgError>, o: Oracle, trace: seq<Stage>, outcome: Outcome)
    requires IsMintRun(loaded, o, trace, outcome) && loaded.Err?
    ensures trace == [Load] && outcome == Fatal(ConfigError(loaded.error))
  {
    MintTable(loaded, o);
    RunFacts(loaded, o, MintOrder, MintVerdicts(loaded, o), MintAmount, trace, outcome);
    assert !MintVerdicts(loaded, o)[0];
    assert |trace| == 1 && trace[0].Kind() == LoadStage;
  }

  /**
   * There is no gate: the network is reached exactly when the settings
   * resolve, whatever TO_ADDRESS and TRANSFER_AMOUNT_WEI hold.
   */
  lemma MintDialsIffLoaded(loaded: Result<Cfg, CfgError>, o: Oracle, trace: seq<Stage>, outcome: Outcome)
    requires IsMintRun(loaded, o, trace, outcome)
    ensures DialStage in Kinds(trace) <==> loaded.Ok?
  {
    var v := MintVerdicts(loaded, o);
    MintOrderDistinct();
    MintTable(loaded, o);
    assert (forall i :: 0 <= i < 1 ==> v[i]) <==> v[0];
    EnteredIffEarlierSucceeded(Kinds(trace), MintOrder, v, 1);
  }

  /**
   * The recipient is not checked: once the connection succeeds, the mint
   * is submitted to TO_ADDRESS as resolved, the empty string included.
   */
  lemma MintRecipientUnchecked(loaded: Result<Cfg, CfgError>, o: Oracle, trace: seq<Stage>, outcome: Outcome)
    requires IsMintRun(loaded, o, trace, outcome) && loaded.Ok?
    requires o.dialOk && o.keyOk && o.transactorOk && o.bindOk
    ensures Submit(loaded.value.toAddress, MintAmount) in trace
  {
    var v := MintVerdicts(loaded, o);
    MintTable(loaded, o);
    RunFacts(loaded, o, MintOrder, v, MintAmount, trace, outcome);
    assert v[0] && v[1] && v[2] && v[3];
    assert |trace| > 4 && trace[4].Kind() == SubmitStage;
    assert StageCarries(trace[4], loaded.value, MintAmount, o);
  }

  /**
   * What is sent: a mint of the fixed amount, never the configured transfer
   * amount, to the configured recipient, on the contract at the fixed
   * address; the stages follow the order of the flow and none is entered twice.
   */
  lemma MintSendsFixedAmount(loaded: Result<Cfg, CfgError>, o: Oracle, trace: seq<Stage>, outcome: Outcome)
    requires IsMintRun(loaded, o, trace, outcome) && loaded.Ok?
    ensures forall i :: 0 <= i < |trace| && trace[i].Submit? ==>
      trace[i] == Submit(loaded.value.toAddress, MintAmount)
    ensures forall i :: 0 <= i < |trace| && trace[i].Bind? ==> trace[i] == Bind(ContractAddress)
    ensures forall i :: 0 <= i < |trace| ==> trace[i].Kind() == MintOrder[i]
    ensures forall i, j :: 0 <= i < j < |trace| ==> trace[i].Kind() != trace[j].Kind()
  {
  }

  /** A failed bind means no mint is ever submitted. */
  lemma MintBindFailure(loaded: Result<Cfg, CfgError>, o: Oracle, trace: seq<Stage>, outcome: Outcome)
    requires IsMintRun(loaded, o, trace, outcome) && !o.bindOk
    ensures SubmitStage !in Kinds(trace) && outcome.Fatal?
  {
    var v := MintVerdicts(loaded, o);
    MintOrderDistinct();
    MintTable(loaded, o);
    assert (forall i :: 0 <= i < 4 ==> v[i]) <==> v[0] && v[1] && v[2] && v[3];
    EnteredIffEarlierSucceeded(Kinds(trace), MintOrder, v, 4);
  }

  /** WaitMined is entered exactly when a mint was submitted, after every earlier stage succeeded. */
  lemma MintWaitsOnlyAfterSubmission(loaded: Result<Cfg, CfgError>, o: Oracle, trace: seq<Stage>,
                                     outcome: Outcome)
    requires IsMintRun(loaded, o, trace, outcome)
    ensures WaitStage in Kinds(trace) <==>
      loaded.Ok? && o.dialOk && o.keyOk && o.transactorOk && o.bindOk && o.submitted.Some?
  {
    var v := MintVerdicts(loaded, o);
    MintOrderDistinct();
    MintTable(loaded, o);
    assert (forall i :: 0 <= i < 5 ==> v[i]) <==> v[0] && v[1] && v[2] && v[3] && v[4];
    EnteredIffEarlierSucceeded(Kinds(trace), MintOrder, v, 5);
  }

  /**
   * "Mint mined" is reported exactly when every call succeeded, the wait
   * included, and the run then ends mined with the submitted hash.
   */
  lemma MintMinedIffAllSucceeded(loaded: Result<Cfg, CfgError>, o: Oracle, trace: seq<Stage>, outcome: Outcome)
    requires IsMintRun(loaded, o, trace, outcome)
    ensures ReportStage in Kinds(trace) <==> outcome.Mined?
    ensures outcome.Mined? <==>
      loaded.Ok? && o.dialOk && o.keyOk && o.transactorOk && o.bindOk && o.submitted.Some? && o.minedOk
    ensures outcome.Mined? ==> o.submitted == Some(outcome.tx)
  {
    var v := MintVerdicts(loaded, o);
    MintOrderDistinct();
    MintTable(loaded, o);
    assert (forall i :: 0 <= i < 6 ==> v[i]) <==> v[0] && v[1] && v[2] && v[3] && v[4] && v[5];
    EnteredIffEarlierSucceeded(Kinds(trace), MintOrder, v, 6);
    MinedIffAllSucceeded(loaded, o, MintOrder, v, MintAmount, trace, outcome);
  }

  /**
   * Mint resolves the same settings as transfer: an INITIAL_SUPPLY_WEI or a
   * TRANSFER_AMOUNT_WEI that does not parse stops it before the network,
   * though it uses neither.
   */
  lemma MintNeedsUnusedSettings(env: Env, o: Oracle, trace: seq<Stage>, outcome: Outcome)
    requires IsMintRun(LoadCfg(env), o, trace, outcome)
    requires !IsDecimal(Getenv(env, InitialSupplyKey)) ||
             (Getenv(env, TransferAmountKey) != "" && !IsDecimal(Getenv(env, TransferAmountKey)))
    ensures DialStage !in Kinds(trace) && outcome.Fatal?
  {
    LoadCfgFields(env);
    MintDialsIffLoaded(LoadCfg(env), o, trace, outcome);
  }
}
