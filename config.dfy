/**
 * The settings resolver and key handling of cmd/common.go: the process
 * environment becomes a typed Cfg record or the error that log.Fatal would
 * have reported, and the signer strips an optional "0x" from the key.
 */
module Config {
  import opened Wrappers
  import opened Decimal

  /** The process environment, already populated (the optional .env merge is not modelled). */
  type Env = map<string, string>

  const ChainIdKey := "CHAIN_ID"
  const InitialSupplyKey := "INITIAL_SUPPLY_WEI"
  const TransferAmountKey := "TRANSFER_AMOUNT_WEI"
  const RpcUrlKey := "RPC_URL"
  const PrivateKeyKey := "PRIVATE_KEY"
  const TokenNameKey := "TOKEN_NAME"
  const TokenSymbolKey := "TOKEN_SYMBOL"
  const ToAddressKey := "TO_ADDRESS"

  /** The resolved settings; big.Int fields become unbounded integers. */
  datatype Cfg = Cfg(
    rpcUrl: string,
    privateKeyHex: string,
    chainId: int,
    tokenName: string,
    tokenSymbol: string,
    initialSupplyWei: int,
    toAddress: string,
    transferWei: int)

  /** What log.Fatal reports: "missing env K" or "invalid K". */
  datatype CfgError = MissingEnv(key: string) | Invalid(key: string)

  /** os.Getenv: an unset variable reads as the empty string. */
  function Getenv(env: Env, k: string): string
  {
    if k in env then env[k] else ""
  }

  /** mustEnv: the value of k, or a failure naming k when it is unset or empty. */
  function MustEnv(env: Env, k: string): (r: Result<string, CfgError>)
    ensures r.Ok? <==> k in env && env[k] != ""
    ensures r.Ok? ==> r.value == env[k]
    ensures r.Err? ==> r.error == MissingEnv(k)
  {
    var v := Getenv(env, k);
    if v == "" then Err(MissingEnv(k)) else Ok(v)
  }

  /** A required base-10 integer: mustEnv, then SetString or "invalid K". */
  function RequiredDecimal(env: Env, k: string): Result<int, CfgError>
  {
    var text :- MustEnv(env, k);
    ParseDecimal(text).ToResult(Invalid(k))
  }

  /** An optional base-10 integer: 0 when unset or empty, else SetString or "invalid K". */
  function OptionalDecimal(env: Env, k: string): Result<int, CfgError>
  {
    var text := Getenv(env, k);
    if text == "" then Ok(0) else ParseDecimal(text).ToResult(Invalid(k))
  }

  /**
   * loadCfg. The numeric settings are checked first, then the required
   * strings in the order the Cfg literal evaluates them; the first failure
   * is the one reported. TO_ADDRESS is read but never required.
   */
  function LoadCfg(env: Env): Result<Cfg, CfgError>
  {
    var chainId :- RequiredDecimal(env, ChainIdKey);
    var initialSupply :- RequiredDecimal(env, InitialSupplyKey);
    var transferWei :- OptionalDecimal(env, TransferAmountKey);
    var rpcUrl :- MustEnv(env, RpcUrlKey);
    var privateKeyHex :- MustEnv(env, PrivateKeyKey);
    var tokenName :- MustEnv(env, TokenNameKey);
    var tokenSymbol :- MustEnv(env, TokenSymbolKey);
    Ok(Cfg(rpcUrl, privateKeyHex, chainId, tokenName, tokenSymbol,
           initialSupply, Getenv(env, ToAddressKey), transferWei))
  }

  /**
   * On success every numeric field is the base-10 value of its variable
   * (TRANSFER_AMOUNT_WEI defaulting to 0 when unset or empty) and every
   * string field is the variable's text, the required ones non-empty.
   */
  lemma LoadCfgFields(env: Env)
    ensures LoadCfg(env).Ok? ==>
      var cfg := LoadCfg(env).value;
      && ParseDecimal(Getenv(env, ChainIdKey)) == Some(cfg.chainId)
      && ParseDecimal(Getenv(env, InitialSupplyKey)) == Some(cfg.initialSupplyWei)
      && (Getenv(env, TransferAmountKey) == "" ==> cfg.transferWei == 0)
      && (Getenv(env, TransferAmountKey) != "" ==>
            ParseDecimal(Getenv(env, TransferAmountKey)) == Some(cfg.transferWei))
      && cfg.rpcUrl == Getenv(env, RpcUrlKey) != ""
      && cfg.privateKeyHex == Getenv(env, PrivateKeyKey) != ""
      && cfg.tokenName == Getenv(env, TokenNameKey) != ""
      && cfg.tokenSymbol == Getenv(env, TokenSymbolKey) != ""
      && cfg.toAddress == Getenv(env, ToAddressKey)
  {
  }

  // ---------------------------------------------------------------------
  // An independent, table-driven statement of the same validation.
  // ---------------------------------------------------------------------

  /** One acceptance rule on one variable. */
  datatype Check = Required(key: string) | Numeric(key: string) | OptionalNumeric(key: string)

  predicate Holds(env: Env, c: Check)
  {
    match c
    case Required(k) => Getenv(env, k) != ""
    case Numeric(k) => ParseDecimal(Getenv(env, k)).Some?
    case OptionalNumeric(k) => Getenv(env, k) == "" || ParseDecimal(Getenv(env, k)).Some?
  }

  function ErrorOf(c: Check): CfgError
  {
    match c
    case Required(k) => MissingEnv(k)
    case Numeric(k) => Invalid(k)
    case OptionalNumeric(k) => Invalid(k)
  }

  /** The rules in the order loadCfg applies them. */
  const Checks: seq<Check> := [
    Required(ChainIdKey), Numeric(ChainIdKey),
    Required(InitialSupplyKey), Numeric(InitialSupplyKey),
    OptionalNumeric(TransferAmountKey),
    Required(RpcUrlKey), Required(PrivateKeyKey),
    Required(TokenNameKey), Required(TokenSymbolKey)
  ]

  /** The error of the first rule that fails, if any. */
  function FirstFailure(env: Env, cs: seq<Check>): (r: Option<CfgError>)
    ensures r.None? <==> forall i :: 0 <= i < |cs| ==> Holds(env, cs[i])
    ensures r.Some? ==>
      exists i :: 0 <= i < |cs| && !Holds(env, cs[i]) && r.value == ErrorOf(cs[i]) &&
        forall j :: 0 <= j < i ==> Holds(env, cs[j])
  {
    if cs == [] then None
    else if !Holds(env, cs[0]) then Some(ErrorOf(cs[0]))
    else
      var r := FirstFailure(env, cs[1..]);
      assert forall i :: 0 < i < |cs| ==> cs[i] == cs[1..][i - 1];
      r
  }

  /** One step of the scan over the rules. */
  lemma FirstFailureCons(env: Env, c: Check, cs: seq<Check>)
    ensures FirstFailure(env, [c] + cs) ==
      if !Holds(env, c) then Some(ErrorOf(c)) else FirstFailure(env, cs)
  {
  }

  /** The rules on the required strings, in the order the Cfg literal reads them. */
  lemma StringChecksInOrder(env: Env)
    ensures FirstFailure(env, Checks[5..]) ==
      if Getenv(env, RpcUrlKey) == "" then Some(MissingEnv(RpcUrlKey))
      else if Getenv(env, PrivateKeyKey) == "" then Some(MissingEnv(PrivateKeyKey))
      else if Getenv(env, TokenNameKey) == "" then Some(MissingEnv(TokenNameKey))
      else if Getenv(env, TokenSymbolKey) == "" then Some(MissingEnv(TokenSymbolKey))
      else None
  {
    var t3: seq<Check> := [Required(TokenSymbolKey)];
    var t2 := [Required(TokenNameKey)] + t3;
    var t1 := [Required(PrivateKeyKey)] + t2;
    assert Checks[5..] == [Required(RpcUrlKey)] + t1;
    assert t3 == [Required(TokenSymbolKey)] + [];
    FirstFailureCons(env, Required(RpcUrlKey), t1);
    FirstFailureCons(env, Required(PrivateKeyKey), t2);
    FirstFailureCons(env, Required(TokenNameKey), t3);
    FirstFailureCons(env, Required(TokenSymbolKey), []);
  }

  /** The rules on the numeric settings come first. */
  lemma NumericChecksFirst(env: Env)
    ensures FirstFailure(env, Checks) ==
      if Getenv(env, ChainIdKey) == "" then Some(MissingEnv(ChainIdKey))
      else if ParseDecimal(Getenv(env, ChainIdKey)).None? then Some(Invalid(ChainIdKey))
      else if Getenv(env, InitialSupplyKey) == "" then Some(MissingEnv(InitialSupplyKey))
      else if ParseDecimal(Getenv(env, InitialSupplyKey)).None? then Some(Invalid(InitialSupplyKey))
      else if !Holds(env, OptionalNumeric(TransferAmountKey)) then Some(Invalid(TransferAmountKey))
      else FirstFailure(env, Checks[5..])
  {
    var t4 := Checks[5..];
    var t3 := [OptionalNumeric(TransferAmountKey)] + t4;
    var t2 := [Numeric(InitialSupplyKey)] + t3;
    var t1 := [Required(InitialSupplyKey)] + t2;
    var t0 := [Numeric(ChainIdKey)] + t1;
    assert Checks == [Required(ChainIdKey)] + t0;
    FirstFailureCons(env, Required(ChainIdKey), t0);
    FirstFailureCons(env, Numeric(ChainIdKey), t1);
    FirstFailureCons(env, Required(InitialSupplyKey), t2);
    FirstFailureCons(env, Numeric(InitialSupplyKey), t3);
    FirstFailureCons(env, OptionalNumeric(TransferAmountKey), t4);
  }

  /** loadCfg fails exactly when some rule fails, and with the first failing rule's error. */
  lemma LoadCfgFollowsChecks(env: Env)
    ensures LoadCfg(env).Err? <==> FirstFailure(env, Checks).Some?
    ensures LoadCfg(env).Err? ==> FirstFailure(env, Checks) == Some(LoadCfg(env).error)
  {
    NumericChecksFirst(env);
    if RequiredDecimal(env, ChainIdKey).Ok? && RequiredDecimal(env, InitialSupplyKey).Ok?
       && OptionalDecimal(env, TransferAmountKey).Ok? {
      StringChecksInOrder(env);
    }
  }

  // ---------------------------------------------------------------------
  // Round trip and independence of TO_ADDRESS.
  // ---------------------------------------------------------------------

  /** An environment that spells out every field of c in canonical base 10. */
  function EnvOf(c: Cfg): Env
  {
    map[ChainIdKey := FormatInt(c.chainId),
        InitialSupplyKey := FormatInt(c.initialSupplyWei),
        TransferAmountKey := FormatInt(c.transferWei),
        RpcUrlKey := c.rpcUrl,
        PrivateKeyKey := c.privateKeyHex,
        TokenNameKey := c.tokenName,
        TokenSymbolKey := c.tokenSymbol,
        ToAddressKey := c.toAddress]
  }

  /** Each variable of EnvOf(c) holds the text of its field of c. */
  lemma EnvOfLookups(c: Cfg)
    ensures Getenv(EnvOf(c), ChainIdKey) == FormatInt(c.chainId)
    ensures Getenv(EnvOf(c), InitialSupplyKey) == FormatInt(c.initialSupplyWei)
    ensures Getenv(EnvOf(c), TransferAmountKey) == FormatInt(c.transferWei)
    ensures Getenv(EnvOf(c), RpcUrlKey) == c.rpcUrl
    ensures Getenv(EnvOf(c), PrivateKeyKey) == c.privateKeyHex
    ensures Getenv(EnvOf(c), TokenNameKey) == c.tokenName
    ensures Getenv(EnvOf(c), TokenSymbolKey) == c.tokenSymbol
    ensures Getenv(EnvOf(c), ToAddressKey) == c.toAddress
  {
  }

  /**
   * Resolving the environment written from any settings record with
   * non-empty strings gives that record back; the integers may be negative,
   * since no sign check is made.
   */
  lemma LoadEnvRoundTrip(c: Cfg)
    requires c.rpcUrl != "" && c.privateKeyHex != "" && c.tokenName != "" && c.tokenSymbol != ""
    ensures LoadCfg(EnvOf(c)) == Ok(c)
  {
    EnvOfLookups(c);
    ParseFormatRoundTrip(c.chainId);
    ParseFormatRoundTrip(c.initialSupplyWei);
    ParseFormatRoundTrip(c.transferWei);
    assert FormatInt(c.transferWei) != "" by {
      if c.transferWei >= 0 { FormatNatDigits(c.transferWei); }
    }
  }

  /**
   * TO_ADDRESS is never required: changing or removing it changes neither
   * whether resolution succeeds nor the error, only the ToAddress field.
   */
  lemma ToAddressNotRequired(env: Env, v: string)
    ensures LoadCfg(env[ToAddressKey := v]).Err? <==> LoadCfg(env).Err?
    ensures LoadCfg(env).Err? ==> LoadCfg(env[ToAddressKey := v]) == LoadCfg(env)
    ensures LoadCfg(env).Ok? ==>
      LoadCfg(env[ToAddressKey := v]) == Ok(LoadCfg(env).value.(toAddress := v))
    ensures LoadCfg(env - {ToAddressKey}).Ok? ==> LoadCfg(env - {ToAddressKey}).value.toAddress == ""
  {
    var env' := env[ToAddressKey := v];
    assert RequiredDecimal(env', ChainIdKey) == RequiredDecimal(env, ChainIdKey);
    assert RequiredDecimal(env', InitialSupplyKey) == RequiredDecimal(env, InitialSupplyKey);
    assert OptionalDecimal(env', TransferAmountKey) == OptionalDecimal(env, TransferAmountKey);
    assert MustEnv(env', RpcUrlKey) == MustEnv(env, RpcUrlKey);
    assert MustEnv(env', PrivateKeyKey) == MustEnv(env, PrivateKeyKey);
    assert MustEnv(env', TokenNameKey) == MustEnv(env, TokenNameKey);
    assert MustEnv(env', TokenSymbolKey) == MustEnv(env, TokenSymbolKey);
    LoadCfgFields(env - {ToAddressKey});
  }

  // ---------------------------------------------------------------------
  // signer: key prefix and chain binding.
  // ---------------------------------------------------------------------

  predicate HasHexPrefix(k: string) { |k| >= 2 && k[..2] == "0x" }

  /** strings.TrimPrefix(k, "0x"): at most one leading "0x" is removed. */
  function StripHexPrefix(k: string): (r: string)
    ensures HasHexPrefix(k) ==> k == "0x" + r
    ensures !HasHexPrefix(k) ==> r == k
  {
    if HasHexPrefix(k) then k[2..] else k
  }

  /** Exactly one prefix goes, even when the rest starts with "0x" again. */
  lemma StripHexPrefixOnce(k: string)
    ensures StripHexPrefix("0x" + k) == k
  {
  }

  /** The failures of signer: "bad PRIVATE_KEY" and "transactor err". */
  datatype SignError = BadKey | TransactorFailed

  /** A keyed transactor: the key text handed to the decoder and the chain it is bound to. */
  datatype Auth = Auth(keyHex: string, chainId: int)

  /**
   * signer. Decoding the key and binding it to the chain are library calls
   * whose outcomes are given: keyDecodes for crypto.HexToECDSA on the
   * stripped key, transactorOk for bind.NewKeyedTransactorWithChainID.
   */
  function Signer(cfg: Cfg, keyDecodes: bool, transactorOk: bool): (r: Result<Auth, SignError>)
    ensures r.Ok? <==> keyDecodes && transactorOk
    ensures r.Err? ==> (r.error == BadKey <==> !keyDecodes)
    ensures r.Ok? ==> r.value.chainId == cfg.chainId
    ensures r.Ok? ==> (HasHexPrefix(cfg.privateKeyHex) ==> cfg.privateKeyHex == "0x" + r.value.keyHex)
    ensures r.Ok? ==> (!HasHexPrefix(cfg.privateKeyHex) ==> cfg.privateKeyHex == r.value.keyHex)
  {
    if !keyDecodes then Err(BadKey)
    else if !transactorOk then Err(TransactorFailed)
    else Ok(Auth(StripHexPrefix(cfg.privateKeyHex), cfg.chainId))
  }

  /** The "0x" prefix on PRIVATE_KEY is optional: with or without it the signer is the same. */
  lemma SignerIgnoresHexPrefix(cfg: Cfg, keyDecodes: bool, transactorOk: bool)
    requires !HasHexPrefix(cfg.privateKeyHex)
    ensures Signer(cfg.(privateKeyHex := "0x" + cfg.privateKeyHex), keyDecodes, transactorOk)
         == Signer(cfg, keyDecodes, transactorOk)
  {
  }
}
