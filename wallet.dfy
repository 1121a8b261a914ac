/** `WalletActionHandler`: balance queries, transfer requests and the contract security check on
    the Sonic chain. The chain itself is an oracle: what the Sonic connection answers for a ticker,
    a balance, a token's decimals and the probes of a contract's functions. */
module Wallet {
  import opened Common

  /** The native token's ticker. */
  const NativeToken := Str("S")

  /** The decimals assumed for the native token and whenever a token's own cannot be read. */
  const DefaultDecimals := 18

  /** What calling each probed contract function does: the value it returns, or None when the
      call raises. A probe whose result is unused is just whether the call succeeded. */
  datatype ProbeResults = ProbeResults(
    implementation: Option<string>,
    isBlacklisted: bool,
    paused: bool,
    mint: bool,
    maxTransferAmount: bool,
    owner: Option<string>,
    taxRate: bool,
    setLpPair: bool)

  /** Building the contract object either succeeds, giving the probes, or raises. */
  datatype ContractAccess = Probes(probes: ProbeResults) | AccessError(reason: string)

  /** The Sonic connection, as far as these handlers use it. */
  datatype Chain = Chain(
    tokenByTicker: Value -> Value,
    balanceOf: (Value, Value) -> Value,
    decimalsOf: Value -> Option<int>,
    contractAt: Value -> ContractAccess)

  /** `connection_manager.connections`, of which only `sonic` is used. */
  datatype Connections = Connections(sonic: Option<Chain>)

  /** The caller's `parameters` dictionary, which the handlers write `token_name` into. */
  class Parameters {
    var entries: Dict

    constructor(d: Dict)
      ensures entries == d
    {
      entries := d;
    }
  }

  /** The transaction descriptor handed back for signing. `decimals` is None where the
      descriptor carries no decimals. */
  datatype TransferData = TransferData(
    from: Value,
    to: Value,
    amount: Value,
    tokenAddress: Value,
    tokenName: Value,
    decimals: Option<int>,
    requiresSignature: bool)

  /** What a handler returns: text, None, or the transfer dictionary
      `{"action": "transfer", "transaction_data": ..., "message": ...}`. */
  datatype Reply = Text(text: string) | NoReply | TransferRequest(data: TransferData, message: string)

  /** `str(KeyError('from_address'))` */
  const MissingFrom := "'from_address'"
  const NoSonic := "Sonic connection not found"
  const RecipientRequired := "Recipient address is required for transfer"
  const AmountRequired := "Transfer amount is required"
  const NoTokenName := "No token name provided"

  function UnresolvedToken(name: Value): string
  {
    "Could not find address for token " + Show(name)
  }

  /** `if "token_name" not in parameters: parameters["token_name"] = "S"` */
  function WithDefaultTokenName(p: Dict): (q: Dict)
    ensures "token_name" in q
    ensures "token_name" in p ==> q == p
    ensures "token_name" !in p ==> q == p["token_name" := NativeToken]
  {
    if "token_name" !in p then p["token_name" := NativeToken] else p
  }

  // ---------------------------------------------------------------------------------------
  // `_get_token_decimals`

  /** 18 for the native token; otherwise what the token contract reports, or 18 when building
      the contract or calling `symbol()` or `decimals()` raises. */
  function TokenDecimals(chain: Chain, name: Value, address: Value): (d: int)
    ensures name == NativeToken ==> d == DefaultDecimals
    ensures chain.decimalsOf(address).None? ==> d == DefaultDecimals
    ensures name != NativeToken && chain.decimalsOf(address).Some? ==> d == chain.decimalsOf(address).value
  {
    if name == NativeToken then DefaultDecimals
    else match chain.decimalsOf(address)
      case None => DefaultDecimals
      case Some(d) => d
  }

  // ---------------------------------------------------------------------------------------
  // `handle_transfer`

  /** `handle_transfer(parameters, connection_manager)`: the reply, or the exception it raises,
      and the caller's dictionary afterwards. */
  function Transfer(p: Dict, cm: Connections): (Result<Reply>, Dict)
  {
    if !Truthy(Get(p, "to_address", Null)) then (Ok(Text(RecipientRequired)), p)
    else if !Truthy(Get(p, "amount", Null)) then (Ok(Text(AmountRequired)), p)
    else
      var q := WithDefaultTokenName(p);
      if cm.sonic.None? then (Ok(Text("Sonic connection not found. Please check your configuration.")), q)
      else
        var chain := cm.sonic.value;
        var name := q["token_name"];
        var address := if name != NativeToken then chain.tokenByTicker(name) else Get(q, "token_address", Null);
        if name != NativeToken && !Truthy(address) then (Ok(Text(UnresolvedToken(name))), q)
        else if "from_address" !in q then (Err(MissingFrom), q)
        else
          var data := TransferData(q["from_address"], q["to_address"], q["amount"], address, name,
                                   Some(TokenDecimals(chain, name, address)), true);
          (Ok(TransferRequest(data, "Please confirm transfer of " + Show(q["amount"]) + " " + Show(name)
                                    + " from your wallet address to " + Show(q["to_address"]))), q)
  }

  /** Only the first missing field is reported, the recipient before the amount, and the
      caller's dictionary is then left untouched. */
  lemma TransferFirstMissing(p: Dict, cm: Connections)
    ensures !Truthy(Get(p, "to_address", Null)) ==> Transfer(p, cm) == (Ok(Text(RecipientRequired)), p)
    ensures Truthy(Get(p, "to_address", Null)) && !Truthy(Get(p, "amount", Null)) ==>
              Transfer(p, cm) == (Ok(Text(AmountRequired)), p)
    ensures Transfer(p, cm).0.Ok? && Transfer(p, cm).0.value.TransferRequest? ==>
              Truthy(Get(p, "to_address", Null)) && Truthy(Get(p, "amount", Null))
  {
  }

  /** Once both fields are present, `token_name` is defaulted to "S" in the caller's dictionary,
      whatever the outcome, and nothing else in it changes. */
  lemma TransferWritesTokenName(p: Dict, cm: Connections)
    requires Truthy(Get(p, "to_address", Null)) && Truthy(Get(p, "amount", Null))
    ensures Transfer(p, cm).1 == WithDefaultTokenName(p)
    ensures forall k :: k != "token_name" ==> (k in Transfer(p, cm).1 <==> k in p)
  {
  }

  /** A token other than "S" whose ticker resolves to nothing is refused by name. */
  lemma TransferUnresolvedToken(p: Dict, chain: Chain)
    requires Truthy(Get(p, "to_address", Null)) && Truthy(Get(p, "amount", Null))
    requires "token_name" in p && p["token_name"] != NativeToken
    requires !Truthy(chain.tokenByTicker(p["token_name"]))
    ensures Transfer(p, Connections(Some(chain))).0 == Ok(Text(UnresolvedToken(p["token_name"])))
  {
  }

  /** A successful transfer hands back a descriptor that copies the request's fields, names the
      token ("S" by default), requires a signature and carries the token's decimals: 18 for "S"
      or for a token whose decimals cannot be read, else the contract's own. */
  lemma TransferDescriptor(p: Dict, cm: Connections)
    requires Transfer(p, cm).0.Ok? && Transfer(p, cm).0.value.TransferRequest?
    ensures var d := Transfer(p, cm).0.value.data;
            && "from_address" in p && "to_address" in p && "amount" in p
            && d.from == p["from_address"] && d.to == p["to_address"] && d.amount == p["amount"]
            && d.tokenName == Get(p, "token_name", NativeToken)
            && d.requiresSignature
            && d.decimals.Some?
            && (d.tokenName == NativeToken ==> d.decimals.value == DefaultDecimals && d.tokenAddress == Get(p, "token_address", Null))
            && (d.tokenName != NativeToken ==> Truthy(d.tokenAddress) && d.tokenAddress == cm.sonic.value.tokenByTicker(d.tokenName))
            && (cm.sonic.value.decimalsOf(d.tokenAddress).None? ==> d.decimals.value == DefaultDecimals)
            && d.decimals == Some(TokenDecimals(cm.sonic.value, d.tokenName, d.tokenAddress))
  {
  }

  /** With every check passed but no `from_address`, the handler raises `KeyError`. */
  lemma TransferMissingFromRaises(p: Dict, chain: Chain)
    requires Truthy(Get(p, "to_address", Null)) && Truthy(Get(p, "amount", Null))
    requires "token_name" !in p && "from_address" !in p
    ensures Transfer(p, Connections(Some(chain))).0 == Err(MissingFrom)
  {
  }

  /** `handle_transfer`, writing into the caller's dictionary. */
  method HandleTransfer(params: Parameters, cm: Connections) returns (r: Result<Reply>)
    modifies params
    ensures (r, params.entries) == Transfer(old(params.entries), cm)
  {
    if !Truthy(Get(params.entries, "to_address", Null)) {
      return Ok(Text(RecipientRequired));
    }
    if !Truthy(Get(params.entries, "amount", Null)) {
      return Ok(Text(AmountRequired));
    }
    if "token_name" !in params.entries {
      params.entries := params.entries["token_name" := NativeToken];
    }
    if cm.sonic.None? {
      return Ok(Text("Sonic connection not found. Please check your configuration."));
    }
    var chain := cm.sonic.value;
    var tokenAddress := Get(params.entries, "token_address", Null);
    var name := params.entries["token_name"];
    if name != NativeToken {
      tokenAddress := chain.tokenByTicker(name);
      if !Truthy(tokenAddress) {
        return Ok(Text(UnresolvedToken(name)));
      }
    }
    var decimals := TokenDecimals(chain, name, tokenAddress);
    if "from_address" !in params.entries {
      return Err(MissingFrom);
    }
    var p := params.entries;
    var data := TransferData(p["from_address"], p["to_address"], p["amount"], tokenAddress, name, Some(decimals), true);
    r := Ok(TransferRequest(data, "Please confirm transfer of " + Show(p["amount"]) + " " + Show(name)
                                  + " from your wallet address to " + Show(p["to_address"])));
  }

  // ---------------------------------------------------------------------------------------
  // `handle_get_balance` and `handle_get_token_by_ticker`

  /** The balance lookup once the token address is known. */
  function BalanceReply(q: Dict, chain: Chain, tokenAddress: Value): Result<Reply>
    requires "token_name" in q
  {
    var balance := chain.balanceOf(Get(q, "from_address", Null), tokenAddress);
    if balance == Null then Ok(NoReply)
    else if "from_address" !in q then Err(MissingFrom)
    else Ok(Text("Wallet " + Show(q["from_address"]) + " " + Show(q["token_name"]) + " balance: " + Show(balance)))
  }

  /** `handle_get_balance(parameters, connection_manager)`: the reply or the exception, and the
      caller's dictionary afterwards. */
  function GetBalance(p: Dict, cm: Connections): (Result<Reply>, Dict)
  {
    var q := WithDefaultTokenName(p);
    var name := q["token_name"];
    if cm.sonic.None? then (Err(NoSonic), q)
    else if name != NativeToken && !Truthy(name) then (Ok(Text(NoTokenName)), q)
    else
      var chain := cm.sonic.value;
      var tokenAddress := if name != NativeToken then chain.tokenByTicker(name) else Get(q, "token_address", Null);
      (BalanceReply(q, chain, tokenAddress), q)
  }

  /** The balance handler always leaves `token_name` set, "S" when the caller gave none, and
      looks the balance up for the ticker's address unless the token is "S". */
  lemma GetBalanceSpec(p: Dict, chain: Chain)
    ensures GetBalance(p, Connections(Some(chain))).1 == WithDefaultTokenName(p)
    ensures "token_name" !in p ==>
              GetBalance(p, Connections(Some(chain))).0 == BalanceReply(WithDefaultTokenName(p), chain, Get(p, "token_address", Null))
    ensures "token_name" in p && p["token_name"] != NativeToken && Truthy(p["token_name"]) ==>
              GetBalance(p, Connections(Some(chain))).0 == BalanceReply(p, chain, chain.tokenByTicker(p["token_name"]))
    ensures "token_name" in p && !Truthy(p["token_name"]) ==> GetBalance(p, Connections(Some(chain))).0 == Ok(Text(NoTokenName))
  {
  }

  /** Without a Sonic connection the balance handler raises, after defaulting `token_name`. */
  lemma GetBalanceWithoutSonic(p: Dict)
    ensures GetBalance(p, Connections(None)) == (Err(NoSonic), WithDefaultTokenName(p))
  {
  }

  /** `handle_get_balance`, writing into the caller's dictionary. */
  method HandleGetBalance(params: Parameters, cm: Connections) returns (r: Result<Reply>)
    modifies params
    ensures (r, params.entries) == GetBalance(old(params.entries), cm)
  {
    var tokenAddress := Get(params.entries, "token_address", Null);
    if "token_name" !in params.entries {
      params.entries := params.entries["token_name" := NativeToken];
    }
    var name := params.entries["token_name"];
    if name != NativeToken {
      if cm.sonic.None? {
        return Err(NoSonic);
      }
      if !Truthy(name) {
        return Ok(Text(NoTokenName));
      }
      tokenAddress := cm.sonic.value.tokenByTicker(name);
    }
    if cm.sonic.None? {
      return Err(NoSonic);
    }
    r := BalanceReply(params.entries, cm.sonic.value, tokenAddress);
  }

  /** `handle_get_token_by_ticker(parameters, connection_manager)` */
  function TokenByTicker(p: Dict, cm: Connections): (r: Result<Reply>)
    ensures cm.sonic.None? <==> r == Err(NoSonic)
    ensures cm.sonic.Some? && !Truthy(Get(p, "token_name", Null)) ==> r == Ok(Text(NoTokenName))
    ensures r.Ok? && r.value.Text? && r.value.text != NoTokenName ==>
              Truthy(Get(p, "token_name", Null)) && Truthy(cm.sonic.value.tokenByTicker(Get(p, "token_name", Null)))
    ensures cm.sonic.Some? && Truthy(Get(p, "token_name", Null)) ==>
              var address := cm.sonic.value.tokenByTicker(Get(p, "token_name", Null));
              r == if Truthy(address) then Ok(Text(TokenAddressText(Get(p, "token_name", Null), address))) else Ok(NoReply)
  {
    if cm.sonic.None? then Err(NoSonic)
    else
      var ticker := Get(p, "token_name", Null);
      if !Truthy(ticker) then Ok(Text(NoTokenName))
      else
        var address := cm.sonic.value.tokenByTicker(ticker);
        if Truthy(address) then Ok(Text(TokenAddressText(ticker, address))) else Ok(NoReply)
  }

  function TokenAddressText(ticker: Value, address: Value): (s: string)
    ensures s != NoTokenName
  {
    assert ("Token " + Show(ticker) + " address: " + Show(address))[..6] == "Token ";
    assert NoTokenName[..6] == "No tok";
    "Token " + Show(ticker) + " address: " + Show(address)
  }

  // ---------------------------------------------------------------------------------------
  // `_check_contract_security`

  const ZeroAddress := "0x0000000000000000000000000000000000000000"

  datatype Tier = Low | Medium | High
  {
    /** `risk_level.upper()` */
    function Upper(): string
    {
      match this
      case Low => "LOW"
      case Medium => "MEDIUM"
      case High => "HIGH"
    }
  }

  /** The nine findings, in the order of `risk_factors`. */
  datatype Flags = Flags(
    isUpgradeable: bool,
    hasBlacklist: bool,
    canPause: bool,
    hiddenMint: bool,
    transferRestrictions: bool,
    suspiciousPermissions: bool,
    hasTax: bool,
    canMint: bool,
    canModifyLp: bool)

  /** The report dictionary: the findings and the tier, or `error` (with risk level
      "unknown"). */
  datatype SecurityReport = Report(flags: Flags, risk: Tier) | ReportError(error: string)

  /** Each finding read off its own probe: a probe that raises leaves its finding false. The
      hidden-mint and can-mint findings call the same `mint` probe. */
  function FlagsOf(p: ProbeResults): Flags
  {
    Flags(p.implementation.Some? && p.implementation.value != ZeroAddress,
          p.isBlacklisted,
          p.paused,
          p.mint,
          p.maxTransferAmount,
          p.owner.Some? && p.owner.value != ZeroAddress,
          p.taxRate,
          p.mint,
          p.setLpPair)
  }

  function RiskFactors(f: Flags): (s: seq<bool>)
    ensures |s| == 9
  {
    [f.isUpgradeable, f.hasBlacklist, f.canPause, f.hiddenMint, f.transferRestrictions,
     f.suspiciousPermissions, f.hasTax, f.canMint, f.canModifyLp]
  }

  /** `sum(risk_factors)` */
  function CountTrue(s: seq<bool>): (n: nat)
    ensures n <= |s|
  {
    if s == [] then 0 else CountTrue(s[..|s| - 1]) + (if s[|s| - 1] then 1 else 0)
  }

  /** None true gives no count, and every true factor adds one. */
  lemma {:induction false} CountTrueSpec(s: seq<bool>)
    ensures CountTrue(s) == 0 <==> forall i :: 0 <= i < |s| ==> !s[i]
    ensures forall i, j :: 0 <= i < j < |s| && s[i] && s[j] ==> CountTrue(s) >= 2
    ensures forall i, j, k :: 0 <= i < j < k < |s| && s[i] && s[j] && s[k] ==> CountTrue(s) >= 3
  {
    if s != [] {
      var pre := s[..|s| - 1];
      CountTrueSpec(pre);
      assert forall i :: 0 <= i < |pre| ==> pre[i] == s[i];
      if CountTrue(pre) == 0 && !s[|s| - 1] {
        assert forall i :: 0 <= i < |s| ==> !s[i];
      }
      forall i | 0 <= i < |s| && s[i] ensures CountTrue(s) >= 1 {
        if i < |pre| {
          CountTrueAtLeastOne(pre, i);
        }
      }
      forall i, j | 0 <= i < j < |s| && s[i] && s[j] ensures CountTrue(s) >= 2 {
        if j < |pre| {
        } else {
          CountTrueAtLeastOne(pre, i);
        }
      }
    }
  }

  lemma {:induction false} CountTrueAtLeastOne(s: seq<bool>, i: int)
    requires 0 <= i < |s| && s[i]
    ensures CountTrue(s) >= 1
  {
    if i < |s| - 1 {
      CountTrueAtLeastOne(s[..|s| - 1], i);
    }
  }

  /** 0 factors is low risk, 1 or 2 is medium, 3 or more is high. */
  function RiskLevel(count: nat): (t: Tier)
    ensures t == Low <==> count == 0
    ensures t == Medium <==> 1 <= count <= 2
    ensures t == High <==> count >= 3
  {
    if count == 0 then Low else if count <= 2 then Medium else High
  }

  /** The report for a contract. */
  function Security(access: ContractAccess): SecurityReport
  {
    match access
    case AccessError(reason) => ReportError("Failed to check contract security: " + reason)
    case Probes(p) => Report(FlagsOf(p), RiskLevel(CountTrue(RiskFactors(FlagsOf(p)))))
  }

  /** Low risk exactly when no finding is true. */
  lemma LowRiskMeansClean(p: ProbeResults)
    ensures Security(Probes(p)).risk == Low <==> forall i :: 0 <= i < 9 ==> !RiskFactors(FlagsOf(p))[i]
  {
    CountTrueSpec(RiskFactors(FlagsOf(p)));
  }

  /** The `mint` probe is counted twice: a contract whose `mint` call succeeds is never low
      risk, and is high risk as soon as one other finding is true. */
  lemma MintCountedTwice(p: ProbeResults)
    requires p.mint
    ensures FlagsOf(p).hiddenMint && FlagsOf(p).canMint
    ensures Security(Probes(p)).risk != Low
    ensures p.isBlacklisted || p.paused || p.taxRate || p.setLpPair || p.maxTransferAmount ==> Security(Probes(p)).risk == High
  {
    var s := RiskFactors(FlagsOf(p));
    CountTrueSpec(s);
    assert s[3] && s[7];
    if p.isBlacklisted { assert s[1]; }
    if p.paused { assert s[2]; }
    if p.maxTransferAmount { assert s[4]; }
    if p.taxRate { assert s[6]; }
    if p.setLpPair { assert s[8]; }
  }

  /** `hidden_mint` always equals `can_mint`. */
  lemma HiddenMintIsCanMint(access: ContractAccess)
    ensures Security(access).Report? ==> Security(access).flags.hiddenMint == Security(access).flags.canMint
  {
  }

  /** `_check_contract_security`: the probes are tried one after another, each failure leaving
      its finding false, and the true findings are then counted. */
  method CheckContractSecurity(access: ContractAccess) returns (report: SecurityReport)
    ensures access.AccessError? <==> report.ReportError?
    ensures access.AccessError? ==> report.error == "Failed to check contract security: " + access.reason
    ensures access.Probes? ==> report.flags == FlagsOf(access.probes)
    ensures access.Probes? ==> report.risk == RiskLevel(CountTrue(RiskFactors(report.flags)))
  {
    if access.AccessError? {
      return ReportError("Failed to check contract security: " + access.reason);
    }
    var flags := ReadFindings(access.probes);
    var count := CountFactors(RiskFactors(flags));
    report := Report(flags, RiskLevel(count));
  }

  /** The probes of `_check_contract_security`, tried one after another; a probe that raises
      leaves its finding false. */
  method ReadFindings(p: ProbeResults) returns (flags: Flags)
    ensures flags == FlagsOf(p)
  {
    var isUpgradeable := false;
    if p.implementation.Some? {
      isUpgradeable := p.implementation.value != ZeroAddress;
    }
    var hasBlacklist := false;
    if p.isBlacklisted {
      hasBlacklist := true;
    }
    var canPause := false;
    if p.paused {
      canPause := true;
    }
    var hiddenMint := false;
    if p.mint {
      hiddenMint := true;
    }
    var transferRestrictions := false;
    if p.maxTransferAmount {
      transferRestrictions := true;
    }
    var suspiciousPermissions := false;
    if p.owner.Some? && p.owner.value != ZeroAddress {
      suspiciousPermissions := true;
    }
    var hasTax := false;
    if p.taxRate {
      hasTax := true;
    }
    var canMint := false;
    if p.mint {
      canMint := true;
    }
    var canModifyLp := false;
    if p.setLpPair {
      canModifyLp := true;
    }
    flags := Flags(isUpgradeable, hasBlacklist, canPause, hiddenMint, transferRestrictions,
                   suspiciousPermissions, hasTax, canMint, canModifyLp);
  }

  /** `sum(risk_factors)`, one factor at a time. */
  method CountFactors(factors: seq<bool>) returns (count: nat)
    ensures count == CountTrue(factors)
  {
    count := 0;
    for i := 0 to |factors|
      invariant count == CountTrue(factors[..i])
    {
      assert factors[..i + 1][..i] == factors[..i];
      if factors[i] {
        count := count + 1;
      }
    }
    assert factors[..|factors|] == factors;
  }

  // ---------------------------------------------------------------------------------------
  // `handle_check_token_security`

  function YesNo(b: bool): string
  {
    if b then "Yes" else "No"
  }

  function Advice(t: Tier): string
  {
    match t
    case High => "⚠️ Warning: This token has high risk! Please proceed with caution!\n"
    case Medium => "⚠️ Notice: This token has medium risk. Please evaluate carefully before proceeding.\n"
    case Low => "✅ This token has low risk, but still needs to be treated with caution.\n"
  }

  /** The lines of the report text. */
  function ReportLines(name: Value, address: Value, f: Flags, t: Tier): (ls: seq<string>)
    ensures |ls| >= 2 && ls[0] == ReportHeader && ls[|ls| - 1] == Advice(t)
  {
    [ReportHeader]
    + (if Truthy(name) then ["Token Name: " + Show(name) + "\n"] else [])
    + ["Contract Address: " + Show(address) + "\n",
       "Risk Level: " + t.Upper() + "\n\n",
       "Detailed Check Results:\n",
       "• Is contract upgradeable: " + YesNo(f.isUpgradeable) + "\n",
       "• Has blacklist function: " + YesNo(f.hasBlacklist) + "\n",
       "• Can pause transactions: " + YesNo(f.canPause) + "\n",
       "• Has hidden mint function: " + YesNo(f.hiddenMint) + "\n",
       "• Has suspicious transfer restrictions: " + YesNo(f.transferRestrictions) + "\n",
       "• Has suspicious permission settings: " + YesNo(f.suspiciousPermissions) + "\n",
       "• Has tax: " + YesNo(f.hasTax) + "\n",
       "• Can mint: " + YesNo(f.canMint) + "\n",
       "• Can modify liquidity pool: " + YesNo(f.canModifyLp) + "\n\n",
       Advice(t)]
  }

  const ReportHeader := "🔍 Token Security Report\n\n"

  /** The report text: it opens with the report heading and ends with the advice for the tier. */
  function ReportText(name: Value, address: Value, f: Flags, t: Tier): (text: string)
    ensures StartsWith(text, ReportHeader)
    ensures |Advice(t)| <= |text| && text[|text| - |Advice(t)|..] == Advice(t)
  {
    var ls := ReportLines(name, address, f, t);
    ConcatStartsWith(ls);
    var pre := Concat(ls[..|ls| - 1]);
    assert Concat(ls) == pre + Advice(t);
    assert (pre + Advice(t))[|pre|..] == Advice(t);
    Concat(ls)
  }

  /** A text under the report heading is not a failure message. */
  lemma ReportIsNotFailure(text: string)
    requires StartsWith(text, ReportHeader)
    ensures !StartsWith(text, FailureMark)
  {
    assert text[0] == ReportHeader[0] == '🔍';
    assert FailureMark[0] == '❌';
  }

  /** The token address to check: the given one, or the ticker's when only a name is given. */
  function TargetAddress(p: Dict, chain: Chain): Value
  {
    var name := Get(p, "token_name", Null);
    var address := Get(p, "token_address", Null);
    if Truthy(name) && !Truthy(address) then chain.tokenByTicker(name) else address
  }

  /** `handle_check_token_security(parameters, connection_manager)` */
  function SecurityText(p: Dict, cm: Connections): string
  {
    if cm.sonic.None? then NoSonicText
    else
      var chain := cm.sonic.value;
      var name := Get(p, "token_name", Null);
      var address := TargetAddress(p, chain);
      if Truthy(name) && !Truthy(Get(p, "token_address", Null)) && !Truthy(address) then
        NotFoundText(name)
      else if !Truthy(address) then
        NoAddressText
      else CheckedText(name, address, Security(chain.contractAt(address)))
  }

  /** A message shown to the user as a failure: `f"❌ {message}"`. */
  function Failure(message: string): (text: string)
    ensures StartsWith(text, FailureMark)
    ensures text[|FailureMark|..] == " " + message
  {
    StartsWithPrefix(FailureMark, " " + message);
    FailureMark + " " + message
  }

  const NoSonicText := Failure("Sonic connection not found. Please check your configuration.")
  const NoAddressText := Failure("Please provide either token name or token address to check security")

  function NotFoundText(name: Value): string
  {
    Failure(UnresolvedToken(name))
  }

  /** The answer once the check has run: its error under the failure mark, or the report. */
  function CheckedText(name: Value, address: Value, report: SecurityReport): (text: string)
    ensures StartsWith(text, FailureMark) <==> report.ReportError?
    ensures report.ReportError? ==> text == Failure(report.error)
    ensures report.Report? ==> text == ReportText(name, address, report.flags, report.risk)
  {
    match report
    case ReportError(e) => Failure(e)
    case Report(f, t) =>
      var text := ReportText(name, address, f, t);
      ReportIsNotFailure(text);
      text
  }

  /** The handler answers with a "❌" message exactly when there is no Sonic connection, no
      address can be found, or the security check itself raised. */
  lemma SecurityTextFailures(p: Dict, cm: Connections)
    ensures StartsWith(SecurityText(p, cm), FailureMark) <==>
              cm.sonic.None?
              || !Truthy(TargetAddress(p, cm.sonic.value))
              || Security(cm.sonic.value.contractAt(TargetAddress(p, cm.sonic.value))).ReportError?
  {
  }

  /** The message each refusal of the handler gives. */
  lemma SecurityTextPaths(p: Dict, cm: Connections)
    ensures cm.sonic.None? ==>
              SecurityText(p, cm) == Failure("Sonic connection not found. Please check your configuration.")
    ensures var name := Get(p, "token_name", Null);
            cm.sonic.Some? && Truthy(name) && !Truthy(Get(p, "token_address", Null))
            && !Truthy(cm.sonic.value.tokenByTicker(name)) ==>
              SecurityText(p, cm) == Failure("Could not find address for token " + Show(name))
    ensures cm.sonic.Some? && !Truthy(Get(p, "token_name", Null)) && !Truthy(Get(p, "token_address", Null)) ==>
              SecurityText(p, cm) == Failure("Please provide either token name or token address to check security")
    ensures cm.sonic.Some? && Truthy(TargetAddress(p, cm.sonic.value))
            && Security(cm.sonic.value.contractAt(TargetAddress(p, cm.sonic.value))).ReportError? ==>
              SecurityText(p, cm) == Failure(Security(cm.sonic.value.contractAt(TargetAddress(p, cm.sonic.value))).error)
  {
  }

  /** Once an address is found, the answer is that of the check on it. */
  lemma SecurityTextChecked(p: Dict, chain: Chain)
    requires Truthy(TargetAddress(p, chain))
    ensures var address := TargetAddress(p, chain);
            SecurityText(p, Connections(Some(chain)))
              == CheckedText(Get(p, "token_name", Null), address, Security(chain.contractAt(address)))
  {
  }

  /** A report with the findings and tier of the probes is the specified report. */
  lemma ProbesMatchSecurity(access: ContractAccess, report: SecurityReport)
    requires access.AccessError? <==> report.ReportError?
    requires access.AccessError? ==> report.error == "Failed to check contract security: " + access.reason
    requires access.Probes? ==> report.flags == FlagsOf(access.probes)
    requires access.Probes? ==> report.risk == RiskLevel(CountTrue(RiskFactors(report.flags)))
    ensures report == Security(access)
  {
  }

  /** `handle_check_token_security`, running the probe sequence. */
  method HandleCheckTokenSecurity(p: Dict, cm: Connections) returns (text: string)
    ensures text == SecurityText(p, cm)
  {
    if cm.sonic.None? {
      return NoSonicText;
    }
    var chain := cm.sonic.value;
    var name := Get(p, "token_name", Null);
    var address := Get(p, "token_address", Null);
    if Truthy(name) && !Truthy(address) {
      address := chain.tokenByTicker(name);
      if !Truthy(address) {
        return NotFoundText(name);
      }
    }
    if !Truthy(address) {
      return NoAddressText;
    }
    assert address == TargetAddress(p, chain);
    SecurityTextChecked(p, chain);
    text := CheckAndReport(name, address, chain.contractAt(address));
  }

  /** The end of `handle_check_token_security`: run the probes on the contract, then render
      the error or the report. */
  method CheckAndReport(name: Value, address: Value, access: ContractAccess) returns (text: string)
    ensures text == CheckedText(name, address, Security(access))
  {
    var report := CheckContractSecurity(access);
    ProbesMatchSecurity(access, report);
    if report.ReportError? {
      return Failure(report.error);
    }
    text := ReportText(name, address, report.flags, report.risk);
  }
}
