/** `DeepSeekConnection`: its configuration check, its action registry and dispatcher, and the
    routing of a classified wallet intent to balance, ticker and transfer handling. The language
    model call that classifies a prompt is outside the model; its reply is an input. */
module DeepSeek {
  import opened Common
  import opened Wallet

  // ---------------------------------------------------------------------------------------
  // `validate_config`

  const RequiredFields := ["model"]

  /** `[field for field in required_fields if field not in config]` */
  function MissingFields(required: seq<string>, config: Dict): (r: seq<string>)
    ensures |r| <= |required|
    ensures forall f :: f in r <==> f in required && f !in config
  {
    if required == [] then []
    else
      var rest := MissingFields(required[1..], config);
      assert forall f :: f in required <==> f == required[0] || f in required[1..];
      (if required[0] !in config then [required[0]] else []) + rest
  }

  /** `validate_config(config)`: the configuration itself, or the `ValueError` it raises. */
  function ValidateConfig(config: Dict): Result<Dict>
  {
    var missing := MissingFields(RequiredFields, config);
    if missing != [] then Err("Missing required configuration fields: " + Join(missing, ", "))
    else if !config["model"].Str? then Err("model must be a string")
    else Ok(config)
  }

  /** A configuration passes unchanged exactly when it has a textual `model`; otherwise the
      message names the missing field or the wrong type. */
  lemma ValidateConfigSpec(config: Dict)
    ensures ValidateConfig(config).Ok? <==> "model" in config && config["model"].Str?
    ensures ValidateConfig(config).Ok? ==> ValidateConfig(config).value == config
    ensures "model" !in config ==> ValidateConfig(config) == Err("Missing required configuration fields: model")
    ensures "model" in config && !config["model"].Str? ==> ValidateConfig(config) == Err("model must be a string")
  {
    var missing := MissingFields(RequiredFields, config);
    if "model" !in config {
      assert "model" in missing;
      assert missing == ["model"];
    } else {
      assert missing == [];
    }
  }

  // ---------------------------------------------------------------------------------------
  // `register_actions` and `perform_action`

  /** One declared parameter: its name, whether it is required, its Python type's name and
      its description. */
  datatype ActionParameter = ActionParameter(name: string, required: bool, typeName: string, description: string)

  datatype Action = Action(name: string, parameters: seq<ActionParameter>, description: string)

  /** The three actions `register_actions` declares, keyed by name. */
  function Registry(): (r: map<string, Action>)
    ensures r.Keys == {"generate-text", "check-model", "list-models"}
    ensures forall n :: n in r ==> r[n].name == n
  {
    map[
      "generate-text" := Action("generate-text",
        [ActionParameter("prompt", true, "str", "The input prompt for text generation"),
         ActionParameter("system_prompt", true, "str", "System prompt to guide the model"),
         ActionParameter("model", false, "str", "Model to use for generation")],
        "Generate text using DeepSeek models"),
      "check-model" := Action("check-model",
        [ActionParameter("model", true, "str", "Model name to check availability")],
        "Check if a specific model is available"),
      "list-models" := Action("list-models", [], "List all available DeepSeek models")]
  }

  /** `action_name.replace('-', '_')` */
  function MethodName(name: string): (r: string)
    ensures |r| == |name|
    ensures forall i :: 0 <= i < |name| ==> r[i] == (if name[i] == '-' then '_' else name[i])
    ensures '-' !in r
  {
    if name == [] then [] else [if name[0] == '-' then '_' else name[0]] + MethodName(name[1..])
  }

  /** The methods of the connection that an action can dispatch to. */
  const Methods := {"generate_text", "check_model", "list_models"}

  /** Every registered action names an existing method. */
  lemma RegistryResolves()
    ensures forall n :: n in Registry() ==> MethodName(n) in Methods
  {
    forall n | n in Registry()
      ensures MethodName(n) in Methods
    {
      assert n in {"generate-text", "check-model", "list-models"};
      if n == "generate-text" {
        MethodNameIs(n, "generate_text");
      } else if n == "check-model" {
        MethodNameIs(n, "check_model");
      } else {
        MethodNameIs(n, "list_models");
      }
    }
  }

  lemma MethodNameIs(name: string, expected: string)
    requires |expected| == |name|
    requires forall i :: 0 <= i < |name| ==> expected[i] == (if name[i] == '-' then '_' else name[i])
    ensures MethodName(name) == expected
  {
  }

  /** The outcome of `perform_action`: `KeyError`, `ValueError`, or a call of the named method
      with the keyword arguments. */
  datatype Dispatch = KeyErr(message: string) | ValueErr(message: string) | Invoke(methodName: string, kwargs: Dict)

  /** `Action.validate_params`, defined outside this model: the list of problems it finds. */
  type Validator = (Action, Dict) -> seq<string>

  class DeepSeekConnection {
    var actions: map<string, Action>

    method RegisterActions()
      modifies this
      ensures actions == Registry()
    {
      actions := Registry();
    }

    /** `perform_action(action_name, kwargs)`: an unknown name fails before any validation;
        every validation error is reported at once and nothing runs; otherwise the method whose
        name is the action's, dashes made underscores, is called with the arguments as given. */
    function PerformAction(name: string, kwargs: Dict, validate: Validator): (r: Dispatch)
      reads this
      ensures r.KeyErr? <==> name !in actions
      ensures r.KeyErr? ==> r.message == "Unknown action: " + name
      ensures r.ValueErr? <==> name in actions && validate(actions[name], kwargs) != []
      ensures r.ValueErr? ==> r.message == "Invalid parameters: " + Join(validate(actions[name], kwargs), ", ")
      ensures r.Invoke? ==> r.methodName == MethodName(name) && r.kwargs == kwargs
    {
      if name !in actions then KeyErr("Unknown action: " + name)
      else
        var errors := validate(actions[name], kwargs);
        if errors != [] then ValueErr("Invalid parameters: " + Join(errors, ", "))
        else Invoke(MethodName(name), kwargs)
    }
  }

  /** The `ValueError` lists every error the validator found, each intact. */
  lemma InvalidParamsListsAll(errors: seq<string>, i: nat)
    requires i < |errors|
    ensures var msg := "Invalid parameters: " + Join(errors, ", ");
            var at := |"Invalid parameters: "| + JoinOffset(errors, ", ", i);
            at + |errors[i]| <= |msg| && msg[at..at + |errors[i]|] == errors[i]
  {
    var pre, joined, k := "Invalid parameters: ", Join(errors, ", "), JoinOffset(errors, ", ", i);
    JoinContains(errors, ", ", i);
    SliceAfterPrefix(pre, joined, k, |errors[i]|);
    assert (pre + joined)[|pre| + k..|pre| + k + |errors[i]|] == errors[i];
  }

  // ---------------------------------------------------------------------------------------
  // Routing of a classified intent (`generate_text`)

  /** The classifier's reply: text that is not JSON, or a JSON object with its `action` and
      its `parameters` (`{}` when absent). */
  datatype ClassifierReply = NotJson(text: string) | Intent(raw: string, action: Value, parameters: Dict)

  const GenerationFailed := "Text generation failed: "

  /** An exception inside the routing: the inner handler wraps it in `DeepSeekAPIError`, and
      the outer handler of `generate_text` wraps that once more. */
  function Raise(e: string): (r: Result<Reply>)
    ensures r.Err? && StartsWith(r.error, GenerationFailed + GenerationFailed)
    ensures r.error[|GenerationFailed + GenerationFailed|..] == e
  {
    Err(GenerationFailed + (GenerationFailed + e))
  }

  const NoManager := "Connection manager is required for wallet operations"

  /** The get-balance branch. */
  function RouteBalance(p: Dict, cm: Connections): (r: Result<Reply>)
    ensures r.Err? ==> r == Raise(NoSonic) || r == Raise(MissingFrom)
    ensures r.Ok? ==> r.value.Text?
  {
    var q := WithDefaultTokenName(p);
    var name := q["token_name"];
    if name != NativeToken && cm.sonic.None? then Raise(NoSonic)
    else if name != NativeToken && !Truthy(name) then Ok(Text(NoTokenName))
    else if cm.sonic.None? then Raise(NoSonic)
    else
      var chain := cm.sonic.value;
      var tokenAddress := if name != NativeToken then chain.tokenByTicker(name) else Get(p, "token_address", Null);
      var balance := chain.balanceOf(Get(q, "from_address", Null), tokenAddress);
      if "from_address" !in q then Raise(MissingFrom)
      else if balance != Null then
        Ok(Text("Wallet " + Show(q["from_address"]) + " " + Show(name) + " balance: " + Show(balance)))
      else Ok(Text("Failed to get balance for wallet " + Show(q["from_address"])))
  }

  /** The get-token-by-ticker branch. */
  function RouteTicker(p: Dict, cm: Connections): (r: Result<Reply>)
    ensures r.Err? <==> cm.sonic.None?
    ensures r.Err? ==> r == Raise(NoSonic)
    ensures r.Ok? ==> r.value.Text?
  {
    if cm.sonic.None? then Raise(NoSonic)
    else
      var ticker := Get(p, "token_name", Null);
      if !Truthy(ticker) then Ok(Text(NoTokenName))
      else
        var address := cm.sonic.value.tokenByTicker(ticker);
        if Truthy(address) then Ok(Text(TokenAddressText(ticker, address)))
        else Ok(Text(UnresolvedToken(ticker)))
  }

  /** The transfer branch: its descriptor carries no decimals. */
  function RouteTransfer(p: Dict, cm: Connections): (r: Result<Reply>)
    ensures r.Err? ==> r == Raise(NoSonic) || r == Raise(MissingFrom)
    ensures r.Ok? && r.value.TransferRequest? ==>
              r.value.data.requiresSignature && r.value.data.decimals.None?
              && r.value.data.to == Get(p, "to_address", Null) && r.value.data.amount == Get(p, "amount", Null)
  {
    if !Truthy(Get(p, "to_address", Null)) then Ok(Text(RecipientRequired))
    else if !Truthy(Get(p, "amount", Null)) then Ok(Text(AmountRequired))
    else
      var q := WithDefaultTokenName(p);
      var name := q["token_name"];
      if name != NativeToken && cm.sonic.None? then Raise(NoSonic)
      else
        var address := if name != NativeToken then cm.sonic.value.tokenByTicker(name) else Get(q, "token_address", Null);
        if name != NativeToken && !Truthy(address) then Ok(Text(UnresolvedToken(name)))
        else if "from_address" !in q then Raise(MissingFrom)
        else
          var data := TransferData(q["from_address"], q["to_address"], q["amount"], address, name, None, true);
          Ok(TransferRequest(data, "Please confirm transfer of " + Show(q["amount"]) + " " + Show(name)
                                   + " from " + Show(q["from_address"]) + " to " + Show(q["to_address"])))
  }

  /** What `generate_text` returns, or the message of the `DeepSeekAPIError` it raises, once
      the classifier has replied. */
  function Route(reply: ClassifierReply, cm: Option<Connections>): (r: Result<Reply>)
    ensures reply.NotJson? ==> r == Ok(Text(reply.text))
    ensures r.Err? ==> StartsWith(r.error, GenerationFailed + GenerationFailed)
    ensures r.Ok? ==> !r.value.NoReply?
    ensures reply.Intent? && cm.Some? && reply.action == Str("get-balance") ==>
              r == RouteBalance(reply.parameters, cm.value)
    ensures reply.Intent? && cm.Some? && reply.action == Str("get-token-by-ticker") ==>
              r == RouteTicker(reply.parameters, cm.value)
    ensures reply.Intent? && cm.Some? && reply.action == Str("transfer") ==>
              r == RouteTransfer(reply.parameters, cm.value)
  {
    match reply
    case NotJson(text) => Ok(Text(text))
    case Intent(raw, action, p) =>
      if cm.None? then Raise(NoManager)
      else if action == Str("get-balance") then RouteBalance(p, cm.value)
      else if action == Str("get-token-by-ticker") then RouteTicker(p, cm.value)
      else if action == Str("transfer") then RouteTransfer(p, cm.value)
      else Ok(Text(raw))
  }

  /** A reply that is not JSON is returned as it is; an intent for any other action is returned
      as its raw JSON text, provided a connection manager is given; without one, any intent
      fails. */
  lemma RoutePassThrough(reply: ClassifierReply, cm: Option<Connections>)
    ensures reply.NotJson? ==> Route(reply, cm) == Ok(Text(reply.text))
    ensures reply.Intent? && cm.None? ==> Route(reply, cm) == Raise(NoManager)
    ensures reply.Intent? && cm.Some? && reply.action !in {Str("get-balance"), Str("get-token-by-ticker"), Str("transfer")} ==>
              Route(reply, cm) == Ok(Text(reply.raw))
  {
  }

  /** Routing a transfer checks the same fields in the same order as the wallet handler, refuses
      the same unresolved tokens, and builds the same descriptor apart from its decimals and
      its message; unlike the handler it needs no Sonic connection for "S". */
  lemma RouteTransferAgreesWithWallet(p: Dict, chain: Chain)
    ensures var cm := Connections(Some(chain));
            var routed := RouteTransfer(p, cm);
            var handled := Transfer(p, cm).0;
            && (routed.Ok? && routed.value.Text? ==> handled == routed)
            && (routed.Ok? && routed.value.TransferRequest? ==>
                  handled.Ok? && handled.value.TransferRequest?
                  && handled.value.data.(decimals := None) == routed.value.data)
            && (routed.Err? <==> handled.Err?)
  {
  }

  /** The transfer branch without a Sonic connection still builds the descriptor for "S". */
  lemma RouteNativeTransferWithoutSonic(p: Dict)
    requires Truthy(Get(p, "to_address", Null)) && Truthy(Get(p, "amount", Null))
    requires "token_name" !in p && "from_address" in p
    ensures var r := RouteTransfer(p, Connections(None));
            r.Ok? && r.value.TransferRequest?
            && r.value.data.tokenName == NativeToken && r.value.data.requiresSignature
            && r.value.data.tokenAddress == Get(p, "token_address", Null)
    ensures Transfer(p, Connections(None)).0 == Ok(Text("Sonic connection not found. Please check your configuration."))
  {
  }

  /** Routing a balance query answers as the wallet handler does, except that a missing
      balance gives a failure text instead of None, and errors are wrapped. */
  lemma RouteBalanceAgreesWithWallet(p: Dict, cm: Connections)
    ensures var routed := RouteBalance(p, cm);
            var handled := GetBalance(p, cm).0;
            && (handled.Ok? && handled.value.Text? ==> routed == handled)
            && (handled.Err? ==> routed == Raise(handled.error))
            && (handled.Ok? && handled.value.NoReply? ==>
                  (if "from_address" in p then routed == Ok(Text("Failed to get balance for wallet " + Show(p["from_address"])))
                   else routed == Raise(MissingFrom)))
  {
    var q := WithDefaultTokenName(p);
    assert "from_address" in q <==> "from_address" in p;
    if "from_address" in p {
      assert q["from_address"] == p["from_address"];
    }
  }

  /** An empty ticker is refused; an unresolved one is named. */
  lemma RouteTickerSpec(p: Dict, chain: Chain)
    ensures !Truthy(Get(p, "token_name", Null)) ==> RouteTicker(p, Connections(Some(chain))) == Ok(Text(NoTokenName))
    ensures Truthy(Get(p, "token_name", Null)) && !Truthy(chain.tokenByTicker(Get(p, "token_name", Null))) ==>
              RouteTicker(p, Connections(Some(chain))) == Ok(Text(UnresolvedToken(Get(p, "token_name", Null))))
    ensures RouteTicker(p, Connections(None)) == Raise(NoSonic)
  {
  }
}
