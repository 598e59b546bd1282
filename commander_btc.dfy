/**
 * The Bitcoin command-dispatch layer: it gates public-key requests on the
 * coin being enabled, routes them by output and script-config tag, forwards
 * script-config registration queries and registrations to the engine, and
 * translates every engine result into the commander's error vocabulary.
 *
 * Each entry point has a pure specification function (`PubSpec`, `BtcSpec`)
 * whose contract states what the entry point promises, and a method that does
 * what the C code does step by step on the caller's response object and is
 * proved equal to that specification.
 */
module CommanderBtc {
  import opened BtcMessages
  import opened AppBtc

  /** `commander_error_t`, restricted to the codes this layer can return. */
  datatype CommanderError =
    | CommanderOk
    | ErrGeneric
    | ErrInvalidInput
    | ErrDisabled
    | ErrUserAbort
    | ErrDuplicate
    | ErrInvalidState

  // ---------------------------------------------------------------------------
  // Error translation (`_result`)

  /** `_result`: translates an engine result into a commander error. */
  function Result(result: AppBtcResult): (e: CommanderError)
    ensures e != ErrDisabled
    ensures e == CommanderOk <==> result == BtcOk
    ensures result.BtcErrOther? ==> e == ErrGeneric
  {
    match result
    case BtcOk => CommanderOk
    case BtcErrUserAbort => ErrUserAbort
    case BtcErrInvalidInput => ErrInvalidInput
    case BtcErrDuplicate => ErrDuplicate
    case BtcErrState => ErrInvalidState
    case BtcErrOther(_) => ErrGeneric
  }

  /** The translation written as a table of the rows it names; anything without a row is generic. */
  const RESULT_TABLE: seq<(AppBtcResult, CommanderError)> := [
    (BtcOk, CommanderOk),
    (BtcErrUserAbort, ErrUserAbort),
    (BtcErrInvalidInput, ErrInvalidInput),
    (BtcErrDuplicate, ErrDuplicate),
    (BtcErrState, ErrInvalidState)
  ]

  /** The entry of the first row keyed by `result`, or the generic error when there is none. */
  function Lookup(table: seq<(AppBtcResult, CommanderError)>, result: AppBtcResult): CommanderError
  {
    if table == [] then ErrGeneric
    else if table[0].0 == result then table[0].1
    else Lookup(table[1..], result)
  }

  lemma {:induction false} LookupAbsent(table: seq<(AppBtcResult, CommanderError)>, result: AppBtcResult)
    requires forall i :: 0 <= i < |table| ==> table[i].0 != result
    ensures Lookup(table, result) == ErrGeneric
  {
    if table != [] {
      assert forall i :: 0 <= i < |table[1..]| ==> table[1..][i] == table[i + 1];
      LookupAbsent(table[1..], result);
    }
  }

  lemma {:induction false} LookupAt(table: seq<(AppBtcResult, CommanderError)>, k: nat, result: AppBtcResult)
    requires k < |table| && table[k].0 == result
    requires forall i :: 0 <= i < k ==> table[i].0 != result
    ensures Lookup(table, result) == table[k].1
  {
    if k > 0 {
      assert forall i :: 0 <= i < |table[1..]| ==> table[1..][i] == table[i + 1];
      LookupAt(table[1..], k - 1, result);
    }
  }

  /** The translation is exactly the table: the five named rows, and generic for the rest. */
  lemma ResultMatchesTable(result: AppBtcResult)
    ensures Result(result) == Lookup(RESULT_TABLE, result)
  {
    match result
    case BtcOk => LookupAt(RESULT_TABLE, 0, result);
    case BtcErrUserAbort => LookupAt(RESULT_TABLE, 1, result);
    case BtcErrInvalidInput => LookupAt(RESULT_TABLE, 2, result);
    case BtcErrDuplicate => LookupAt(RESULT_TABLE, 3, result);
    case BtcErrState => LookupAt(RESULT_TABLE, 4, result);
    case BtcErrOther(_) => LookupAbsent(RESULT_TABLE, result);
  }

  /** True of the engine codes the translation names. */
  predicate IsNamed(result: AppBtcResult)
  {
    !result.BtcErrOther?
  }

  /**
   * Collapsing the engine codes keeps the distinctions a caller reacts to:
   * two named codes translate alike only when they are the same code, and no
   * named code ends up generic.
   */
  lemma ResultSeparatesNamedCodes(a: AppBtcResult, b: AppBtcResult)
    requires IsNamed(a) && IsNamed(b)
    ensures Result(a) != ErrGeneric
    ensures Result(a) == Result(b) ==> a == b
  {
  }

  // ---------------------------------------------------------------------------
  // Public-key requests (`commander_btc_pub`)

  /** Where the output/script-config router sends a public-key request. */
  datatype PubRoute = RejectInvalidInput | DeriveMultisig(multisig: MultisigConfig)

  /**
   * The two-level match on `which_output` and `which_config`: only the
   * multisig script config is delegated; xpub outputs and simple script
   * configs belong to another subsystem and, like unknown tags, are rejected.
   */
  function RoutePub(output: PubOutput): (route: PubRoute)
    ensures route.DeriveMultisig? <==> output.ScriptConfigOutput? && output.scriptConfig.Multisig?
    ensures route.DeriveMultisig? ==> route.multisig == output.scriptConfig.multisig
  {
    match output
    case XpubTypeOutput(_) => RejectInvalidInput
    case ScriptConfigOutput(config) =>
      (match config
       case SimpleType(_) => RejectInvalidInput
       case Multisig(multisig) => DeriveMultisig(multisig)
       case UnknownConfig(_) => RejectInvalidInput)
    case UnknownOutput(_) => RejectInvalidInput
  }

  /** The arguments the multisig adapter hands to the deriver. */
  function DeriverArgs(request: BtcPubRequest, multisig: MultisigConfig, capacity: nat): MultisigArgs
  {
    MultisigArgs(request.coin, multisig, request.keypath, request.keypathCount, capacity, request.display)
  }

  /** Outcome of a public-key request: the error, the output buffer afterwards, the engine calls made. */
  datatype PubOutcome = PubOutcome(error: CommanderError, pub: string, calls: seq<EngineCall>)

  /**
   * What `commander_btc_pub` does for `request`, given the engine, the
   * capacity of the response's output buffer and its contents beforehand.
   */
  function PubSpec(request: BtcPubRequest, engine: BtcEngine, capacity: nat, pub: string): (o: PubOutcome)
    // The coin gate is consulted first, whatever the request's tags.
    ensures |o.calls| > 0 && o.calls[0] == EnabledCall(request.coin)
    // A disabled coin ends the request there.
    ensures !engine.enabled(request.coin) ==> o == PubOutcome(ErrDisabled, pub, [EnabledCall(request.coin)])
    // The deriver is reached exactly when the coin is enabled and the request asks for a multisig script config.
    ensures CallsDeriver(o.calls) <==> engine.enabled(request.coin) && RoutePub(request.output).DeriveMultisig?
    // Every other enabled request is rejected as invalid input and leaves the buffer alone.
    ensures engine.enabled(request.coin) && !RoutePub(request.output).DeriveMultisig? ==>
      o.error == ErrInvalidInput && o.pub == pub && o.calls == [EnabledCall(request.coin)]
    // A multisig request gets the deriver's result, translated, from a call with the request's own fields.
    ensures engine.enabled(request.coin) && request.output.ScriptConfigOutput? && request.output.scriptConfig.Multisig? ==>
      var multisig := request.output.scriptConfig.multisig;
      var args := MultisigArgs(request.coin, multisig, request.keypath, request.keypathCount, capacity, request.display);
      var derived := engine.addressMultisig(args, pub);
      o.calls == [EnabledCall(request.coin), AddressMultisigCall(args)] &&
      o.error == Result(derived.result) && o.pub == derived.pub
    // There is no default success: success means the deriver itself reported success.
    ensures o.error == CommanderOk <==>
      engine.enabled(request.coin) && RoutePub(request.output).DeriveMultisig? &&
      engine.addressMultisig(DeriverArgs(request, RoutePub(request.output).multisig, capacity), pub).result == BtcOk
  {
    if !engine.enabled(request.coin) then
      PubOutcome(ErrDisabled, pub, [EnabledCall(request.coin)])
    else
      match RoutePub(request.output)
      case RejectInvalidInput => PubOutcome(ErrInvalidInput, pub, [EnabledCall(request.coin)])
      case DeriveMultisig(multisig) =>
        var args := DeriverArgs(request, multisig, capacity);
        var derived := engine.addressMultisig(args, pub);
        var calls := [EnabledCall(request.coin), AddressMultisigCall(args)];
        assert calls[1].AddressMultisigCall?;
        PubOutcome(Result(derived.result), derived.pub, calls)
  }

  /** `PubResponse`: the caller-owned response whose fixed-size `pub` buffer the deriver fills. */
  class PubResponse {
    /** `sizeof(response->pub)`. */
    const capacity: nat
    var pub: string

    constructor (capacity: nat)
      ensures this.capacity == capacity && pub == ""
    {
      this.capacity := capacity;
      pub := "";
    }
  }

  /** `_btc_pub_address_multisig`: calls the deriver with the request's fields and the response's buffer. */
  method BtcPubAddressMultisig(request: BtcPubRequest, response: PubResponse, engine: BtcEngine)
    returns (err: CommanderError, ghost calls: seq<EngineCall>)
    requires request.output.ScriptConfigOutput? && request.output.scriptConfig.Multisig?
    modifies response
    ensures
      var args := DeriverArgs(request, request.output.scriptConfig.multisig, response.capacity);
      var derived := engine.addressMultisig(args, old(response.pub));
      err == Result(derived.result) && response.pub == derived.pub && calls == [AddressMultisigCall(args)]
  {
    var args := DeriverArgs(request, request.output.scriptConfig.multisig, response.capacity);
    var derived := engine.addressMultisig(args, response.pub);
    response.pub := derived.pub;
    calls := [AddressMultisigCall(args)];
    err := Result(derived.result);
  }

  /** `commander_btc_pub`: the coin gate, then the router, then the multisig adapter. */
  method CommanderBtcPub(request: BtcPubRequest, response: PubResponse, engine: BtcEngine)
    returns (err: CommanderError, ghost calls: seq<EngineCall>)
    modifies response
    ensures
      var o := PubSpec(request, engine, response.capacity, old(response.pub));
      err == o.error && response.pub == o.pub && calls == o.calls
  {
    calls := [EnabledCall(request.coin)];
    if !engine.enabled(request.coin) {
      return ErrDisabled, calls;
    }
    match request.output {
      case XpubTypeOutput(_) =>
        // Handled on the Rust side.
        err := ErrInvalidInput;
      case ScriptConfigOutput(config) =>
        match config {
          case SimpleType(_) =>
            // Handled on the Rust side.
            err := ErrInvalidInput;
          case Multisig(_) =>
            ghost var deriverCalls;
            err, deriverCalls := BtcPubAddressMultisig(request, response, engine);
            calls := calls + deriverCalls;
          case UnknownConfig(_) =>
            err := ErrInvalidInput;
        }
      case UnknownOutput(_) =>
        err := ErrInvalidInput;
    }
  }

  // ---------------------------------------------------------------------------
  // Script-config requests (`commander_btc`)

  /** The fields of a registration in the order the registry query takes them. */
  function QueryArgs(registration: ScriptConfigRegistration): RegistrationArgs
  {
    RegistrationArgs(registration.coin, registration.scriptConfig, registration.keypath, registration.keypathCount)
  }

  /** The fields of a registration request in the order the registry engine takes them. */
  function RegistrationOf(request: RegisterScriptConfigRequest): RegisterArgs
  {
    var reg := request.registration;
    RegisterArgs(reg.coin, reg.scriptConfig, reg.keypath, reg.keypathCount, request.name, request.xpubType)
  }

  datatype Option<T> = None | Some(value: T)

  /** The response tag that belongs to each request tag this layer handles. */
  function ResponseTagFor(request: BtcRequest): (tag: Option<ResponseTag>)
  {
    match request
    case IsScriptConfigRegistered(_) => Some(IsScriptConfigRegisteredTag)
    case RegisterScriptConfig(_) => Some(SuccessTag)
    case UnknownRequest(_) => None
  }

  /** Outcome of a script-config request: the error, the response fields afterwards, the engine calls made. */
  datatype BtcOutcome = BtcOutcome(
    error: CommanderError,
    whichResponse: ResponseTag,
    isRegistered: bool,
    calls: seq<EngineCall>)

  /**
   * What `commander_btc` does for `request`, given the engine and the
   * response's `which_response` and `is_registered` beforehand.
   */
  function BtcSpec(request: BtcRequest, engine: BtcEngine, whichResponse: ResponseTag, isRegistered: bool): (o: BtcOutcome)
    // The response discriminator is the one matching the request's, and is left alone for an unknown request.
    ensures o.whichResponse == match ResponseTagFor(request) case Some(tag) => tag case None => whichResponse
    // An unknown request is a generic error that touches nothing and calls nothing.
    ensures request.UnknownRequest? ==> o == BtcOutcome(ErrGeneric, whichResponse, isRegistered, [])
    // A query forwards the registration unchanged; only a failed query is an error, "not registered" is not.
    ensures request.IsScriptConfigRegistered? ==>
      var reg := request.isScriptConfigRegistered.registration;
      var args := RegistrationArgs(reg.coin, reg.scriptConfig, reg.keypath, reg.keypathCount);
      var q := engine.isScriptConfigRegistered(args, isRegistered);
      o.calls == [IsRegisteredCall(args)] && o.isRegistered == q.isRegistered &&
      (o.error == ErrGeneric <==> !q.ok) && (o.error == CommanderOk <==> q.ok)
    // A registration forwards the request unchanged and returns the engine's result, translated.
    ensures request.RegisterScriptConfig? ==>
      var r := request.registerScriptConfig;
      var args := RegisterArgs(r.registration.coin, r.registration.scriptConfig, r.registration.keypath,
                               r.registration.keypathCount, r.name, r.xpubType);
      o.calls == [RegisterCall(args)] && o.isRegistered == isRegistered &&
      o.error == Result(engine.registerScriptConfig(args))
    ensures o.error != ErrDisabled
  {
    match request
    case IsScriptConfigRegistered(query) =>
      var q := engine.isScriptConfigRegistered(QueryArgs(query.registration), isRegistered);
      BtcOutcome(if q.ok then CommanderOk else ErrGeneric, IsScriptConfigRegisteredTag, q.isRegistered,
                 [IsRegisteredCall(QueryArgs(query.registration))])
    case RegisterScriptConfig(register) =>
      var args := RegistrationOf(register);
      BtcOutcome(Result(engine.registerScriptConfig(args)), SuccessTag, isRegistered, [RegisterCall(args)])
    case UnknownRequest(_) =>
      BtcOutcome(ErrGeneric, whichResponse, isRegistered, [])
  }

  /** `BTCResponse`: its discriminator and the `is_registered` field of the query response. */
  class BtcResponse {
    var whichResponse: ResponseTag
    var isRegistered: bool

    constructor (whichResponse: ResponseTag)
      ensures this.whichResponse == whichResponse && !isRegistered
    {
      this.whichResponse := whichResponse;
      isRegistered := false;
    }
  }

  /** `_api_is_script_config_registered`: the registry query, which fills `is_registered` in place. */
  method ApiIsScriptConfigRegistered(request: IsScriptConfigRegisteredRequest, response: BtcResponse, engine: BtcEngine)
    returns (err: CommanderError, ghost calls: seq<EngineCall>)
    modifies response`isRegistered
    ensures
      var args := QueryArgs(request.registration);
      var q := engine.isScriptConfigRegistered(args, old(response.isRegistered));
      response.isRegistered == q.isRegistered && calls == [IsRegisteredCall(args)] &&
      err == (if q.ok then CommanderOk else ErrGeneric)
  {
    var args := QueryArgs(request.registration);
    var q := engine.isScriptConfigRegistered(args, response.isRegistered);
    response.isRegistered := q.isRegistered;
    calls := [IsRegisteredCall(args)];
    if !q.ok {
      return ErrGeneric, calls;
    }
    err := CommanderOk;
  }

  /** `_api_register_script_config`: the registration, forwarded field by field. */
  method ApiRegisterScriptConfig(request: RegisterScriptConfigRequest, engine: BtcEngine)
    returns (err: CommanderError, ghost calls: seq<EngineCall>)
    ensures err == Result(engine.registerScriptConfig(RegistrationOf(request)))
    ensures err != ErrDisabled
    ensures calls == [RegisterCall(RegistrationOf(request))]
  {
    var args := RegistrationOf(request);
    var result := engine.registerScriptConfig(args);
    calls := [RegisterCall(args)];
    err := Result(result);
  }

  /** `commander_btc`: sets the response discriminator for the two known request tags and dispatches. */
  method CommanderBtcDispatch(request: BtcRequest, response: BtcResponse, engine: BtcEngine)
    returns (err: CommanderError, ghost calls: seq<EngineCall>)
    modifies response
    ensures
      var o := BtcSpec(request, engine, old(response.whichResponse), old(response.isRegistered));
      err == o.error && response.whichResponse == o.whichResponse &&
      response.isRegistered == o.isRegistered && calls == o.calls
  {
    match request {
      case IsScriptConfigRegistered(query) =>
        response.whichResponse := IsScriptConfigRegisteredTag;
        err, calls := ApiIsScriptConfigRegistered(query, response, engine);
      case RegisterScriptConfig(register) =>
        response.whichResponse := SuccessTag;
        err, calls := ApiRegisterScriptConfig(register, engine);
      case UnknownRequest(_) =>
        err, calls := ErrGeneric, [];
    }
  }
}
