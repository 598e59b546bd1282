/**
 * The interface of the Bitcoin app engine as the dispatch layer sees it. The
 * engine's four entry points are opaque: a `BtcEngine` value bundles one
 * arbitrary total function per entry point, so every statement proved about
 * the dispatch layer holds for every engine. An out-parameter the engine
 * fills is modelled by handing the oracle the old contents and taking the new
 * contents back.
 */
module AppBtc {
  import opened Keystore
  import opened BtcMessages

  /** `app_btc_result_t`: the five codes the dispatch layer names, and any other value. */
  datatype AppBtcResult =
    | BtcOk
    | BtcErrUserAbort
    | BtcErrInvalidInput
    | BtcErrDuplicate
    | BtcErrState
    | BtcErrOther(code: int)

  /** Arguments of `app_btc_address_multisig`. */
  datatype MultisigArgs = MultisigArgs(
    coin: Coin,
    multisig: MultisigConfig,
    keypath: seq<Uint32>,
    keypathCount: nat,
    outCapacity: nat,
    display: bool)

  /** Arguments of `app_btc_is_script_config_registered` (besides its out-parameter). */
  datatype RegistrationArgs = RegistrationArgs(
    coin: Coin,
    scriptConfig: ScriptConfig,
    keypath: seq<Uint32>,
    keypathCount: nat)

  /** Arguments of `app_btc_register_script_config`. */
  datatype RegisterArgs = RegisterArgs(
    coin: Coin,
    scriptConfig: ScriptConfig,
    keypath: seq<Uint32>,
    keypathCount: nat,
    name: string,
    xpubType: XpubType)

  /** What the deriver returns, and what it left in the output buffer. */
  datatype DeriveOutcome = DeriveOutcome(result: AppBtcResult, pub: string)

  /** Whether the registry query succeeded, and what it left in `is_registered`. */
  datatype QueryOutcome = QueryOutcome(ok: bool, isRegistered: bool)

  datatype BtcEngine = BtcEngine(
    enabled: Coin -> bool,
    addressMultisig: (MultisigArgs, string) -> DeriveOutcome,
    isScriptConfigRegistered: (RegistrationArgs, bool) -> QueryOutcome,
    registerScriptConfig: RegisterArgs -> AppBtcResult)

  /** One call into the engine, with the arguments it received. */
  datatype EngineCall =
    | EnabledCall(coin: Coin)
    | AddressMultisigCall(multisigArgs: MultisigArgs)
    | IsRegisteredCall(registrationArgs: RegistrationArgs)
    | RegisterCall(registerArgs: RegisterArgs)

  /** True when the call log holds a call to the multisig deriver. */
  predicate CallsDeriver(calls: seq<EngineCall>)
  {
    exists i :: 0 <= i < |calls| && calls[i].AddressMultisigCall?
  }
}
