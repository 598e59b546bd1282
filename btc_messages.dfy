/**
 * The fields of the Bitcoin request and response messages that the dispatch
 * layer reads or writes. A protobuf `oneof` becomes a sum type: one constructor
 * per tag the code names, and one `Unknown…` constructor for a tag the code
 * does not name. The `int` an `Unknown…` constructor carries is an
 * uninterpreted stand-in for that tag's value: nothing relates it to the
 * numbers of the named tags, and the dispatch layer never reads it.
 */
module BtcMessages {
  import opened Keystore

  newtype Uint32 = x: int | 0 <= x < 0x1_0000_0000

  type Byte = bv8

  /** Raw value of the coin enumeration; this layer only forwards it. */
  type Coin = int

  /** Multisig payload: threshold and participant key material, passed through unmodified. */
  datatype MultisigConfig = MultisigConfig(threshold: Uint32, xpubs: seq<seq<Byte>>)

  /** `BTCScriptConfig`, discriminated by `which_config`. */
  datatype ScriptConfig =
    | SimpleType(simpleType: int)
    | Multisig(multisig: MultisigConfig)
    | UnknownConfig(whichConfig: int)

  /** The `output` oneof of `BTCPubRequest`, discriminated by `which_output`. */
  datatype PubOutput =
    | XpubTypeOutput(xpubType: int)
    | ScriptConfigOutput(scriptConfig: ScriptConfig)
    | UnknownOutput(whichOutput: int)

  /** `BTCPubRequest`: the keypath array's contents and its separate count, both forwarded as given. */
  datatype BtcPubRequest = BtcPubRequest(
    coin: Coin,
    keypath: seq<Uint32>,
    keypathCount: nat,
    output: PubOutput,
    display: bool)

  /** `BTCScriptConfigRegistration`: the tuple a registration is identified by. */
  datatype ScriptConfigRegistration = ScriptConfigRegistration(
    coin: Coin,
    scriptConfig: ScriptConfig,
    keypath: seq<Uint32>,
    keypathCount: nat)

  datatype IsScriptConfigRegisteredRequest =
    IsScriptConfigRegisteredRequest(registration: ScriptConfigRegistration)

  datatype RegisterScriptConfigRequest =
    RegisterScriptConfigRequest(registration: ScriptConfigRegistration, name: string, xpubType: XpubType)

  /** `BTCRequest`, discriminated by `which_request`. */
  datatype BtcRequest =
    | IsScriptConfigRegistered(isScriptConfigRegistered: IsScriptConfigRegisteredRequest)
    | RegisterScriptConfig(registerScriptConfig: RegisterScriptConfigRequest)
    | UnknownRequest(whichRequest: int)

  /** Values of `BTCResponse.which_response`; `OtherResponseTag` is whatever the caller left there. */
  datatype ResponseTag =
    | IsScriptConfigRegisteredTag
    | SuccessTag
    | OtherResponseTag(tag: int)
}
