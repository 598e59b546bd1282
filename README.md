# Bitcoin command dispatch (commander_btc), modelled in Dafny

This project models the Bitcoin command-dispatch layer of the BitBox02 firmware,
`src/commander/commander_btc.c`. That layer sits between the host-facing request
handler and the Bitcoin app engine:

- `commander_btc_pub` gates a public-key request on the coin being enabled.
  It then matches on the output tag and the script-config tag.
  Only the multisig script config is delegated to the deriver; every other shape is rejected.
- `commander_btc` dispatches the two script-config requests (is-registered query, registration)
  and sets the response discriminator for each.
- `_result` translates every engine result into the commander's error vocabulary.

Files:

- `keystore.dfy`: the `xpub_type_t` enumeration, forwarded with a registration.
- `btc_messages.dfy`: the request and response fields the layer reads or writes.
  Each protobuf `oneof` is a sum type with one constructor per tag the code names,
  plus an `Unknown…` constructor for any other tag value.
- `app_btc.dfy`: the engine interface. `AppBtcResult` is the engine's result code.
  `BtcEngine` bundles one arbitrary total function per engine entry point
  (`app_btc_enabled`, `app_btc_address_multisig`, `app_btc_is_script_config_registered`,
  `app_btc_register_script_config`), so every property holds for every engine.
  An engine out-parameter is modelled by handing the oracle the old contents and taking the new contents back.
  `EngineCall` records one engine call with its arguments.
- `commander_btc.dfy`: the layer itself. `PubSpec` and `BtcSpec` are pure specifications of the two entry points.
  They return the error, the response state afterwards and the log of engine calls made.
  The methods `CommanderBtcPub` and `CommanderBtcDispatch` do what the C code does on the caller's response
  object, and are proved equal to those specifications. Their call log is a ghost out-parameter.

## Model

| member | source | states |
|---|---|---|
| `CommanderBtc.Result` | src/commander/commander_btc.c:23-39 | the translation never yields the disabled error; it yields success exactly for the engine's success code; any code outside the five named ones becomes the generic error |
| `CommanderBtc.ResultMatchesTable` | src/commander/commander_btc.c:25-37 | the translation equals the table ok→ok, user abort→user abort, invalid input→invalid input, duplicate→duplicate, state→invalid state, with every code lacking a row mapped to the generic error |
| `CommanderBtc.ResultSeparatesNamedCodes` | src/commander/commander_btc.c:25-35 | no named engine code becomes the generic error, and two named codes translate alike only when they are the same code |
| `CommanderBtc.RoutePub` | src/commander/commander_btc.c:62-78 | a request is delegated exactly when its output is a script config whose variant is multisig, and then with that multisig payload; xpub outputs, simple configs and unknown tags are rejected |
| `CommanderBtc.PubSpec` | src/commander/commander_btc.c:57-79 | the coin gate is the first engine call; a disabled coin returns the disabled error with no other call and the buffer untouched; an enabled non-multisig request returns invalid input with no other call and the buffer untouched; the deriver is called exactly when the coin is enabled and the config is multisig, with the request's coin, multisig config, keypath, keypath count and display flag and the buffer's capacity, and the result is the translation of what it returns; success happens only when the deriver reported success |
| `CommanderBtc.BtcPubAddressMultisig` | src/commander/commander_btc.c:41-55 | the deriver is called once with the request's fields and the response buffer's capacity; the buffer holds what the deriver left in it; the error is the translation of its result |
| `CommanderBtc.CommanderBtcPub` | src/commander/commander_btc.c:57-79 | the returned error, the response buffer afterwards and the engine calls made are those of `PubSpec` |
| `CommanderBtc.ApiIsScriptConfigRegistered` | src/commander/commander_btc.c:81-95 | the registry query gets the registration's coin, script config, keypath and keypath count; `is_registered` holds what the query left there; the error is generic exactly when the query failed, and success otherwise |
| `CommanderBtc.ApiRegisterScriptConfig` | src/commander/commander_btc.c:97-107 | the registration engine is called once with the request's coin, script config, keypath, keypath count, name and xpub type; the error is the translation of its result, so never the disabled error |
| `CommanderBtc.BtcSpec` | src/commander/commander_btc.c:109-124 | the response discriminator becomes the one matching the request tag, and stays unchanged for an unknown tag; an unknown tag returns the generic error with no engine call; a query is an error exactly when the engine query failed, and a not-registered answer is not an error; a registration returns the translated engine result and leaves `is_registered` alone |
| `CommanderBtc.CommanderBtcDispatch` | src/commander/commander_btc.c:109-124 | the returned error, the response discriminator, `is_registered` afterwards and the engine calls made are those of `BtcSpec` |

Three behaviours of the code that the model states as written:

- The coin gate runs before any tag is inspected (src/commander/commander_btc.c:59-61).
  So a disabled coin gets the disabled error whatever the output tag; `PubSpec` states this.
- An unknown script-config request never writes the response discriminator (src/commander/commander_btc.c:120-121).
  `BtcSpec` states that it keeps whatever value it had.
- The adapter hands the output buffer to the deriver unconditionally (src/commander/commander_btc.c:51).
  What the buffer holds after a failure is up to the engine, and the model promises nothing about it.

## Left out

- The trailing `return COMMANDER_OK` of `commander_btc` (src/commander/commander_btc.c:123) is unreachable. A Dafny `match` over the three request shapes is exhaustive and every branch assigns the result, so the model has no statement after it.
- The values of `app_btc_result_t` beyond the five the translator names are not visible here: apps/btc/btc.h is not part of this model. `BtcErrOther(code)` stands for every other value.
- `commander_error_t` has more codes than this layer returns; the model lists only the seven this file uses.
- The coin enumeration, the simple script type and the xpub output type are kept as raw integers, because this layer only forwards or ignores them.
- The xpub type of a registration request uses the keystore's `xpub_type_t` shape as an opaque stand-in for the request's own enumeration.
- Engine internals are opaque oracles: address derivation, registration persistence and its equality semantics, and the user-confirmation UI. Each engine call is one total function of its arguments.
- A register-then-query round trip and duplicate-on-second-register are the engine's behaviour, which this layer only forwards; they are not stated.
- Blocking on user confirmation is not modelled: an engine call returns at once, and a user abort is an ordinary result code.
- The keystore functions declared in src/keystore.h have no bodies to model; only `xpub_type_t` is used.
- `keystore_error_t` is not used by this layer and is not modelled.
- Protobuf wire encoding of requests and responses is not modelled. Only the tags and fields read or written are kept.
- The bytes of the public-key buffer are an opaque string, and its capacity is a constant field of the response object.
- Memory layout is not modelled. This covers the nanopb union overlap (a payload field is only reachable under its own tag) and the fixed array sizes of `keypath` and `name`.
