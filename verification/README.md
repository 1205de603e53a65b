# layer-climb core, modelled in Dafny

layer-climb is a Rust client library for Cosmos SDK chains. It has three parts. The
address crate handles bech32 and EVM addresses. The config crate holds chain ids and
chain configs. The core crate holds the query client, the transaction builder and
signing client, event filtering and an IBC relayer. Beside them sit a Keplr wallet
bridge (Rust plus a small JavaScript binding), the signer's key-to-protobuf helpers and
a faucet's configuration loader.

This project restates the decision logic of those parts as pure Dafny functions over
immutable datatypes, and proves what each decision guarantees:

- **Addresses** (`keys.dfy`, `address_errors.dfy`, `cosmos_address.dfy`, `evm_address.dfy`, `address.dfy`, `bech32.dfy`, `hex.dfy`):
  - cosmos addresses, with the prefix rules and the 255-byte limit;
  - EVM addresses of exactly 20 bytes, written as `0x` plus 40 lower-case hex digits;
  - the `Address` enum with its conversions and parsing;
  - a bech32-shaped text codec and the hex codec, with their round trips.
- **Configs** (`chain_config.dfy`, `address_web_config.dfy`, `signer_web_config.dfy`, `faucet_config.dfy`):
  - the chain id and the IBC client revision taken from the `-N` suffix;
  - the web chain configs of the address and signer crates, with their round trips;
  - the faucet's environment overrides and its conversion to a runtime config.
- **Queries** (`abci.dfy`, `querier.dfy`, `middleware.dfy`, `retry.dfy`, `block_stream.dfy`):
  - ABCI query paths and keys;
  - the connection-mode codec and probe;
  - the middleware pipeline around every query;
  - the retry loop with doubling backoff;
  - waiting for heights;
  - the endless block-event stream.
- **Transactions** (`transaction.dfy`, `signing.dfy`, `prelude.dfy`, `signer.dfy`, `protobuf.dfy`):
  - the sequence-number strategies and their shared counter;
  - the builder and its setters;
  - fee calculation and timeout height;
  - signing, simulation and broadcast, with the counter moving only when a transaction landed;
  - the signing client's message builders and the `AnyClient` wrapper;
  - public keys as protobuf `Any` values.
- **Events and IBC** (`events.dfy`, `ibc_events.dfy`, `ibc_types.dfy`, `ibc_msg.dfy`):
  - event filtering, first and last matches;
  - IBC packet events parsed into packets;
  - the IBC identifier newtypes;
  - every handshake and packet message the relayer builds.
- **Relayer** (`relayer.dfy`, `relayer_builder.dfy`):
  - matching a packet to a client pair and normalising it to that pair's orientation;
  - auto-update scheduling with the stale duration of one third of the trusting period;
  - task dispatch;
  - path normalisation and de-duplication;
  - the cache plan and its records;
  - the `a|b` cache-key codec.
- **Keplr** (`js_values.dfy`, `keplr_bindings.dfy`, `keplr.dfy`):
  - the JavaScript session registry with its error sentinels;
  - the chain-info document suggested to the wallet;
  - the Rust error mapping.
- **Helpers** (`text.dfy`, `wrappers.dfy`):
  - splitting and joining;
  - decimal printing and parsing with range limits;
  - trimming, ASCII lower-casing, string order and UTF-8 encoding.

Everything the library obtains from outside becomes a parameter of the function that uses
it. That covers network answers, wallet answers, signatures, hashing, URL rewriting, float
arithmetic and JSON serialisation. A parameter is either the value the outside world
answered, or a function standing for the foreign call. Rust's `u64`, `u32`, `i64` and
`u128` bounds are explicit. The one wrap-around (the atomic `fetch_add` on the sequence
counter) is written out modulo 2^64. A Rust panic becomes `None` or `Err` (the two exceptions are
listed under "Left out"); that includes the
`u64` additions that overflow (the transaction's timeout height and the `wait_blocks`
target) and the `u64` subtraction below zero (the IBC proof query height). These follow a build
with overflow checks on (a debug build); a release build wraps those additions silently.

## Model

| member | source | states |
|---|---|---|
| CosmosAddress.NewBytes | packages/layer-climb-address/src/address/cosmos.rs:29-47 | Ok exactly when every prefix char is a lower-case letter or digit and the account id has at most 255 bytes; the result keeps the prefix and its text is the bech32 encoding of prefix and bytes; the prefix error and the too-long error with the actual length, word for word |
| CosmosAddress.NewBytesRoundTrip | packages/layer-climb-address/src/address/cosmos.rs:29-47 | an address made from bytes decodes back to exactly those bytes |
| CosmosAddress.NewPubKey | packages/layer-climb-address/src/address/cosmos.rs:50-60 | an Ed25519 key is rejected; a secp256k1 key gives the address of its account id |
| CosmosAddress.NewStr | packages/layer-climb-address/src/address/cosmos.rs:64-83 | the text is decoded with `decode_upper` when it starts with a capital, else `decode`; an undecodable text and a prefix mismatch are their two errors; otherwise the result is exactly `new_bytes` of the decoded bytes and prefix, so Ok exactly when that is; an accepted address is well-formed, carries the expected prefix, and (for a text not starting with a capital) decodes to the input's bytes |
| CosmosAddress.ToVec | packages/layer-climb-address/src/address/cosmos.rs:85-88 | bytes are returned exactly when the stored text decodes |
| CosmosAddress.Prefix | packages/layer-climb-address/src/address/cosmos.rs:90-92 | the prefix is the leading part of the text, of the stored length |
| CosmosAddress.NewStrDisplay | packages/layer-climb-address/src/address/cosmos.rs:103-116 | printing a valid address and parsing it back, with or without the expected prefix, gives the same address |
| CosmosAddress.ChangePrefixAsWrittenAlwaysFails | packages/layer-climb-address/src/address/cosmos.rs:94-100 | the code as written fails for every valid address whenever the new prefix differs from the old |
| CosmosAddress.ChangePrefixAsWrittenExample | packages/layer-climb-address/src/address/cosmos.rs:94-100 | the "osmo" address of bytes [1, 2] cannot be moved to "cosmos" |
| CosmosAddress.ChangePrefix | packages/layer-climb-address/src/address/cosmos.rs:94-100 | corrected: succeeds exactly when the new prefix is well-formed, and keeps the bytes under the new prefix |
| EvmAddress.NewVec | packages/layer-climb-address/src/address/evm.rs:19-29 | Ok exactly for 20 bytes, which it keeps; otherwise the invalid-format error naming the length it got |
| EvmAddress.NewPubKey | packages/layer-climb-address/src/address/evm.rs:31-33 | every public key is rejected as unsupported |
| EvmAddress.NewStr | packages/layer-climb-address/src/address/evm.rs:35-39 | Ok exactly when the trimmed text is hex for 20 bytes, and those are the bytes; a hex failure is "invalid hex: " and the decoder's message, a wrong length the `new_vec` error |
| EvmAddress.Display | packages/layer-climb-address/src/address/evm.rs:78-82 | the text is 42 characters starting with "0x" |
| EvmAddress.FromStrDisplay | packages/layer-climb-address/src/address/evm.rs:78-90 | parsing the printed address gives it back |
| Address.AsBytes | packages/layer-climb-address/src/address.rs:22-28 | an EVM address gives its 20 bytes; a cosmos address gives its decoded bytes |
| Address.TryFromStr | packages/layer-climb-address/src/address.rs:30-37 | the kind asked for is the kind returned; the result and the error are exactly those of the cosmos parser with the kind's prefix, or of the EVM parser, wrapped in the kind's variant |
| Address.TryFromPubKey | packages/layer-climb-address/src/address.rs:39-49 | EVM is unsupported; an Ed25519 key fails; a result is a cosmos address with the asked prefix |
| Address.ToEvm | packages/layer-climb-address/src/address.rs:67-76 | succeeds exactly on the EVM variant, giving its payload; otherwise the not-EVM error |
| Address.ToCosmos | packages/layer-climb-address/src/address.rs:78-87 | succeeds exactly on the cosmos variant, giving its payload; otherwise the not-cosmos error |
| Address.ConversionsRoundTrip | packages/layer-climb-address/src/address.rs:111-122 | wrapping then unwrapping returns the payload, and the other conversion fails |
| Address.ParseDisplay | packages/layer-climb-address/src/address.rs:153-157 | parsing an address's text with its own kind gives the address back |
| Bech32.EncodeData | packages/layer-climb-address/src/address/cosmos.rs:41 | the data part has two characters per byte, no separator and no upper case |
| Bech32.DecodeEncodeData | packages/layer-climb-address/src/address/cosmos.rs:41 | the data part decodes back to the bytes |
| Bech32.EncodeDecodeData | packages/layer-climb-address/src/address/cosmos.rs:65-69 | a data part that decodes is the encoding of what it decodes to |
| Bech32.RFind | packages/layer-climb-address/src/address/cosmos.rs:65-69 | the position found holds the character and none follows it; none found means the character is absent |
| Bech32.DecodeParts | packages/layer-climb-address/src/address/cosmos.rs:65-69 | a decoded text splits at its last separator into the lower-cased prefix and the data part |
| Bech32.DecodeEncode | packages/layer-climb-address/src/address/cosmos.rs:41-69 | decoding an encoding with a valid lower-case prefix gives the prefix and the bytes |
| Bech32.EncodeDecode | packages/layer-climb-address/src/address/cosmos.rs:41-69 | a lower-case text that decodes is the encoding of its parts |
| Hex.Encode | packages/layer-climb-address/src/address/evm.rs:78-82 | two characters per byte |
| Hex.EncodeDigits | packages/layer-climb-address/src/address/evm.rs:78-82 | every character is a hex digit and none is upper case |
| Hex.Decode | packages/layer-climb-address/src/address/evm.rs:35-39 | a decoded text is two characters per byte, plus two for an optional "0x" |
| Hex.DecodeUnprefixed | packages/layer-climb-address/src/address/evm.rs:35-39 | text without "0x" decodes as its digits |
| Hex.DecodePrefixed | packages/layer-climb-address/src/address/evm.rs:35-39 | a "0x" prefix is skipped |
| Hex.DecodeEncode | packages/layer-climb-core/src/events/ibc.rs:167-174 | hex text decodes back to its bytes, with or without "0x" |
| ChainConfig.NewChainId | packages/layer-climb-config/src/config.rs:71-73 | the id's text is the string given |
| ChainConfig.ChainIdFromStr | packages/layer-climb-config/src/config.rs:79-85 | parsing never fails and keeps the text |
| ChainConfig.ChainIdDisplay | packages/layer-climb-config/src/config.rs:87-91 | the printed id parses back to the same id |
| ChainConfig.HashAgreesWithEq | packages/layer-climb-config/src/config.rs:31-50 | two address kinds hash alike exactly when they are equal |
| ChainConfig.IbcClientRevision | packages/layer-climb-config/src/config.rs:53-64 | never fails and fits in u64; the u64 value of the text after the last '-' when that text is one, else 0 |
| ChainConfig.RevisionOfFormattedId | packages/layer-climb-config/src/config.rs:57-63 | an id of the form name-N has revision N |
| ChainConfig.RevisionWithoutSeparator | packages/layer-climb-config/src/config.rs:57-62 | an id with no '-' that is a u64 literal is its own revision |
| ChainConfig.RevisionDefaultsToZero | packages/layer-climb-config/src/config.rs:62-63 | when the last piece is not a number, the revision is 0 |
| AddressWebConfig.ToChainConfig | packages/layer-climb-address/src/web/shared.rs:15-26 | every field but the REST endpoint is copied |
| AddressWebConfig.ToWebChainConfig | packages/layer-climb-address/src/web/shared.rs:30-44 | defined exactly when the RPC URL takes the REST port; the REST endpoint is that URL; converting back gives the config |
| AddressWebConfig.WebRoundTrip | packages/layer-climb-address/src/web/shared.rs:15-44 | a web config survives the round trip, except that its REST endpoint is rebuilt from the RPC URL |
| SignerWebConfig.ToChainConfig | packages/layer-climb-signer/src/web/shared.rs:20-32 | every field but the REST endpoint is copied |
| SignerWebConfig.ToWebChainConfig | packages/layer-climb-signer/src/web/shared.rs:36-54 | a missing RPC endpoint gives no REST endpoint; otherwise defined exactly when the port can be set; converting back gives the config |
| SignerWebConfig.WebRoundTrip | packages/layer-climb-signer/src/web/shared.rs:20-54 | a web config survives the round trip, with the REST endpoint rebuilt from the RPC URL |
| FaucetConfig.ParseAddrKindName | faucet/src/config.rs:66-76 | accepts exactly "cosmos" and "eth"; otherwise the unknown-kind message naming the input |
| FaucetConfig.AddrKindNameRoundTrip | faucet/src/config.rs:66-76 | the kind names and the parser are inverse |
| FaucetConfig.ParseLogLevel | faucet/src/config.rs:227-240 | accepts exactly the five lower-case level names; otherwise the unknown-level message |
| FaucetConfig.LogLevelRoundTrip | faucet/src/config.rs:227-240 | the level names and the parser are inverse |
| FaucetConfig.ToLevel | faucet/src/config.rs:242-252 | the mapping to tracing levels is one-to-one |
| FaucetConfig.ApplyEnv | faucet/src/config.rs:87-168 | fails exactly on an unreadable gas price or address kind, with their messages; unparsable log level, port and concurrency keep the file value; strings replace; optional fields become Some; nothing else changes |
| FaucetConfig.ApplyEmptyEnv | faucet/src/config.rs:87-168 | an empty environment changes nothing |
| FaucetConfig.ApplyEnvIdempotent | faucet/src/config.rs:87-168 | applying the same environment twice is the same as once |
| FaucetConfig.AddressKindOf | faucet/src/config.rs:196-203 | eth ignores the prefix; cosmos needs one, else "Missing bech32 prefix" |
| FaucetConfig.EthIgnoresPrefix | faucet/src/config.rs:196-203 | for eth, the prefix has no effect on the conversion |
| FaucetConfig.ToConfig | faucet/src/config.rs:171-215 | Ok exactly when the mnemonic variable is set, the kind resolves and both amounts are u128; each failure's message, including the minimum-topup one; the credit denom defaults to the gas denom; the RPC and gRPC endpoints copied, no gRPC-web endpoint; the other fields copied |
| Abci.Path | packages/layer-climb-core/src/querier/abci.rs:69-81 | the IBC store path exactly for IBC keys, the staking path for staking params, the account path for accounts |
| Abci.DataBytes | packages/layer-climb-core/src/querier/abci.rs:82-125 | IBC keys are their UTF-8 path; staking params are [0x01]; an account is 0x01 then its address bytes, when it has bytes |
| Abci.KeySegments | packages/layer-climb-core/src/querier/abci.rs:85-117 | an IBC key splits at '/' into exactly its segments |
| Abci.ClientStateSegments | packages/layer-climb-core/src/querier/abci.rs:85-117 | the client-state key's segments |
| Abci.ConsensusSegments | packages/layer-climb-core/src/querier/abci.rs:85-117 | the consensus-state key's segments |
| Abci.ChannelSegments | packages/layer-climb-core/src/querier/abci.rs:85-117 | the channel-end key's segments |
| Abci.PacketSegments | packages/layer-climb-core/src/querier/abci.rs:85-117 | the packet keys' segments |
| Abci.PacketKeyTailSegments | packages/layer-climb-core/src/querier/abci.rs:85-117 | the shared port/channel/sequence tail's segments |
| Abci.HeightSegmentInjective | packages/layer-climb-core/src/querier/abci.rs:85-117 | different heights never print to the same segment |
| Abci.IbcKeyInjective | packages/layer-climb-core/src/querier/abci.rs:85-117 | two IBC keys with '/'-free identifiers are equal when their paths are |
| Abci.GrpcRequest | packages/layer-climb-core/src/querier/abci.rs:138-146 | Ok exactly when the height fits in i64 and the key has data; the request carries the path, the data, the height and asks for a proof |
| Querier.ConnectionModeToU8 | packages/layer-climb-core/src/querier.rs:265-269 | the byte is 0 or 1 |
| Querier.ConnectionModeFromU8 | packages/layer-climb-core/src/querier.rs:271-279 | defined exactly for 0 and 1 |
| Querier.ConnectionModeRoundTrip | packages/layer-climb-core/src/querier.rs:265-279 | the byte codec round-trips both ways |
| Querier.ConnectionModeDisplay | packages/layer-climb-core/src/querier.rs:281-288 | "grpc" exactly for gRPC, else "rpc" |
| Querier.NewQueryClient | packages/layer-climb-core/src/querier.rs:170-191 | fails exactly when the channel fails; no mappers, one retry of 3 attempts at 100 ms, page limit 10, one-second poll, gRPC unless given |
| Querier.SetConnectionMode | packages/layer-climb-core/src/querier.rs:105-132 | a given mode is stored without probing; otherwise gRPC is kept exactly when its probe passes, else RPC after probing both; only the mode changes |
| Querier.RunEach | packages/layer-climb-core/src/querier.rs:206-213 | Ok exactly when every run middleware succeeds, giving the last answer; otherwise the first error |
| Querier.RunWithMiddleware | packages/layer-climb-core/src/querier.rs:195-229 | request mappers first; the request is made directly exactly when they pass and there is no run middleware; the answer then goes through the response mappers |
| Querier.WaitUntilBlockHeight | packages/layer-climb-core/src/querier.rs:232-247 | returns at the first poll that fails or reaches the target; keeps waiting exactly while every poll is below it |
| Querier.WaitBlocks | packages/layer-climb-core/src/querier.rs:249-253 | waits for the current height plus n; a failed height read is the error, and a sum past `u64` is the overflow error |
| Querier.WaitReachedReturnsAtOnce | packages/layer-climb-core/src/querier.rs:238-243 | a target already reached returns after the first poll |
| Middleware.RunMappers | packages/layer-climb-core/src/querier.rs:199-204 | no mappers leave the value alone; an error comes from one of the mappers |
| Middleware.RunMappersAppend | packages/layer-climb-core/src/querier.rs:221-226 | running two lists is running the first, then the second on its output, stopping at an error |
| Middleware.RunMappersIdentity | packages/layer-climb-core/src/transaction.rs:295-302 | mappers that each leave the value alone leave it alone together |
| QueryRetry.Run | packages/layer-climb-core/src/querier/middleware/retry.rs:25-41 | at least one and at most the budget of attempts; the answer is the last attempt; every earlier one failed; a failure used the whole budget; the k-th delay is the backoff times 2^k |
| QueryRetry.RunMatchesAnswer | packages/layer-climb-core/src/querier/middleware/retry.rs:25-41 | the loop returns the first success within the budget, else the last failure |
| QueryRetry.RetryAnswerIsFirstStop | packages/layer-climb-core/src/querier/middleware/retry.rs:25-41 | the answer is the attempt at the first success or at the last allowed attempt |
| QueryRetry.AttemptBudget | packages/layer-climb-core/src/querier/middleware/retry.rs:10-17 | the budget is max_attempts, but at least one |
| BlockStream.Step | packages/layer-climb-core/src/querier/stream.rs:25-42 | a fetch emits the height's events and moves on by one; a failure emits its error and stays |
| BlockStream.Run | packages/layer-climb-core/src/querier/stream.rs:23-43 | one item per step, successful exactly when the fetch was |
| BlockStream.RunHeights | packages/layer-climb-core/src/querier/stream.rs:23-43 | each successful item is for the start height plus the number of successes before it |
| BlockStream.NextOkIsNextHeight | packages/layer-climb-core/src/querier/stream.rs:30-38 | consecutive successes are for consecutive heights |
| BlockStream.FirstOkIsStart | packages/layer-climb-core/src/querier/stream.rs:21-38 | the first success is for the start height |
| BlockStream.StreamBlockEvents | packages/layer-climb-core/src/querier/stream.rs:15-44 | fails exactly when the start height cannot be read; the first success is for that height |
| Events.ToCwEvent | packages/layer-climb-core/src/events.rs:92-96 | the type and every attribute's key and value carry over, in order |
| Events.FlattenLogs | packages/layer-climb-core/src/events.rs:189-209 | a single log gives its own events |
| Events.EventsIter | packages/layer-climb-core/src/events.rs:187-216 | a response with several logs uses the flattened logs, otherwise its events; a plain list is itself |
| Events.FilterEventsByType | packages/layer-climb-core/src/events.rs:218-223 | the events of the type (or its `wasm-` form), in iterator order, each occurrence once: the result picks exactly the matching positions, in increasing order |
| Events.FilterEventsByAttrKey | packages/layer-climb-core/src/events.rs:225-237 | the events of the type having the key, in iterator order, each occurrence once, by position |
| Events.FilterAttrs | packages/layer-climb-core/src/events.rs:239-251 | every attribute returned has the key; they are, by position and in order, the first key attribute of each event of the type that has one |
| Events.FilterAttrsMatchEvents | packages/layer-climb-core/src/events.rs:239-251 | one attribute per matching event, the first with the key in that event |
| Events.FilterMapAttrs | packages/layer-climb-core/src/events.rs:253-270 | the mapper's values, in iterator order and by position, for the events of the type whose first key attribute it accepts |
| Events.FindAttr | packages/layer-climb-core/src/events.rs:246 | the first attribute with the key, found exactly when one exists |
| Events.FilterMapAppend | packages/layer-climb-core/src/events.rs:244 | filtering distributes over concatenation |
| Events.FilterMapFirst | packages/layer-climb-core/src/events.rs:244 | the first output comes from the first hit |
| Events.FilterMapLast | packages/layer-climb-core/src/events.rs:244 | the last output comes from the last hit |
| Events.FilterMapMembership | packages/layer-climb-core/src/events.rs:244 | a value is output exactly when some element maps to it |
| Events.FilterMapPicks | packages/layer-climb-core/src/events.rs:244 | `filter_map` output is the mapped values at strictly increasing positions that cover every kept element |
| Events.FilterMapOfUnique | packages/layer-climb-core/src/events.rs:244 | that positional description has only one solution, the `filter_map` output, so order and multiplicity are fixed |
| Events.EventFirstByType | packages/layer-climb-core/src/events.rs:272-276 | Ok exactly when such an event exists, then the first; else "couldn't find event for" the type |
| Events.EventFirstByAttrKey | packages/layer-climb-core/src/events.rs:278-286 | the first event of the type with the key, or the not-found message naming both |
| Events.AttrFirst | packages/layer-climb-core/src/events.rs:288-292 | the key's attribute in the first matching event, or the not-found message |
| Events.MapAttrFirst | packages/layer-climb-core/src/events.rs:294-302 | the mapper's value at the first event it accepts, or the not-found message |
| Events.EventLastByType | packages/layer-climb-core/src/events.rs:304-308 | the last event of the type, or the not-found message |
| Events.EventLastByAttrKey | packages/layer-climb-core/src/events.rs:310-318 | the last event of the type with the key, or the not-found message |
| Events.AttrLast | packages/layer-climb-core/src/events.rs:320-324 | the key's attribute in the last matching event, or the not-found message |
| Events.MapAttrLast | packages/layer-climb-core/src/events.rs:326-334 | the mapper's value at the last event it accepts, or the not-found message |
| IbcEvents.Invert | packages/layer-climb-core/src/events/ibc.rs:56-60 | ports, channels and connections swap ends; nothing else changes |
| IbcEvents.InvertInvolution | packages/layer-climb-core/src/events/ibc.rs:56-60 | inverting twice gives the packet back |
| IbcEvents.KindFromEvent | packages/layer-climb-core/src/events/ibc.rs:78-96 | the kind found matches the event type and is the first in the checking order; no kind matches exactly when it fails |
| IbcEvents.KindOfEventType | packages/layer-climb-core/src/events/ibc.rs:81-91 | each kind's type, with or without "wasm-", gives that kind |
| IbcEvents.OtherKindType | packages/layer-climb-core/src/events/ibc.rs:81-91 | a kind's event type matches no other kind |
| IbcEvents.KindTypeUnprefixed | packages/layer-climb-core/src/events/ibc.rs:81-91 | no kind's type itself starts with "wasm-" |
| IbcEvents.ParseTimeoutHeight | packages/layer-climb-core/src/events/ibc.rs:146-161 | a bad revision is an invalid-integer error; a bare number misses the height; a parsed revision height fits in u64 and is not 0-0 |
| IbcEvents.TimeoutHeightFormatted | packages/layer-climb-core/src/events/ibc.rs:146-161 | "R-H" parses to revision R, height H, and "0-0" means no timeout |
| IbcEvents.Step | packages/layer-climb-core/src/events/ibc.rs:121-175 | an attribute step succeeds exactly on a valid attribute |
| IbcEvents.FoldOk | packages/layer-climb-core/src/events/ibc.rs:121-175 | the fold succeeds exactly when every attribute is valid; otherwise the error of the first bad one |
| IbcEvents.StepExpected | packages/layer-climb-core/src/events/ibc.rs:121-175 | a valid step records its attribute |
| IbcEvents.FoldLastWins | packages/layer-climb-core/src/events/ibc.rs:121-175 | a successful fold records, for each field, its last value |
| IbcEvents.LastValueIsLast | packages/layer-climb-core/src/events/ibc.rs:121-175 | the value kept is the last one with the key, and absent exactly when none has it |
| IbcEvents.Build | packages/layer-climb-core/src/events/ibc.rs:177-210 | Ok exactly when all eight required fields are set, connection id checked first; the packet uses the connection id on both ends |
| IbcEvents.FromEvent | packages/layer-climb-core/src/events/ibc.rs:98-211 | Ok exactly for a packet event whose attributes are valid and carry every required field; each field is its attribute's last value, parsed; data and ack are present exactly when given in hex |
| IbcTypes.ChannelVersionFromStr | packages/layer-climb-core/src/ibc_types.rs:25-31 | parsing never fails and keeps the text |
| IbcTypes.ChannelVersionDisplay | packages/layer-climb-core/src/ibc_types.rs:33-37 | the printed value parses back |
| IbcTypes.ClientIdFromStr | packages/layer-climb-core/src/ibc_types.rs:51-57 | parsing never fails and keeps the text |
| IbcTypes.ClientIdDisplay | packages/layer-climb-core/src/ibc_types.rs:59-63 | the printed value parses back |
| IbcTypes.ConnectionIdFromStr | packages/layer-climb-core/src/ibc_types.rs:77-83 | parsing never fails and keeps the text |
| IbcTypes.ConnectionIdDisplay | packages/layer-climb-core/src/ibc_types.rs:85-89 | the printed value parses back |
| IbcTypes.ChannelIdFromStr | packages/layer-climb-core/src/ibc_types.rs:103-109 | parsing never fails and keeps the text |
| IbcTypes.ChannelIdDisplay | packages/layer-climb-core/src/ibc_types.rs:111-115 | the printed value parses back |
| IbcTypes.PortIdFromStr | packages/layer-climb-core/src/ibc_types.rs:129-135 | parsing never fails and keeps the text |
| IbcTypes.PortIdDisplay | packages/layer-climb-core/src/ibc_types.rs:137-141 | the printed value parses back |
| IbcMsg.ConnectionOpenInit | packages/layer-climb-core/src/signing/ibc/msg.rs:105-123 | the client, a counterparty with empty connection id and the "ibc" prefix, the IBC version, no delay, the signer |
| IbcMsg.ConnectionOpenTry | packages/layer-climb-core/src/signing/ibc/msg.rs:125-183 | Ok exactly when the counterparty query succeeds and its connection is in INIT; the proofs and heights of that query; an empty host proof and previous id |
| IbcMsg.ConnectionOpenAck | packages/layer-climb-core/src/signing/ibc/msg.rs:185-237 | Ok exactly when the counterparty connection is in TRYOPEN; otherwise that state and height in the error; the proofs of the query |
| IbcMsg.ConnectionOpenConfirm | packages/layer-climb-core/src/signing/ibc/msg.rs:239-272 | Ok exactly when the query succeeds; the connection proof at the proof height |
| IbcMsg.TryAndAckExclusive | packages/layer-climb-core/src/signing/ibc/msg.rs:153-220 | no counterparty state lets both the try and the ack be built |
| IbcMsg.ChannelOpenInit | packages/layer-climb-core/src/signing/ibc/msg.rs:274-305 | an INIT channel on the connection, the ordering's code, a counterparty with empty channel id, the version, upgrade sequence 0 |
| IbcMsg.ChannelOpenTry | packages/layer-climb-core/src/signing/ibc/msg.rs:308-363 | Ok exactly when the counterparty query succeeds; a TRYOPEN channel naming the counterparty channel, with its proof and height |
| IbcMsg.ChannelInitTryAgree | packages/layer-climb-core/src/signing/ibc/msg.rs:274-363 | the try's channel is the init's with the state and counterparty channel filled in |
| IbcMsg.ChannelOpenAck | packages/layer-climb-core/src/signing/ibc/msg.rs:366-402 | Ok exactly when the query succeeds; the channels, counterparty version, proof and height |
| IbcMsg.ChannelOpenConfirm | packages/layer-climb-core/src/signing/ibc/msg.rs:404-437 | Ok exactly when the query succeeds; the channel proof at the proof height |
| IbcMsg.LatestHeight | packages/layer-climb-core/src/signing/ibc/msg.rs:144-147 | the client state's latest height; a failed query or a missing height is its error |
| IbcMsg.CounterpartyConnection | packages/layer-climb-core/src/signing/ibc/msg.rs:125-158 | the connection proofs at the latest height; any earlier failure is passed on |
| IbcMsg.CounterpartyChannel | packages/layer-climb-core/src/signing/ibc/msg.rs:308-340 | the channel proofs at the latest height; any earlier failure is passed on |
| IbcMsg.QueryHeight | packages/layer-climb-core/src/signing/ibc/msg.rs:452 | one below the proof height, failing at height 0 |
| IbcMsg.PacketStore | packages/layer-climb-core/src/signing/ibc/msg.rs:452-471 | the store query at one below the latest height |
| IbcMsg.RecvPacket | packages/layer-climb-core/src/signing/ibc/msg.rs:439-479 | Ok exactly when the commitment and its proof are non-empty, with a distinct error for each; the converted packet, the proof and the latest height |
| IbcMsg.AckPacket | packages/layer-climb-core/src/signing/ibc/msg.rs:481-532 | Ok exactly when the ack value, its proof and the packet's ack are non-empty, with a distinct error for each; the packet is sent with its ends swapped |
| IbcMsg.RecvAckOpposite | packages/layer-climb-core/src/signing/ibc/msg.rs:439-532 | the ack carries the receive's packet with its ends swapped, at the same proof height |
| IbcMsg.OrderFromCode | packages/layer-climb-core/src/signing/ibc/msg.rs:535-543 | defined exactly for codes 1 and 2 |
| IbcMsg.OrderCodeRoundTrip | packages/layer-climb-core/src/signing/ibc/msg.rs:535-543 | the ordering codes round-trip both ways |
| IbcMsg.MerklePrefixBytes | packages/layer-climb-core/src/signing/ibc/msg.rs:545-553 | the merkle prefix is the bytes of "ibc" |
| IbcMsg.ConvertTimeout | packages/layer-climb-core/src/signing/ibc/msg.rs:556-575 | no timeout exactly when the event had none; a revision-height timeout keeps its revision and height |
| IbcMsg.ConvertPacket | packages/layer-climb-core/src/signing/ibc/msg.rs:556-575 | sequence, timeout timestamp, ports and channels carry over; the timeout height is its wire conversion; missing data becomes empty |
| IbcMsg.TimeoutFromEventText | packages/layer-climb-core/src/signing/ibc/msg.rs:556-575 | an "R-H" timeout in an event becomes revision R, height H, and "0-0" becomes none |
| IbcMsg.ConvertInvert | packages/layer-climb-core/src/signing/ibc/msg.rs:520-524 | converting an inverted packet swaps the converted ends |
| Relayer.SideOf | packages/layer-climb-core/src/signing/ibc/relayer.rs:347-362 | side one exactly for the first chain; side two for the second when it is not the first |
| Relayer.FirstChannelFrom | packages/layer-climb-core/src/signing/ibc/relayer.rs:366-418 | the first channel matching in either orientation, or none when no channel matches |
| Relayer.MatchInfo | packages/layer-climb-core/src/signing/ibc/relayer.rs:342-419 | a match exactly when the info relays the packet; the side and the normalised packet |
| Relayer.GetClientPacketFrom | packages/layer-climb-core/src/signing/ibc/relayer.rs:342-419 | the first info relaying the packet, with its side and normalised packet, or none when none does |
| Relayer.GetClientPacket | packages/layer-climb-core/src/signing/ibc/relayer.rs:342-419 | the first info relaying the packet, with its side and normalised packet, or none when none does |
| Relayer.NormalizeSpec | packages/layer-climb-core/src/signing/ibc/relayer.rs:366-415 | the normalised packet has the side's connection, channel and port ends, with every other field kept |
| Relayer.NormalizedForSwapUnique | packages/layer-climb-core/src/signing/ibc/relayer.rs:366-415 | a packet and its reverse normalise to the same packet |
| Relayer.NormalizeOrientationFree | packages/layer-climb-core/src/signing/ibc/relayer.rs:366-415 | looking up a packet or its reverse finds the same info and packet |
| Relayer.DivThree | packages/layer-climb-core/src/signing/ibc/relayer.rs:517-528 | a third of the duration, rounded down to the nanosecond (the code divides by 3, although its doc comment says two thirds) |
| Relayer.StaleDuration | packages/layer-climb-core/src/signing/ibc/relayer.rs:517-528 | three times the result is at most the trusting period and within 3 ns of it |
| Relayer.SetNextUpdateTime | packages/layer-climb-core/src/signing/ibc/relayer.rs:530-555 | no block time gives "No block time found"; Ok exactly when the sums fit i64 and i32; the next time is block time plus stale, unnormalised; the updating flag is cleared |
| Relayer.IsPastIsLater | packages/layer-climb-core/src/signing/ibc/relayer.rs:557-572 | on normal timestamps, past exactly when strictly later |
| Relayer.IsPastUnnormalisedNext | packages/layer-climb-core/src/signing/ibc/relayer.rs:557-572 | with nanos up to two seconds, the test errs by less than one second |
| Relayer.AutoUpdatesFrom | packages/layer-climb-core/src/signing/ibc/relayer.rs:171-193 | fails exactly when a due check needs a block time that is missing; the tasks are exactly the due sides, and each is marked updating |
| Relayer.QueuedUpdateNotRequeued | packages/layer-climb-core/src/signing/ibc/relayer.rs:171-193 | a side just queued is not due again, at any time |
| Relayer.PacketOf | packages/layer-climb-core/src/signing/ibc/relayer.rs:195-212 | the packet of an event exactly when it parses |
| Relayer.RelayTasksFrom | packages/layer-climb-core/src/signing/ibc/relayer.rs:195-212 | one relay task per packet, in order, until a packet with no client info, which is the error |
| Relayer.ProduceEventTasks | packages/layer-climb-core/src/signing/ibc/relayer.rs:156-214 | succeeds exactly when the block time is there or not needed and every packet has a client info; a missing block time queues nothing and changes nothing; otherwise each due side is flagged and its update queued, in list order, then one relay task per packet event in order, up to the first packet without a client info, which is the error |
| Relayer.AutoUpdatesAreDueTasks | packages/layer-climb-core/src/signing/ibc/relayer.rs:171-193 | when the update loop does not fail, its tasks are exactly the due sides of the infos as given, in list order |
| Relayer.AutoUpdatesWithoutTime | packages/layer-climb-core/src/signing/ibc/relayer.rs:171-193 | without a block time the update loop queues nothing, changes no info, and its only error is the missing block time |
| Relayer.RelayQueuedInOrder | packages/layer-climb-core/src/signing/ibc/relayer.rs:195-212 | the packet loop after the update tasks queues one relay task per packet in order, stopping at the first packet without client info |
| Relayer.ProducedTasksOrdered | packages/layer-climb-core/src/signing/ibc/relayer.rs:156-214 | updates come only for due sides and all precede the relay tasks |
| Relayer.Dispatch | packages/layer-climb-core/src/signing/ibc/relayer.rs:217-330 | an auto-update updates its side; ack, timeout and receive do nothing; send and write-ack update both clients, own first, then submit to the other side |
| Relayer.RelaySendTargetsCounterparty | packages/layer-climb-core/src/signing/ibc/relayer.rs:235-302 | a sent packet is received on the other side, from the matched channel's own end |
| RelayerBuilder.NormalizePath | packages/layer-climb-core/src/signing/ibc/relayer/builder.rs:64-69 | chain 1 is never after chain 2; the path or its flip; version and ordering kept; unchanged exactly when already ordered |
| RelayerBuilder.NormalizeFlip | packages/layer-climb-core/src/signing/ibc/relayer/builder.rs:64-69 | a path and its flip normalise alike |
| RelayerBuilder.NormalizePaths | packages/layer-climb-core/src/signing/ibc/relayer/builder.rs:64-69 | each path normalised, in place |
| RelayerBuilder.NormalizedMembership | packages/layer-climb-core/src/signing/ibc/relayer/builder.rs:64-69 | the normalised list holds exactly the normalisations, all ordered |
| RelayerBuilder.FirstOccurrencesSpec | packages/layer-climb-core/src/signing/ibc/relayer/builder.rs:70-71 | no duplicates and the same members |
| RelayerBuilder.RetainFirst | packages/layer-climb-core/src/signing/ibc/relayer/builder.rs:70-71 | the seen-set loop keeps exactly the first occurrences, in order |
| RelayerBuilder.FirstOccurrencesStep | packages/layer-climb-core/src/signing/ibc/relayer/builder.rs:70-71 | one more element is kept exactly when not seen before |
| RelayerBuilder.ClientsByChain | packages/layer-climb-core/src/signing/ibc/relayer/builder.rs:76-79 | every client's chain is a key; each key maps to a client of that chain; the last client of a chain wins |
| RelayerBuilder.ClientsByChainStep | packages/layer-climb-core/src/signing/ibc/relayer/builder.rs:76-79 | inserting the next client keeps the map faithful to the clients so far |
| RelayerBuilder.New | packages/layer-climb-core/src/signing/ibc/relayer/builder.rs:54-86 | clients keyed by chain; paths ordered, without duplicates, holding exactly the normalised inputs in first-occurrence order; empty cache and infos |
| RelayerBuilder.DedupedPathsSpec | packages/layer-climb-core/src/signing/ibc/relayer/builder.rs:62-71 | the de-duplicated paths are ordered, distinct and exactly the normalised inputs |
| RelayerBuilder.Build | packages/layer-climb-core/src/signing/ibc/relayer/builder.rs:89-106 | fails exactly when there are no client infos; otherwise each info once, in map order |
| RelayerBuilder.PrepCacheStart | packages/layer-climb-core/src/signing/ibc/relayer/builder.rs:185-194 | a given cache replaces the current one; entries survive exactly when both chains have clients |
| RelayerBuilder.PlanPath | packages/layer-climb-core/src/signing/ibc/relayer/builder.rs:196-388 | fails exactly when a chain has no client, naming chain 1 first, else chain 2; creates clients unless a cached pair is still up to date; reuses a channel exactly when a cached one has the path's version |
| RelayerBuilder.RecordNewClients | packages/layer-climb-core/src/signing/ibc/relayer/builder.rs:274-295 | the chain pair now holds the new clients and one connection without channels; other pairs unchanged |
| RelayerBuilder.FindReusableChannel | packages/layer-climb-core/src/signing/ibc/relayer/builder.rs:304-337 | a cached channel of the path's ports with the path's version, on the first connection having one; none exactly when no connection has one |
| RelayerBuilder.RecordNewConnection | packages/layer-climb-core/src/signing/ibc/relayer/builder.rs:356-372 | the connection is added without channels; everything else is kept |
| RelayerBuilder.RecordChannel | packages/layer-climb-core/src/signing/ibc/relayer/builder.rs:421-442 | the channel is stored under the path's ports with the path's version, and becomes reusable |
| RelayerBuilder.RecordedChannelReused | packages/layer-climb-core/src/signing/ibc/relayer/builder.rs:304-442 | a channel just recorded is found for reuse |
| RelayerBuilder.NewClientInfo | packages/layer-climb-core/src/signing/ibc/relayer/builder.rs:488-523 | fails without both trusting periods, and with the `Duration::new` overflow when one does not fit; the two trusting periods converted as `Duration::new` does; the path's chains, the handshake's ids, default update state and the one channel |
| RelayerBuilder.TrustingPeriod | packages/layer-climb-core/src/signing/ibc/relayer/builder.rs:510-517 | defined exactly when it fits a Rust Duration; the value is seconds and nanos taken as u64 and u32 |
| RelayerBuilder.AddChannel | packages/layer-climb-core/src/signing/ibc/relayer/builder.rs:475-550 | an existing pair gains the channel at its end; a new pair is inserted when its info builds; other pairs unchanged |
| RelayerBuilder.GetSigningClient | packages/layer-climb-core/src/signing/ibc/relayer/builder.rs:557-562 | the chain's client exactly when there is one, else the message naming the chain |
| RelayerBuilder.GetClientCache | packages/layer-climb-core/src/signing/ibc/relayer/builder.rs:564-573 | the pair's cache exactly when there is one, else the message naming both chains |
| RelayerBuilder.EncodeKey | packages/layer-climb-core/src/signing/ibc/relayer/builder.rs:615-622 | the two parts and one separator |
| RelayerBuilder.DecodeKey | packages/layer-climb-core/src/signing/ibc/relayer/builder.rs:615-639 | Ok exactly when the text has one bar separator; the parts are free of it and re-encode to the text |
| RelayerBuilder.KeyRoundTrip | packages/layer-climb-core/src/signing/ibc/relayer/builder.rs:615-639 | bar-free parts survive encoding and decoding |
| RelayerBuilder.DeserializeChainKey | packages/layer-climb-core/src/signing/ibc/relayer/builder.rs:615-639 | Ok exactly with one bar separator, else the client-key format error; re-serialises to the text |
| RelayerBuilder.ChainKeyRoundTrip | packages/layer-climb-core/src/signing/ibc/relayer/builder.rs:615-639 | a chain key round-trips when its ids have no bar character |
| RelayerBuilder.DeserializeConnKey | packages/layer-climb-core/src/signing/ibc/relayer/builder.rs:641-670 | Ok exactly with one bar separator, else the connection-key format error; re-serialises to the text |
| RelayerBuilder.ConnKeyRoundTrip | packages/layer-climb-core/src/signing/ibc/relayer/builder.rs:641-670 | a connection key round-trips when its ids have no bar character |
| RelayerBuilder.DeserializeChannelKey | packages/layer-climb-core/src/signing/ibc/relayer/builder.rs:672-698 | Ok exactly with one bar separator, else the channel-key format error; re-serialises to the text |
| RelayerBuilder.ChannelKeyRoundTrip | packages/layer-climb-core/src/signing/ibc/relayer/builder.rs:672-698 | a channel key round-trips when its ports have no bar character |
| Transaction.NewSequenceStrategy | packages/layer-climb-core/src/transaction.rs:477-490 | the value starts at n for set-and-increment and constant, else 0; nothing queried yet |
| Transaction.AfterSuccess | packages/layer-climb-core/src/transaction.rs:394-409 | the counting kinds move up by one below 2^64 - 1 and wrap to 0 from it; the others do not move |
| Transaction.NewTxBuilder | packages/layer-climb-core/src/transaction.rs:73-92 | polling on and every optional setting unset |
| Transaction.SetTxTimeoutBlocks | packages/layer-climb-core/src/transaction.rs:94-97 | sets the timeout blocks and nothing else |
| Transaction.SetMemo | packages/layer-climb-core/src/transaction.rs:99-102 | sets the memo and nothing else |
| Transaction.SetSequenceStrategy | packages/layer-climb-core/src/transaction.rs:104-107 | sets the strategy and nothing else |
| Transaction.SetSender | packages/layer-climb-core/src/transaction.rs:109-112 | sets the sender and nothing else |
| Transaction.SetGasCoin | packages/layer-climb-core/src/transaction.rs:114-117 | sets the gas coin and nothing else |
| Transaction.SetGasUnitsOrSimulate | packages/layer-climb-core/src/transaction.rs:119-122 | sets the gas units choice and nothing else |
| Transaction.SetGasSimulateMultiplier | packages/layer-climb-core/src/transaction.rs:124-127 | sets the multiplier and nothing else |
| Transaction.SetAccountNumber | packages/layer-climb-core/src/transaction.rs:129-132 | sets the account number and nothing else |
| Transaction.SetBroadcastMode | packages/layer-climb-core/src/transaction.rs:134-140 | sets the mode and nothing else |
| Transaction.SetBroadcastPoll | packages/layer-climb-core/src/transaction.rs:142-145 | sets the poll flag and nothing else |
| Transaction.SetBroadcastPollSleepDuration | packages/layer-climb-core/src/transaction.rs:147-153 | sets the poll sleep and nothing else |
| Transaction.SetBroadcastPollTimeoutDuration | packages/layer-climb-core/src/transaction.rs:155-161 | sets the poll timeout and nothing else |
| Transaction.SetMiddlewareMapBody | packages/layer-climb-core/src/transaction.rs:163-169 | sets the body mappers and nothing else |
| Transaction.SetMiddlewareMapResp | packages/layer-climb-core/src/transaction.rs:171-177 | sets the response mappers and nothing else |
| Transaction.QueryBaseAccount | packages/layer-climb-core/src/transaction.rs:179-187 | fails without a sender; otherwise the sender's account query |
| Transaction.CurrentSequence | packages/layer-climb-core/src/transaction.rs:229-273 | queries for query and no strategy, and for query-and-increment until it has queried; otherwise the constant or the stored value; only a first query of query-and-increment changes the strategy; with debug logging enabled a failing signer address fails an otherwise successful call with that error, with it disabled the address is never consulted |
| Transaction.SequenceOf | packages/layer-climb-core/src/transaction.rs:229-264 | the account's sequence, or its error |
| Transaction.QueryAndIncrementQueriesOnce | packages/layer-climb-core/src/transaction.rs:236-254 | a second call after a first query does not query and returns the same sequence |
| Transaction.ConstantNeverMoves | packages/layer-climb-core/src/transaction.rs:394-409 | a constant strategy always hands out n and never changes |
| Transaction.CurrentSequenceKeepsCounter | packages/layer-climb-core/src/transaction.rs:255-257 | set-and-increment hands out its counter without changing it |
| Transaction.CalculateFee | packages/layer-climb-core/src/transaction.rs:518-541 | one coin, empty payer and granter; simulation costs "0" of the gas denom at limit 0; a real coin is used as given |
| Transaction.TimeoutHeight | packages/layer-climb-core/src/transaction.rs:439-446 | the block height plus the timeout blocks (10 by default), present exactly when the `u64` sum does not overflow |
| Transaction.SignTx | packages/layer-climb-core/src/transaction.rs:423-467 | Ok exactly when the height is read, the timeout height fits in u64 and, unless simulating, signing succeeds; an overflowing timeout is its own error; one signer info, exactly one signature, empty when simulating; the body's timeout set |
| Transaction.SimulateGas | packages/layer-climb-core/src/transaction.rs:204-227 | the gas used by simulating a transaction signed for simulation; no gas info is its own error |
| Transaction.PrepareBody | packages/layer-climb-core/src/transaction.rs:282-302 | the set account number or the queried one; the body after the body mappers |
| Transaction.GasUnits | packages/layer-climb-core/src/transaction.rs:304-325 | set units are used without touching the strategy; otherwise scaled simulation gas, with the strategy the sequence read left |
| Transaction.FeeFor | packages/layer-climb-core/src/transaction.rs:327-338 | the set gas coin, or one coin of the gas denom, at the given gas limit |
| Transaction.SignForBroadcast | packages/layer-climb-core/src/transaction.rs:340-350 | signed at the current sequence in direct mode, with one signature and the fee; the strategy the read left |
| Transaction.LandedIgnoresStrategy | packages/layer-climb-core/src/transaction.rs:358-392 | whether a transaction lands does not depend on the strategy |
| Transaction.Submit | packages/layer-climb-core/src/transaction.rs:351-418 | the strategy moves exactly when the transaction landed; a non-zero code is its error with the strategy unchanged; the response goes through the mappers |
| Transaction.BroadcastRaw | packages/layer-climb-core/src/transaction.rs:278-421 | a counting strategy ends one past the signed sequence, modulo 2^64, exactly when the transaction landed, else at it; success needs a landed transaction |
| Transaction.GasSignSubmit | packages/layer-climb-core/src/transaction.rs:278-421 | what is sent is the body with its timeout, signed once in direct mode; success needs a landed transaction |
| Transaction.GasSignSubmitCounter | packages/layer-climb-core/src/transaction.rs:278-421 | the counter moves one past the signed sequence exactly when the transaction landed |
| Transaction.SignAndSubmit | packages/layer-climb-core/src/transaction.rs:278-421 | the signed sequence is the one the strategy handed out |
| Transaction.SignAndSubmitCounter | packages/layer-climb-core/src/transaction.rs:278-421 | the counter moves one past the signed sequence exactly when the transaction landed |
| Transaction.BroadcastSignsCounter | packages/layer-climb-core/src/transaction.rs:278-421 | set-and-increment signs with its counter's value |
| Transaction.Broadcast | packages/layer-climb-core/src/transaction.rs:189-202 | the raw broadcast's answer when it is an ABCI response; an RPC response is an error |
| Signing.NewSigningClient | packages/layer-climb-core/src/signing.rs:46-62 | Ok exactly when the address, querier and account are obtained; no middleware and a fresh query strategy |
| Signing.TxBuilderOf | packages/layer-climb-core/src/signing.rs:86-103 | the client's chain, sender, account number and shared strategy; each middleware list only when non-empty |
| Signing.AfterBroadcast | packages/layer-climb-core/src/signing.rs:92 | the next builder starts from the counter the broadcast left, and nothing else changes |
| Signing.TransferBuilder | packages/layer-climb-core/src/signing.rs:114-115 | the caller's builder if given, else a fresh one |
| Signing.TransferMsg | packages/layer-climb-core/src/signing/msg.rs:4-22 | from the client to the recipient, one coin whose amount parses back and whose denom defaults to the gas denom |
| Signing.StoreCodeMsg | packages/layer-climb-core/src/signing/contract/msg.rs:7-16 | sent by the client with the code and no instantiate permission |
| Signing.InstantiateMsg | packages/layer-climb-core/src/signing/contract/msg.rs:18-34 | fails exactly when the message does not serialise; an empty admin by default; label and funds pass through |
| Signing.ExecuteMsg | packages/layer-climb-core/src/signing/contract/msg.rs:36-48 | the contract's address text; funds pass through |
| Signing.MigrateMsg | packages/layer-climb-core/src/signing/contract/msg.rs:50-62 | the code id passes through; sent by the client |
| Signing.AsSigning | packages/layer-climb-core/src/prelude.rs:64-69 | the signing client exactly for the signing variant |
| Signing.AsQuerier | packages/layer-climb-core/src/prelude.rs:72-77 | the query client, or the signing client's own |
| Signing.TryIntoSigning | packages/layer-climb-core/src/prelude.rs:92-101 | Ok exactly for the signing variant; else the fixed error text |
| Signing.AnyClientRoundTrip | packages/layer-climb-core/src/prelude.rs:80-110 | wrapping then unwrapping gives the client back; both views agree on the chain |
| Prelude.NewCoin | packages/layer-climb-core/src/prelude.rs:27-32 | the denom is kept; the amount is "0" exactly for 0 |
| Prelude.NewCoinAmountRoundTrip | packages/layer-climb-core/src/prelude.rs:27-32 | the amount text parses back to the u128 amount |
| Prelude.NewCoins | packages/layer-climb-core/src/prelude.rs:45-52 | one coin per pair, in order |
| Signer.PublicKeyToProto | packages/layer-climb-signer/src/signer.rs:43-70 | never fails; the type URL of the key's algorithm; the value decodes to the key bytes |
| Signer.PublicKeyProtoRoundTrip | packages/layer-climb-signer/src/signer.rs:43-70 | a key survives conversion to protobuf and back |
| Signer.MakeSignerInfo | packages/layer-climb-signer/src/signer.rs:72-88 | the key, single mode and sequence given |
| Signer.PublicKeyAsProto | packages/layer-climb-signer/src/signer.rs:29-31 | the key's protobuf form, which reads back as the key; a key failure passes on |
| Signer.DefaultSignerInfo | packages/layer-climb-signer/src/signer.rs:32-34 | Ok exactly when the key is read; it carries the key, the mode and the sequence |
| Signer.AddressKindOf | packages/layer-climb-signer/src/signer.rs:35-38 | cosmos exactly for cosmos, with its prefix |
| Signer.DefaultAddress | packages/layer-climb-signer/src/signer.rs:35-38 | the address of the signer's secp256k1 key; a key failure passes on; EVM fails |
| Protobuf.DecodeEncodeKeyMessage | packages/layer-climb-signer/src/signer.rs:44-52 | the key message decodes back to the key bytes |
| Protobuf.DecodeVarintPrefix | packages/layer-climb-signer/src/signer.rs:44-52 | a varint is read back from the front of any bytes |
| KeplrBindings.InitialInv | packages/layer-climb-address/src/web/bindings.js:1-2 | the empty registry satisfies the handle invariant |
| KeplrBindings.EnableFailure | packages/layer-climb-address/src/web/bindings.js:14-21 | "no chain info" in the lower-cased error gives the missing-chain sentinel, else the failed-enable one |
| KeplrBindings.RegisterSigner | packages/layer-climb-address/src/web/bindings.js:9-34 | Ok exactly with a wallet, enabled chain, signer and key; no wallet gives the no-exist sentinel; the handle is the next id; the registry gains exactly that session; a failure leaves it alone |
| KeplrBindings.NewHandleIsFresh | packages/layer-climb-address/src/web/bindings.js:27-31 | the next handle is not yet in use |
| KeplrBindings.RegisterKeepsSessions | packages/layer-climb-address/src/web/bindings.js:24-33 | registering keeps the invariant and every earlier session |
| KeplrBindings.FirstHandleIsOne | packages/layer-climb-address/src/web/bindings.js:1-29 | the first handle is "1" |
| KeplrBindings.Sign | packages/layer-climb-address/src/web/bindings.js:36-47 | an unknown handle gives the no-signer sentinel; otherwise the signature of the wallet's sign-direct |
| KeplrBindings.PublicKey | packages/layer-climb-address/src/web/bindings.js:49-56 | an unknown handle gives the no-signer sentinel; otherwise the stored key |
| KeplrBindings.KeplrChainInfo | packages/layer-climb-address/src/web/bindings.js:58-91 | Ok exactly for cosmos with a non-empty prefix; the six bech32 prefixes; name = id; one currency of the gas denom with 6 decimals |
| KeplrBindings.AddChain | packages/layer-climb-address/src/web/bindings.js:58-93 | a bad prefix or a missing wallet is its own error; otherwise the wallet's answer to the suggestion |
| Keplr.DisplayInjective | packages/layer-climb-signer/src/web/shared.rs:56-70 | different errors never print alike |
| Keplr.FromJsValue | packages/layer-climb-address/src/web/keplr.rs:165-182 | each sentinel exactly to its variant; never technical; anything else is unknown with its message or debug text |
| Keplr.NewSigner | packages/layer-climb-address/src/web/keplr.rs:26-44 | a string handle is the signer; a non-string is the technical error; a thrown value maps through the error mapping |
| Keplr.Connect | packages/layer-climb-address/src/web/keplr.rs:26-44 | Ok exactly with a wallet, enabled chain, signer and key; the registered session holds the key; errors are never technical and leave the registry alone |
| Keplr.AddChain | packages/layer-climb-address/src/web/keplr.rs:46-57 | a serialisation failure is technical; a missing prefix is unknown with the invalid-prefix text; otherwise the wallet's answer |
| Keplr.ToJsSignDoc | packages/layer-climb-address/src/web/keplr.rs:63-80 | body, auth info, chain id and account number carry over |
| Keplr.Sign | packages/layer-climb-address/src/web/keplr.rs:62-95 | an unknown handle fails; a result is the base64-decoded signature the wallet returned |
| Keplr.PublicKeyOf | packages/layer-climb-address/src/web/keplr.rs:97-112 | only a "secp256k1" key is accepted, and it becomes a secp256k1 public key |
| Text.SplitLength | packages/layer-climb-config/src/config.rs:60 | one more piece than separators |
| Text.JoinSplit | packages/layer-climb-core/src/signing/ibc/relayer/builder.rs:630 | joining the pieces gives the text back |
| Text.SplitJoin | packages/layer-climb-core/src/signing/ibc/relayer/builder.rs:630 | splitting separator-free pieces' join gives the pieces back |
| Text.LastPiece | packages/layer-climb-config/src/config.rs:60-61 | the last piece, free of the separator |
| Text.NatToString | packages/layer-climb-core/src/prelude.rs:30 | digits only, without leading zero |
| Text.ParseUnsigned | packages/layer-climb-config/src/config.rs:62 | a value exactly for an unsigned literal below the limit |
| Text.ParseNatToString | packages/layer-climb-config/src/config.rs:62 | a printed number below the limit parses back |
| Text.Trim | packages/layer-climb-address/src/address/evm.rs:36 | the text with leading and trailing white space removed, and no more |
| Text.ToLowerAscii | packages/layer-climb-address/src/web/bindings.js:16 | same length; exactly the ASCII capitals are lowered |
| Text.StrLtIrreflexive | packages/layer-climb-core/src/ibc_types.rs:13 | no id is before itself |
| Text.StrLtTotal | packages/layer-climb-core/src/ibc_types.rs:13 | any two ids are equal or ordered |
| Text.StrLtAsymmetric | packages/layer-climb-core/src/ibc_types.rs:13 | two ids are never each before the other |
| Text.StrLtTransitive | packages/layer-climb-core/src/ibc_types.rs:13 | the order is transitive |
| Text.Utf8Append | packages/layer-climb-core/src/querier/abci.rs:85-117 | encoding distributes over concatenation |
| Text.Utf8Ascii | packages/layer-climb-core/src/querier/abci.rs:85-117 | ASCII text encodes one byte per character |

## Left out

- Bech32: the codec is a stand-in with the same shape as bech32: a human-readable part, the last '1' as separator and a lower-case data part, decoded case-insensitively in the prefix. Each byte is two characters of a 16-letter alphabet. There is no checksum and no regrouping of 8-bit bytes into 5-bit groups. The properties used (round trips, last-separator split) are the ones the address code relies on.
- Bech32.EncodeData: the data characters differ from real bech32, because of the stand-in above.
- Floating point is left out, with float results taken as parameters:
  - the gas price times gas units in `FeeCalculation::RealNetwork`;
  - the simulated-gas multiplier with its ceiling (`scaleGas`);
  - the faucet's gas-price parse.
- Transaction.CalculateFee: for `RealNetwork` only the denom, the gas limit and that the amount text parses back are stated. The amount itself is a float product and comes in as a parameter.
- Transaction.GasUnits: the scaled gas is an opaque parameter applied to the simulated gas, because it is float arithmetic.
- Network I/O, `async`, time and polling are left out. Every gRPC/RPC answer, account query, broadcast, poll and block time is a parameter. Concurrency (the relayer's task channels and `select_all`, the `prep_cache` select loop, the `check_client_updates_while_prepping` loop) is left out. Atomics and mutex-guarded fields are plain state threaded through the functions.
- The retry middleware's sleeping is left out; the delays are returned instead. A backoff Duration overflow panic is not modelled, since the durations are unbounded naturals.
- Signing keys, ECDSA, account-id hashing, base64, secp256k1 point validity, sign-doc serialisation and `set_port_in_url` are left out. They are parameters (foreign code).
- Protobuf and JSON serialisation are left out beyond the one-field key message of a public key. Contract messages come in as the outcome of their serialisation.
- Reading TOML and dotenv files is left out; the faucet loader starts from the parsed file config and an environment map.
- The faucet `ChainConfig` shape (gas price, optional endpoints) is modelled as that file uses it. The web configs use the shapes of their own files.
- `usize` is taken as 64 bits for the faucet's concurrency bound.
- Logging and tracing calls are left out; they do not affect results, with one exception. The `tracing::debug!` line of `current_sequence` computes the signer's address with `?`, so its failure matters only when debug logging is enabled. `Transaction.CurrentSequence` models that with the `debugLogging` flag of its network.
- `refresh_signer` and the relayer's `start`, `produce_tasks` and `consume_tasks` loops are left out, except for their pure decisions, which are modelled per block and per task.
- The broadcast inside `transfer` is left out. It is the builder's broadcast, modelled in `Transaction`, used with the builder `Signing.TransferBuilder` picks.
- `Address` `Display` and `parse_address` are not separate members: they coincide with the variants' printing and `Address.TryFromStr`.
- Signing.NewSigningClient: `signing.rs:49` calls `new_with_cache` with two arguments, which differs from its declaration. The querier and its cache are taken as one parameter.
- Hex.Decode: its own contract states the length. The full meaning comes from `Hex.DecodeEncode`, `Hex.DecodePrefixed` and `Hex.DecodeUnprefixed`.
- BlockStream.Step: the next height is unbounded. The Rust `block_height + 1` overflows `u64` only once block 2^64 - 1 has been delivered, which no chain reaches, so that panic is not modelled.
- Signer.PublicKeyToProto: never fails. `tendermint::PublicKey` has only the Ed25519 and Secp256k1 variants `Keys.PublicKey` models, so the `InvalidPublicKeyType` arms of `signer.rs:53-55` and `61-63` are unreachable here.
- Hex.ErrorText: `const_hex` is not part of this model. Its error messages are taken as "odd number of digits" and "invalid character 'c' at position i", with the position counted after an optional "0x". `CharDebug` escapes quotes, backslashes, `\n`, `\r`, `\t` and `\0`, not other control or non-printable characters. `EvmAddress.NewStr` inherits this in its "invalid hex: …" text.
- EvmAddress.NewStr: for non-ASCII text its "invalid hex: …" error can differ from Rust's. `Hex.Decode` works on characters, while `const_hex::decode` works on the UTF-8 bytes of the trimmed text. For ASCII text they agree. For non-ASCII text the odd-length check and the reported position count characters, not bytes, and the reported character is the whole character rather than its first byte. So "é" gives "odd number of digits" here but an invalid-character error at position 0 in Rust. A trimmed text with a non-ASCII character is rejected by both.
- Keplr.DebugText: an approximation of wasm-bindgen's `{:?}` for non-`Error` values. Strings are quoted without escaping, and other values print through `JsToString`.
- Keplr.Sign: the base64 decoding of the wallet's signature is a parameter, so only its link to the wallet's answer is stated.

## Findings

| source | as written | input that shows it | evidently intended | confidence | as-written member | corrected member |
|---|---|---|---|---|---|---|
| packages/layer-climb-address/src/address/cosmos.rs:94-100 | `change_prefix` re-parses the current address text with the new prefix as the expected one. The text still carries the old prefix, so the prefix check rejects it whenever the prefixes differ | the address of bytes [1, 2] under "osmo", changed to "cosmos" | the same account bytes, re-encoded under the new prefix | not executed | CosmosAddress.ChangePrefixAsWrittenAlwaysFails, CosmosAddress.ChangePrefixAsWrittenExample | CosmosAddress.ChangePrefix |
