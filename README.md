# Kiln Connect request shaping, in Dafny

`kilnfi_connect_rs` is a typed Rust client for the Kiln staking REST API.
Before a client method hands anything to the HTTP agent, it runs the same
deterministic steps:

- it builds a `Kiln` handle through a typestate builder;
- it derives a per-chain client from the handle: the base URL gets the chain prefix, and the token is put under the Bearer scheme;
- it composes the URL of the endpoint with `join(",")` and a `format!` template;
- it picks the `accept` header, JSON or `application/octet-stream` for report downloads;
- it maps enum variants to and from their wire strings through the strum and serde tables.

This project models that layer and proves what it does.

Layout, one module per source file plus four shared ones:

- `Builder` (src/lib.rs): the builder and its three typestate parameters. Each parameter becomes a field. The impl block a method lives in becomes its `requires`.
- `Text`: comma joining and its inverse, decimal and boolean rendering and their parsers.
- `Query`: the `k=v&k=v` text the templates write, values inserted verbatim. Its partner is a server-side reader that splits on '&', skips empty pieces and splits each piece at its first '='. On text free of '+', '%' and '#' this is the application/x-www-form-urlencoded parser of section 5.1 of the WHATWG URL Standard. That parser reads '+' as a space and '%' as an escape, and a '#' ends the query of a URL. `Plain` text holds none of these characters and no '&'.
- `Http`:
  - the request (verb, URL, accept, `Authorization`);
  - the common `Client` shape every `KilnXClient` shares;
  - `Derive`, which every `From<&Kiln>` is an instance of;
  - `Fetch`/`Send`, and `EndpointOf`, which reads a request back relative to a base URL.
- `Types` (src/sdk/types.rs): the shared wire tables.
- `Shared`: the request types of types.rs, and the URLs that several chains build from them with one and the same template.
- One module per chain client: `Ethereum`, `Solana`, `Polkadot`, `Kusama`, `Polygon`, `Tezos`, `Dydx`, `Cardano`, `Near`, `Cosmos`, `Injective`, `Eigenlayer`, `EthereumOnchain`, `Multiversx`, `Account`, `Noble`, `Defi`, `Organisation`, `Deployments`.
- `Services` (the accessors of src/lib.rs): the prefix table of all clients, with the lemmas that relate clients derived from one handle.

How an endpoint is specified:

- A query endpoint is a function returning a `Request`. Its contract says:
  - the accept kind and the `Authorization` header;
  - `Queries(r, c, path, ps)`: the request is the GET of `path + "?" + Encode(ps)` below the client's base URL (`QueriesAfterAmpersand` for the templates that open with "?&"). So the exact text of each `format!` template is stated, an empty list included, which is sent as the bare "key=";
  - through `Targets(r, base + path, ps)`: a server reading the URL gets exactly the path and the parameters `ps`, keys in template order, whenever the path holds no '?' or '#' and every key and value is `Plain` (`Clean`).
- The fixed-path calls of a client (transactions, prepare, broadcast, network stats and so on) form a `Route` datatype. `RouteEndpoint` gives each route its verb and path. `RouteOf` is the server's routing table. The contract of `RouteEndpoint` is the round trip, so the paths of a client are pairwise distinct. `Call` builds the request, and its contract says the server routes it back to the same call.

Facts of the code the model follows:

- `build` is defined for a sealed and an unsealed builder alike (src/lib.rs:160). Sealing is never required.
- `seal` is available whatever fields are set (src/lib.rs:187).
- `Kiln::organisations` calls `KilnOrganisationClient::from` (src/lib.rs:119). src/sdk/organisation.rs defines only `new`, so the model uses `new` and its "/organisations" prefix.
- strum's `AsRefStr` ignores serde's `rename_all`, so `ResponseFormat`, `Scope` and `PolkadotResponseFormat` print their variant names ("Daily", "Kiln", "Era").

## Model

| member | source | states |
|---|---|---|
| Builder.New | src/lib.rs:46-48 | `Kiln::builder()`/`KilnBuilder::new()` starts with no URL, no token and not sealed |
| Builder.ApiToken | src/lib.rs:169-176 | only on an unsealed builder; the token slot becomes the given token, the URL slot is kept, the builder stays unsealed |
| Builder.BaseUrlOf | src/lib.rs:178-184 | only on an unsealed builder; the URL slot becomes the given URL, the token slot is kept, the builder stays unsealed |
| Builder.Seal | src/lib.rs:187-195 | only on an unsealed builder, so it cannot be applied twice; it seals and keeps both slots |
| Builder.Build | src/lib.rs:160-166 | needs a URL and a token, in either seal state; it never fails, and the handle holds both verbatim |
| Builder.RunAccepts | src/lib.rs:169-195 | from an unsealed builder, a chain of calls type-checks exactly when nothing follows `seal` |
| Builder.RunToken | src/lib.rs:169-185 | in an accepted chain the last `api_token` wins; without one the token slot is untouched, and `base_url` and `seal` never change it |
| Builder.RunUrl | src/lib.rs:169-185 | in an accepted chain the last `base_url` wins; without one the URL slot is untouched |
| Builder.BuildAfterRun | src/lib.rs:154-166 | from `new()`, `build` is available exactly when both setters were called, and the handle holds the last token and URL given |
| Builder.SealIsOptional | src/lib.rs:160-166 | `build` works without `seal`, `seal` works on an empty builder, and sealing does not change what `build` returns |
| Text.Join | src/sdk/ethereum.rs:554-578 | `join(",")`: a character other than the separator is in the result iff it is in some item; a single item is returned as is |
| Text.Split | src/sdk/ethereum.rs:554-578 | the server's reading of a comma list: at least one piece, and no piece holds the separator |
| Text.SplitJoin | src/sdk/ethereum.rs:554-578 | a non-empty list whose items hold no separator is split back into exactly its items |
| Text.JoinSplit | src/sdk/ethereum.rs:554-578 | joining the pieces of any text gives the text back |
| Text.JoinNotInjective | src/sdk/defi.rs:28-35 | the empty list and the list holding one empty string join to the same empty text, which splits as `[""]` |
| Text.NatToString | src/sdk/ethereum.rs:556-560 | `u64::to_string`: non-empty decimal digits without a leading zero |
| Text.ParseNat | src/sdk/cardano.rs:230-235 | the server's reading of a decimal: it succeeds iff the text is a canonical numeral |
| Text.ParseNatToString | src/sdk/ethereum.rs:556-560 | every number is read back from its decimal rendering |
| Text.NatToStringInjective | src/sdk/ethereum.rs:556-560 | two numbers render alike iff they are equal |
| Text.BoolToString | src/sdk/ethereum.rs:580-593 | a `bool` renders as a lower-case word of at least four letters |
| Text.ParseBool | src/sdk/ethereum.rs:580-593 | only the renderings of a `bool` parse, each to the value it renders |
| Text.ParseBoolToString | src/sdk/ethereum.rs:580-593 | both values are read back from their renderings |
| Query.Pair | src/sdk/ethereum.rs:580-593 | `key=value` holds '=' and otherwise exactly the characters of the key and the value |
| Query.DecodePair | src/sdk/ethereum.rs:580-593 | a piece splits at its first '=': the key holds no '=', and the pair prints back to the piece |
| Query.DecodeEncode | src/sdk/ethereum.rs:580-593 | a server decoding the query text the template writes gets every pair back, in order, when keys and values are plain and no key holds '=' |
| Query.DecodeLeadingAmpersand | src/sdk/ethereum_onchain.rs:276 | an empty piece before the first pair is skipped |
| Query.AmpersandSplitsValue | src/sdk/solana.rs:839 | without percent-encoding, an '&' inside a value makes the server read two parameters |
| Query.WithQuery | src/sdk/ethereum.rs:580-593 | `path?query`: when the path holds no '?', the path and query parts read back exactly |
| Query.ParamsWithQuery | src/sdk/ethereum.rs:580-593 | a server reading such a URL gets the path and every pair back |
| Query.ParamsAfterAmpersand | src/sdk/ethereum_onchain.rs:276 | the same for a query opened with "?&" |
| Http.AcceptHeader | src/sdk/ethereum.rs:948-952 | the two `accept` values, JSON with charset and octet-stream |
| Http.ApiTokenOf | src/sdk/ethereum.rs:524-526 | a header yields a token iff it starts with "Bearer ", and the header is the scheme followed by the token |
| Http.Derive | src/sdk/ethereum.rs:522-532 | `From<&Kiln>`: the base URL is the handle URL followed by the prefix, with no normalisation, and the header carries the handle's token |
| Http.EndpointOf | src/sdk/ethereum.rs:660-664 | a request is below a base iff the base is a prefix of its URL; if so, the verb is kept and the URL is the base followed by the path |
| Http.Send | src/sdk/ethereum.rs:660-664 | a fixed-path call: verb, accept and header as given; it is read back as that verb and path, and the URL is the bare base iff the path is empty |
| Http.SendUnder | src/sdk/polkadot.rs:562-566 | a request below a directory of the base is read relative to that directory as well |
| Http.Fetch | src/sdk/ethereum.rs:580-593 | a GET read relative to the base as path + "?" + query, whose URL a server reads as base + path and exactly the given parameters |
| Http.FetchAfterAmpersand | src/sdk/ethereum_onchain.rs:276 | as `Fetch`, for URLs opened with "?&": the same parameters, and the relative path carries the "?&" |
| Http.NumeralsRoundTrip | src/sdk/ethereum.rs:556-560 | a comma list of integers splits back into numerals reading back as the same integers, in order |
| Http.UuidsRoundTrip | src/sdk/ethereum.rs:565-569 | a non-empty comma list of ids splits back into the same ids |
| Http.SplitId | src/sdk/account.rs:50-52 | a path read as "/<id>" and a rest prints back to that path |
| Http.SplitUnderId | src/sdk/account.rs:50-52 | the path "/<id><leaf>" is read back as the same id and leaf |
| Types.Discriminant | src/sdk/types.rs:44-54 | each `ChainID` discriminant reads back to its own variant |
| Types.DiscriminantInjective | src/sdk/types.rs:44-54 | two chain ids share a discriminant iff they are the same variant |
| Types.ParseChain | src/sdk/types.rs:56-72 | only the seven chain names parse, each to the variant that prints it |
| Types.ChainNameInjective | src/sdk/types.rs:56-72 | `ChainName`, the strum spelling table, gives distinct chains distinct names |
| Types.ParseStakeStatus | src/sdk/types.rs:558-566 | only "active", "pending" and "disabled" parse, each to its own variant |
| Types.StakeStatusNameInjective | src/sdk/types.rs:558-566 | `StakeStatusName` gives distinct statuses distinct names |
| Types.ParseStakePermissionKind | src/sdk/types.rs:519-530 | one spelling per permission kind, each to its own variant |
| Types.PermissionNameInjective | src/sdk/types.rs:519-530 | `PermissionName` gives distinct kinds distinct names |
| Types.PermissionDefaultAndCasing | src/sdk/types.rs:519-530 | the default kind is Delegate, its spelling parses back, and the lower-case "staking.MsgDelegate" is refused |
| Types.ParseStakingOperation | src/sdk/types.rs:581-674 | a string parses only when it is one of the variant's strum spellings |
| Types.SpellingsParse | src/sdk/types.rs:581-674 | every strum spelling of a variant parses to that variant |
| Types.BothCasingsParse | src/sdk/types.rs:583-636 | the capitalised and the lower-case Cosmos message names give the same variant, for all four message kinds |
| Types.OperationOfType | src/sdk/types.rs:676-694 | the canonical type strings of `deserialize_operation_type` read back to their variants, one per variant |
| Types.OperationTypeInjective | src/sdk/types.rs:676-694 | `OperationType`, the canonical `type` string of `deserialize_operation_type`, differs between variants |
| Types.CanonicalTypeRoundTrip | src/sdk/types.rs:682-691 | the canonical strings of Delegate, Undelegate and BeginRedelegate parse back, and those of WithdrawDelegatorReward, Grant and Exec do not |
| Types.OperationsResponseOfType | src/sdk/types.rs:300-315 | the `deserialize_type` table of `OperationsResponse` reads back to its variants, one per variant |
| Types.FormatText | src/sdk/types.rs:400-407 | `ResponseFormat::as_ref` prints the variant name, which reads back to the variant |
| Shared.RewardsCommon | src/sdk/polygon.rs:441-453 | the seven parameters both rewards shapes send, in template order |
| Shared.Rewards | src/sdk/polygon.rs:413-505 | Daily ends with include_usd, Epoch with start_epoch and end_epoch, after the common seven |
| Shared.RewardsQueryIsClean | src/sdk/polygon.rs:441-453 | every rendered rewards key and value is plain when the caller's lists and dates are |
| Shared.ValidatorStakes | src/sdk/cosmos.rs:97-100 | validators, delegators, accounts, as the Cosmos, dYdX and Injective clients send them |
| Shared.ValidatorOperations | src/sdk/cosmos.rs:244-247 | validators, authz, delegators, accounts, start_date, end_date: authz is second |
| Shared.ValidatorReports | src/sdk/injective.rs:274-298 | validators, delegators, accounts, whatever the destructuring order; a binary download |
| Shared.TxStatus | src/sdk/solana.rs:839 | the status URL carries the hash verbatim as its one parameter |
| Shared.TxDecode | src/sdk/solana.rs:855-858 | the decode URL carries the serialized transaction verbatim as its one parameter |
| Shared.StatusHashWithAmpersand | src/sdk/solana.rs:839 | a hash holding "&k=x" reaches the server as two parameters |
| Ethereum.From | src/sdk/ethereum.rs:522-532 | base URL + "/eth", and the handle's token under the Bearer scheme |
| Ethereum.ScopeText | src/sdk/ethereum.rs:17-20 | `Scope::as_ref` prints the variant name, which reads back to the variant |
| Ethereum.ParseFilterState | src/sdk/ethereum.rs:37-63 | exactly the twelve filter names parse, each to the variant that prints it |
| Ethereum.FilterStateNameInjective | src/sdk/ethereum.rs:37-63 | `FilterStateName` gives distinct filter states distinct names |
| Ethereum.FilterStateNames | src/sdk/ethereum.rs:570-574 | the names of the filters, in order; each reads back to its filter |
| Ethereum.FilterStatesRoundTrip | src/sdk/ethereum.rs:570-574 | a non-empty list of filters comes back whole from its comma-joined rendering |
| Ethereum.Stakes | src/sdk/ethereum.rs:535-644 | Network: ten keys ending with filtered_states and no scope. Scoped: scope right after validators, and no filtered_states |
| Ethereum.Rewards | src/sdk/ethereum.rs:674-709 | the rewards query, with the indexes under "validators_indexes" |
| Ethereum.Operations | src/sdk/ethereum.rs:732-765 | the operations query, with the indexes under "validators_indexes" |
| Ethereum.Reports | src/sdk/ethereum.rs:927-955 | validators, wallets, accounts, with the octet-stream accept |
| Ethereum.ExitMessages | src/sdk/ethereum.rs:965-972 | the comma-joined validators as the one parameter |
| Ethereum.RouteEndpoint | src/sdk/ethereum.rs:660-896 | post_stakes, network/kiln stats, keys, stake, prepare, broadcast and exit-request have pairwise distinct endpoints |
| Ethereum.Call | src/sdk/ethereum.rs:660-896 | a fixed call carries JSON accept and the token and is routed back to itself |
| Ethereum.PostStakesTargetsBase | src/sdk/ethereum.rs:660-664 | `post_stakes` posts to the bare base URL, and no other fixed call does |
| Solana.From | src/sdk/solana.rs:470-480 | base URL + "/sol", and the handle's token under the Bearer scheme |
| Solana.Stakes | src/sdk/solana.rs:483-513 | validators, stake_accounts, accounts, wallets |
| Solana.Rewards | src/sdk/solana.rs:541-599 | Daily: eight keys ending in include_usd. Epoch: nine keys with stakes_addresses and the epoch bounds, and no include_usd |
| Solana.Operations | src/sdk/solana.rs:641-644 | stake_accounts, wallets, accounts, start_date, end_date |
| Solana.Reports | src/sdk/solana.rs:695-703 | stake_accounts, accounts, wallets, with the octet-stream accept |
| Solana.RouteEndpoint | src/sdk/solana.rs:529-826 | the fixed calls have distinct endpoints; stake and deactivate-stake sit under "/transaction/", withdraw-, merge- and split-stake directly under the base |
| Solana.Call | src/sdk/solana.rs:529-826 | a fixed call carries JSON accept and the token and is routed back to itself |
| Polkadot.From | src/sdk/polkadot.rs:385-395 | base URL + "/dot", and the handle's token under the Bearer scheme |
| Polkadot.FormatText | src/sdk/polkadot.rs:63-70 | `PolkadotResponseFormat::as_ref` prints the variant name, which reads back to it |
| Polkadot.Stakes | src/sdk/polkadot.rs:407-418 | addresses, accounts |
| Polkadot.Rewards | src/sdk/polkadot.rs:453-462 | addresses, accounts, pool_ids, format, start_date, end_date: pool_ids after accounts, unlike the struct |
| Polkadot.Operations | src/sdk/polkadot.rs:493-496 | addresses, accounts, start_date, end_date |
| Polkadot.Reports | src/sdk/polkadot.rs:525-533 | addresses, accounts, with the octet-stream accept |
| Polkadot.Slug | src/sdk/polkadot.rs:562-770 | each of the fourteen transactions has a slug that names it back, so the slugs are pairwise distinct |
| Polkadot.TxOfSlugExactly | src/sdk/polkadot.rs:562-770 | a text reads back as a transaction exactly when it is that transaction's slug |
| Polkadot.Transaction | src/sdk/polkadot.rs:562-770 | a POST of base + "/transaction/" + slug, whose slug names the transaction back |
| Polkadot.RouteEndpoint | src/sdk/polkadot.rs:546-837 | network stats, prepare and broadcast have distinct endpoints |
| Polkadot.Call | src/sdk/polkadot.rs:546-837 | a fixed call carries JSON accept and the token and is routed back to itself |
| Kusama.From | src/sdk/kusama.rs:385-395 | base URL + "/ksm", and the handle's token under the Bearer scheme |
| Kusama.SameSuffixesAsPolkadot | src/sdk/kusama.rs:397-848 | for every method, what the Kusama client appends to its base URL is what the Polkadot client appends to its own |
| Polygon.From | src/sdk/polygon.rs:348-359 | base URL + "/pol", and the handle's token under the Bearer scheme |
| Polygon.ParseTxStatus | src/sdk/polygon.rs:304-313 | only "success", "error" and "pending_confirmation" parse, each to its own variant |
| Polygon.TxStatusNameInjective | src/sdk/polygon.rs:304-313 | `TxStatusName` gives distinct statuses distinct names |
| Polygon.Stakes | src/sdk/polygon.rs:382-385 | validators, wallets, accounts |
| Polygon.Operations | src/sdk/polygon.rs:528-531 | wallets, validator_indexes, accounts, start_date, end_date |
| Polygon.Reports | src/sdk/polygon.rs:578-586 | validator_indexes, wallets, accounts, with the octet-stream accept |
| Polygon.RouteEndpoint | src/sdk/polygon.rs:401-712 | the fixed calls have distinct endpoints, the unstake one being "/transaction/unstake-claim_tokens" |
| Polygon.Call | src/sdk/polygon.rs:401-712 | a fixed call carries JSON accept and the token and is routed back to itself |
| Polygon.UnstakeSlugIsLiteral | src/sdk/polygon.rs:648 | the all-hyphen spelling of the unstake slug is no route of this client |
| Tezos.From | src/sdk/tezos.rs:404-414 | base URL + "/xtz", and the handle's token under the Bearer scheme |
| Tezos.Stakes | src/sdk/tezos.rs:437-440 | validators, wallets, accounts |
| Tezos.Operations | src/sdk/tezos.rs:567-570 | validators, wallets, accounts, start_date, end_date |
| Tezos.Reports | src/sdk/tezos.rs:611-619 | wallets and accounts only, with the octet-stream accept |
| Tezos.TxStatus | src/sdk/tezos.rs:747-750 | tx_hash, then block in decimal |
| Tezos.StatusBlockReadsBack | src/sdk/tezos.rs:747-750 | a server reads two parameters, the hash verbatim and the block number back, when the hash is plain |
| Tezos.TxDecode | src/sdk/tezos.rs:762-770 | the serialized transaction as the one parameter |
| Tezos.ParseOperationStatus | src/sdk/tezos.rs:362-369 | exactly the four status names parse, each to its own variant |
| Tezos.OperationStatusNameInjective | src/sdk/tezos.rs:362-369 | `OperationStatusName` gives distinct statuses distinct names |
| Tezos.RouteEndpoint | src/sdk/tezos.rs:585-729 | network stats, the five transaction slugs, prepare and broadcast have distinct endpoints |
| Tezos.Call | src/sdk/tezos.rs:585-729 | a fixed call carries JSON accept and the token and is routed back to itself |
| Dydx.From | src/sdk/dydx.rs:310-320 | base URL + "/dydx", and the handle's token under the Bearer scheme |
| Dydx.RouteEndpoint | src/sdk/dydx.rs:362-669 | the fixed calls have distinct endpoints, with balance at "/balance", outside "/transaction" |
| Dydx.Call | src/sdk/dydx.rs:362-669 | a fixed call carries JSON accept and the token and is routed back to itself |
| Cardano.From | src/sdk/cardano.rs:196-206 | base URL + "/ada", and the handle's token under the Bearer scheme |
| Cardano.PageOrFirst | src/sdk/cardano.rs:230-232 | `unwrap_or(1)`: a given page number is kept, and an absent one becomes 1 |
| Cardano.StakesQuery | src/sdk/cardano.rs:234-237 | wallets, vaults, pool_ids, accounts, then page_size and current_page in decimal, each the number given or 1 |
| Cardano.Stakes | src/sdk/cardano.rs:209-237 | the stakes request is the GET of "/stakes?" followed by that query's text, below the client's base, with JSON accept and the token |
| Cardano.EmptyFiltersAreSent | src/sdk/cardano.rs:230-237 | an empty filter list is still sent as the bare "key=", and absent paging as 1: the text for wallets w1 and w2, no vaults, pool p1, no accounts and no paging |
| Cardano.StakesPagingReadsBack | src/sdk/cardano.rs:230-237 | a server reads six parameters, page_size and current_page each as the number given, or 1 when absent |
| Cardano.ReportsQuery | src/sdk/cardano.rs:260-273 | stake_addresses, wallets, accounts (plain strings), format |
| Cardano.NetworkStats | src/sdk/cardano.rs:249-273 | "/network-stats" with the reports query and JSON accept |
| Cardano.Reports | src/sdk/cardano.rs:325-353 | "/reports" with the same query and the octet-stream accept |
| Cardano.Operations | src/sdk/cardano.rs:310-312 | stake_addresses, wallets, pool_ids, accounts, start_date, end_date |
| Cardano.RouteEndpoint | src/sdk/cardano.rs:479-559 | the fixed calls have distinct endpoints |
| Cardano.Call | src/sdk/cardano.rs:479-559 | a fixed call carries JSON accept and the token and is routed back to itself |
| Near.From | src/sdk/near.rs:208-218 | base URL + "/near", and the handle's token under the Bearer scheme |
| Near.Stakes | src/sdk/near.rs:248-251 | validators, stake_accounts, accounts, wallets |
| Near.Operations | src/sdk/near.rs:398-401 | stake_accounts, accounts, wallets, start_date, end_date |
| Near.Reports | src/sdk/near.rs:438-450 | stake_accounts, accounts, wallets, format, with the octet-stream accept |
| Near.RouteEndpoint | src/sdk/near.rs:267-540 | the fixed calls have distinct endpoints under "/transaction/" |
| Near.Call | src/sdk/near.rs:267-540 | a fixed call carries JSON accept and the token and is routed back to itself |
| Cosmos.From | src/sdk/cosmos.rs:64-74 | base URL + "/atom", and the handle's token under the Bearer scheme |
| Cosmos.RouteEndpoint | src/sdk/cosmos.rs:116-407 | the fixed calls have distinct endpoints |
| Cosmos.Call | src/sdk/cosmos.rs:116-407 | a fixed call carries JSON accept and the token and is routed back to itself |
| Injective.From | src/sdk/injective.rs:63-73 | base URL + "/inj", and the handle's token under the Bearer scheme |
| Injective.RouteEndpoint | src/sdk/injective.rs:115-390 | the fixed calls have distinct endpoints |
| Injective.Call | src/sdk/injective.rs:115-390 | a fixed call carries JSON accept and the token and is routed back to itself |
| Eigenlayer.From | src/sdk/eigenlayer.rs:223-233 | base URL + "/eth/eigenlayer", and the handle's token under the Bearer scheme |
| Eigenlayer.ReadPath | src/sdk/eigenlayer.rs:237-366 | the eight wallet-read paths name their read back, so they are pairwise distinct |
| Eigenlayer.ForWallet | src/sdk/eigenlayer.rs:237-366 | base + read path with the wallet as the one parameter; `avs_rewards` is the same read |
| Eigenlayer.Operator | src/sdk/eigenlayer.rs:253 | the query key is "operator", not "wallet" |
| Eigenlayer.RouteEndpoint | src/sdk/eigenlayer.rs:382-417 | claim-rewards, verify-checkpoint-proofs and verify-withdrawal-credentials are distinct |
| Eigenlayer.Call | src/sdk/eigenlayer.rs:382-417 | a fixed call carries JSON accept and the token and is routed back to itself |
| EthereumOnchain.From | src/sdk/ethereum_onchain.rs:225-235 | base URL + "/eth/onchain", and the handle's token under the Bearer scheme |
| EthereumOnchain.V2Stakes | src/sdk/ethereum_onchain.rs:276 | the GET of "/v2/stakes?&" followed by the comma-joined wallets |
| EthereumOnchain.V2Operations | src/sdk/ethereum_onchain.rs:303-306 | the GET of "/v2/operations?&" followed by wallets, ids, start_date, end_date |
| EthereumOnchain.V2Rewards | src/sdk/ethereum_onchain.rs:332-335 | the GET of "/v2/rewards?&" followed by wallets, start_date, end_date, include_usd, integration |
| EthereumOnchain.V2NetworkStats | src/sdk/ethereum_onchain.rs:351-354 | the GET of "/v2/network-stats?&" followed by the integration verbatim as the one parameter |
| EthereumOnchain.V2ExitTickets | src/sdk/ethereum_onchain.rs:370-372 | the GET of "/v2/exit-tickets?&" followed by the comma-joined wallets |
| EthereumOnchain.LeadingAmpersandIsHarmless | src/sdk/ethereum_onchain.rs:276 | the "?&" URL differs from the "?" one, yet a server reads the same path and parameters from both |
| EthereumOnchain.RouteEndpoint | src/sdk/ethereum_onchain.rs:242-258 | POST "/v1/keys" and POST "/v2/keys" are distinct |
| EthereumOnchain.Call | src/sdk/ethereum_onchain.rs:242-258 | a fixed call carries JSON accept and the token and is routed back to itself |
| Multiversx.From | src/sdk/multiversx.rs:145-155 | base URL + "/egld", and the handle's token under the Bearer scheme |
| Multiversx.Stakes | src/sdk/multiversx.rs:178-181 | validators, delegators (the wallets), accounts |
| Multiversx.Rewards | src/sdk/multiversx.rs:215-218 | validators, delegators (the wallets), accounts, start_date, end_date |
| Multiversx.Operations | src/sdk/multiversx.rs:267-270 | wallets under their own key, first; then validators, accounts, start_date, end_date |
| Multiversx.ParseOperationType | src/sdk/multiversx.rs:77-123 | a string parses only to the variant that prints it |
| Multiversx.OperationTypeRoundTrip | src/sdk/multiversx.rs:77-123 | every variant's spelling parses back to it, so the spellings are pairwise distinct |
| Multiversx.OperationTypeNameInjective | src/sdk/multiversx.rs:77-123 | `OperationTypeName` gives distinct operation types distinct names |
| Multiversx.RouteEndpoint | src/sdk/multiversx.rs:233 | network stats is a GET of "/network-stats" |
| Multiversx.Call | src/sdk/multiversx.rs:233 | the call carries JSON accept and the token and is routed back to itself |
| Account.From | src/sdk/account.rs:36-46 | base URL + "/accounts", and the handle's token under the Bearer scheme |
| Account.RouteEndpoint | src/sdk/account.rs:50-167 | get_all and post on the base, get, put and delete on "/<id>", reports on "/<id>/reports": each reads back as its own call and id |
| Account.Call | src/sdk/account.rs:50-167 | reports come back as octet-stream, everything else as JSON; each call is routed back to itself |
| Account.Portofolio | src/sdk/account.rs:140-147 | "/<id>/portofolio" with refresh=true or false |
| Account.CollectionCallsTargetBase | src/sdk/account.rs:65-85 | exactly get_all and post reach the bare base URL |
| Noble.From | src/sdk/noble.rs:32-42 | base URL + "/noble", and the handle's token under the Bearer scheme |
| Noble.RouteEndpoint | src/sdk/noble.rs:49-129 | balance at "/balance", burn-usdc, osmo-ibc-transfer, prepare and broadcast under "/transaction/", all distinct |
| Noble.Call | src/sdk/noble.rs:49-129 | a fixed call carries JSON accept and the token and is routed back to itself |
| Defi.From | src/sdk/defi.rs:10-20 | base URL + "/defi", and the handle's token under the Bearer scheme |
| Defi.Stakes | src/sdk/defi.rs:23-35 | wallets, vaults |
| Defi.EmptyWalletIsNoWallet | src/sdk/defi.rs:99 | a list holding one empty wallet sends the very request no wallet sends |
| Defi.RouteEndpoint | src/sdk/defi.rs:48-61 | operations and network-stats are distinct GETs without a query |
| Defi.Call | src/sdk/defi.rs:48-61 | a fixed call carries JSON accept and the token and is routed back to itself |
| Organisation.New | src/sdk/organisation.rs:14-22 | base URL + "/organisations", and the handle's token under the Bearer scheme |
| Organisation.RouteEndpoint | src/sdk/organisation.rs:25-50 | "/<id>" and "/<id>/reports" each read back as their own call and id |
| Organisation.Call | src/sdk/organisation.rs:25-50 | reports come back as octet-stream, the read as JSON; each call is routed back to itself |
| Deployments.From | src/sdk/deployments.rs:40-50 | base URL + "/deployments", and the handle's token under the Bearer scheme |
| Deployments.List | src/sdk/deployments.rs:54-56 | a GET of the bare base URL with JSON accept and the token |
| Deployments.ProductTypeJson | src/sdk/deployments.rs:9-15 | the serde names defi, dedicated and pooling read back to their variants |
| Deployments.ProductTypeName | src/sdk/deployments.rs:9-15 | the strum names read back to their variants |
| Deployments.ParseProductTypeExactly | src/sdk/deployments.rs:9-15 | `from_str` reads a text as a product type exactly when it is that type's strum name |
| Deployments.ProductTypeOfJsonExactly | src/sdk/deployments.rs:9-15 | serde reads a text as a product type exactly when it is that type's snake-case name |
| Deployments.SpellingsDisagree | src/sdk/deployments.rs:9-15 | strum refuses the serde names and serde refuses the strum ones |
| Services.ServicePrefix | src/lib.rs:50-144 | each accessor's prefix names its service back, so no two clients share a prefix |
| Services.ClientFor | src/lib.rs:50-144 | each accessor's client: base URL + its prefix, and the handle's token |
| Services.BaseUrlsDistinct | src/lib.rs:50-144 | two clients of one handle have the same base URL iff they are the same service |
| Services.TokenShared | src/lib.rs:50-144 | every client of one handle sends the same `Authorization` header |
| Services.SubtreesMissEthereumRoutes | src/lib.rs:82-87 | no path under "/eigenlayer" or "/onchain" is a fixed route of the Ethereum client |
| Services.EigenlayerCallsMissEthereum | src/sdk/eigenlayer.rs:223-233 | an Eigenlayer call's URL is below the Ethereum client's, yet it is no Ethereum route |
| Services.OnchainCallsMissEthereum | src/sdk/ethereum_onchain.rs:225-235 | the same for the onchain client's calls |

## Left out

- The HTTP round trip is not modelled: `ureq` calls, header transport, status handling, `read_json` and `read_to_end`. It is network I/O. Requests are modelled up to their verb, URL, accept kind and `Authorization` value.
- JSON request bodies and response envelopes (serde derives) are not modelled, nor are the response structs and their `f64` fields. They are data without behaviour, floating point, or foreign library code.
- The texts of `Uuid` and `chrono::DateTime<Utc>` are opaque. A `Uuid` is any hyphenated lower-case hexadecimal text of 36 characters, and a date is any string, because both renderings belong to foreign libraries.
- Integers: `u64` values are modelled as `nat` bounded by 2^64 (`U64`). Nothing in the request layer wraps around.
- The clients for celestia, fetch_ai, kava, osmosis and zetachain are not modelled, and they have no row in `Services`. They follow the same templates as the modelled Cosmos-SDK clients, with their own prefixes.
- src/sdk/portofolio.rs is not part of this model. It declares structs only.
- Organisation: the `unwrap`s of `get_by_uuid` and `reports` (src/sdk/organisation.rs:32-36, 52-56) panic on a failed call. That is behaviour of the HTTP round trip, which is not modelled.
- The request types' field-by-field serde shapes are not modelled. Only the fields that reach a URL are.
- Dydx: `DydxStakePermissionKind`, `DydxStakeStatus` and `DydxOperation` with its `deserialize_type` (src/sdk/dydx.rs:31-42, 97-104, 145-251) are textually the tables of types.rs. The model reuses `Types`, and the default and casing facts about them are the `Types` lemmas. dYdX's stakes, rewards, operations, reports, status and decode are `Shared.ValidatorStakes`, `Shared.Rewards`, `Shared.ValidatorOperations`, `Shared.ValidatorReports`, `Shared.TxStatus` and `Shared.TxDecode`.
- Rewards: Polygon, Tezos, dYdX, Cosmos, Injective, Cardano and Near use `Shared.Rewards`, because they all use the one `RewardRequest` template. The status and decode calls of every client except Tezos's status use `Shared.TxStatus` and `Shared.TxDecode`.
- Multiversx.ParseOperationType: its contract states only that a successful parse names its input. The converse, that every spelling parses, is `Multiversx.OperationTypeRoundTrip`.
- Types.ParseStakingOperation: its contract states only that a successful parse came from one of the variant's spellings. The converse is `Types.SpellingsParse`.
- Query.Decode: the reader does not turn '+' into a space, does not percent-decode and does not stop at '#'. So `Targets` promises what a server reads only for `Plain` keys and values, where those steps change nothing. A base64 `tx_serialized` holding '+' (src/sdk/solana.rs:855-858) is sent verbatim by `Shared.TxDecode`, but what a server reads from it is not stated. For a value holding '&', the model shows what the server reads instead (`Query.AmpersandSplitsValue`, `Shared.StatusHashWithAmpersand`).
