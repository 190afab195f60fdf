# Request-parameter builders of a Solana RPC / websocket client

This project models how the Go client turns a caller's filter and option structs into the positional
JSON-RPC parameter list, for two calls:

- `TransactionSubscribe` (websocket package `ws`) builds up to two sparse objects: a filter object
  with six possible keys and an options object with five. Each key is written only when its field is
  non-default. Each object is appended only when it ended up non-empty. A non-empty encoding outside
  base58, base64 and base64+zstd is rejected before anything is sent. The request then goes to the
  client's subscription multiplexer under `transactionSubscribe` / `transactionUnsubscribe`.
- `GetPriorityFeeEstimate` (package `rpc`) builds exactly one request object. It holds either
  `transaction` or `accountKeys`, never both, plus an optional nested `options` object built by the same
  sparse rule. The call goes to `getPriorityFeeEstimate`.

Layout:

- `wrappers.dfy` (`Wrappers`): `Option` (a Go pointer; `None` is nil) and `Result` (a Go
  `(value, error)` pair).
- `wire.dfy` (`Wire`): the JSON `Value`, `Obj` (the client's `rpc.M`), the `Error` type, and
  `Sparse`: the object left by a sequence of conditional inserts (`Entry(key, optional value)`), with
  lemmas on which keys it holds and with which value.
  A rejected encoding is the client's plain formatted error `provided encoding is not supported: <encoding>`
  (rpc/ws/transactionSubscribe.go:97), modelled as `UnsupportedEncoding(encoding)`.
- `transaction_subscribe.dfy` (`Ws`): the filter and options structs; the specification functions
  `FilterObject`, `OptionsObject` and `TransactionParams`; the builder methods, which perform the
  client's inserts one by one and are proved equal to those functions; lemmas on the keys and the shape
  of the parameter list; and a `Client` class whose `Subscribe` records each request sent to the
  multiplexer.
- `get_priority_fee_estimate.dfy` (`Rpc`): the options struct, the specification functions
  `FeeOptionsObject` and `FeeRequestObject`, the builder methods, lemmas, and a `Client` class whose
  `CallForInto` records each call.

The network calls are sinks. `Ws.Client.Subscribe` and `Rpc.Client.CallForInto` append the request
to a recorded list. They answer with a `reply` parameter, which stands for what the transport and
the node would return.

## Model

| member | source | states |
|---|---|---|
| `Wire.SparseKeys` | rpc/ws/transactionSubscribe.go:60-78 | a key is in the built object exactly when some insert for that key carried a value; nothing else is ever added |
| `Wire.SparseAt` | rpc/ws/transactionSubscribe.go:61-78 | with distinct keys, every insert that carries a value is found unchanged under its key, and every skipped insert leaves its key out |
| `Wire.SparseEmpty` | rpc/ws/transactionSubscribe.go:79-81 | the built object is empty exactly when every insert was skipped |
| `Ws.BuildFilterObject` | rpc/ws/transactionSubscribe.go:60-78 | the six conditional inserts, one by one, give exactly the sparse filter object `FilterObject` |
| `Ws.BuildOptionsObject` | rpc/ws/transactionSubscribe.go:83-109 | the five conditional inserts with the early return on a disallowed encoding give exactly `OptionsObject`: the error or the sparse options object |
| `Ws.BuildParams` | rpc/ws/transactionSubscribe.go:59-113 | the parameter list is the filter object if non-empty, then (with options) the options object if non-empty; a disallowed encoding returns its error |
| `Ws.FilterObjectFields` | rpc/ws/transactionSubscribe.go:61-78 | `vote`/`failed` are present iff the flag is true, `signature` iff non-empty, the three account lists iff non-empty; each present key carries the caller's value; no other key |
| `Ws.FilterObjectEmpty` | rpc/ws/transactionSubscribe.go:79-81 | the filter object is empty exactly for the zero filter, so only the zero filter is left out of the list |
| `Ws.OptionsObjectFields` | rpc/ws/transactionSubscribe.go:84-109 | fails iff the encoding is non-empty and not base58, base64 or base64+zstd, with that encoding in the error; otherwise `commitment`, `encoding`, `transaction_details` are present iff non-empty, `showRewards` iff the pointer is set (false included), `maxSupportedTransactionVersion` iff set, holding the dereferenced number; no other key |
| `Ws.OptionsObjectEmpty` | rpc/ws/transactionSubscribe.go:110-112 | valid options give an empty options object exactly when they are the zero options |
| `Ws.TransactionParamsShape` | rpc/ws/transactionSubscribe.go:59-113 | the list fails only on a disallowed encoding; it has at most two objects and never an empty one; without options it has at most one; the filter object comes first when the filter is non-zero; the options object comes last when the options are non-zero, at index 0 when the filter is zero |
| `Ws.Client.Subscribe` | rpc/ws/transactionSubscribe.go:114-124 | the multiplexer's subscribe call records exactly the given parameters and method names and returns its reply |
| `Ws.Client.TransactionSubscribe` | rpc/ws/transactionSubscribe.go:55-131 | on a disallowed encoding returns the error and sends nothing; otherwise sends exactly the built parameters under `transactionSubscribe` / `transactionUnsubscribe` and returns the multiplexer's error, or its handle wrapped as a transaction subscription |
| `Rpc.BuildFeeOptionsObject` | rpc/getPriorityFeeEstimate.go:35-47 | the four conditional assignments, one by one, give exactly the sparse options object `FeeOptionsObject` |
| `Rpc.BuildFeeParams` | rpc/getPriorityFeeEstimate.go:28-51 | the parameter list is exactly one request object, `FeeRequestObject`; options must be supplied |
| `Rpc.FeeRequestFields` | rpc/getPriorityFeeEstimate.go:29-50 | `transaction` is present iff the transaction data is non-empty, `accountKeys` (the caller's list, even an empty one) otherwise, never both; `options` is present iff some option is set and holds the options object; no other key |
| `Rpc.FeeOptionsFields` | rpc/getPriorityFeeEstimate.go:36-47 | `priorityLevel` / `transactionEncoding` are present iff non-empty, `recommended` / `includeAllPriorityFeeLevels` iff the pointer is set, with the pointed-to value; no other key |
| `Rpc.FeeOptionsEmpty` | rpc/getPriorityFeeEstimate.go:48-50 | the options object is empty exactly for the zero options |
| `Rpc.Client.CallForInto` | rpc/getPriorityFeeEstimate.go:52 | the transport call records exactly the method name and parameters and returns its reply |
| `Rpc.Client.GetPriorityFeeEstimate` | rpc/getPriorityFeeEstimate.go:22-53 | makes exactly one call, `getPriorityFeeEstimate` with the one-object parameter list, and returns the transport's error |

## Left out

- `Recv`, `Response`, `Err` and `Unsubscribe` of the transaction subscription (rpc/ws/transactionSubscribe.go:137-165): they are built on Go channels, `select` and goroutines, which have no sequential model.
- rpc/ws/transactionSubscribeSyndica.go: apart from its nil-parameter check it wraps `subscribeSyndica`, which is not part of this model, plus the same channel code. Its decoder builds a `TransactionResult` while its `Recv` and `Response` expect a `TransactionSyndicaResult`, so the type assertion there would fail at run time; this is not modelled.
- The multiplexer behind `cl.subscribe`, its handle registry and the decoder closure passed to it (`decodeResponseFromMessage`) are not part of this model. `Ws.Client.Subscribe` records the request, and its reply is a parameter. The constant `nil` configuration argument that `cl.subscribe` also receives (rpc/ws/transactionSubscribe.go:116) is not recorded.
- JSON serialisation itself: the model stops at the `Value` tree. A nil and an empty `accounts` slice are not told apart, although Go writes the first as `null` and the second as `[]`. The pointer fields `Rewards`, `Recommended` and `IncludeAllPriorityFeeLevels` are modelled as the bool they point to, which is what gets serialised.
- `solana.IsAnyOfEncodingType` is modelled as membership in the three encoding tags `base58`, `base64` and `base64+zstd` (`Ws.EncodingAllowed`).
- The commitment, transaction-detail, priority-level and encoding types are plain strings, passed through unchanged.
- Rpc.Client.GetPriorityFeeEstimate: does not model the `context.Context` argument, nor the decoded result (`GetPriorityFeeEstimateResult`, `MicroLamportPriorityFeeLevels`: float fields and no logic). It returns only the transport's error.
- Rpc.Client.GetPriorityFeeEstimate: requires options to be supplied, because the Go code dereferences a nil `opts` and panics.
- `Ws.BuildOptionsObject` performs the `commitment` insert before the encoding check, as the code does. The partly filled object is discarded on the error path, so the model returns only the error.
