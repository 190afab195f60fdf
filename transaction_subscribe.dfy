/**
 * The parameter builder and the subscribe call of `TransactionSubscribe`
 * (package ws): a caller's filter and options become up to two sparse JSON
 * objects, the encoding is checked against an allow-list before anything is
 * sent, and the subscribe request then goes to the client's multiplexer.
 */
module Ws {
  import opened Wrappers
  import opened Wire

  /** `TransactionSubscribeFilter`: Go zero values are the defaults. */
  datatype Filter = Filter(
    vote: bool,
    failed: bool,
    signature: string,
    accountInclude: seq<string>,
    accountExclude: seq<string>,
    accountRequired: seq<string>)

  /** The zero value of `TransactionSubscribeFilter`. */
  const ZeroFilter := Filter(false, false, "", [], [], [])

  /** `TransactionSubscribeOpts`: the two pointer fields are options, the rest strings whose default is "". */
  datatype Opts = Opts(
    commitment: string,
    encoding: string,
    transactionDetails: string,
    rewards: Option<bool>,
    maxSupportedTransactionVersion: Option<uint64>)

  /** The zero value of `TransactionSubscribeOpts`. */
  const ZeroOpts := Opts("", "", "", None, None)

  const EncodingBase58 := "base58"
  const EncodingBase64 := "base64"
  const EncodingBase64Zstd := "base64+zstd"

  /** The encodings a transaction subscription accepts. */
  predicate EncodingAllowed(e: string)
  {
    e == EncodingBase58 || e == EncodingBase64 || e == EncodingBase64Zstd
  }

  /** The six conditional inserts into the filter object, in the order the client performs them. */
  function FilterEntries(f: Filter): seq<Entry>
  {
    [ When(f.vote, "vote", VBool(f.vote)),
      When(f.failed, "failed", VBool(f.failed)),
      When(f.signature != "", "signature", VStr(f.signature)),
      When(|f.accountInclude| > 0, "accountInclude", VStrList(f.accountInclude)),
      When(|f.accountExclude| > 0, "accountExclude", VStrList(f.accountExclude)),
      When(|f.accountRequired| > 0, "accountRequired", VStrList(f.accountRequired)) ]
  }

  /** The five conditional inserts into the options object, in the client's order. */
  function OptionsEntries(o: Opts): seq<Entry>
  {
    [ When(o.commitment != "", "commitment", VStr(o.commitment)),
      When(o.encoding != "", "encoding", VStr(o.encoding)),
      When(o.transactionDetails != "", "transaction_details", VStr(o.transactionDetails)),
      Entry("showRewards", match o.rewards
                           case None => None
                           case Some(b) => Some(VBool(b))),
      Entry("maxSupportedTransactionVersion", match o.maxSupportedTransactionVersion
                                              case None => None
                                              case Some(n) => Some(VUint64(n))) ]
  }

  /** The filter object: only the fields that differ from their zero value. */
  function FilterObject(f: Filter): Obj
  {
    Sparse(FilterEntries(f))
  }

  /** The options object, or the error for an encoding outside the allow-list. */
  function OptionsObject(o: Opts): Result<Obj, Error>
  {
    if o.encoding != "" && !EncodingAllowed(o.encoding) then Failure(UnsupportedEncoding(o.encoding))
    else Success(Sparse(OptionsEntries(o)))
  }

  /** An object is appended to the parameter list only when it is non-empty. */
  function Keep(obj: Obj): seq<Obj>
  {
    if |obj| > 0 then [obj] else []
  }

  /** The positional parameters of the `transactionSubscribe` request. */
  function TransactionParams(f: Filter, opts: Option<Opts>): Result<seq<Obj>, Error>
  {
    match opts
    case None => Success(Keep(FilterObject(f)))
    case Some(o) =>
      match OptionsObject(o)
      case Failure(e) => Failure(e)
      case Success(obj) => Success(Keep(FilterObject(f)) + Keep(obj))
  }

  /** Builds the filter object by the client's sequence of conditional inserts. */
  method BuildFilterObject(filter: Filter) returns (obj: Obj)
    ensures obj == FilterObject(filter)
  {
    ghost var es := FilterEntries(filter);
    ghost var done: seq<Entry> := [];
    obj := map[];
    if filter.vote {
      obj := obj["vote" := VBool(filter.vote)];
    }
    SparseSnoc(done, es[0]);
    done := done + [es[0]];
    if filter.failed {
      obj := obj["failed" := VBool(filter.failed)];
    }
    SparseSnoc(done, es[1]);
    done := done + [es[1]];
    if filter.signature != "" {
      obj := obj["signature" := VStr(filter.signature)];
    }
    SparseSnoc(done, es[2]);
    done := done + [es[2]];
    if |filter.accountInclude| > 0 {
      obj := obj["accountInclude" := VStrList(filter.accountInclude)];
    }
    SparseSnoc(done, es[3]);
    done := done + [es[3]];
    if |filter.accountExclude| > 0 {
      obj := obj["accountExclude" := VStrList(filter.accountExclude)];
    }
    SparseSnoc(done, es[4]);
    done := done + [es[4]];
    if |filter.accountRequired| > 0 {
      obj := obj["accountRequired" := VStrList(filter.accountRequired)];
    }
    SparseSnoc(done, es[5]);
    done := done + [es[5]];
    assert done == es;
  }

  /** Builds the options object, stopping at a disallowed encoding. */
  method BuildOptionsObject(opts: Opts) returns (r: Result<Obj, Error>)
    ensures r == OptionsObject(opts)
  {
    ghost var es := OptionsEntries(opts);
    ghost var done: seq<Entry> := [];
    var obj: Obj := map[];
    if opts.commitment != "" {
      obj := obj["commitment" := VStr(opts.commitment)];
    }
    SparseSnoc(done, es[0]);
    done := done + [es[0]];
    if opts.encoding != "" {
      if !EncodingAllowed(opts.encoding) {
        return Failure(UnsupportedEncoding(opts.encoding));
      }
      obj := obj["encoding" := VStr(opts.encoding)];
    }
    SparseSnoc(done, es[1]);
    done := done + [es[1]];
    if opts.transactionDetails != "" {
      obj := obj["transaction_details" := VStr(opts.transactionDetails)];
    }
    SparseSnoc(done, es[2]);
    done := done + [es[2]];
    if opts.rewards.Some? {
      obj := obj["showRewards" := VBool(opts.rewards.value)];
    }
    SparseSnoc(done, es[3]);
    done := done + [es[3]];
    if opts.maxSupportedTransactionVersion.Some? {
      obj := obj["maxSupportedTransactionVersion" := VUint64(opts.maxSupportedTransactionVersion.value)];
    }
    SparseSnoc(done, es[4]);
    done := done + [es[4]];
    assert done == es;
    return Success(obj);
  }

  /** Builds the parameter list: the filter object if non-empty, then the options object if non-empty. */
  method BuildParams(filter: Filter, opts: Option<Opts>) returns (r: Result<seq<Obj>, Error>)
    ensures r == TransactionParams(filter, opts)
  {
    var params: seq<Obj> := [];
    var obj := BuildFilterObject(filter);
    if |obj| > 0 {
      params := params + [obj];
    }
    assert params == Keep(obj);
    if opts.Some? {
      var built := BuildOptionsObject(opts.value);
      if built.Failure? {
        return Failure(built.error);
      }
      var optsObj := built.value;
      if |optsObj| > 0 {
        params := params + [optsObj];
      }
      assert params == Keep(obj) + Keep(optsObj);
    }
    return Success(params);
  }

  /** The keys a filter object may hold. */
  const FilterKeys := {"vote", "failed", "signature", "accountInclude", "accountExclude", "accountRequired"}

  /** The keys an options object may hold. */
  const OptionKeys := {"commitment", "encoding", "transaction_details", "showRewards", "maxSupportedTransactionVersion"}

  /** Each filter key is present exactly when its field is non-default, and then carries the field unchanged. */
  lemma FilterObjectFields(f: Filter)
    ensures var m := FilterObject(f);
      && ("vote" in m <==> f.vote) && ("vote" in m ==> m["vote"] == VBool(true))
      && ("failed" in m <==> f.failed) && ("failed" in m ==> m["failed"] == VBool(true))
      && ("signature" in m <==> f.signature != "") && ("signature" in m ==> m["signature"] == VStr(f.signature))
      && ("accountInclude" in m <==> |f.accountInclude| > 0)
      && ("accountInclude" in m ==> m["accountInclude"] == VStrList(f.accountInclude))
      && ("accountExclude" in m <==> |f.accountExclude| > 0)
      && ("accountExclude" in m ==> m["accountExclude"] == VStrList(f.accountExclude))
      && ("accountRequired" in m <==> |f.accountRequired| > 0)
      && ("accountRequired" in m ==> m["accountRequired"] == VStrList(f.accountRequired))
      && m.Keys <= FilterKeys
  {
    var es := FilterEntries(f);
    SparseAt(es, 0);
    SparseAt(es, 1);
    SparseAt(es, 2);
    SparseAt(es, 3);
    SparseAt(es, 4);
    SparseAt(es, 5);
    forall k | k in Sparse(es) ensures k in FilterKeys {
      SparseKeys(es, k);
    }
  }

  /** The filter object is empty exactly for the zero filter. */
  lemma FilterObjectEmpty(f: Filter)
    ensures FilterObject(f) == map[] <==> f == ZeroFilter
  {
    var es := FilterEntries(f);
    SparseEmpty(es);
    if f == ZeroFilter {
      assert FilterObject(ZeroFilter) == map[];
    }
    if FilterObject(f) == map[] {
      assert es[0].value.None? && es[1].value.None? && es[2].value.None?;
      assert es[3].value.None? && es[4].value.None? && es[5].value.None?;
    }
  }

  /** The options object fails exactly on a non-empty encoding outside the allow-list; otherwise each key
      is present exactly when its field is set and carries the field's value (the pointed-to value for
      the two pointer fields, so `showRewards` appears even when it is false). */
  lemma OptionsObjectFields(o: Opts)
    ensures OptionsObject(o).Failure? <==> o.encoding != "" && !EncodingAllowed(o.encoding)
    ensures OptionsObject(o).Failure? ==> OptionsObject(o).error == UnsupportedEncoding(o.encoding)
    ensures OptionsObject(o).Success? ==> var m := OptionsObject(o).value;
      && ("commitment" in m <==> o.commitment != "") && ("commitment" in m ==> m["commitment"] == VStr(o.commitment))
      && ("encoding" in m <==> o.encoding != "")
      && ("encoding" in m ==> m["encoding"] == VStr(o.encoding) && EncodingAllowed(o.encoding))
      && ("transaction_details" in m <==> o.transactionDetails != "")
      && ("transaction_details" in m ==> m["transaction_details"] == VStr(o.transactionDetails))
      && ("showRewards" in m <==> o.rewards.Some?)
      && ("showRewards" in m ==> m["showRewards"] == VBool(o.rewards.value))
      && ("maxSupportedTransactionVersion" in m <==> o.maxSupportedTransactionVersion.Some?)
      && ("maxSupportedTransactionVersion" in m ==>
            m["maxSupportedTransactionVersion"] == VUint64(o.maxSupportedTransactionVersion.value))
      && m.Keys <= OptionKeys
  {
    var es := OptionsEntries(o);
    SparseAt(es, 0);
    SparseAt(es, 1);
    SparseAt(es, 2);
    SparseAt(es, 3);
    SparseAt(es, 4);
    forall k | k in Sparse(es) ensures k in OptionKeys {
      SparseKeys(es, k);
    }
  }

  /** Options that pass the encoding check give an empty object exactly when they are the zero options. */
  lemma OptionsObjectEmpty(o: Opts)
    ensures OptionsObject(o) == Success(map[]) <==> o == ZeroOpts
  {
    var es := OptionsEntries(o);
    SparseEmpty(es);
    if o == ZeroOpts {
      assert OptionsObject(ZeroOpts) == Success(map[]);
    }
    if OptionsObject(o) == Success(map[]) {
      assert es[0].value.None? && es[1].value.None? && es[2].value.None?;
      assert es[3].value.None? && es[4].value.None?;
    }
  }

  /** The shape of the parameter list: at most two objects, never an empty one, the filter object
      first whenever the filter is non-zero and the options object last whenever the options are
      non-zero; without options the list has at most one element; it fails only on a disallowed encoding. */
  lemma TransactionParamsShape(f: Filter, opts: Option<Opts>)
    ensures var r := TransactionParams(f, opts);
      && (r.Failure? <==> opts.Some? && opts.value.encoding != "" && !EncodingAllowed(opts.value.encoding))
      && (r.Failure? ==> r.error == UnsupportedEncoding(opts.value.encoding))
      && (opts.None? ==> r.Success? && |r.value| <= 1)
      && (r.Success? ==> |r.value| <= 2 && forall i :: 0 <= i < |r.value| ==> r.value[i] != map[])
      && (r.Success? && f != ZeroFilter ==> |r.value| >= 1 && r.value[0] == FilterObject(f))
      && (r.Success? && (opts.None? || opts.value == ZeroOpts) ==>
            |r.value| == if f == ZeroFilter then 0 else 1)
      && (r.Success? && opts.Some? && opts.value != ZeroOpts ==>
            |r.value| == (if f == ZeroFilter then 1 else 2) &&
            r.value[|r.value| - 1] == OptionsObject(opts.value).value)
  {
    FilterObjectEmpty(f);
    if opts.Some? {
      OptionsObjectEmpty(opts.value);
    }
  }

  /** The multiplexer's handle for one open subscription. */
  datatype Subscription = Subscription(id: nat)

  /** `TransactionSubscribtion`: a typed view over the multiplexer's handle. */
  datatype TransactionSubscription = TransactionSubscription(sub: Subscription)

  /** One subscribe request handed to the multiplexer. */
  datatype SubscribeRequest = SubscribeRequest(params: seq<Obj>, subscribeMethod: string, unsubscribeMethod: string)

  /**
   * The websocket client, seen through the one thing these operations do to it:
   * hand subscribe requests to its multiplexer. `requests` records every request
   * handed over, in order.
   */
  class Client {
    var requests: seq<SubscribeRequest>

    constructor ()
      ensures requests == []
    {
      requests := [];
    }

    /** The multiplexer's subscribe call, as a sink: it records the request and answers with `reply`,
        which stands for what the transport and the node return. */
    method Subscribe(params: seq<Obj>, subscribeMethod: string, unsubscribeMethod: string,
                     reply: Result<Subscription, Error>)
      returns (r: Result<Subscription, Error>)
      modifies this
      ensures requests == old(requests) + [SubscribeRequest(params, subscribeMethod, unsubscribeMethod)]
      ensures r == reply
    {
      requests := requests + [SubscribeRequest(params, subscribeMethod, unsubscribeMethod)];
      r := reply;
    }

    /** Builds the parameters; on a validation error returns it and sends nothing; otherwise sends
        exactly the built parameters under `transactionSubscribe` / `transactionUnsubscribe` and
        returns the multiplexer's error, or the handle wrapped as a transaction subscription. */
    method TransactionSubscribe(filter: Filter, opts: Option<Opts>, reply: Result<Subscription, Error>)
      returns (r: Result<TransactionSubscription, Error>)
      modifies this
      ensures TransactionParams(filter, opts).Failure? ==>
                r == Failure(TransactionParams(filter, opts).error) && requests == old(requests)
      ensures TransactionParams(filter, opts).Success? ==>
                && requests == old(requests) + [SubscribeRequest(TransactionParams(filter, opts).value,
                                                                 "transactionSubscribe", "transactionUnsubscribe")]
                && r == match reply
                        case Failure(e) => Failure(e)
                        case Success(sub) => Success(TransactionSubscription(sub))
    {
      var params := BuildParams(filter, opts);
      if params.Failure? {
        return Failure(params.error);
      }
      var genSub := Subscribe(params.value, "transactionSubscribe", "transactionUnsubscribe", reply);
      if genSub.Failure? {
        return Failure(genSub.error);
      }
      return Success(TransactionSubscription(genSub.value));
    }
  }
}
