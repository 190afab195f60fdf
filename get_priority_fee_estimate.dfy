/**
 * The parameter builder and the call of `GetPriorityFeeEstimate` (package rpc):
 * one request object naming either the encoded transaction or the account
 * keys, with an optional nested options object.
 */
module Rpc {
  import opened Wrappers
  import opened Wire

  /** `GetPriorityFeeEstimateOpts`: the two pointer fields are options, the strings default to "". */
  datatype FeeOpts = FeeOpts(
    priorityLevel: string,
    recommended: Option<bool>,
    includeAllPriorityFeeLevels: Option<bool>,
    transactionEncoding: string)

  /** The zero value of `GetPriorityFeeEstimateOpts`. */
  const ZeroFeeOpts := FeeOpts("", None, None, "")

  /** The keys a request object may hold. */
  const RequestKeys := {"transaction", "accountKeys", "options"}

  /** The keys an options object may hold. */
  const FeeOptionKeys := {"priorityLevel", "recommended", "includeAllPriorityFeeLevels", "transactionEncoding"}

  /** The four conditional inserts into the options object, in the client's order. */
  function FeeOptionsEntries(o: FeeOpts): seq<Entry>
  {
    [ When(o.priorityLevel != "", "priorityLevel", VStr(o.priorityLevel)),
      Entry("recommended", match o.recommended
                           case None => None
                           case Some(b) => Some(VBool(b))),
      Entry("includeAllPriorityFeeLevels", match o.includeAllPriorityFeeLevels
                                           case None => None
                                           case Some(b) => Some(VBool(b))),
      When(o.transactionEncoding != "", "transactionEncoding", VStr(o.transactionEncoding)) ]
  }

  /** The options object: only the fields that are set. */
  function FeeOptionsObject(o: FeeOpts): Obj
  {
    Sparse(FeeOptionsEntries(o))
  }

  /** The inserts into the request object: the transaction, or else the account keys, then the options. */
  function FeeRequestEntries(accounts: seq<string>, transactionData: string, o: FeeOpts): seq<Entry>
  {
    [ When(|transactionData| > 0, "transaction", VStr(transactionData)),
      When(|transactionData| == 0, "accountKeys", VStrList(accounts)),
      When(|FeeOptionsObject(o)| > 0, "options", VObj(FeeOptionsObject(o))) ]
  }

  /** The request object. */
  function FeeRequestObject(accounts: seq<string>, transactionData: string, o: FeeOpts): Obj
  {
    Sparse(FeeRequestEntries(accounts, transactionData, o))
  }

  /** Builds the options object by the client's sequence of conditional assignments. */
  method BuildFeeOptionsObject(o: FeeOpts) returns (optionsObj: Obj)
    ensures optionsObj == FeeOptionsObject(o)
  {
    ghost var es := FeeOptionsEntries(o);
    ghost var done: seq<Entry> := [];
    optionsObj := map[];
    if o.priorityLevel != "" {
      optionsObj := optionsObj["priorityLevel" := VStr(o.priorityLevel)];
    }
    SparseSnoc(done, es[0]);
    done := done + [es[0]];
    if o.recommended.Some? {
      optionsObj := optionsObj["recommended" := VBool(o.recommended.value)];
    }
    SparseSnoc(done, es[1]);
    done := done + [es[1]];
    if o.includeAllPriorityFeeLevels.Some? {
      optionsObj := optionsObj["includeAllPriorityFeeLevels" := VBool(o.includeAllPriorityFeeLevels.value)];
    }
    SparseSnoc(done, es[2]);
    done := done + [es[2]];
    if o.transactionEncoding != "" {
      optionsObj := optionsObj["transactionEncoding" := VStr(o.transactionEncoding)];
    }
    SparseSnoc(done, es[3]);
    done := done + [es[3]];
    assert done == es;
  }

  /** Builds the positional parameters: always exactly one request object. Dereferencing a nil
      `opts` is a panic in the client, so the caller must supply options. */
  method BuildFeeParams(accounts: seq<string>, transactionData: string, opts: Option<FeeOpts>)
    returns (params: seq<Obj>)
    requires opts.Some?
    ensures params == [FeeRequestObject(accounts, transactionData, opts.value)]
  {
    params := [];
    ghost var es := FeeRequestEntries(accounts, transactionData, opts.value);
    ghost var done: seq<Entry> := [];
    var obj: Obj := map[];
    if |transactionData| > 0 {
      obj := obj["transaction" := VStr(transactionData)];
    } else {
      obj := obj["accountKeys" := VStrList(accounts)];
    }
    SparseSnoc(done, es[0]);
    done := done + [es[0]];
    SparseSnoc(done, es[1]);
    done := done + [es[1]];
    var optionsObj := BuildFeeOptionsObject(opts.value);
    if |optionsObj| > 0 {
      obj := obj["options" := VObj(optionsObj)];
    }
    SparseSnoc(done, es[2]);
    done := done + [es[2]];
    assert done == es;
    params := params + [obj];
  }

  /** The request object holds exactly one of `transaction` (when the transaction data is non-empty)
      and `accountKeys` (otherwise, even for an empty account list), each with the caller's value,
      and holds `options` exactly when some option is set. */
  lemma FeeRequestFields(accounts: seq<string>, transactionData: string, o: FeeOpts)
    ensures var m := FeeRequestObject(accounts, transactionData, o);
      && ("transaction" in m <==> |transactionData| > 0)
      && ("transaction" in m ==> m["transaction"] == VStr(transactionData))
      && ("accountKeys" in m <==> |transactionData| == 0)
      && ("accountKeys" in m ==> m["accountKeys"] == VStrList(accounts))
      && ("transaction" in m <==> "accountKeys" !in m)
      && ("options" in m <==> o != ZeroFeeOpts)
      && ("options" in m ==> m["options"] == VObj(FeeOptionsObject(o)))
      && m.Keys <= RequestKeys
  {
    var es := FeeRequestEntries(accounts, transactionData, o);
    SparseAt(es, 0);
    SparseAt(es, 1);
    SparseAt(es, 2);
    FeeOptionsEmpty(o);
    forall k | k in Sparse(es) ensures k in RequestKeys {
      SparseKeys(es, k);
    }
  }

  /** Each option key is present exactly when its field is set, with the field's value
      (the pointed-to value for the two pointer fields, false included). */
  lemma FeeOptionsFields(o: FeeOpts)
    ensures var m := FeeOptionsObject(o);
      && ("priorityLevel" in m <==> o.priorityLevel != "")
      && ("priorityLevel" in m ==> m["priorityLevel"] == VStr(o.priorityLevel))
      && ("recommended" in m <==> o.recommended.Some?)
      && ("recommended" in m ==> m["recommended"] == VBool(o.recommended.value))
      && ("includeAllPriorityFeeLevels" in m <==> o.includeAllPriorityFeeLevels.Some?)
      && ("includeAllPriorityFeeLevels" in m ==>
            m["includeAllPriorityFeeLevels"] == VBool(o.includeAllPriorityFeeLevels.value))
      && ("transactionEncoding" in m <==> o.transactionEncoding != "")
      && ("transactionEncoding" in m ==> m["transactionEncoding"] == VStr(o.transactionEncoding))
      && m.Keys <= FeeOptionKeys
  {
    var es := FeeOptionsEntries(o);
    SparseAt(es, 0);
    SparseAt(es, 1);
    SparseAt(es, 2);
    SparseAt(es, 3);
    forall k | k in Sparse(es) ensures k in FeeOptionKeys {
      SparseKeys(es, k);
    }
  }

  /** The options object is empty exactly for the zero options. */
  lemma FeeOptionsEmpty(o: FeeOpts)
    ensures FeeOptionsObject(o) == map[] <==> o == ZeroFeeOpts
  {
    var es := FeeOptionsEntries(o);
    SparseEmpty(es);
    if o == ZeroFeeOpts {
      assert FeeOptionsObject(ZeroFeeOpts) == map[];
    }
    if FeeOptionsObject(o) == map[] {
      assert es[0].value.None? && es[1].value.None? && es[2].value.None? && es[3].value.None?;
    }
  }

  /** One request/response call handed to the JSON-RPC transport. */
  datatype RpcCall = RpcCall(rpcMethod: string, params: seq<Obj>)

  /**
   * The JSON-RPC client, seen through the calls it hands to its transport;
   * `calls` records them in order.
   */
  class Client {
    var calls: seq<RpcCall>

    constructor ()
      ensures calls == []
    {
      calls := [];
    }

    /** The transport's `CallForInto`, as a sink: it records the call and answers with `reply`,
        the error the transport or the node returns, if any. */
    method CallForInto(rpcMethod: string, params: seq<Obj>, reply: Option<Error>) returns (err: Option<Error>)
      modifies this
      ensures calls == old(calls) + [RpcCall(rpcMethod, params)]
      ensures err == reply
    {
      calls := calls + [RpcCall(rpcMethod, params)];
      err := reply;
    }

    /** Sends exactly one call, `getPriorityFeeEstimate` with the one-object parameter list,
        and returns the transport's error. */
    method GetPriorityFeeEstimate(accounts: seq<string>, transactionData: string, opts: Option<FeeOpts>,
                                  reply: Option<Error>)
      returns (err: Option<Error>)
      requires opts.Some?
      modifies this
      ensures calls == old(calls) + [RpcCall("getPriorityFeeEstimate",
                                             [FeeRequestObject(accounts, transactionData, opts.value)])]
      ensures err == reply
    {
      var params := BuildFeeParams(accounts, transactionData, opts);
      err := CallForInto("getPriorityFeeEstimate", params, reply);
    }
  }
}
