/**
 * The JSON values that the request builders put on the wire, and the one
 * construction both builders use: a sparse object filled by a sequence of
 * conditional inserts, each key written only when its field is set.
 */
module Wire {
  import opened Wrappers

  /** 64-bit unsigned integer, as Go's `uint64`. */
  newtype uint64 = x: int | 0 <= x < 0x1_0000_0000_0000_0000

  /** A JSON value as the builders produce it. */
  datatype Value =
    | VBool(b: bool)
    | VStr(s: string)
    | VStrList(items: seq<string>)
    | VUint64(n: uint64)
    | VObj(fields: map<string, Value>)

  /** A JSON object; `rpc.M` in the Go client. */
  type Obj = map<string, Value>

  /** Errors a call can return. */
  datatype Error =
    | UnsupportedEncoding(encoding: string)  // "provided encoding is not supported: %s"
    | Remote(message: string)                // whatever the transport or the node reported

  /** One conditional insert: `key` is written with the value when there is one, and skipped otherwise. */
  datatype Entry = Entry(key: string, value: Option<Value>)

  /** An insert that is performed only when `cond` holds. */
  function When(cond: bool, key: string, v: Value): Entry
  {
    Entry(key, if cond then Some(v) else None)
  }

  /** No key is written twice. */
  ghost predicate DistinctKeys(es: seq<Entry>)
  {
    forall i, j :: 0 <= i < j < |es| ==> es[i].key != es[j].key
  }

  /** The object left behind by performing the inserts `es` in order on an empty object. */
  function Sparse(es: seq<Entry>): Obj
    decreases |es|
  {
    if es == [] then map[]
    else
      var done := Sparse(es[..|es| - 1]);
      var last := es[|es| - 1];
      match last.value
      case None => done
      case Some(v) => done[last.key := v]
  }

  /** Performing one more insert. */
  lemma {:induction false} SparseSnoc(es: seq<Entry>, e: Entry)
    ensures Sparse(es + [e]) == match e.value
                                case None => Sparse(es)
                                case Some(v) => Sparse(es)[e.key := v]
  {
    assert (es + [e])[..|es|] == es;
  }

  /** A key is in the object exactly when some insert wrote it. */
  lemma {:induction false} SparseKeys(es: seq<Entry>, k: string)
    ensures k in Sparse(es) <==> exists i :: 0 <= i < |es| && es[i].key == k && es[i].value.Some?
    decreases |es|
  {
    if es != [] {
      var done := es[..|es| - 1];
      SparseKeys(done, k);
      if k in Sparse(es) && !(es[|es| - 1].key == k && es[|es| - 1].value.Some?) {
        var i :| 0 <= i < |done| && done[i].key == k && done[i].value.Some?;
        assert es[i] == done[i];
      }
      if exists i :: 0 <= i < |es| - 1 && es[i].key == k && es[i].value.Some? {
        var i :| 0 <= i < |es| - 1 && es[i].key == k && es[i].value.Some?;
        assert done[i] == es[i];
      }
    }
  }

  /** With distinct keys, every insert that carries a value is found intact in the object,
      and every insert without one leaves its key out. */
  lemma {:induction false} SparseAt(es: seq<Entry>, i: nat)
    requires DistinctKeys(es)
    requires i < |es|
    ensures match es[i].value
            case None => es[i].key !in Sparse(es)
            case Some(v) => es[i].key in Sparse(es) && Sparse(es)[es[i].key] == v
    decreases |es|
  {
    var done := es[..|es| - 1];
    assert DistinctKeys(done) by {
      forall a, b | 0 <= a < b < |done| ensures done[a].key != done[b].key {
        assert done[a] == es[a] && done[b] == es[b];
      }
    }
    if i < |es| - 1 {
      SparseAt(done, i);
      assert done[i] == es[i];
    } else {
      SparseKeys(done, es[i].key);
    }
  }

  /** The object is empty exactly when no insert carries a value. */
  lemma {:induction false} SparseEmpty(es: seq<Entry>)
    ensures Sparse(es) == map[] <==> forall i :: 0 <= i < |es| ==> es[i].value.None?
  {
    if Sparse(es) != map[] {
      var k :| k in Sparse(es);
      SparseKeys(es, k);
    }
    if exists i :: 0 <= i < |es| && es[i].value.Some? {
      var i :| 0 <= i < |es| && es[i].value.Some?;
      SparseKeys(es, es[i].key);
    }
  }
}
