/**
 * The `/pokemon/batch` aggregation of src/gateway/app.ts: the body checks, the
 * resolution of each name against the cache as it stood when the batch began,
 * the split into `success` and `failed`, and the cache writes of the misses.
 */
module BatchAggregation {
  import opened Wrappers
  import opened JsonValues
  import opened ResponseCache
  import opened GatewayPolicy

  const MaxBatch: nat := 50
  const NotArrayMessage: string := "Campo 'names' deve ser um array não vazio"
  const TooManyMessage: string := "Máximo de 50 pokémon por batch"

  /** The outcome of the body checks: the names to resolve, or the 400 message. */
  datatype BodyCheck = Accepted(names: seq<Json>) | Rejected(message: string)

  /** `Array.isArray(names) && names.length > 0`, then `names.length <= 50`. */
  function CheckBody(names: Option<Json>): (r: BodyCheck)
    ensures r.Accepted? <==> names.Some? && names.value.JArr? && 1 <= |names.value.items| <= MaxBatch
    ensures r.Accepted? ==> r.names == names.value.items
    ensures r.Rejected? && (names.None? || !names.value.JArr? || names.value.items == []) ==> r.message == NotArrayMessage
    ensures r.Rejected? && names.Some? && names.value.JArr? && |names.value.items| > MaxBatch ==> r.message == TooManyMessage
  {
    if names.None? || !names.value.JArr? || |names.value.items| == 0 then Rejected(NotArrayMessage)
    else if |names.value.items| > MaxBatch then Rejected(TooManyMessage)
    else Accepted(names.value.items)
  }

  /** `source: 'cache' | 'api'` of a batch item. */
  datatype ItemSource = FromCache | FromApi

  /** `{ name, data, source }`. */
  datatype BatchItem = BatchItem(name: string, data: Payload, source: ItemSource)

  /** How one item's promise settles. */
  datatype Settled = Fulfilled(item: BatchItem) | Failed

  datatype BatchOutcome = BatchOutcome(success: seq<BatchItem>, failed: seq<Json>, total: nat, successCount: nat)

  /** The `if (cached)` read: a live, truthy value. */
  function CachedHit(entries: map<string, Entry<Payload>>, now: int, key: string): (r: Option<Payload>)
    ensures r.Some? <==> Lookup(entries, now, key).Some? && PayloadTruthy(Lookup(entries, now, key).value)
    ensures r.Some? ==> r == Lookup(entries, now, key)
  {
    var v := Lookup(entries, now, key);
    if v.Some? && PayloadTruthy(v.value) then v else None
  }

  /**
   * One item of the batch, resolved against the cache `entries` at `now`. A name that is
   * not a string fails (`toLowerCase` throws); a hit is answered from the cache; a miss
   * asks the upstream for the lower-cased name.
   */
  function ResolveItem(entries: map<string, Entry<Payload>>, now: int, name: Json, upstream: string -> Fetch<Json>): (r: Settled)
    ensures !name.JStr? ==> r.Failed?
    ensures r.Fulfilled? ==> name == JStr(r.item.name)
    ensures name.JStr? && CachedHit(entries, now, DetailsKey(name.s)).Some? ==>
              r == Fulfilled(BatchItem(name.s, CachedHit(entries, now, DetailsKey(name.s)).value, FromCache))
    ensures name.JStr? && CachedHit(entries, now, DetailsKey(name.s)).None? ==>
              (r.Fulfilled? <==> upstream(Lower(name.s)).Ok?) &&
              (r.Fulfilled? ==> r.item == BatchItem(name.s, Raw(upstream(Lower(name.s)).data), FromApi))
  {
    match name
    case JStr(n) =>
      var hit := CachedHit(entries, now, DetailsKey(n));
      if hit.Some? then Fulfilled(BatchItem(n, hit.value, FromCache))
      else (match upstream(Lower(n))
            case Ok(d) => Fulfilled(BatchItem(n, Raw(d), FromApi))
            case _ => Failed)
    case _ => Failed
  }

  /** Every item resolved against the same snapshot of the cache. */
  function ResolveAll(entries: map<string, Entry<Payload>>, now: int, names: seq<Json>, upstream: string -> Fetch<Json>): (rs: seq<Settled>)
    ensures |rs| == |names|
    ensures forall i :: 0 <= i < |names| ==> rs[i] == ResolveItem(entries, now, names[i], upstream)
  {
    seq(|names|, i requires 0 <= i < |names| => ResolveItem(entries, now, names[i], upstream))
  }

  /** Names that differ only in case resolve alike: same data and same source (so duplicates both miss). */
  lemma CaseVariantsResolveAlike(entries: map<string, Entry<Payload>>, now: int, a: string, b: string, upstream: string -> Fetch<Json>)
    requires EqualIgnoringCase(a, b)
    ensures var ra, rb := ResolveItem(entries, now, JStr(a), upstream), ResolveItem(entries, now, JStr(b), upstream);
            ra.Fulfilled? == rb.Fulfilled? &&
            (ra.Fulfilled? ==> ra.item.data == rb.item.data && ra.item.source == rb.item.source)
  {
    DetailsKeyNormalises(a, b);
    LowerIdentifiesCaseVariants(a, b);
  }

  // ---------------------------------------------------------------------------
  // The split into `success` and `failed`

  /** `results.filter(fulfilled).map(r => r.value)`. */
  function Successes(rs: seq<Settled>): (s: seq<BatchItem>)
    ensures |s| <= |rs|
  {
    if rs == [] then []
    else (if rs[0].Fulfilled? then [rs[0].item] else []) + Successes(rs[1..])
  }

  /** `results.map((r, i) => rejected ? names[i] : null).filter(Boolean)`. */
  function Failures(rs: seq<Settled>, names: seq<Json>): (f: seq<Json>)
    requires |rs| == |names|
    ensures |f| <= |rs|
  {
    if rs == [] then []
    else (if rs[0].Failed? && Truthy(names[0]) then [names[0]] else []) + Failures(rs[1..], names[1..])
  }

  /** The failed items whose name is falsy, which `filter(Boolean)` drops from `failed`. */
  function DroppedFailures(rs: seq<Settled>, names: seq<Json>): nat
    requires |rs| == |names|
  {
    if rs == [] then 0
    else (if rs[0].Failed? && !Truthy(names[0]) then 1 else 0) + DroppedFailures(rs[1..], names[1..])
  }

  /** The success/failed split respects concatenation, so both lists keep the order of the input. */
  lemma {:induction false} SplitDistributes(rs: seq<Settled>, rs': seq<Settled>, names: seq<Json>, names': seq<Json>)
    requires |rs| == |names| && |rs'| == |names'|
    ensures Successes(rs + rs') == Successes(rs) + Successes(rs')
    ensures Failures(rs + rs', names + names') == Failures(rs, names) + Failures(rs', names')
  {
    if rs != [] {
      assert (rs + rs')[1..] == rs[1..] + rs';
      assert (names + names')[1..] == names[1..] + names';
      SplitDistributes(rs[1..], rs', names[1..], names');
    } else {
      assert rs + rs' == rs' && names + names' == names';
    }
  }

  /** An item is in `success` exactly when some input position fulfilled with it. */
  lemma {:induction false} SuccessMembership(rs: seq<Settled>, x: BatchItem)
    ensures x in Successes(rs) <==> Fulfilled(x) in rs
  {
    if rs != [] {
      SuccessMembership(rs[1..], x);
      assert rs == [rs[0]] + rs[1..];
    }
  }

  /** Every item is counted once: in `success`, in `failed`, or among the dropped falsy names. */
  lemma {:induction false} PartitionSizes(rs: seq<Settled>, names: seq<Json>)
    requires |rs| == |names|
    ensures |Successes(rs)| + |Failures(rs, names)| + DroppedFailures(rs, names) == |rs|
  {
    if rs != [] {
      PartitionSizes(rs[1..], names[1..]);
    }
  }

  /** Nothing is dropped exactly when every failed item has a truthy name. */
  lemma {:induction false} NothingDropped(rs: seq<Settled>, names: seq<Json>)
    requires |rs| == |names|
    ensures DroppedFailures(rs, names) == 0 <==> forall i :: 0 <= i < |rs| && rs[i].Failed? ==> Truthy(names[i])
  {
    if rs != [] {
      NothingDropped(rs[1..], names[1..]);
      assert forall i :: 1 <= i < |rs| ==> rs[i] == rs[1..][i - 1] && names[i] == names[1..][i - 1];
    }
  }

  /** `successCount + |failed| == total` exactly when no failing name is falsy. */
  lemma AllAccountedFor(rs: seq<Settled>, names: seq<Json>)
    requires |rs| == |names|
    ensures |Successes(rs)| + |Failures(rs, names)| == |rs|
            <==> forall i :: 0 <= i < |rs| && rs[i].Failed? ==> Truthy(names[i])
  {
    PartitionSizes(rs, names);
    NothingDropped(rs, names);
  }

  /** A batch whose every item fulfils has every name in `success`, in input order, and nothing failed. */
  lemma {:induction false} AllFulfilled(rs: seq<Settled>, names: seq<Json>)
    requires |rs| == |names|
    requires forall i :: 0 <= i < |rs| ==> rs[i].Fulfilled? && names[i] == JStr(rs[i].item.name)
    ensures |Successes(rs)| == |names| && Failures(rs, names) == []
    ensures forall i :: 0 <= i < |names| ==> names[i] == JStr(Successes(rs)[i].name)
  {
    if rs != [] {
      AllFulfilled(rs[1..], names[1..]);
      assert forall i :: 1 <= i < |rs| ==> rs[i] == rs[1..][i - 1] && names[i] == names[1..][i - 1];
    }
  }

  // ---------------------------------------------------------------------------
  // The cache writes of the misses

  /** Position `i` of the results is a fetched item that writes `key`. */
  predicate WritesKey(rs: seq<Settled>, i: int, key: string)
  {
    0 <= i < |rs| && rs[i].Fulfilled? && rs[i].item.source == FromApi && DetailsKey(rs[i].item.name) == key
  }

  /** `this.cache.set(cacheKey, response.data)` for every fetched item, in input order. */
  function WriteBack(entries: map<string, Entry<Payload>>, rs: seq<Settled>, expiresAt: int): map<string, Entry<Payload>>
    decreases |rs|
  {
    if rs == [] then entries
    else
      var prev := WriteBack(entries, rs[..|rs| - 1], expiresAt);
      var last := rs[|rs| - 1];
      if last.Fulfilled? && last.item.source == FromApi
      then prev[DetailsKey(last.item.name) := Entry(last.item.data, expiresAt)]
      else prev
  }

  /** A key no item writes keeps its entry; a key whose every write carries `v` ends up holding `v`. */
  lemma {:induction false} WriteBackAt(entries: map<string, Entry<Payload>>, rs: seq<Settled>, expiresAt: int, key: string, v: Payload)
    requires forall i :: WritesKey(rs, i, key) ==> rs[i].item.data == v
    ensures (forall i :: !WritesKey(rs, i, key)) ==>
              (key in WriteBack(entries, rs, expiresAt) <==> key in entries) &&
              (key in entries ==> WriteBack(entries, rs, expiresAt)[key] == entries[key])
    ensures (exists i :: WritesKey(rs, i, key)) ==>
              key in WriteBack(entries, rs, expiresAt) && WriteBack(entries, rs, expiresAt)[key] == Entry(v, expiresAt)
    decreases |rs|
  {
    if rs != [] {
      var init := rs[..|rs| - 1];
      assert forall i :: WritesKey(init, i, key) ==> WritesKey(rs, i, key);
      WriteBackAt(entries, init, expiresAt, key, v);
      if (exists i :: WritesKey(rs, i, key)) && !WritesKey(rs, |rs| - 1, key) {
        var i :| WritesKey(rs, i, key);
        assert WritesKey(init, i, key);
      }
      if forall i :: !WritesKey(rs, i, key) {
        assert !WritesKey(rs, |rs| - 1, key);
      }
    }
  }

  /**
   * The writes of one batch agree on every key: all items that write a key fetched the
   * same lower-cased name. As `upstream` gives one answer per name, the cache after the
   * batch then does not depend on the order in which the concurrent fetches complete;
   * a provider answering one name differently within a batch is outside the model.
   */
  lemma WritesAgree(entries: map<string, Entry<Payload>>, now: int, names: seq<Json>, upstream: string -> Fetch<Json>, i: int, j: int, key: string)
    requires var rs := ResolveAll(entries, now, names, upstream); WritesKey(rs, i, key) && WritesKey(rs, j, key)
    ensures var rs := ResolveAll(entries, now, names, upstream); rs[i].item.data == rs[j].item.data
  {
    var rs := ResolveAll(entries, now, names, upstream);
    DetailsKeyNormalises(rs[i].item.name, rs[j].item.name);
    LowerIdentifiesCaseVariants(rs[i].item.name, rs[j].item.name);
  }
}
