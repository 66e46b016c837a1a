/**
 * A flat record of named attributes whose keys keep their insertion order: the
 * lead record as a JavaScript object in the client (`Object.keys`, object
 * spread) and as the decoded JSON dictionary in the backend (`dict.keys()`).
 */
module Records {
  import opened Wrappers

  /** An attribute value: a string, a number or a boolean. */
  datatype Value = Str(s: string) | Num(n: real) | Bool(b: bool)

  datatype Entry = Entry(key: string, value: Value)

  /** Entries in insertion order. */
  type Record = seq<Entry>

  function Keys(rec: Record): (ks: seq<string>)
    ensures |ks| == |rec|
    ensures forall i :: 0 <= i < |rec| ==> ks[i] == rec[i].key
  {
    seq(|rec|, i requires 0 <= i < |rec| => rec[i].key)
  }

  /** Every key occurs once, as in any JavaScript object or Python dict. */
  predicate DistinctKeys(rec: Record)
  {
    forall i, j :: 0 <= i < j < |rec| ==> rec[i].key != rec[j].key
  }

  /** The position of the first entry with key `k`, if any. */
  function IndexOf(rec: Record, k: string): (r: Option<nat>)
    ensures r.Some? ==> r.value < |rec| && rec[r.value].key == k
    ensures r.Some? ==> forall j :: 0 <= j < r.value ==> rec[j].key != k
    ensures r.None? ==> forall j :: 0 <= j < |rec| ==> rec[j].key != k
  {
    if |rec| == 0 then None
    else if rec[0].key == k then Some(0)
    else match IndexOf(rec[1..], k)
      case None => None
      case Some(i) => Some(i + 1)
  }

  /** `rec[k]`, None for a missing key. */
  function Lookup(rec: Record, k: string): Option<Value>
  {
    match IndexOf(rec, k)
    case None => None
    case Some(i) => Some(rec[i].value)
  }

  /**
   * `{...rec, [k]: v}`: an existing key keeps its place and takes the new
   * value; a new key is added last.
   */
  function Put(rec: Record, k: string, v: Value): Record
  {
    match IndexOf(rec, k)
    case Some(i) => rec[i := Entry(k, v)]
    case None => rec + [Entry(k, v)]
  }

  /** The first `n` keys in order (`Object.keys(r).slice(0, n)`, `list(d.keys())[:n]`). */
  function FirstKeys(rec: Record, n: nat): (ks: seq<string>)
    ensures |ks| == if |rec| < n then |rec| else n
    ensures ks <= Keys(rec)
  {
    Keys(rec)[..if |rec| < n then |rec| else n]
  }

  /** After `Put(rec, k, v)` the key `k` reads back `v`. */
  lemma PutThenLookup(rec: Record, k: string, v: Value)
    ensures Lookup(Put(rec, k, v), k) == Some(v)
  {
    var r := Put(rec, k, v);
    match IndexOf(rec, k)
    case Some(i) =>
      assert r[i].key == k;
      assert forall j :: 0 <= j < i ==> r[j].key != k;
      assert IndexOf(r, k) == Some(i) by { IndexOfFirst(r, k, i); }
    case None =>
      assert IndexOf(r, k) == Some(|rec|) by { IndexOfFirst(r, k, |rec|); }
  }

  /** `Put(rec, k, v)` leaves every other key as it was, including missing ones. */
  lemma PutKeepsOthers(rec: Record, k: string, v: Value, other: string)
    requires other != k
    ensures Lookup(Put(rec, k, v), other) == Lookup(rec, other)
  {
    var r := Put(rec, k, v);
    assert forall j :: 0 <= j < |rec| ==> (r[j].key == other <==> rec[j].key == other);
    match IndexOf(rec, other)
    case Some(i) =>
      IndexOfFirst(r, other, i);
    case None =>
      assert forall j :: 0 <= j < |r| ==> r[j].key != other;
  }

  /** Updating an existing key keeps the key order; a new key is appended. */
  lemma PutKeys(rec: Record, k: string, v: Value)
    ensures k in Keys(rec) ==> Keys(Put(rec, k, v)) == Keys(rec)
    ensures k !in Keys(rec) ==> Keys(Put(rec, k, v)) == Keys(rec) + [k]
  {
    if k !in Keys(rec) {
      assert IndexOf(rec, k).None?;
    }
  }

  /** `Put` keeps keys distinct. */
  lemma PutDistinct(rec: Record, k: string, v: Value)
    requires DistinctKeys(rec)
    ensures DistinctKeys(Put(rec, k, v))
  {
  }

  /** With distinct keys, looking up the key of any entry finds that entry's value. */
  lemma LookupDistinct(rec: Record, i: nat)
    requires DistinctKeys(rec) && i < |rec|
    ensures Lookup(rec, rec[i].key) == Some(rec[i].value)
  {
    IndexOfFirst(rec, rec[i].key, i);
  }

  /** The first entry carrying `k` is where `IndexOf` stops. */
  lemma {:induction false} IndexOfFirst(rec: Record, k: string, i: nat)
    requires i < |rec| && rec[i].key == k
    requires forall j :: 0 <= j < i ==> rec[j].key != k
    ensures IndexOf(rec, k) == Some(i)
  {
    if i > 0 {
      IndexOfFirst(rec[1..], k, i - 1);
    }
  }
}
