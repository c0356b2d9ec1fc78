/**
 * The map a layout hands to the formatter: an insertion-ordered map from
 * field names to JSON values, as a linked hash map keeps it. Putting a key
 * that is already there replaces its value where it stands; putting a new key
 * appends it at the end.
 */
module Document {
  import opened Wrappers
  import opened Json

  type Document = seq<(string, Json)>

  function Keys(d: Document): (ks: seq<string>)
    ensures |ks| == |d|
    ensures forall i | 0 <= i < |d| :: ks[i] == d[i].0
  {
    if d == [] then [] else [d[0].0] + Keys(d[1..])
  }

  /** No key occurs twice, as in any map. */
  predicate UniqueKeys(d: Document) {
    forall i, j | 0 <= i < j < |d| :: d[i].0 != d[j].0
  }

  /** The value stored under k, if any (the first entry with that key). */
  function Lookup(d: Document, k: string): (r: Option<Json>)
    ensures r.Some? <==> k in Keys(d)
    ensures r.Some? ==> exists i | 0 <= i < |d| :: d[i] == (k, r.value)
  {
    if d == [] then None
    else if d[0].0 == k then Some(d[0].1)
    else Lookup(d[1..], k)
  }

  /**
   * Associating v with k. A key already present keeps its position and only
   * its value changes; a new key goes last. Every other entry stays where it is.
   */
  function Put(d: Document, k: string, v: Json): (r: Document)
    ensures k in Keys(d) ==> Keys(r) == Keys(d)
    ensures k !in Keys(d) ==> Keys(r) == Keys(d) + [k]
    ensures forall i | 0 <= i < |d| && d[i].0 != k :: r[i] == d[i]
  {
    if d == [] then [(k, v)]
    else if d[0].0 == k then [(k, v)] + d[1..]
    else
      assert Keys(d) == [d[0].0] + Keys(d[1..]);
      [d[0]] + Put(d[1..], k, v)
  }

  /** After a put, k maps to v and every other key keeps its value. */
  lemma {:induction false} PutLookup(d: Document, k: string, v: Json, k': string)
    ensures Lookup(Put(d, k, v), k') == if k' == k then Some(v) else Lookup(d, k')
    decreases |d|
  {
    if d != [] && d[0].0 != k {
      PutLookup(d[1..], k, v, k');
      assert Put(d, k, v)[1..] == Put(d[1..], k, v);
    }
  }

  /** A put keeps the keys of a map unique. */
  lemma PutUnique(d: Document, k: string, v: Json)
    requires UniqueKeys(d)
    ensures UniqueKeys(Put(d, k, v))
  {
    var r := Put(d, k, v);
    var ks := Keys(r);
    if k in Keys(d) {
      assert forall i, j | 0 <= i < j < |r| :: r[i].0 == ks[i] && r[j].0 == ks[j] && ks[i] == d[i].0 && ks[j] == d[j].0;
    } else {
      assert forall i | 0 <= i < |d| :: d[i].0 != k;
      forall i, j | 0 <= i < j < |r| ensures r[i].0 != r[j].0 {
        assert r[i].0 == ks[i] && r[j].0 == ks[j];
        if j == |d| {
          assert ks[j] == k && ks[i] == d[i].0;
        } else {
          assert ks[i] == d[i].0 && ks[j] == d[j].0;
        }
      }
    }
  }
}
