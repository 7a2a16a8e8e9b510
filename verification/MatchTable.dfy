/** The table of publisher ids that advertiser ids are matched against. */
module MatchTable {
  import opened Results

  datatype ValueInfo<+V> = ValueInfo(value: V, isMatched: bool)

  /** The table after a run has marked the keys `marked`. */
  ghost function Marked<K, V>(table: map<K, ValueInfo<V>>, marked: set<K>): map<K, ValueInfo<V>> {
    map k | k in table :: ValueInfo(table[k].value, table[k].isMatched || k in marked)
  }

  ghost function MatchedKeys<K, V>(table: map<K, ValueInfo<V>>): set<K> {
    set k | k in table && table[k].isMatched
  }

  /** What `MarkMatched` does to the table. */
  function Mark<K, V>(table: map<K, ValueInfo<V>>, key: K): map<K, ValueInfo<V>> {
    if key in table then table[key := ValueInfo(table[key].value, true)] else table
  }

  lemma MarkOne<K, V>(table: map<K, ValueInfo<V>>, marked: set<K>, key: K)
    ensures Mark(Marked(table, marked), key) == Marked(table, marked + {key})
  {
  }

  lemma MarkNone<K, V>(table: map<K, ValueInfo<V>>)
    ensures Marked(table, {}) == table
  {
  }

  ghost predicate Visited<K, V>(visits: seq<(K, V)>, key: K) {
    exists i :: 0 <= i < |visits| && visits[i].0 == key
  }

  /** The visits are those of the matched pairs, each once. */
  ghost predicate VisitsMatched<K, V>(table: map<K, ValueInfo<V>>, visits: seq<(K, V)>) {
    && (forall i, j :: 0 <= i < j < |visits| ==> visits[i].0 != visits[j].0)
    && (forall i :: 0 <= i < |visits| ==>
          visits[i].0 in MatchedKeys(table) && visits[i].1 == table[visits[i].0].value)
    && (forall k :: k in table && table[k].isMatched ==> Visited(visits, k))
  }

  lemma MarkAppend<K, V>(table: map<K, ValueInfo<V>>, key: K, marked: set<K>)
    ensures Marked(Mark(table, key), marked) == Marked(table, {key} + marked)
  {
  }

  class MatchTableHashMap<K(==), V> {
    var data: map<K, ValueInfo<V>>

    constructor ()
      ensures data == map[]
    {
      data := map[];
    }

    /** Adds a pair unless its key is there already. */
    method AddElement(key: K, value: V) returns (result: ExecutionResult)
      modifies this
      ensures if key in old(data)
              then result == Failure(ElementAlreadyExists) && data == old(data)
              else result == Success && data == old(data)[key := ValueInfo(value, false)]
    {
      if key in data {
        return Failure(ElementAlreadyExists);
      }
      data := data[key := ValueInfo(value, false)];
      return Success;
    }

    /** Flags a key as matched and yields its value. */
    method MarkMatched(key: K) returns (value: ResultOr<V>)
      modifies this
      ensures data == Mark(old(data), key)
      ensures value == if key in old(data) then Ok(old(data)[key].value) else Err(Failure(ElementDoesNotExist))
    {
      if key in data {
        data := data[key := ValueInfo(data[key].value, true)];
        return Ok(data[key].value);
      }
      return Err(Failure(ElementDoesNotExist));
    }

    /** Visits every matched pair once, in some order; `visits` records the visitor's calls. */
    method VisitMatched() returns (visits: seq<(K, V)>)
      ensures VisitsMatched(data, visits)
    {
      visits := [];
      var left := data.Keys;
      while left != {}
        invariant left <= data.Keys
        invariant forall i, j :: 0 <= i < j < |visits| ==> visits[i].0 != visits[j].0
        invariant forall i :: 0 <= i < |visits| ==>
          && visits[i].0 in MatchedKeys(data) - left
          && visits[i].1 == data[visits[i].0].value
        invariant forall k :: k in MatchedKeys(data) - left ==> Visited(visits, k)
        decreases |left|
      {
        var key :| key in left;
        ghost var before := visits;
        left := left - {key};
        if data[key].isMatched {
          visits := visits + [(key, data[key].value)];
          assert visits[|before|].0 == key;
        }
        forall k | k in MatchedKeys(data) - left
          ensures Visited(visits, k)
        {
          if k != key {
            assert k in MatchedKeys(data) - (left + {key}) && Visited(before, k);
            var i :| 0 <= i < |before| && before[i].0 == k;
            assert visits[i].0 == k;
          }
        }
      }
    }
  }
}
