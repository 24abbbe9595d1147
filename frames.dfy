/**
 * The `frame` dict of a stage report: activity rows in insertion order,
 * each a list of weekly values. Python dicts keep insertion order, and
 * assigning to an existing key keeps its position.
 */
module Frames {
  import opened Wrappers

  const SymptomKey := "Symptom check-in (daily)"
  const QuestionsKey := "Daily questions (1-5 Q)"
  const QuestionnaireKey := "Weekly/bimonthly questionnaire"
  const WeightKey := "Weight(per week)"
  const BpKey := "BP (per week)"
  const OuraKey := "Oura - Smart ring wear (~19h/day)"
  const UhKey := "UH - Smart ring wear (~19h/day)"
  /** The key the vendor-API branches use. */
  const RingApiKey := "Smart ring wear (~19h/day)"

  /** The row keys have pairwise different lengths, so they are pairwise distinct. */
  lemma KeyLengths()
    ensures |SymptomKey| == 24 && |QuestionsKey| == 23 && |QuestionnaireKey| == 30 && |WeightKey| == 16
    ensures |BpKey| == 13 && |OuraKey| == 33 && |UhKey| == 31 && |RingApiKey| == 26
  {
  }

  /** One row of the matrix: the activity and its weekly values. */
  datatype Row = Row(key: string, values: seq<real>)

  function Reals(s: seq<int>): (r: seq<real>)
    ensures |r| == |s| && forall i :: 0 <= i < |s| ==> r[i] == s[i] as real
  {
    seq(|s|, i requires 0 <= i < |s| => s[i] as real)
  }

  class Frame {
    var keys: seq<string>
    var cells: map<string, seq<real>>

    /** The keys are distinct and each has its row in `cells`; `keys` decides membership. */
    ghost predicate Valid()
      reads this
    {
      (forall k :: k in keys ==> k in cells)
      && (forall i, j :: 0 <= i < j < |keys| ==> keys[i] != keys[j])
    }

    constructor ()
      ensures Valid() && keys == [] && cells == map[]
    {
      keys := [];
      cells := map[];
    }

    /** A dict literal {k1: v1, ...}: its rows inserted in order into an empty frame. */
    constructor FromRows(rows: seq<Row>)
      requires forall i, j :: 0 <= i < j < |rows| ==> rows[i].key != rows[j].key
      ensures Valid() && Table() == rows
    {
      keys := [];
      cells := map[];
      new;
      var n := 0;
      while n < |rows|
        invariant 0 <= n <= |rows|
        invariant Valid() && Table() == rows[..n]
      {
        assert rows[n].key !in keys by {
          forall j | 0 <= j < |keys| ensures keys[j] != rows[n].key {
            assert keys[j] == Table()[j].key == rows[j].key;
          }
        }
        ghost var before := Table();
        Put(rows[n].key, rows[n].values);
        assert Table() == before + [rows[n]];
        assert rows[..n + 1] == rows[..n] + [rows[n]];
        n := n + 1;
      }
      assert rows[..n] == rows;
    }

    /** The rows in insertion order (what DataFrame(frame) sees). */
    function Table(): (t: seq<Row>)
      reads this
      requires Valid()
      ensures |t| == |keys|
      ensures forall i :: 0 <= i < |t| ==> t[i].key == keys[i] && t[i].values == cells[keys[i]]
    {
      seq(|keys|, i requires 0 <= i < |keys| reads this requires Valid() => Row(keys[i], cells[keys[i]]))
    }

    /** frame[key] = values: replace in place, or append a new key at the end. */
    method Put(key: string, values: seq<real>)
      requires Valid()
      modifies this
      ensures Valid()
      ensures keys == if key in old(keys) then old(keys) else old(keys) + [key]
      ensures cells == old(cells)[key := values]
      ensures key !in old(keys) ==> Table() == old(Table()) + [Row(key, values)]
    {
      if key !in keys {
        keys := keys + [key];
      }
      cells := cells[key := values];
    }

    /** frame[key]: the values of the table's row for key, or KeyError when no row has that key. */
    method Get(key: string) returns (r: Result<seq<real>>)
      requires Valid()
      ensures r.Ok? <==> exists i :: 0 <= i < |Table()| && Table()[i].key == key
      ensures forall i :: 0 <= i < |Table()| && Table()[i].key == key ==> r == Ok(Table()[i].values)
      ensures r.Err? ==> r.error == KeyError(key)
    {
      if key in keys {
        ghost var i :| 0 <= i < |keys| && keys[i] == key;
        assert Table()[i].key == key;
        r := Ok(cells[key]);
      } else {
        r := Err(KeyError(key));
      }
    }
  }
}
