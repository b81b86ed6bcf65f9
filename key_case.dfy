/**
 * index.js:271-299: the reply object of `/api/fix-food` has its capitalised
 * keys moved to lower case, pair by pair: `Ingredients`, `Name`, `Calories`,
 * `Protein`, `Fat`, `Carbs`.  A pair moves when the capitalised value is truthy
 * and the lower-case one is not; the capitalised key is then deleted.
 */
module KeyCase {
  import opened Wrappers
  import opened JsValues

  type Fields = map<string, Json>

  /** `obj[key]`, `None` for an absent key. */
  function Get(f: Fields, key: string): (r: Option<Json>)
    ensures r.Some? <==> key in f
    ensures r.Some? ==> r.value == f[key]
  {
    if key in f then Some(f[key]) else None
  }

  /** The six pairs, in the order the handler tests them. */
  const KeyPairs: seq<(string, string)> := [
    ("Ingredients", "ingredients"), ("Name", "name"), ("Calories", "calories"),
    ("Protein", "protein"), ("Fat", "fat"), ("Carbs", "carbs")]

  /** `obj.Upper && !obj.lower`. */
  predicate Moves(f: Fields, upper: string, lower: string) {
    Present(Get(f, upper)) && !Present(Get(f, lower))
  }

  /** One `if` block: copy `Upper` to `lower` and delete `Upper`, when it moves. */
  function MoveKey(f: Fields, upper: string, lower: string): Fields
    requires upper != lower
  {
    if Moves(f, upper, lower) then f[lower := f[upper]] - {upper} else f
  }

  /** The two keys of a pair, and every other key, after one block. */
  lemma {:induction false} MoveKeyEffect(f: Fields, upper: string, lower: string)
    requires upper != lower
    ensures Moves(f, upper, lower) ==> Get(MoveKey(f, upper, lower), lower) == Get(f, upper) && Get(MoveKey(f, upper, lower), upper).None?
    ensures !Moves(f, upper, lower) ==> MoveKey(f, upper, lower) == f
    ensures forall k :: k != upper && k != lower ==> Get(MoveKey(f, upper, lower), k) == Get(f, k)
    ensures !Moves(MoveKey(f, upper, lower), upper, lower)
  {
  }

  /** The keys of a sequence of pairs are all different. */
  predicate Disjoint(pairs: seq<(string, string)>) {
    (forall i :: 0 <= i < |pairs| ==> pairs[i].0 != pairs[i].1)
    && (forall i, j :: 0 <= i < j < |pairs| ==>
          pairs[i].0 != pairs[j].0 && pairs[i].0 != pairs[j].1
          && pairs[i].1 != pairs[j].0 && pairs[i].1 != pairs[j].1)
  }

  /** No key appears twice among the six pairs. */
  lemma {:induction false} KeyPairsDisjoint()
    ensures Disjoint(KeyPairs)
  {
    var p := KeyPairs;
    forall i, j | 0 <= i < j < |p|
      ensures p[i].0 != p[j].0 && p[i].0 != p[j].1 && p[i].1 != p[j].0 && p[i].1 != p[j].1
    {
      if i == 0 { } else if i == 1 { } else if i == 2 { } else if i == 3 { } else { }
    }
  }

  predicate InPairs(pairs: seq<(string, string)>, k: string) {
    exists i :: 0 <= i < |pairs| && (k == pairs[i].0 || k == pairs[i].1)
  }

  /** The blocks for `pairs`, one after the other. */
  function MoveAll(f: Fields, pairs: seq<(string, string)>): Fields
    requires Disjoint(pairs)
    decreases |pairs|
  {
    if pairs == [] then f
    else MoveAll(MoveKey(f, pairs[0].0, pairs[0].1), pairs[1..])
  }

  /** The normalised object; only objects are changed, since other values have none of the keys. */
  function NormalisedKeyCase(f: Fields): Fields
  {
    KeyPairsDisjoint();
    MoveAll(f, KeyPairs)
  }

  /** Keys outside the pairs keep their values. */
  lemma {:induction false} MoveAllOutside(f: Fields, pairs: seq<(string, string)>, k: string)
    requires Disjoint(pairs) && !InPairs(pairs, k)
    ensures Get(MoveAll(f, pairs), k) == Get(f, k)
    decreases |pairs|
  {
    if pairs != [] {
      MoveKeyEffect(f, pairs[0].0, pairs[0].1);
      assert !InPairs(pairs[1..], k) by {
        forall i | 0 <= i < |pairs[1..]|
          ensures k != pairs[1..][i].0 && k != pairs[1..][i].1
        {
          assert pairs[1..][i] == pairs[i + 1];
        }
      }
      MoveAllOutside(MoveKey(f, pairs[0].0, pairs[0].1), pairs[1..], k);
    }
  }

  /** A pair's two keys end as that pair's own block leaves them. */
  lemma {:induction false} MoveAllPair(f: Fields, pairs: seq<(string, string)>, i: nat)
    requires Disjoint(pairs) && i < |pairs|
    ensures Get(MoveAll(f, pairs), pairs[i].0) == Get(MoveKey(f, pairs[i].0, pairs[i].1), pairs[i].0)
    ensures Get(MoveAll(f, pairs), pairs[i].1) == Get(MoveKey(f, pairs[i].0, pairs[i].1), pairs[i].1)
    decreases |pairs|
  {
    var g := MoveKey(f, pairs[0].0, pairs[0].1);
    var rest := pairs[1..];
    if i == 0 {
      forall k | k == pairs[0].0 || k == pairs[0].1
        ensures !InPairs(rest, k)
      {
        forall j | 0 <= j < |rest|
          ensures k != rest[j].0 && k != rest[j].1
        {
          assert rest[j] == pairs[j + 1];
        }
      }
      MoveAllOutside(g, rest, pairs[0].0);
      MoveAllOutside(g, rest, pairs[0].1);
    } else {
      assert rest[i - 1] == pairs[i];
      MoveAllPair(g, rest, i - 1);
      var u, l := pairs[i].0, pairs[i].1;
      MoveKeyEffect(f, pairs[0].0, pairs[0].1);
      assert Get(g, u) == Get(f, u) && Get(g, l) == Get(f, l);
      assert Moves(g, u, l) == Moves(f, u, l);
      MoveKeyEffect(g, u, l);
      MoveKeyEffect(f, u, l);
    }
  }

  /** Maps that agree on every key are equal. */
  lemma {:induction false} SameEntries(a: Fields, b: Fields)
    requires forall k :: Get(a, k) == Get(b, k)
    ensures a == b
  {
    assert a.Keys == b.Keys by {
      forall k | k in a.Keys ensures k in b.Keys { assert Get(a, k).Some?; }
      forall k | k in b.Keys ensures k in a.Keys { assert Get(b, k).Some?; }
    }
    forall k | k in a.Keys ensures a[k] == b[k] { assert Get(a, k) == Get(b, k); }
  }

  /** Running the blocks a second time changes nothing. */
  lemma {:induction false} MoveAllIdempotent(f: Fields, pairs: seq<(string, string)>)
    requires Disjoint(pairs)
    ensures MoveAll(MoveAll(f, pairs), pairs) == MoveAll(f, pairs)
  {
    var g := MoveAll(f, pairs);
    forall k
      ensures Get(MoveAll(g, pairs), k) == Get(g, k)
    {
      if InPairs(pairs, k) {
        var i :| 0 <= i < |pairs| && (k == pairs[i].0 || k == pairs[i].1);
        var u, l := pairs[i].0, pairs[i].1;
        MoveAllPair(f, pairs, i);
        MoveAllPair(g, pairs, i);
        MoveKeyEffect(f, u, l);
        // g agrees with MoveKey(f, u, l) on u and l, where that pair no longer moves
        assert !Moves(g, u, l);
        MoveKeyEffect(g, u, l);
      } else {
        MoveAllOutside(g, pairs, k);
      }
    }
    SameEntries(MoveAll(g, pairs), g);
  }

  /**
   * For each of the six pairs: the value moves to the lower-case key and the
   * capitalised key goes, exactly when the capitalised value is truthy and the
   * lower-case one is not; otherwise both keys are left as they were.
   */
  lemma {:induction false} NormalisedPair(f: Fields, i: nat)
    requires i < |KeyPairs|
    ensures var (u, l) := KeyPairs[i]; var r := NormalisedKeyCase(f);
      Moves(f, u, l) ==> Get(r, l) == Get(f, u) && Get(r, u).None?
    ensures var (u, l) := KeyPairs[i]; var r := NormalisedKeyCase(f);
      !Moves(f, u, l) ==> Get(r, u) == Get(f, u) && Get(r, l) == Get(f, l)
  {
    KeyPairsDisjoint();
    MoveAllPair(f, KeyPairs, i);
    MoveKeyEffect(f, KeyPairs[i].0, KeyPairs[i].1);
  }

  /** Keys outside the six pairs are untouched. */
  lemma {:induction false} NormalisedOutside(f: Fields, k: string)
    requires forall i :: 0 <= i < |KeyPairs| ==> k != KeyPairs[i].0 && k != KeyPairs[i].1
    ensures Get(NormalisedKeyCase(f), k) == Get(f, k)
  {
    KeyPairsDisjoint();
    MoveAllOutside(f, KeyPairs, k);
  }

  /** Normalising twice is normalising once. */
  lemma {:induction false} NormalisedIdempotent(f: Fields)
    ensures NormalisedKeyCase(NormalisedKeyCase(f)) == NormalisedKeyCase(f)
  {
    KeyPairsDisjoint();
    MoveAllIdempotent(f, KeyPairs);
  }

  /** The parsed reply object, whose properties the handler assigns and deletes in place. */
  class ReplyObject {
    var fields: Fields

    constructor(fields: Fields)
      ensures this.fields == fields
    {
      this.fields := fields;
    }

    /** `if (obj.Upper && !obj.lower) { obj.lower = obj.Upper; delete obj.Upper; }` */
    method MoveKeyCase(upper: string, lower: string)
      requires upper != lower
      modifies this
      ensures fields == MoveKey(old(fields), upper, lower)
    {
      if Present(Get(fields, upper)) && !Present(Get(fields, lower)) {
        fields := fields[lower := fields[upper]];
        fields := fields - {upper};
      }
    }

    /** The six blocks of index.js:271-299, in order. */
    method NormaliseKeyCase()
      modifies this
      ensures fields == NormalisedKeyCase(old(fields))
    {
      MoveKeyCase("Ingredients", "ingredients");
      MoveKeyCase("Name", "name");
      MoveKeyCase("Calories", "calories");
      MoveKeyCase("Protein", "protein");
      MoveKeyCase("Fat", "fat");
      MoveKeyCase("Carbs", "carbs");
      KeyPairsDisjoint();
    }
  }
}
