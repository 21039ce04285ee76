/**
 * The output record both readers build: a Python dict from input titles to
 * channel values, filled by `_set_dict_val` (opto_read.py) or by the same
 * test written inline (opto.py), one configured input after another.
 */
module Dicts {
  import opened Wrappers

  /** A Python dict with string keys: its values and the order keys were inserted in. */
  datatype Dict<V> = Dict(keys: seq<string>, vals: map<string, V>)

  function EmptyDict<V>(): Dict<V>
  {
    Dict([], map[])
  }

  /** Each key is listed once, and the listed keys are exactly the keys. */
  ghost predicate WellFormed<V>(d: Dict<V>)
  {
    && (forall i, j :: 0 <= i < j < |d.keys| ==> d.keys[i] != d.keys[j])
    && (forall k :: k in d.vals <==> k in d.keys)
  }

  /** `d[k] = v`: a new key goes last, an existing key keeps its place. */
  function Put<V>(d: Dict<V>, k: string, v: V): (r: Dict<V>)
    ensures WellFormed(d) ==> WellFormed(r)
    ensures r.vals == d.vals[k := v]
    ensures d.keys <= r.keys
  {
    Dict(if k in d.vals then d.keys else d.keys + [k], d.vals[k := v])
  }

  /** `s[i]` on a Python list: a negative i counts from the end; out of range is IndexError. */
  function PyIndex<T>(s: seq<T>, i: int): (r: Result<T, ReadError>)
    ensures r.Ok? <==> -|s| <= i < |s|
    ensures r.Ok? ==> r.value == (if i >= 0 then s[i] else s[|s| + i])
  {
    if 0 <= i < |s| then Ok(s[i])
    else if -|s| <= i < 0 then Ok(s[|s| + i])
    else Err(IndexError)
  }

  /**
   * `_set_dict_val(to_dict, from_list, index, key)`: writes
   * `to_dict[key] = from_list[index]` when `index < len(from_list)` and
   * otherwise leaves the dict alone.  The guard lets a negative index
   * through, so Python's indexing reads from the end of the list, and an
   * index below `-len(from_list)` raises IndexError.
   */
  function SetDictVal<V>(d: Dict<V>, fromList: seq<V>, index: int, key: string)
    : (r: Result<Dict<V>, ReadError>)
    ensures r.Err? <==> index < -|fromList|
    ensures index >= |fromList| ==> r == Ok(d)
    ensures 0 <= index < |fromList| ==>
              r.Ok? && key in r.value.vals && r.value.vals[key] == fromList[index]
    ensures r.Ok? && index < |fromList| ==>
              key in r.value.vals && Ok(r.value.vals[key]) == PyIndex(fromList, index)
    ensures r.Ok? ==> forall k :: k != key ==> (k in r.value.vals <==> k in d.vals)
    ensures r.Ok? ==> forall k :: k != key && k in d.vals ==> r.value.vals[k] == d.vals[k]
    ensures r.Ok? && WellFormed(d) ==> WellFormed(r.value)
  {
    if index < |fromList| then
      var v :- PyIndex(fromList, index);
      Ok(Put(d, key, v))
    else
      Ok(d)
  }

  /** One configured input: the key to write and the list and index it reads. */
  datatype Pick<V> = Pick(key: string, index: int, from: seq<V>)

  /** The pick passes the `index < len` test and the list has that element. */
  predicate Writes<V>(p: Pick<V>)
  {
    -|p.from| <= p.index < |p.from|
  }

  /** The pick passes the `index < len` test but indexing raises IndexError. */
  predicate Raises<V>(p: Pick<V>)
  {
    p.index < -|p.from|
  }

  /** The element a writing pick reads. */
  function Picked<V>(p: Pick<V>): V
    requires Writes(p)
  {
    PyIndex(p.from, p.index).value
  }

  /** The dict built from an empty one by `_set_dict_val` for each pick, in order. */
  function FillDict<V>(picks: seq<Pick<V>>): (r: Result<Dict<V>, ReadError>)
    ensures r.Ok? ==> WellFormed(r.value)
  {
    if picks == [] then
      Ok(EmptyDict())
    else
      var d :- FillDict(picks[..|picks| - 1]);
      var p := picks[|picks| - 1];
      SetDictVal(d, p.from, p.index, p.key)
  }

  /** Building the dict raises exactly when some pick raises. */
  lemma {:induction false} FillDictFails<V>(picks: seq<Pick<V>>)
    ensures FillDict(picks).Err? <==> exists i :: 0 <= i < |picks| && Raises(picks[i])
  {
    if picks != [] {
      var init := picks[..|picks| - 1];
      FillDictFails(init);
      if exists i :: 0 <= i < |init| && Raises(init[i]) {
        var i :| 0 <= i < |init| && Raises(init[i]);
        assert Raises(picks[i]);
      }
      if exists i :: 0 <= i < |picks| && Raises(picks[i]) {
        var i :| 0 <= i < |picks| && Raises(picks[i]);
        if i < |init| {
          assert Raises(init[i]);
        }
      }
    }
  }

  /**
   * A built dict is well formed, holds no more keys than there are picks,
   * and every key in it is the key of some pick that wrote.
   */
  lemma {:induction false} FillDictKeys<V>(picks: seq<Pick<V>>)
    requires FillDict(picks).Ok?
    ensures WellFormed(FillDict(picks).value)
    ensures |FillDict(picks).value.keys| <= |picks|
    ensures forall k :: k in FillDict(picks).value.vals ==>
              exists i :: 0 <= i < |picks| && picks[i].key == k && Writes(picks[i])
  {
    if picks == [] {
    } else {
      var init := picks[..|picks| - 1];
      var p := picks[|picks| - 1];
      FillDictKeys(init);
      var d := FillDict(init).value;
      var r := FillDict(picks).value;
      assert r == SetDictVal(d, p.from, p.index, p.key).value;
      assert |r.keys| <= |d.keys| + 1;
      forall k | k in r.vals
        ensures exists i :: 0 <= i < |picks| && picks[i].key == k && Writes(picks[i])
      {
        if k == p.key && Writes(p) {
          assert picks[|picks| - 1] == p;
        } else {
          assert k in d.vals;
          var i :| 0 <= i < |init| && init[i].key == k && Writes(init[i]);
          assert picks[i] == init[i];
        }
      }
    }
  }

  /**
   * Later picks overwrite earlier ones: the value under a pick's key is what
   * that pick read, provided no later pick with the same key wrote.
   */
  lemma {:induction false} FillDictLastWriteWins<V>(picks: seq<Pick<V>>, i: nat)
    requires FillDict(picks).Ok?
    requires i < |picks| && Writes(picks[i])
    requires forall j :: i < j < |picks| && picks[j].key == picks[i].key ==> !Writes(picks[j])
    ensures picks[i].key in FillDict(picks).value.vals
    ensures FillDict(picks).value.vals[picks[i].key] == Picked(picks[i])
  {
    var init := picks[..|picks| - 1];
    var p := picks[|picks| - 1];
    var r := FillDict(picks).value;
    if i == |picks| - 1 {
      var d := FillDict(init).value;
      assert r == SetDictVal(d, p.from, p.index, p.key).value;
    } else {
      assert init[i] == picks[i];
      forall j | i < j < |init| && init[j].key == init[i].key
        ensures !Writes(init[j])
      {
        assert init[j] == picks[j];
      }
      FillDictLastWriteWins(init, i);
      var d := FillDict(init).value;
      assert r == SetDictVal(d, p.from, p.index, p.key).value;
      if p.key == picks[i].key {
        assert !Writes(p);
      }
    }
  }
}
