/**
 * The feature-row preparation of the classifier runtime
 * (backend/model/runtime/preprocessing.py): the training means, one per
 * feature, are the starting row; every user value whose key is a feature
 * overwrites that feature's mean in place; the row, in feature order, goes to
 * the fitted scaler.
 *
 * Python dictionaries are modelled as a key order plus a map. The scaler is a
 * library object and is a parameter, `transform`, from the row in column order
 * to the scaled vector.
 */
module Preprocessing {
  import opened PyValues
  import opened Seqs

  /** A Python dictionary: its keys in insertion order, and their values. */
  datatype Dict = Dict(columns: seq<string>, values: map<string, Value>)

  /** Every key once, and exactly the keys of the map. */
  ghost predicate WellFormed(d: Dict) {
    Distinct(d.columns) && (forall k :: k in d.values <==> k in d.columns)
  }

  const Empty := Dict([], map[])

  /** `d[key] = value`: an existing key keeps its position, a new key goes last. */
  function Put(d: Dict, key: string, value: Value): (r: Dict)
    requires WellFormed(d)
    ensures WellFormed(r)
    ensures r.values == d.values[key := value]
    ensures key in d.values ==> r.columns == d.columns
    ensures key !in d.values ==> r.columns == d.columns + [key]
  {
    if key in d.values then d.(values := d.values[key := value])
    else Dict(d.columns + [key], d.values[key := value])
  }

  /** No later item has the same key as item `i`. */
  predicate LastOccurrence(items: seq<(string, Value)>, i: nat)
    requires i < |items|
  {
    forall j :: i < j < |items| ==> items[j].0 != items[i].0
  }

  /** `dict(items)`, as pandas' `Series.to_dict` builds it from the series' items: a
      repeated key keeps its first position and its last value. */
  function ToDict(items: seq<(string, Value)>): (d: Dict)
    ensures WellFormed(d)
    ensures forall k :: k in d.values <==> k in Keys(items)
    ensures Distinct(Keys(items)) ==> d.columns == Keys(items)
    decreases |items|
  {
    if items == [] then Empty
    else
      var init := items[..|items| - 1];
      var last := items[|items| - 1];
      assert Keys(items) == Keys(init) + [last.0];
      var d := ToDict(init);
      Put(d, last.0, last.1)
  }

  /** A key's value in the dictionary is the value of its last item. */
  lemma {:induction false} ToDictLastValue(items: seq<(string, Value)>, i: nat)
    requires i < |items| && LastOccurrence(items, i)
    ensures items[i].0 in ToDict(items).values && ToDict(items).values[items[i].0] == items[i].1
    decreases |items|
  {
    var init := items[..|items| - 1];
    if i < |items| - 1 {
      assert init[i] == items[i];
      assert LastOccurrence(init, i);
      ToDictLastValue(init, i);
    }
  }

  /** The specification of the merge: the means' keys in the means' order, each holding
      the user's value when the user gave that key and its mean otherwise. User keys
      that are not features are dropped. */
  function Merge(means: Dict, user: Dict): (r: Dict)
    requires WellFormed(means)
    ensures WellFormed(r)
    ensures r.columns == means.columns
    ensures forall k :: k in means.values && k in user.values ==> r.values[k] == user.values[k]
    ensures forall k :: k in means.values && k !in user.values ==> r.values[k] == means.values[k]
    ensures forall k :: k in user.values && k !in means.values ==> k !in r.values
  {
    Dict(means.columns,
         map k | k in means.values :: if k in user.values then user.values[k] else means.values[k])
  }

  /** Merging the same user values again changes nothing. */
  lemma MergeIdempotent(means: Dict, user: Dict)
    requires WellFormed(means)
    ensures Merge(Merge(means, user), user) == Merge(means, user)
  {
    var once := Merge(means, user);
    assert Merge(once, user).values == once.values;
  }

  /** With no user value the row is the means. */
  lemma MergeNothing(means: Dict)
    requires WellFormed(means)
    ensures Merge(means, Empty) == means
  {
    assert Merge(means, Empty).values == means.values;
  }

  /** The loop of `preprocess`: start from the means and, for each user item in order,
      overwrite the value of a key the row already has. */
  method FillFeatures(user: Dict, means: Dict) returns (filled: Dict)
    requires WellFormed(user) && WellFormed(means)
    ensures filled == Merge(means, user)
  {
    filled := means;
    var i := 0;
    while i < |user.columns|
      invariant 0 <= i <= |user.columns|
      invariant filled.columns == means.columns
      invariant filled.values.Keys == means.values.Keys
      invariant forall k :: k in means.values ==>
                  filled.values[k] == if k in user.columns[..i] then user.values[k] else means.values[k]
    {
      var key := user.columns[i];
      assert user.columns[..i + 1] == user.columns[..i] + [key];
      if key in filled.values {
        filled := filled.(values := filled.values[key := user.values[key]]);
      }
      i := i + 1;
    }
    assert user.columns[..i] == user.columns;
    assert filled.values == Merge(means, user).values;
  }

  /** The row in column order, as the one-row data frame lays it out. */
  function InColumnOrder(d: Dict): (row: seq<(string, Value)>)
    requires WellFormed(d)
    ensures Keys(row) == d.columns
    ensures forall i :: 0 <= i < |row| ==> row[i].1 == d.values[row[i].0]
  {
    seq(|d.columns|, i requires 0 <= i < |d.columns| => (d.columns[i], d.values[d.columns[i]]))
  }

  /** `preprocess`: the means as a dictionary, overwritten by the user's features, scaled
      in the means' column order. */
  method Preprocess(user: Dict, meanValues: seq<(string, Value)>,
                    transform: seq<(string, Value)> -> seq<real>)
    returns (scaled: seq<real>)
    requires WellFormed(user)
    ensures scaled == transform(InColumnOrder(Merge(ToDict(meanValues), user)))
  {
    var filled := FillFeatures(user, ToDict(meanValues));
    scaled := transform(InColumnOrder(filled));
  }
}
