/**
 * Assignment 2 (HW2_111705066/HW2_111705066.py): the label handling around the
 * multi-label tweet classifier. A record's label names become a 0/1 vector
 * indexed by a fixed 12-entry label table; predictions are written out with an
 * `index` column in front of one column per label.
 */
module TweetLabels {
  import opened Wrappers

  /** One tweet record. `labels` lists the keys of the record's `labels` object in order, if it has one. */
  datatype Tweet = Tweet(tweet: string, labels: Option<seq<string>>)

  /** The label table's names in the order they are declared, which is also the order of the output columns. */
  const LabelColumns: seq<string> := [
    "ineffective", "unnecessary", "pharma", "rushed",
    "side-effect", "mandatory", "country", "ingredients",
    "political", "none", "conspiracy", "religious"
  ]

  /** The label table: label name to position in the label vector. */
  const LabelMapping: map<string, nat> := map[
    "ineffective" := 0, "unnecessary" := 1, "pharma" := 2, "rushed" := 3,
    "side-effect" := 4, "mandatory" := 5, "country" := 6, "ingredients" := 7,
    "political" := 8, "none" := 9, "conspiracy" := 10, "religious" := 11
  ]

  /** Every position of a label vector for this table is a valid index. */
  predicate InRange(mapping: map<string, nat>)
  {
    forall k :: k in mapping ==> mapping[k] < |mapping|
  }

  lemma LabelColumnsDistinct()
    ensures forall i, j :: 0 <= i < j < |LabelColumns| ==> LabelColumns[i] != LabelColumns[j]
  {
  }

  lemma LabelColumnsMapped()
    ensures forall i :: 0 <= i < |LabelColumns| ==>
      LabelColumns[i] in LabelMapping && LabelMapping[LabelColumns[i]] == i
  {
  }

  lemma LabelMappingIndexesColumns()
    ensures forall k :: k in LabelMapping ==>
      LabelMapping[k] < |LabelColumns| && LabelColumns[LabelMapping[k]] == k
  {
  }

  /** The label table is a bijection from its 12 names onto 0..11, matching the column order. */
  lemma LabelMappingIsBijection()
    ensures |LabelColumns| == 12 && |LabelMapping| == 12
    ensures forall i :: 0 <= i < |LabelColumns| ==>
      LabelColumns[i] in LabelMapping && LabelMapping[LabelColumns[i]] == i
    ensures forall k :: k in LabelMapping ==>
      LabelMapping[k] < 12 && LabelColumns[LabelMapping[k]] == k
    ensures InRange(LabelMapping)
  {
    LabelColumnsDistinct();
    LabelColumnsMapped();
    LabelMappingIndexesColumns();
    var names := set i | 0 <= i < |LabelColumns| :: LabelColumns[i];
    assert LabelMapping.Keys == names by {
      forall k | k in LabelMapping
        ensures k in names
      {
        var i := LabelMapping[k];
        assert LabelColumns[i] == k;
      }
    }
    ImageOfDistinct(LabelColumns);
  }

  /** The elements of a sequence without repetitions number as many as its length. */
  lemma {:induction false} ImageOfDistinct(s: seq<string>)
    requires forall i, j :: 0 <= i < j < |s| ==> s[i] != s[j]
    ensures |set i | 0 <= i < |s| :: s[i]| == |s|
  {
    if |s| > 0 {
      var p := s[..|s| - 1];
      ImageOfDistinct(p);
      assert (set i | 0 <= i < |s| :: s[i]) == (set i | 0 <= i < |p| :: p[i]) + {s[|s| - 1]};
      assert s[|s| - 1] !in (set i | 0 <= i < |p| :: p[i]);
    }
  }

  /** `item.get('labels', {}).keys()`: no labels field means no keys. */
  function LabelKeys(t: Tweet): (keys: seq<string>)
    ensures t.labels.None? ==> keys == []
    ensures t.labels.Some? ==> keys == t.labels.value
  {
    match t.labels
    case None => []
    case Some(ks) => ks
  }

  /** Position j of the label vector is set: some key of the record maps to j. */
  ghost predicate Marked(mapping: map<string, nat>, keys: seq<string>, j: nat)
  {
    exists k :: k in keys && k in mapping && mapping[k] == j
  }

  /** Keys outside the table mark nothing. */
  lemma UnknownKeyMarksNothing(mapping: map<string, nat>, keys: seq<string>, extra: string, j: nat)
    requires extra !in mapping
    ensures Marked(mapping, keys + [extra], j) <==> Marked(mapping, keys, j)
  {
  }

  /** The dataset over a list of tweet records; its fields are set once, at construction. */
  class TweetDataset {
    const data: seq<Tweet>
    const maxLength: nat
    const labelMapping: map<string, nat>

    predicate Valid()
    {
      InRange(labelMapping)
    }

    constructor (data: seq<Tweet>, maxLength: nat, labelMapping: map<string, nat>)
      requires InRange(labelMapping)
      ensures Valid()
      ensures this.data == data && this.maxLength == maxLength && this.labelMapping == labelMapping
    {
      this.data := data;
      this.maxLength := maxLength;
      this.labelMapping := labelMapping;
    }

    /** `__len__`: the number of records, which bounds the indices GetItem accepts. */
    function Len(): (n: nat)
      ensures n == |data|
    {
      |data|
    }

    /**
     * `__getitem__` without the tokenizer call: the tweet text handed to the
     * tokenizer and the multi-hot label vector, built in place in a zeroed
     * array as the source does.
     */
    method GetItem(idx: nat) returns (tweet: string, labels: seq<int>)
      requires Valid() && idx < Len()
      ensures tweet == data[idx].tweet
      ensures |labels| == |labelMapping|
      ensures forall j :: 0 <= j < |labels| ==> labels[j] == 0 || labels[j] == 1
      ensures forall j :: 0 <= j < |labels| ==> (labels[j] == 1 <==> Marked(labelMapping, LabelKeys(data[idx]), j))
      ensures forall k :: k in LabelKeys(data[idx]) && k in labelMapping ==> labels[labelMapping[k]] == 1
      ensures data[idx].labels.None? ==> forall j :: 0 <= j < |labels| ==> labels[j] == 0
    {
      var item := data[idx];
      tweet := item.tweet;
      var n := |labelMapping|;
      var v := new int[n](_ => 0);
      var keys := LabelKeys(item);
      for i := 0 to |keys|
        invariant forall j :: 0 <= j < n ==> v[j] == 0 || v[j] == 1
        invariant forall j :: 0 <= j < n ==> (v[j] == 1 <==> Marked(labelMapping, keys[..i], j))
      {
        assert keys[..i + 1] == keys[..i] + [keys[i]];
        if keys[i] in labelMapping {
          v[labelMapping[keys[i]]] := 1;
        }
      }
      assert keys[..|keys|] == keys;
      labels := v[..];
    }
  }

  /** The written table: a header and one row per prediction. */
  datatype Frame = Frame(header: seq<string>, rows: seq<seq<int>>)

  /**
   * `pd.DataFrame(predictions, columns=label_mapping.keys())` followed by
   * inserting `index = 0..n-1` as the first column. A prediction row whose
   * width differs from the 12 columns makes the frame construction fail.
   */
  function PredictionFrame(predictions: seq<seq<int>>): (f: Option<Frame>)
    ensures f.Some? <==> forall i :: 0 <= i < |predictions| ==> |predictions[i]| == |LabelColumns|
    ensures f.Some? ==> f.value.header == ["index"] + LabelColumns
    ensures f.Some? ==> |f.value.rows| == |predictions|
    ensures f.Some? ==> forall i :: 0 <= i < |predictions| ==>
      |f.value.rows[i]| == |f.value.header| && f.value.rows[i][0] == i && f.value.rows[i][1..] == predictions[i]
  {
    if forall i :: 0 <= i < |predictions| ==> |predictions[i]| == |LabelColumns| then
      Some(Frame(["index"] + LabelColumns,
                 seq(|predictions|, i requires 0 <= i < |predictions| => [i] + predictions[i])))
    else
      None
  }
}
