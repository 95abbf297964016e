/**
 * Assignment 3 (HW3_111705066/HW3_111705066.py): the record handling around
 * the response-quality classifier. Each dialogue record becomes one input text
 * (context turns joined with " [SEP] ", then the response) and an optional
 * label; a dataset view pairs tokenizer encodings with labels; accuracy counts
 * argmax hits; the output pairs a 0-based index with each prediction.
 */
module DialogueQuality {
  import opened Wrappers
  import opened Strings
  import opened Tensors

  /** The separator between turns. */
  const Sep: string := " [SEP] "

  /** One dialogue record: `u`, the list `s`, the response `r` and, in labelled files, `r.label`. */
  datatype Dialogue = Dialogue(u: string, s: seq<string>, r: string, rLabel: Option<int>)

  /** One preprocessed row. */
  datatype Row = Row(inputText: string, classLabel: Option<int>)

  /**
   * The context turns, taken two at a time: a pair of positions (2m, 2m+1)
   * of `s` contributes `u` and then `s[2m+1]`; a trailing lone position
   * contributes `u`.
   */
  function Context(u: string, s: seq<string>): (c: seq<string>)
    ensures |c| == |s|
    ensures |s| > 0 ==> c[0] == u
    decreases |s|
  {
    if |s| == 0 then []
    else if |s| == 1 then [u]
    else [u, s[1]] + Context(u, s[2..])
  }

  /** Context entry i is `u` at even i and `s[i]` at odd i. */
  lemma {:induction false} ContextAt(u: string, s: seq<string>, i: nat)
    requires i < |s|
    ensures Context(u, s)[i] == if i % 2 == 0 then u else s[i]
    decreases |s|
  {
    if i >= 2 {
      ContextAt(u, s[2..], i - 2);
    }
  }

  /** A list with the entries ContextAt describes is the context. */
  lemma ContextOfEntries(u: string, s: seq<string>, c: seq<string>)
    requires |c| == |s|
    requires forall t :: 0 <= t < |s| ==> c[t] == if t % 2 == 0 then u else s[t]
    ensures c == Context(u, s)
  {
    forall t | 0 <= t < |s|
      ensures c[t] == Context(u, s)[t]
    {
      ContextAt(u, s, t);
    }
  }

  /** `f"{' [SEP] '.join(context)} [SEP] {r}"`. */
  function InputText(d: Dialogue): (text: string)
    ensures |Sep + d.r| <= |text| && text[|text| - |Sep + d.r|..] == Sep + d.r
    ensures |d.s| > 0 ==> |d.u| <= |text| && text[..|d.u|] == d.u
  {
    Join(Context(d.u, d.s), Sep) + Sep + d.r
  }

  /** The row preprocessing emits for one record. */
  function RowOf(d: Dialogue, isTrain: bool): (row: Row)
    ensures row.inputText == InputText(d)
    ensures row.classLabel.Some? <==> isTrain && d.rLabel.Some?
    ensures row.classLabel.Some? ==> row.classLabel == d.rLabel
  {
    Row(InputText(d), if isTrain then d.rLabel else None)
  }

  /**
   * The input text is the join of the context turns followed by the response;
   * with no statements it is the separator and the response alone.
   */
  lemma InputTextShape(d: Dialogue)
    ensures |d.s| == 0 ==> InputText(d) == Sep + d.r
    ensures |d.s| > 0 ==> InputText(d) == Join(Context(d.u, d.s) + [d.r], Sep)
  {
    if |d.s| > 0 {
      JoinSnoc(Context(d.u, d.s), d.r, Sep);
    }
  }

  /**
   * The statements at even positions of `s` never reach the input text: two
   * records that differ only there give the same text.
   */
  lemma EvenStatementsIgnored(d1: Dialogue, d2: Dialogue)
    requires d1.u == d2.u && d1.r == d2.r && |d1.s| == |d2.s|
    requires forall i :: 0 <= i < |d1.s| && i % 2 == 1 ==> d1.s[i] == d2.s[i]
    ensures InputText(d1) == InputText(d2)
  {
    var c1, c2 := Context(d1.u, d1.s), Context(d2.u, d2.s);
    forall i | 0 <= i < |c1|
      ensures c1[i] == c2[i]
    {
      ContextAt(d1.u, d1.s, i);
      ContextAt(d2.u, d2.s, i);
    }
    assert c1 == c2;
  }

  /**
   * `preprocess(data, is_train)`: one row per record, in record order. The
   * inner loop appends `u` at even positions and `s[i]` at odd positions.
   * Reading `r.label` of a record without one fails, so training data must
   * carry labels.
   */
  method Preprocess(data: seq<Dialogue>, isTrain: bool) returns (rows: seq<Row>)
    requires isTrain ==> forall k :: 0 <= k < |data| ==> data[k].rLabel.Some?
    ensures |rows| == |data|
    ensures forall k :: 0 <= k < |data| ==> rows[k] == RowOf(data[k], isTrain)
    ensures forall k :: 0 <= k < |data| ==> (rows[k].classLabel.Some? <==> isTrain)
  {
    rows := [];
    for k := 0 to |data|
      invariant |rows| == k
      invariant forall j :: 0 <= j < k ==> rows[j] == RowOf(data[j], isTrain)
    {
      var item := data[k];
      var u, s, r := item.u, item.s, item.r;
      var context: seq<string> := [];
      for i := 0 to |s|
        invariant |context| == i
        invariant forall t :: 0 <= t < i ==> context[t] == if t % 2 == 0 then u else s[t]
      {
        context := context + [if i % 2 == 0 then u else s[i]];
      }
      ContextOfEntries(u, s, context);
      var inputText := Join(context, Sep) + Sep + r;
      var classLabel := if isTrain then item.rLabel else None;
      var row := Row(inputText, classLabel);
      assert row == RowOf(item, isTrain);
      rows := rows + [row];
    }
  }

  /** A value of a dataset item: one row of an encoding tensor, or one label. */
  datatype Value = Tokens(row: seq<int>) | Label(value: int)

  /** `CustomDataset(encodings, labels)`: tokenizer encodings by key, and labels when the split has them. */
  datatype CustomDataset = CustomDataset(encodings: map<string, seq<seq<int>>>, labels: Option<seq<int>>)
  {
    /** Every encoding and the labels, if any, have n entries. */
    predicate HasRows(n: nat)
    {
      && (forall key :: key in encodings ==> |encodings[key]| == n)
      && (labels.Some? ==> |labels.value| == n)
    }

    /** Position idx exists in every encoding and in the labels. */
    predicate Indexable(idx: nat)
    {
      && (forall key :: key in encodings ==> idx < |encodings[key]|)
      && (labels.Some? ==> idx < |labels.value|)
    }

    /** `__len__`: the number of `input_ids` rows; when all columns agree, every index below it can be fetched. */
    function Len(): (n: nat)
      requires "input_ids" in encodings
      ensures n == |encodings["input_ids"]|
      ensures forall m: nat :: HasRows(m) ==> m == n
    {
      |encodings["input_ids"]|
    }

    /** `__getitem__(idx)`: every encoding key at position idx, plus `labels` when labels were given. */
    function GetItem(idx: nat): (item: map<string, Value>)
      requires Indexable(idx)
      ensures item.Keys == encodings.Keys + (if labels.Some? then {"labels"} else {})
      ensures forall key :: key in encodings && (key != "labels" || labels.None?) ==>
        item[key] == Tokens(encodings[key][idx])
      ensures labels.Some? ==> item["labels"] == Label(labels.value[idx])
    {
      var item := map key | key in encodings :: Tokens(encodings[key][idx]);
      if labels.Some? then item["labels" := Label(labels.value[idx])] else item
    }
  }

  /** Every index below the length of a well-formed dataset can be fetched. */
  lemma IndexableBelowLen(ds: CustomDataset, n: nat, idx: nat)
    requires "input_ids" in ds.encodings && ds.HasRows(n) && idx < ds.Len()
    ensures ds.Indexable(idx)
  {
  }

  predicate Matches(logits: seq<seq<int>>, labels: seq<int>)
  {
    |logits| == |labels| && NonEmptyRows(logits)
  }

  /** The number of positions where the argmax of the logits row equals the label. */
  function CountCorrect(logits: seq<seq<int>>, labels: seq<int>): (c: nat)
    requires Matches(logits, labels)
    ensures c <= |labels|
  {
    if |labels| == 0 then 0
    else CountCorrect(logits[1..], labels[1..]) + (if ArgMax(logits[0]) == labels[0] then 1 else 0)
  }

  /** Every prediction is right exactly when the count reaches the number of labels. */
  lemma {:induction false} AllCorrect(logits: seq<seq<int>>, labels: seq<int>)
    requires Matches(logits, labels)
    ensures CountCorrect(logits, labels) == |labels|
        <==> forall i :: 0 <= i < |labels| ==> ArgMax(logits[i]) == labels[i]
  {
    if |labels| > 0 {
      AllCorrect(logits[1..], labels[1..]);
      if forall i :: 0 <= i < |labels| ==> ArgMax(logits[i]) == labels[i] {
        assert forall i :: 0 <= i < |labels| - 1 ==> ArgMax(logits[1..][i]) == labels[1..][i] by {
          forall i | 0 <= i < |labels| - 1
            ensures ArgMax(logits[1..][i]) == labels[1..][i]
          {
            assert logits[1..][i] == logits[i + 1];
          }
        }
      }
      if CountCorrect(logits, labels) == |labels| {
        forall i | 0 <= i < |labels|
          ensures ArgMax(logits[i]) == labels[i]
        {
          if i > 0 {
            assert logits[1..][i - 1] == logits[i];
          }
        }
      }
    }
  }

  /** No prediction is right exactly when the count is zero. */
  lemma {:induction false} NoneCorrect(logits: seq<seq<int>>, labels: seq<int>)
    requires Matches(logits, labels)
    ensures CountCorrect(logits, labels) == 0
        <==> forall i :: 0 <= i < |labels| ==> ArgMax(logits[i]) != labels[i]
  {
    if |labels| > 0 {
      NoneCorrect(logits[1..], labels[1..]);
      if CountCorrect(logits, labels) == 0 {
        forall i | 0 <= i < |labels|
          ensures ArgMax(logits[i]) != labels[i]
        {
          if i > 0 {
            assert logits[1..][i - 1] == logits[i];
          }
        }
      } else {
        if forall i :: 0 <= i < |labels| ==> ArgMax(logits[i]) != labels[i] {
          forall i | 0 <= i < |labels| - 1
            ensures ArgMax(logits[1..][i]) != labels[1..][i]
          {
            assert logits[1..][i] == logits[i + 1];
          }
        }
      }
    }
  }

  /**
   * `compute_metrics`: the mean of `argmax(logits) == labels`. The mean of an
   * empty evaluation set is NaN, modelled as None.
   */
  function Accuracy(logits: seq<seq<int>>, labels: seq<int>): (acc: Option<real>)
    requires Matches(logits, labels)
    ensures acc.None? <==> |labels| == 0
    ensures acc.Some? ==> 0.0 <= acc.value <= 1.0
    ensures acc.Some? ==> acc.value * (|labels| as real) == CountCorrect(logits, labels) as real
  {
    if |labels| == 0 then None
    else
      var c, n := CountCorrect(logits, labels) as real, |labels| as real;
      assert c / n <= 1.0 by {
        assert c <= n;
      }
      Some(c / n)
  }

  /** One output row: the test row's index and the predicted quality class. */
  datatype QualityRow = QualityRow(index: nat, responseQuality: nat)

  /**
   * The output table: `index` is the test frame's 0-based index and
   * `response_quality` the argmax of the prediction row aligned with it.
   */
  function QualityOutput(test: seq<Row>, logits: seq<seq<int>>): (out: seq<QualityRow>)
    requires |logits| == |test| && NonEmptyRows(logits)
    ensures |out| == |test|
    ensures forall i :: 0 <= i < |out| ==>
      out[i].index == i && out[i].responseQuality == ArgMax(logits[i]) && out[i].responseQuality < |logits[i]|
  {
    var preds := ArgMaxRows(logits);
    seq(|test|, i requires 0 <= i < |test| => QualityRow(i, preds[i]))
  }
}
