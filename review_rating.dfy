/**
 * Assignment 1 (HW1/HW1_111705066.py): the record handling around the review
 * rating model. Reviews become parallel feature columns, star ratings 1..5
 * become class indices 0..4 for training, a 5-way score row is decoded back to
 * a star rating with argmax + 1, and output rows are named `index_<i>`.
 */
module ReviewRating {
  import opened Strings
  import opened Tensors

  /** Number of rating classes: the width of the model's softmax output. */
  const NumClasses: nat := 5

  /** One review record as loaded from the JSON file. */
  datatype Review = Review(title: string, text: string, verifiedPurchase: bool, helpfulVote: int)

  /** A training record: a review together with its star rating. */
  datatype RatedReview = RatedReview(review: Review, rating: int)

  /** The parallel feature lists the script builds, one entry per record. */
  datatype Features = Features(
    titles: seq<string>,
    texts: seq<string>,
    verifiedPurchases: seq<int>,
    helpfulVotes: seq<int>)
  {
    predicate Aligned(n: nat)
    {
      |titles| == n && |texts| == n && |verifiedPurchases| == n && |helpfulVotes| == n
    }
  }

  /** One output row: its identifier and the predicted star rating. */
  datatype OutputRow = OutputRow(id: string, rating: int)

  /** `int(verified_purchase)`: True is 1, False is 0. */
  function VerifiedFlag(b: bool): (v: int)
    ensures v == 0 || v == 1
    ensures v == 1 <==> b
  {
    if b then 1 else 0
  }

  /** The four list comprehensions over the records, one column each. */
  function ExtractFeatures(records: seq<Review>): (f: Features)
    ensures f.Aligned(|records|)
    ensures forall i :: 0 <= i < |records| ==>
      f.verifiedPurchases[i] == VerifiedFlag(records[i].verifiedPurchase)
      && (f.verifiedPurchases[i] == 0 || f.verifiedPurchases[i] == 1)
  {
    Features(
      seq(|records|, i requires 0 <= i < |records| => records[i].title),
      seq(|records|, i requires 0 <= i < |records| => records[i].text),
      seq(|records|, i requires 0 <= i < |records| => VerifiedFlag(records[i].verifiedPurchase)),
      seq(|records|, i requires 0 <= i < |records| => records[i].helpfulVote))
  }

  /** The records read back from aligned feature columns, row by row. */
  function Records(f: Features, n: nat): (rs: seq<Review>)
    requires f.Aligned(n)
    ensures |rs| == n
  {
    seq(n, i requires 0 <= i < n =>
      Review(f.titles[i], f.texts[i], f.verifiedPurchases[i] == 1, f.helpfulVotes[i]))
  }

  /** Feature extraction loses nothing and keeps record order: the records can be read back. */
  lemma ExtractFeaturesRoundTrip(records: seq<Review>)
    ensures Records(ExtractFeatures(records), |records|) == records
  {
  }

  /** Extraction works record by record: the columns of a concatenation are the concatenated columns. */
  lemma ExtractFeaturesConcat(a: seq<Review>, b: seq<Review>)
    ensures var fa, fb, fab := ExtractFeatures(a), ExtractFeatures(b), ExtractFeatures(a + b);
      fab.titles == fa.titles + fb.titles && fab.texts == fa.texts + fb.texts
      && fab.verifiedPurchases == fa.verifiedPurchases + fb.verifiedPurchases
      && fab.helpfulVotes == fa.helpfulVotes + fb.helpfulVotes
  {
  }

  /** `[item['rating'] for item in train_data]`. */
  function RatingColumn(train: seq<RatedReview>): (rs: seq<int>)
    ensures |rs| == |train|
    ensures forall i :: 0 <= i < |train| ==> rs[i] == train[i].rating
  {
    seq(|train|, i requires 0 <= i < |train| => train[i].rating)
  }

  /** The reviews of the training records, in order. */
  function ReviewsOf(train: seq<RatedReview>): (rs: seq<Review>)
    ensures |rs| == |train|
  {
    seq(|train|, i requires 0 <= i < |train| => train[i].review)
  }

  /**
   * The five training columns lose nothing and keep record order: pairing the
   * records read back from the feature columns with the rating column gives
   * the training records.
   */
  lemma TrainingColumnsRoundTrip(train: seq<RatedReview>)
    ensures var rs, ratings := Records(ExtractFeatures(ReviewsOf(train)), |train|), RatingColumn(train);
      seq(|train|, i requires 0 <= i < |train| => RatedReview(rs[i], ratings[i])) == train
  {
    ExtractFeaturesRoundTrip(ReviewsOf(train));
  }

  /** The training shift `rating - 1`: a star rating to a class index. */
  function AdjustRating(rating: int): (k: int)
    ensures DecodeClass(k) == rating
    ensures 1 <= rating <= NumClasses <==> 0 <= k < NumClasses
  {
    rating - 1
  }

  /** The prediction decode `argmax + 1`: a class index back to a star rating. */
  function DecodeClass(k: int): (rating: int)
    ensures 0 <= k < NumClasses <==> 1 <= rating <= NumClasses
  {
    k + 1
  }

  /** The shift and the decode are inverse to each other, and map 1..5 onto 0..4. */
  lemma AdjustDecodeInverse(rating: int, k: int)
    ensures DecodeClass(AdjustRating(rating)) == rating
    ensures AdjustRating(DecodeClass(k)) == k
    ensures 1 <= rating <= NumClasses <==> 0 <= AdjustRating(rating) < NumClasses
  {
  }

  /** `[rating - 1 for rating in rating_data]`. */
  function AdjustRatings(ratings: seq<int>): (cs: seq<int>)
    ensures |cs| == |ratings|
    ensures forall i :: 0 <= i < |ratings| ==> DecodeClass(cs[i]) == ratings[i]
    ensures (forall i :: 0 <= i < |ratings| ==> 1 <= ratings[i] <= NumClasses)
        <==> (forall i :: 0 <= i < |cs| ==> 0 <= cs[i] < NumClasses)
  {
    seq(|ratings|, i requires 0 <= i < |ratings| => AdjustRating(ratings[i]))
  }

  /** `np.argmax(scores) + 1` for one 5-way score row. */
  function PredictRating(scores: seq<int>): (r: int)
    requires |scores| == NumClasses
    ensures 1 <= r <= NumClasses
    ensures forall j :: 0 <= j < |scores| ==> scores[j] <= scores[AdjustRating(r)]
    ensures forall j :: 0 <= j < AdjustRating(r) ==> scores[j] < scores[AdjustRating(r)]
  {
    DecodeClass(ArgMax(scores))
  }

  /**
   * Encoding a rating and decoding a score row that singles out its class
   * gives the rating back.
   */
  lemma PredictRatingOfPeak(rating: int, scores: seq<int>)
    requires 1 <= rating <= NumClasses && |scores| == NumClasses
    requires forall j :: 0 <= j < |scores| && j != AdjustRating(rating) ==> scores[j] < scores[AdjustRating(rating)]
    ensures PredictRating(scores) == rating
  {
  }

  predicate FiveWay(predictions: seq<seq<int>>)
  {
    forall i :: 0 <= i < |predictions| ==> |predictions[i]| == NumClasses
  }

  /** `np.argmax(predictions, axis=1) + 1`: one rating per prediction row, in order. */
  function PredictRatings(predictions: seq<seq<int>>): (rs: seq<int>)
    requires FiveWay(predictions)
    ensures |rs| == |predictions|
    ensures forall i :: 0 <= i < |rs| ==> 1 <= rs[i] <= NumClasses && rs[i] == PredictRating(predictions[i])
  {
    seq(|predictions|, i requires 0 <= i < |predictions| => PredictRating(predictions[i]))
  }

  /** `f'index_{i}'`. */
  function IndexId(i: nat): (id: string)
    ensures |id| > 6 && id[..6] == "index_"
    ensures IsCanonical(id[6..]) && ValueOf(id[6..]) == i
  {
    ValueOfDecimal(i);
    var id := "index_" + Decimal(i);
    assert id[6..] == Decimal(i);
    id
  }

  /** Different rows get different identifiers. */
  lemma IndexIdInjective(i: nat, j: nat)
    ensures IndexId(i) == IndexId(j) <==> i == j
  {
    if IndexId(i) == IndexId(j) {
      PrefixCancel("index_", Decimal(i), Decimal(j));
      DecimalInjective(i, j);
    }
  }

  /** The output table: row i is named `index_<i>` and carries the rating decoded from prediction row i. */
  function OutputRows(predictions: seq<seq<int>>): (rows: seq<OutputRow>)
    requires FiveWay(predictions)
    ensures |rows| == |predictions|
    ensures forall i :: 0 <= i < |rows| ==>
      rows[i].id == IndexId(i) && rows[i].rating == PredictRating(predictions[i])
    ensures forall i, j :: 0 <= i < j < |rows| ==> rows[i].id != rows[j].id
  {
    var ratings := PredictRatings(predictions);
    var rows := seq(|predictions|, i requires 0 <= i < |predictions| => OutputRow(IndexId(i), ratings[i]));
    assert forall i, j :: 0 <= i < j < |rows| ==> rows[i].id != rows[j].id by {
      forall i, j | 0 <= i < j < |rows|
        ensures rows[i].id != rows[j].id
      {
        IndexIdInjective(i, j);
      }
    }
    rows
  }
}
