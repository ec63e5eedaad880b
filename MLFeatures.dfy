/**
 * The predictor's frame: the engineered columns of each row, label encoding of
 * the categorical columns (fitting, and transforming with the unseen-category
 * fallback), and the numeric value of every column a feature list can select.
 */
module MLFeatures {
  import opened Outcomes
  import opened Transactions
  import opened CustomerProfiling
  import opened AnomalyDetection
  import opened Columns
  import opened FeatureLayout
  import opened ColumnKinds

  // ---------------------------------------------------------------------------
  // Feature engineering
  // ---------------------------------------------------------------------------

  /** The predictor's night window: hour 22 or later, or hour 5 or earlier. */
  predicate IsNightHour(h: int) {
    h >= 22 || h <= 5
  }

  /** `Amount % 1000 == 0` on a float: an integral multiple of 1000. */
  predicate IsThousandMultiple(a: real) {
    a == a.Floor as real && a.Floor % 1000 == 0
  }

  lemma RoundAmountMultiples(k: int)
    ensures IsThousandMultiple((1000 * k) as real)
  {
  }

  lemma RoundAmountIsMultiple(a: real)
    requires IsThousandMultiple(a)
    ensures a == (1000 * (a.Floor / 1000)) as real
  {
  }

  /** The engineered columns of one row. */
  datatype Features = Features(
    hour: Hour,
    isWeekend: bool,
    isNightTransaction: Bit,
    logAmount: real,
    isRoundAmount: Bit,
    isStructuringAmount: Bit,
    isCrossBorder: Bit,
    isCurrencyMismatch: Bit,
    senderFrequency: nat,
    receiverFrequency: nat)

  datatype EngineeredRow = EngineeredRow(txn: Txn, features: Features)

  /** The engineered columns of row `i` of `batch`; `log1p` stands for `np.log1p`. */
  function EngineerRow(batch: seq<Txn>, i: nat, log1p: real -> real): (f: Features)
    requires i < |batch|
    ensures f.hour == batch[i].time.hour
    ensures f.isWeekend <==> Weekday(batch[i].date) >= 5
    ensures f.isNightTransaction == 1 <==> IsNightHour(batch[i].time.hour)
    ensures f.isRoundAmount == 1 <==> IsThousandMultiple(batch[i].amount)
    ensures f.isStructuringAmount == 1 <==> StructuringMin <= batch[i].amount < StructuringMax
    ensures f.isCrossBorder == 1 <==> batch[i].senderLocation != batch[i].receiverLocation
    ensures f.isCurrencyMismatch == 1 <==> batch[i].paymentCurrency != batch[i].receivedCurrency
    ensures 1 <= f.senderFrequency <= |batch| && 1 <= f.receiverFrequency <= |batch|
  {
    var t := batch[i];
    CountIfPositive(batch, SentBy(t.sender), i);
    CountIfPositive(batch, ReceivedBy(t.receiver), i);
    Features(
      t.time.hour,
      Weekday(t.date) >= 5,
      BitOf(IsNightHour(t.time.hour)),
      log1p(t.amount),
      BitOf(IsThousandMultiple(t.amount)),
      BitOf(InStructuringBand(t.amount)),
      BitOf(Transactions.IsCrossBorder(t)),
      BitOf(t.paymentCurrency != t.receivedCurrency),
      CountIf(batch, SentBy(t.sender)),
      CountIf(batch, ReceivedBy(t.receiver)))
  }

  /** The frame with the engineered columns added: one row per input row, in order. */
  function EngineerFeatures(batch: seq<Txn>, log1p: real -> real): (r: seq<EngineeredRow>)
    ensures |r| == |batch|
    ensures forall i :: 0 <= i < |r| ==> r[i].txn == batch[i] && r[i].features == EngineerRow(batch, i, log1p)
  {
    seq(|batch|, i requires 0 <= i < |batch| => EngineeredRow(batch[i], EngineerRow(batch, i, log1p)))
  }

  /**
   * `groupby(...).transform('count')`: the sender (receiver) frequency is the number of rows
   * with the same sender (receiver), so rows sharing an account share the frequency.
   */
  lemma FrequencyCounts(batch: seq<Txn>, i: nat, j: nat, log1p: real -> real)
    requires i < |batch| && j < |batch|
    ensures EngineerRow(batch, i, log1p).senderFrequency == CountIf(batch, SentBy(batch[i].sender))
    ensures EngineerRow(batch, i, log1p).receiverFrequency == CountIf(batch, ReceivedBy(batch[i].receiver))
    ensures batch[i].sender == batch[j].sender ==>
      EngineerRow(batch, i, log1p).senderFrequency == EngineerRow(batch, j, log1p).senderFrequency
    ensures batch[i].receiver == batch[j].receiver ==>
      EngineerRow(batch, i, log1p).receiverFrequency == EngineerRow(batch, j, log1p).receiverFrequency
  {
  }

  /** A sender frequency of 1 means no other row of the batch has that sender. */
  lemma SenderFrequencyOne(batch: seq<Txn>, i: nat, log1p: real -> real)
    requires i < |batch|
    ensures EngineerRow(batch, i, log1p).senderFrequency == 1 <==>
      forall j :: 0 <= j < |batch| && j != i ==> batch[j].sender != batch[i].sender
  {
    var p := SentBy(batch[i].sender);
    CountIfTwo(batch, p);
    if exists j :: 0 <= j < |batch| && j != i && batch[j].sender == batch[i].sender {
      var j :| 0 <= j < |batch| && j != i && batch[j].sender == batch[i].sender;
      assert p(batch[i]) && p(batch[j]);
      if i < j {
        assert exists a, b :: 0 <= a < b < |batch| && p(batch[a]) && p(batch[b]);
      } else {
        assert exists a, b :: 0 <= a < b < |batch| && p(batch[a]) && p(batch[b]) by {
          assert 0 <= j < i < |batch|;
        }
      }
    }
    if CountIf(batch, p) >= 2 {
      var a, b :| 0 <= a < b < |batch| && p(batch[a]) && p(batch[b]);
      assert a != i || b != i;
    }
  }

  /** Every minute-rule time anomaly of the detector falls inside the predictor's night window. */
  lemma TimeAnomalyIsNight(c: Clock)
    requires IsTimeAnomaly(c)
    ensures IsNightHour(c.hour)
  {
  }

  /** The two night rules differ: 05:30 and 22:00 are night for the predictor but not anomalous for the detector. */
  lemma NightRulesDiffer(s: Sixty)
    ensures IsNightHour(Clock(5, 30, s).hour) && !IsTimeAnomaly(Clock(5, 30, s))
    ensures IsNightHour(Clock(22, 0, s).hour) && !IsTimeAnomaly(Clock(22, 0, s))
  {
  }

  // ---------------------------------------------------------------------------
  // Label encoding
  // ---------------------------------------------------------------------------

  /** A fitted LabelEncoder: its `classes_`. */
  datatype Encoder = Encoder(classes: seq<string>)

  /** Position of `v` in `s`, if any. */
  function IndexOf(s: seq<string>, v: string): (r: Option<nat>)
    ensures r.Some? ==> r.value < |s| && s[r.value] == v
    ensures r.None? <==> v !in s
  {
    if s == [] then None
    else if s[0] == v then Some(0)
    else
      var rest := IndexOf(s[1..], v);
      assert v in s <==> v == s[0] || v in s[1..];
      if rest.Some? then Some(rest.value + 1) else None
  }

  /** `transform` of one value: its code, or None for a category the encoder has not seen. */
  function Encode(enc: Encoder, v: string): (r: Option<nat>)
    ensures r.Some? ==> r.value < |enc.classes| && enc.classes[r.value] == v
    ensures r.None? <==> v !in enc.classes
  {
    IndexOf(enc.classes, v)
  }

  /** `inverse_transform` of one code. */
  function Decode(enc: Encoder, code: nat): Option<string> {
    if code < |enc.classes| then Some(enc.classes[code]) else None
  }

  /** Decoding a code undoes encoding; on distinct classes, encoding a decoded code gives it back. */
  lemma {:induction false} EncodeDecode(enc: Encoder, v: string, code: nat)
    ensures Encode(enc, v).Some? ==> Decode(enc, Encode(enc, v).value) == Some(v)
    ensures (forall i, j :: 0 <= i < j < |enc.classes| ==> enc.classes[i] != enc.classes[j]) && code < |enc.classes| ==>
      Encode(enc, enc.classes[code]) == Some(code)
  {
    if code < |enc.classes| {
      var k := Encode(enc, enc.classes[code]);
      assert enc.classes[code] in enc.classes;
      assert k.Some? && enc.classes[k.value] == enc.classes[code];
    }
  }

  /** Every value of the column is a known category. */
  predicate AllSeen(enc: Encoder, vals: seq<string>) {
    forall i :: 0 <= i < |vals| ==> vals[i] in enc.classes
  }

  /**
   * Prediction-time encoding of one column: the codes, or a column of zeros when
   * `transform` rejects any value of it.
   */
  function EncodeColumn(enc: Encoder, vals: seq<string>): (r: seq<nat>)
    ensures |r| == |vals|
    ensures AllSeen(enc, vals) ==> forall i :: 0 <= i < |r| ==> r[i] < |enc.classes| && enc.classes[r[i]] == vals[i]
    ensures !AllSeen(enc, vals) ==> forall i :: 0 <= i < |r| ==> r[i] == 0
  {
    if AllSeen(enc, vals) then
      seq(|vals|, i requires 0 <= i < |vals| && AllSeen(enc, vals) => Encode(enc, vals[i]).value)
    else
      seq(|vals|, i => 0)
  }

  /** One unseen value in a batch zeroes the whole column, including the rows whose values were seen. */
  lemma UnseenZeroesColumn(enc: Encoder, vals: seq<string>, bad: nat, i: nat)
    requires bad < |vals| && vals[bad] !in enc.classes && i < |vals|
    ensures EncodeColumn(enc, vals)[i] == 0
  {
  }

  // ---------------------------------------------------------------------------
  // Fitting a label encoder
  // ---------------------------------------------------------------------------

  /** Python's string order: code point by code point, a proper prefix first. */
  predicate StrLt(a: string, b: string) {
    if |a| == 0 then |b| > 0
    else if |b| == 0 then false
    else if a[0] != b[0] then a[0] < b[0]
    else StrLt(a[1..], b[1..])
  }

  lemma {:induction false} StrLtIrreflexive(a: string)
    ensures !StrLt(a, a)
  {
    if |a| > 0 {
      StrLtIrreflexive(a[1..]);
    }
  }

  lemma {:induction false} StrLtTransitive(a: string, b: string, c: string)
    requires StrLt(a, b) && StrLt(b, c)
    ensures StrLt(a, c)
  {
    if |a| > 0 && |b| > 0 && |c| > 0 && a[0] == b[0] && b[0] == c[0] {
      StrLtTransitive(a[1..], b[1..], c[1..]);
    }
  }

  /** Two different strings are ordered one way or the other. */
  lemma {:induction false} StrLtTotal(a: string, b: string)
    requires a != b
    ensures StrLt(a, b) || StrLt(b, a)
  {
    if |a| > 0 && |b| > 0 && a[0] == b[0] {
      assert a == [a[0]] + a[1..] && b == [b[0]] + b[1..];
      StrLtTotal(a[1..], b[1..]);
    }
  }

  /** Each class is smaller than the next. */
  predicate Sorted(s: seq<string>) {
    forall i :: 0 <= i < |s| - 1 ==> StrLt(s[i], s[i + 1])
  }

  /** Inserts `x` into a sorted vocabulary unless it is already there. */
  function Insert(x: string, s: seq<string>): seq<string> {
    if s == [] then [x]
    else if x == s[0] then s
    else if StrLt(x, s[0]) then [x] + s
    else [s[0]] + Insert(x, s[1..])
  }

  lemma {:induction false} InsertMembers(x: string, s: seq<string>, v: string)
    ensures v in Insert(x, s) <==> v == x || v in s
  {
    if s != [] && x != s[0] && !StrLt(x, s[0]) {
      InsertMembers(x, s[1..], v);
      assert v in s <==> v == s[0] || v in s[1..];
    }
  }

  lemma InsertHead(x: string, s: seq<string>)
    ensures Insert(x, s) != []
    ensures Insert(x, s)[0] == x || (s != [] && Insert(x, s)[0] == s[0])
  {
  }

  lemma {:induction false} InsertSorted(x: string, s: seq<string>)
    requires Sorted(s)
    ensures Sorted(Insert(x, s))
  {
    if s != [] && x != s[0] && !StrLt(x, s[0]) {
      var rest := s[1..];
      assert Sorted(rest) by {
        forall i | 0 <= i < |rest| - 1 ensures StrLt(rest[i], rest[i + 1]) {
          assert rest[i] == s[i + 1] && rest[i + 1] == s[i + 2];
        }
      }
      InsertSorted(x, rest);
      InsertHead(x, rest);
      StrLtTotal(x, s[0]);
      var r := Insert(x, s);
      assert r == [s[0]] + Insert(x, rest);
      forall i | 0 <= i < |r| - 1 ensures StrLt(r[i], r[i + 1]) {
        if i == 0 {
          assert r[1] == Insert(x, rest)[0];
        } else {
          assert r[i] == Insert(x, rest)[i - 1] && r[i + 1] == Insert(x, rest)[i];
        }
      }
    }
  }

  /** `LabelEncoder.fit`: the distinct values, sorted (`classes_`). */
  function FitEncoder(vals: seq<string>): (e: Encoder)
    ensures Sorted(e.classes)
    ensures forall v :: v in e.classes <==> v in vals
  {
    if vals == [] then Encoder([])
    else
      var rest := FitEncoder(vals[1..]);
      InsertSorted(vals[0], rest.classes);
      forall v ensures v in Insert(vals[0], rest.classes) <==> v in vals {
        InsertMembers(vals[0], rest.classes, v);
        assert v in vals <==> v == vals[0] || v in vals[1..];
      }
      Encoder(Insert(vals[0], rest.classes))
  }

  /** A sorted vocabulary is strictly increasing, so no class appears twice. */
  lemma {:induction false} SortedDistinct(s: seq<string>)
    requires Sorted(s)
    ensures forall i, j :: 0 <= i < j < |s| ==> StrLt(s[i], s[j]) && s[i] != s[j]
  {
    if |s| > 1 {
      var rest := s[1..];
      assert Sorted(rest) by {
        forall i | 0 <= i < |rest| - 1 ensures StrLt(rest[i], rest[i + 1]) {
          assert rest[i] == s[i + 1] && rest[i + 1] == s[i + 2];
        }
      }
      SortedDistinct(rest);
      forall i, j | 0 <= i < j < |s| ensures StrLt(s[i], s[j]) && s[i] != s[j] {
        if i == 0 {
          if j > 1 {
            assert StrLt(rest[0], rest[j - 1]);
            StrLtTransitive(s[0], s[1], s[j]);
          }
        } else {
          assert s[i] == rest[i - 1] && s[j] == rest[j - 1];
        }
        if s[i] == s[j] {
          StrLtIrreflexive(s[i]);
        }
      }
    } else if |s| == 1 {
      StrLtIrreflexive(s[0]);
    }
  }

  /**
   * `fit_transform` on a training column: every value is a class of the fitted
   * encoder, the codes name the values exactly, and equal values get equal codes.
   */
  lemma FitTransformExact(vals: seq<string>, i: nat, j: nat)
    requires i < |vals| && j < |vals|
    ensures AllSeen(FitEncoder(vals), vals)
    ensures FitEncoder(vals).classes[EncodeColumn(FitEncoder(vals), vals)[i]] == vals[i]
    ensures EncodeColumn(FitEncoder(vals), vals)[i] == EncodeColumn(FitEncoder(vals), vals)[j] <==> vals[i] == vals[j]
  {
    var e := FitEncoder(vals);
    assert AllSeen(e, vals);
  }

  /** A batch whose categories all occurred in training is encoded exactly, with no fallback to 0. */
  lemma KnownCategoriesEncoded(train: seq<string>, batch: seq<string>, i: nat)
    requires forall k :: 0 <= k < |batch| ==> batch[k] in train
    requires i < |batch|
    ensures FitEncoder(train).classes[EncodeColumn(FitEncoder(train), batch)[i]] == batch[i]
  {
    assert AllSeen(FitEncoder(train), batch);
  }

  /** On a fitted encoder, decoding after encoding and encoding after decoding are the identity. */
  lemma FittedRoundTrip(vals: seq<string>, v: string, code: nat)
    ensures v in vals ==> Encode(FitEncoder(vals), v).Some? && Decode(FitEncoder(vals), Encode(FitEncoder(vals), v).value) == Some(v)
    ensures code < |FitEncoder(vals).classes| ==> Encode(FitEncoder(vals), FitEncoder(vals).classes[code]) == Some(code)
  {
    var e := FitEncoder(vals);
    SortedDistinct(e.classes);
    EncodeDecode(e, v, code);
  }

  // ---------------------------------------------------------------------------
  // Column values
  // ---------------------------------------------------------------------------

  /** The value of a categorical column in one row. */
  function CategoryOf(t: Txn, c: ColumnName): string
    requires c in CategoricalFeatures
  {
    match c
    case PaymentType => t.paymentType
    case SenderBankLocation => t.senderLocation
    case ReceiverBankLocation => t.receiverLocation
    case PaymentCurrency => t.paymentCurrency
    case ReceivedCurrency => t.receivedCurrency
  }

  /** One categorical column of the batch, `features[c].astype(str)`. */
  function CategoryColumn(batch: seq<Txn>, c: ColumnName): (r: seq<string>)
    requires c in CategoricalFeatures
    ensures |r| == |batch| && forall i :: 0 <= i < |batch| ==> r[i] == CategoryOf(batch[i], c)
  {
    seq(|batch|, i requires 0 <= i < |batch| => CategoryOf(batch[i], c))
  }

  /**
   * The number a numeric or boolean column holds in one engineered row; text
   * columns and the `_encoded` columns (whose codes depend on the whole batch)
   * have none here.
   */
  function RowValue(r: EngineeredRow, name: ColumnName): Option<real> {
    var f := r.features;
    match name
    case Amount => Some(r.txn.amount)
    case IsLaundering => Some(if r.txn.isLaundering then 1.0 else 0.0)
    case HourOfDay => Some(f.hour as real)
    case IsWeekend => Some(if f.isWeekend then 1.0 else 0.0)
    case IsNightTransaction => Some(f.isNightTransaction as real)
    case LogAmount => Some(f.logAmount)
    case IsRoundAmount => Some(f.isRoundAmount as real)
    case IsStructuringAmount => Some(f.isStructuringAmount as real)
    case IsCrossBorder => Some(f.isCrossBorder as real)
    case IsCurrencyMismatch => Some(f.isCurrencyMismatch as real)
    case SenderFrequency => Some(f.senderFrequency as real)
    case ReceiverFrequency => Some(f.receiverFrequency as real)
    case _ => None
  }

  /** A row has a number for exactly the numeric and boolean columns of the engineered frame. */
  lemma RowValueDefined(r: EngineeredRow, c: Column)
    requires IsEngineered(c)
    ensures RowValue(r, c.name).Some? <==> c.kind != Text
  {
  }
}
