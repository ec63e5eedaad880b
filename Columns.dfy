/**
 * The column layout of the predictor's frame: which columns exist after feature
 * engineering and categorical encoding, which of them are numeric, and the
 * resulting ordered list of feature names.
 */
module Columns {

  /**
   * The frame's column labels. The pandas spellings are `Time`, `Date`,
   * `Sender_account`, `Receiver_account`, `Amount`, `Payment_currency`,
   * `Received_currency`, `Sender_bank_location`, `Receiver_bank_location`,
   * `Payment_type`, `Is_laundering`, `Laundering_type`, then the engineered
   * `hour`, `is_weekend`, `is_night_transaction`, `log_amount`,
   * `is_round_amount`, `is_structuring_amount`, `is_cross_border`,
   * `is_currency_mismatch`, `sender_frequency`, `receiver_frequency`, and
   * `<base>_encoded` for an encoded categorical column.
   */
  datatype ColumnName =
    | Time | Date | SenderAccount | ReceiverAccount | Amount
    | PaymentCurrency | ReceivedCurrency | SenderBankLocation | ReceiverBankLocation
    | PaymentType | IsLaundering | LaunderingType
    | HourOfDay | IsWeekend | IsNightTransaction | LogAmount | IsRoundAmount
    | IsStructuringAmount | IsCrossBorder | IsCurrencyMismatch | SenderFrequency | ReceiverFrequency
    | Encoded(base: ColumnName)

  /** The dtype classes `select_dtypes(include=[np.number])` tells apart. */
  datatype Kind = Text | Flag | Number

  datatype Column = Column(name: ColumnName, kind: Kind)

  /** The prediction target. */
  const Target: ColumnName := IsLaundering

  /** When and between whom: the first four columns of the transaction table. */
  const PartyColumns: seq<Column> := [
    Column(Time, Text), Column(Date, Text), Column(SenderAccount, Text), Column(ReceiverAccount, Text)]

  const AmountColumns: seq<Column> := [Column(Amount, Number)]

  /** How the payment was made and routed. */
  const RoutingColumns: seq<Column> := [
    Column(PaymentCurrency, Text), Column(ReceivedCurrency, Text),
    Column(SenderBankLocation, Text), Column(ReceiverBankLocation, Text), Column(PaymentType, Text)]

  /** The two label columns. */
  const LabelColumns: seq<Column> := [Column(IsLaundering, Number), Column(LaunderingType, Text)]

  /** The twelve columns of the transaction table, in file order. */
  const SourceColumns: seq<Column> := PartyColumns + AmountColumns + RoutingColumns + LabelColumns

  /** The columns feature engineering appends, group by group; `is_weekend` holds booleans. */
  const TimeColumns: seq<Column> := [Column(HourOfDay, Number), Column(IsWeekend, Flag), Column(IsNightTransaction, Number)]
  const AmountFeatureColumns: seq<Column> := [
    Column(LogAmount, Number), Column(IsRoundAmount, Number), Column(IsStructuringAmount, Number)]
  const GeographicColumns: seq<Column> := [Column(IsCrossBorder, Number), Column(IsCurrencyMismatch, Number)]
  const AccountPatternColumns: seq<Column> := [Column(SenderFrequency, Number), Column(ReceiverFrequency, Number)]

  const AddedColumns: seq<Column> := TimeColumns + AmountFeatureColumns + GeographicColumns + AccountPatternColumns

  const EngineeredColumns: seq<Column> := SourceColumns + AddedColumns

  /** The categorical columns, in the order in which they are encoded. */
  const CategoricalFeatures: seq<ColumnName> := [
    PaymentType, SenderBankLocation, ReceiverBankLocation, PaymentCurrency, ReceivedCurrency]

  /** The engineered feature names, group by group. */
  const TimeFeatures: seq<ColumnName> := [HourOfDay, IsNightTransaction]
  const AmountFeatures: seq<ColumnName> := [LogAmount, IsRoundAmount, IsStructuringAmount]
  const GeographicFeatures: seq<ColumnName> := [IsCrossBorder, IsCurrencyMismatch]
  const AccountPatternFeatures: seq<ColumnName> := [SenderFrequency, ReceiverFrequency]

  const AddedFeatureList: seq<ColumnName> := TimeFeatures + AmountFeatures + GeographicFeatures + AccountPatternFeatures

  /** The encoded feature names, in the order of the categorical list. */
  const EncodedFeatureList: seq<ColumnName> := [
    Encoded(PaymentType), Encoded(SenderBankLocation), Encoded(ReceiverBankLocation),
    Encoded(PaymentCurrency), Encoded(ReceivedCurrency)]

  /** The fifteen training features, in order. */
  const TrainingFeatureList: seq<ColumnName> := [Amount] + AddedFeatureList + EncodedFeatureList

  function EncodedNames(cats: seq<ColumnName>): (r: seq<ColumnName>)
    ensures |r| == |cats| && forall k :: 0 <= k < |cats| ==> r[k] == Encoded(cats[k])
  {
    if cats == [] then [] else [Encoded(cats[0])] + EncodedNames(cats[1..])
  }

  function ColumnNames(cols: seq<Column>): (r: seq<ColumnName>)
    ensures |r| == |cols| && forall i :: 0 <= i < |cols| ==> r[i] == cols[i].name
  {
    seq(|cols|, i requires 0 <= i < |cols| => cols[i].name)
  }

  /** `drop(name, axis=1)`. */
  function DropColumn(cols: seq<Column>, name: ColumnName): (r: seq<Column>)
    ensures forall c :: c in r <==> c in cols && c.name != name
  {
    if cols == [] then []
    else (if cols[0].name == name then [] else [cols[0]]) + DropColumn(cols[1..], name)
  }

  /**
   * The encoding loop on the layout: each categorical column that is in the frame
   * and in `encodes` gains a numeric `_encoded` column at the end and is dropped.
   */
  function EncodeLayout(cols: seq<Column>, cats: seq<ColumnName>, encodes: set<ColumnName>): seq<Column>
    decreases |cats|
  {
    if cats == [] then cols
    else
      var f := cats[0];
      var next := if f in ColumnNames(cols) && f in encodes
        then DropColumn(cols + [Column(Encoded(f), Number)], f)
        else cols;
      EncodeLayout(next, cats[1..], encodes)
  }

  /** The numeric columns other than the target, in frame order. */
  function FeatureNames(cols: seq<Column>): seq<ColumnName> {
    FeaturesUpTo(cols, |cols|)
  }

  /** A column's contribution to the feature names. */
  function Pick(c: Column): seq<ColumnName> {
    if c.kind == Number && c.name != Target then [c.name] else []
  }

  /** The feature names of the first `n` columns, accumulated from the left. */
  function FeaturesUpTo(cols: seq<Column>, n: nat): seq<ColumnName>
    requires n <= |cols|
  {
    if n == 0 then [] else FeaturesUpTo(cols, n - 1) + Pick(cols[n - 1])
  }

  /** The feature columns of the engineered frame once the categorical columns in `encodes` are encoded. */
  function LayoutFeatureNames(encodes: set<ColumnName>): seq<ColumnName> {
    FeatureNames(EncodeLayout(EngineeredColumns, CategoricalFeatures, encodes))
  }

  /** The target is never a feature, and every feature is a numeric column of the layout. */
  lemma {:induction false} FeatureNamesSound(cols: seq<Column>, n: ColumnName)
    ensures n in FeatureNames(cols) <==> n != Target && exists i :: 0 <= i < |cols| && cols[i].name == n && cols[i].kind == Number
  {
    if cols != [] {
      FeatureNamesCons(cols);
      FeatureNamesSound(cols[1..], n);
      assert forall i :: 1 <= i < |cols| ==> cols[1..][i - 1] == cols[i];
      if n in FeatureNames(cols[1..]) {
        var i :| 0 <= i < |cols[1..]| && cols[1..][i].name == n && cols[1..][i].kind == Number;
        assert cols[i + 1].name == n;
      }
    }
  }

  lemma ConcatAssoc<T>(a: seq<T>, b: seq<T>, c: seq<T>)
    ensures a + (b + c) == (a + b) + c
  {
  }

  /** Columns appended after the first `n` do not change their feature names. */
  lemma {:induction false} FeaturesUpToPrefix(a: seq<Column>, b: seq<Column>, n: nat)
    requires n <= |a|
    ensures FeaturesUpTo(a + b, n) == FeaturesUpTo(a, n)
  {
    if n > 0 {
      FeaturesUpToPrefix(a, b, n - 1);
      assert (a + b)[n - 1] == a[n - 1];
    }
  }

  lemma {:induction false} FeatureNamesAppend(a: seq<Column>, b: seq<Column>)
    ensures FeatureNames(a + b) == FeatureNames(a) + FeatureNames(b)
    decreases |b|
  {
    if b == [] {
      assert a + b == a;
    } else {
      var init, x := b[..|b| - 1], b[|b| - 1];
      assert b == init + [x];
      assert a + b == (a + init) + [x];
      FeatureNamesAppend(a, init);
      FeaturesUpToPrefix(a + init, [x], |a + init|);
      FeaturesUpToPrefix(init, [x], |init|);
      ConcatAssoc(FeatureNames(a), FeatureNames(init), Pick(x));
    }
  }

  /** The feature names of a non-empty layout, read from its first column. */
  lemma FeatureNamesCons(cols: seq<Column>)
    requires cols != []
    ensures FeatureNames(cols) == Pick(cols[0]) + FeatureNames(cols[1..])
  {
    assert cols == [cols[0]] + cols[1..];
    FeatureNamesAppend([cols[0]], cols[1..]);
    FeatureNamesSingle(cols[0]);
  }

  /** Dropping a text column does not change the feature names. */
  lemma {:induction false} FeatureNamesDropText(cols: seq<Column>, f: ColumnName)
    requires forall i :: 0 <= i < |cols| && cols[i].name == f ==> cols[i].kind == Text
    ensures FeatureNames(DropColumn(cols, f)) == FeatureNames(cols)
  {
    if cols != [] {
      assert forall i :: 1 <= i < |cols| ==> cols[1..][i - 1] == cols[i];
      FeatureNamesDropText(cols[1..], f);
      var head := if cols[0].name == f then [] else [cols[0]];
      assert DropColumn(cols, f) == head + DropColumn(cols[1..], f);
      FeatureNamesAppend(head, DropColumn(cols[1..], f));
      FeatureNamesCons(cols);
      if head != [] {
        FeatureNamesSingle(cols[0]);
      }
    }
  }

  /** No name occurs twice. */
  predicate Distinct(names: seq<ColumnName>) {
    names == [] || (names[0] !in names[1..] && Distinct(names[1..]))
  }

  /** What the encoding loop needs of a layout: every category is present, only as text, and no name collides. */
  ghost predicate EncodableLayout(cols: seq<Column>, cats: seq<ColumnName>) {
    && (forall f :: f in cats ==> f in ColumnNames(cols))
    && (forall c :: c in cols && c.name in cats ==> c.kind == Text)
    && Distinct(cats)
    && (forall f :: f in cats ==> Encoded(f) !in cats)
  }

  /** How many `_encoded` suffixes a name carries. */
  function EncodingDepth(c: ColumnName): nat {
    if c.Encoded? then 1 + EncodingDepth(c.base) else 0
  }

  /** An encoded column never has the name of the column it encodes. */
  lemma EncodedIsNew(f: ColumnName)
    ensures Encoded(f) != f
  {
    assert EncodingDepth(Encoded(f)) == EncodingDepth(f) + 1;
  }

  /** One step of the encoding loop: the encoded name joins the feature names at the end. */
  lemma EncodeStepFeatures(cols: seq<Column>, f: ColumnName)
    requires forall i :: 0 <= i < |cols| && cols[i].name == f ==> cols[i].kind == Text
    ensures FeatureNames(DropColumn(cols + [Column(Encoded(f), Number)], f)) == FeatureNames(cols) + [Encoded(f)]
  {
    var c := Column(Encoded(f), Number);
    DropAfterEncoding(cols, f);
    EncodedFeatureSingle(f);
    FeatureNamesAppend(cols, [c]);
  }

  lemma EncodedFeatureSingle(f: ColumnName)
    ensures FeatureNames([Column(Encoded(f), Number)]) == [Encoded(f)]
  {
    FeatureNamesSingle(Column(Encoded(f), Number));
  }

  /** Dropping the categorical column after appending its encoding leaves the feature names alone. */
  lemma DropAfterEncoding(cols: seq<Column>, f: ColumnName)
    requires forall i :: 0 <= i < |cols| && cols[i].name == f ==> cols[i].kind == Text
    ensures FeatureNames(DropColumn(cols + [Column(Encoded(f), Number)], f)) == FeatureNames(cols + [Column(Encoded(f), Number)])
  {
    EncodedIsNew(f);
    FeatureNamesDropText(cols + [Column(Encoded(f), Number)], f);
  }

  lemma FeatureNamesSingle(c: Column)
    ensures FeatureNames([c]) == Pick(c)
  {
    assert FeaturesUpTo([c], 1) == FeaturesUpTo([c], 0) + Pick(c);
  }

  /** One step of the encoding loop keeps the layout encodable for the remaining categories. */
  lemma EncodeStepLayout(cols: seq<Column>, cats: seq<ColumnName>)
    requires cats != [] && EncodableLayout(cols, cats)
    ensures EncodableLayout(DropColumn(cols + [Column(Encoded(cats[0]), Number)], cats[0]), cats[1..])
  {
    var f := cats[0];
    var added := cols + [Column(Encoded(f), Number)];
    var next := DropColumn(added, f);
    var rest := cats[1..];
    forall g | g in rest ensures g in ColumnNames(next) {
      assert g in cats && g != f;
      var j :| 0 <= j < |cols| && ColumnNames(cols)[j] == g;
      assert added[j] in next;
      var m :| 0 <= m < |next| && next[m] == added[j];
      assert ColumnNames(next)[m] == g;
    }
    forall c | c in next && c.name in rest ensures c.kind == Text {
      assert c.name in cats;
      assert Encoded(f) !in cats;
      assert c in added;
    }
  }

  lemma EncodeLayoutUnfold(cols: seq<Column>, cats: seq<ColumnName>, encodes: set<ColumnName>)
    requires cats != [] && cats[0] in encodes && cats[0] in ColumnNames(cols)
    ensures EncodeLayout(cols, cats, encodes)
      == EncodeLayout(DropColumn(cols + [Column(Encoded(cats[0]), Number)], cats[0]), cats[1..], encodes)
  {
  }

  /** The first category of an encodable layout is a text column of it, and is to be encoded. */
  lemma EncodableHead(cols: seq<Column>, cats: seq<ColumnName>)
    requires cats != [] && EncodableLayout(cols, cats)
    ensures cats[0] in ColumnNames(cols)
    ensures forall i :: 0 <= i < |cols| && cols[i].name == cats[0] ==> cols[i].kind == Text
  {
    assert cats[0] in cats;
    forall i | 0 <= i < |cols| && cols[i].name == cats[0] ensures cols[i].kind == Text {
      assert cols[i] in cols;
    }
  }

  /** Every column of an encoded layout was there before, or is the numeric encoding of an encoded category. */
  lemma {:induction false} EncodeLayoutMembers(cols: seq<Column>, cats: seq<ColumnName>, encodes: set<ColumnName>, c: Column)
    requires c in EncodeLayout(cols, cats, encodes)
    ensures c in cols || (c.name.Encoded? && c.name.base in cats && c.name.base in encodes && c.kind == Number)
    decreases |cats|
  {
    if cats != [] {
      var f := cats[0];
      var next := if f in ColumnNames(cols) && f in encodes
        then DropColumn(cols + [Column(Encoded(f), Number)], f)
        else cols;
      EncodeLayoutMembers(next, cats[1..], encodes, c);
      if c.name.Encoded? && c.name.base in cats[1..] {
        assert c.name.base in cats;
      }
    }
  }

  /** Encoding every categorical column appends their `_encoded` names, in order, to the feature names. */
  lemma {:induction false} EncodeLayoutFeatures(cols: seq<Column>, cats: seq<ColumnName>, encodes: set<ColumnName>)
    requires EncodableLayout(cols, cats)
    requires forall f :: f in cats ==> f in encodes
    ensures FeatureNames(EncodeLayout(cols, cats, encodes)) == FeatureNames(cols) + EncodedNames(cats)
    decreases |cats|
  {
    if cats != [] {
      var f := cats[0];
      var next := DropColumn(cols + [Column(Encoded(f), Number)], f);
      EncodableHead(cols, cats);
      assert EncodeLayout(cols, cats, encodes) == EncodeLayout(next, cats[1..], encodes) by {
        EncodeLayoutUnfold(cols, cats, encodes);
      }
      assert FeatureNames(next) == FeatureNames(cols) + [Encoded(f)] by {
        EncodeStepFeatures(cols, f);
      }
      assert FeatureNames(EncodeLayout(next, cats[1..], encodes)) == FeatureNames(next) + EncodedNames(cats[1..]) by {
        EncodeStepLayout(cols, cats);
        EncodeLayoutFeatures(next, cats[1..], encodes);
      }
      assert EncodedNames(cats) == [Encoded(f)] + EncodedNames(cats[1..]);
      ConcatAssoc(FeatureNames(cols), [Encoded(f)], EncodedNames(cats[1..]));
    }
  }

}

/** The kind every column of the engineered frame has. */
module ColumnKinds {
  import opened Columns

  /** The kind of each column of the engineered frame, by name: is_weekend holds booleans, and an encoding is not among them. */
  predicate IsEngineered(c: Column) {
    if c.name.Encoded? then false
    else if c.name == IsWeekend then c.kind == Flag
    else if c.name in TextNames then c.kind == Text
    else c.kind == Number
  }

  const TextNames: seq<ColumnName> := [Time, Date, SenderAccount, ReceiverAccount, PaymentCurrency, ReceivedCurrency,
    SenderBankLocation, ReceiverBankLocation, PaymentType, LaunderingType]

  predicate AllEngineered(cols: seq<Column>) {
    forall i :: 0 <= i < |cols| ==> IsEngineered(cols[i])
  }

  lemma PartyAmountEngineered()
    ensures AllEngineered(PartyColumns) && AllEngineered(AmountColumns)
  {
  }

  lemma RoutingLabelEngineered()
    ensures AllEngineered(RoutingColumns) && AllEngineered(LabelColumns)
  {
  }

  lemma TimeAmountEngineered()
    ensures AllEngineered(TimeColumns) && AllEngineered(AmountFeatureColumns)
  {
  }

  lemma GeographicPatternEngineered()
    ensures AllEngineered(GeographicColumns) && AllEngineered(AccountPatternColumns)
  {
  }

  lemma SourceEngineered()
    ensures AllEngineered(SourceColumns)
  {
    PartyAmountEngineered();
    RoutingLabelEngineered();
    AllEngineeredAppend(PartyColumns, AmountColumns);
    AllEngineeredAppend(PartyColumns + AmountColumns, RoutingColumns);
    AllEngineeredAppend(PartyColumns + AmountColumns + RoutingColumns, LabelColumns);
  }

  lemma AddedEngineered()
    ensures AllEngineered(AddedColumns)
  {
    TimeAmountEngineered();
    GeographicPatternEngineered();
    AllEngineeredAppend(TimeColumns, AmountFeatureColumns);
    AllEngineeredAppend(TimeColumns + AmountFeatureColumns, GeographicColumns);
    AllEngineeredAppend(TimeColumns + AmountFeatureColumns + GeographicColumns, AccountPatternColumns);
  }

  lemma AllEngineeredAppend(a: seq<Column>, b: seq<Column>)
    requires AllEngineered(a) && AllEngineered(b)
    ensures AllEngineered(a + b)
  {
    forall i | 0 <= i < |a + b| ensures IsEngineered((a + b)[i]) {
      if i >= |a| {
        assert (a + b)[i] == b[i - |a|];
      }
    }
  }

  lemma EngineeredAll()
    ensures AllEngineered(EngineeredColumns)
  {
    SourceEngineered();
    AddedEngineered();
    AllEngineeredAppend(SourceColumns, AddedColumns);
  }

  /** Every engineered column has the kind its name fixes, so none is an encoding and no name appears with two kinds. */
  lemma EngineeredColumnKind(c: Column)
    requires c in EngineeredColumns
    ensures IsEngineered(c) && !c.name.Encoded?
    ensures c.kind == Text ==> Column(c.name, Number) !in EngineeredColumns && Column(c.name, Flag) !in EngineeredColumns
  {
    EngineeredAll();
  }
}

/** The concrete feature layout of the training frame. */
module FeatureLayout {
  import opened Columns
  import opened ColumnKinds

  lemma FeaturesStep(c: seq<Column>, n: nat)
    requires 0 < n <= |c|
    ensures FeaturesUpTo(c, n) == FeaturesUpTo(c, n - 1) + Pick(c[n - 1])
  {
  }

  lemma PartyFeatureNames()
    ensures FeatureNames(PartyColumns) == []
  {
    var c := PartyColumns;
    FeaturesStep(c, 1);
    FeaturesStep(c, 2);
    FeaturesStep(c, 3);
    FeaturesStep(c, 4);
  }

  lemma RoutingFeatureNames()
    ensures FeatureNames(RoutingColumns) == []
  {
    var c := RoutingColumns;
    FeaturesStep(c, 1);
    FeaturesStep(c, 2);
    FeaturesStep(c, 3);
    FeaturesStep(c, 4);
    FeaturesStep(c, 5);
  }

  lemma LabelFeatureNames()
    ensures FeatureNames(LabelColumns) == []
  {
    var c := LabelColumns;
    FeaturesStep(c, 1);
    FeaturesStep(c, 2);
  }

  /** Of the twelve source columns only Amount is a feature: the rest are text, and Is_laundering is the target. */
  lemma SourceFeatureNames()
    ensures FeatureNames(SourceColumns) == [Amount]
  {
    PartyFeatureNames();
    RoutingFeatureNames();
    LabelFeatureNames();
    FeatureNamesSingle(Column(Amount, Number));
    FeatureNamesAppend(PartyColumns, AmountColumns);
    FeatureNamesAppend(PartyColumns + AmountColumns, RoutingColumns);
    FeatureNamesAppend(PartyColumns + AmountColumns + RoutingColumns, LabelColumns);
  }

  lemma TimeFeatureNames()
    ensures FeatureNames(TimeColumns) == TimeFeatures
  {
    var c := TimeColumns;
    FeaturesStep(c, 1);
    FeaturesStep(c, 2);
    FeaturesStep(c, 3);
  }

  lemma AmountFeatureNames()
    ensures FeatureNames(AmountFeatureColumns) == AmountFeatures
  {
    var c := AmountFeatureColumns;
    FeaturesStep(c, 1);
    FeaturesStep(c, 2);
    FeaturesStep(c, 3);
  }

  lemma GeographicFeatureNames()
    ensures FeatureNames(GeographicColumns) == GeographicFeatures
  {
    var c := GeographicColumns;
    FeaturesStep(c, 1);
    FeaturesStep(c, 2);
  }

  lemma AccountPatternFeatureNames()
    ensures FeatureNames(AccountPatternColumns) == AccountPatternFeatures
  {
    var c := AccountPatternColumns;
    FeaturesStep(c, 1);
    FeaturesStep(c, 2);
  }

  /** Of the ten engineered columns all but the boolean is_weekend are features. */
  lemma AddedFeatureNames()
    ensures FeatureNames(AddedColumns) == AddedFeatureList
  {
    TimeFeatureNames();
    AmountFeatureNames();
    GeographicFeatureNames();
    AccountPatternFeatureNames();
    FeatureNamesAppend(TimeColumns, AmountFeatureColumns);
    FeatureNamesAppend(TimeColumns + AmountFeatureColumns, GeographicColumns);
    FeatureNamesAppend(TimeColumns + AmountFeatureColumns + GeographicColumns, AccountPatternColumns);
  }

  /** The encoded columns, in the order of the categorical list. */
  lemma EncodedFeatureNames()
    ensures EncodedNames(CategoricalFeatures) == EncodedFeatureList
  {
  }

  lemma CategoricalPresent(f: ColumnName)
    requires f in CategoricalFeatures
    ensures f in ColumnNames(EngineeredColumns)
  {
    var names := ColumnNames(EngineeredColumns);
    assert names[9] == PaymentType && names[7] == SenderBankLocation && names[8] == ReceiverBankLocation;
    assert names[5] == PaymentCurrency && names[6] == ReceivedCurrency;
  }

  lemma CategoricalText(c: Column)
    requires c in EngineeredColumns && c.name in CategoricalFeatures
    ensures c.kind == Text
  {
    EngineeredAll();
  }

  /** Every categorical column is a text column of the engineered frame, and no two collide. */
  lemma CategoricalEncodable()
    ensures EncodableLayout(EngineeredColumns, CategoricalFeatures)
  {
    forall f | f in CategoricalFeatures ensures f in ColumnNames(EngineeredColumns) {
      CategoricalPresent(f);
    }
    forall c | c in EngineeredColumns && c.name in CategoricalFeatures ensures c.kind == Text {
      CategoricalText(c);
    }
    CategoricalDistinct();
    CategoricalUnencoded();
  }

  lemma CategoricalDistinct()
    ensures Distinct(CategoricalFeatures)
  {
    var c := CategoricalFeatures;
    assert c[4..] == [ReceivedCurrency] && c[3..] == [PaymentCurrency] + c[4..];
    assert Distinct(c[4..]);
    assert Distinct(c[3..]);
    assert c[2..] == [ReceiverBankLocation] + c[3..];
    assert Distinct(c[2..]);
    assert c[1..] == [SenderBankLocation] + c[2..];
    assert Distinct(c[1..]);
  }

  lemma CategoricalUnencoded()
    ensures forall f :: f in CategoricalFeatures ==> Encoded(f) !in CategoricalFeatures
  {
    forall f | f in CategoricalFeatures ensures Encoded(f) !in CategoricalFeatures {
      assert !Encoded(f).base.Encoded?;
    }
  }

  /** With every categorical column encoded: the numeric source and engineered columns, then the encoded ones. */
  lemma LayoutFeatureNamesParts(encodes: set<ColumnName>)
    requires forall f :: f in CategoricalFeatures ==> f in encodes
    ensures LayoutFeatureNames(encodes) == FeatureNames(SourceColumns) + FeatureNames(AddedColumns) + EncodedNames(CategoricalFeatures)
  {
    CategoricalEncodable();
    EncodeLayoutFeatures(EngineeredColumns, CategoricalFeatures, encodes);
    FeatureNamesAppend(SourceColumns, AddedColumns);
  }

  lemma ConcatParts(r: seq<ColumnName>, a: seq<ColumnName>, b: seq<ColumnName>, c: seq<ColumnName>)
    requires r == a + b + c && a == [Amount] && b == AddedFeatureList && c == EncodedFeatureList
    ensures r == TrainingFeatureList
  {
  }

  /** With every categorical column encoded, the features are the fifteen of the training list, in order. */
  lemma TrainingFeatureNamesValue(encodes: set<ColumnName>)
    requires forall f :: f in CategoricalFeatures ==> f in encodes
    ensures LayoutFeatureNames(encodes) == TrainingFeatureList
  {
    LayoutFeatureNamesParts(encodes);
    SourceFeatureNames();
    AddedFeatureNames();
    EncodedFeatureNames();
    ConcatParts(LayoutFeatureNames(encodes), FeatureNames(SourceColumns), FeatureNames(AddedColumns), EncodedNames(CategoricalFeatures));
  }

  /** Fifteen features; neither the boolean is_weekend nor the target is one of them. */
  lemma TrainingFeatureListFacts()
    ensures |TrainingFeatureList| == 15 && IsWeekend !in TrainingFeatureList && Target !in TrainingFeatureList
  {
  }
}
