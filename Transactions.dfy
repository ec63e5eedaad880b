/**
 * The transaction record all components read, the thresholds the modules share,
 * and counting / summing over sequences of records.
 */
module Transactions {

  // ---------------------------------------------------------------------------
  // Thresholds (the literals the modules hard-code and the configuration repeats)
  // ---------------------------------------------------------------------------

  const HighRiskThreshold: real := 70.0
  const MediumRiskThreshold: real := 40.0
  const HighRiskLocations: seq<string> := ["AE-DXB", "HK-HKG"]
  const StructuringMin: real := 9000.0
  const StructuringMax: real := 10000.0
  const ZScoreThreshold: real := 3.0
  const EarlyMinutes: int := 300    // 05:00
  const LateMinutes: int := 1320    // 22:00

  // ---------------------------------------------------------------------------
  // Records
  // ---------------------------------------------------------------------------

  type Hour = h: int | 0 <= h < 24
  type Sixty = m: int | 0 <= m < 60
  type Month = m: int | 1 <= m <= 12 witness 1
  type Day = d: int | 1 <= d <= 31 witness 1
  type Year = y: int | 1 <= y <= 9999 witness 2024

  /** A parsed 'HH:MM:SS' time of day. */
  datatype Clock = Clock(hour: Hour, minute: Sixty, second: Sixty)

  /** A parsed 'YYYY-MM-DD' date. */
  datatype Date = Date(year: Year, month: Month, day: Day)

  /** One row of the transaction table, with the twelve columns the data loader expects. */
  datatype Txn = Txn(
    time: Clock,
    date: Date,
    sender: string,
    receiver: string,
    amount: real,
    paymentCurrency: string,
    receivedCurrency: string,
    senderLocation: string,
    receiverLocation: string,
    paymentType: string,
    isLaundering: bool,
    launderingType: string)

  /** Day of the week with Monday = 0 and Sunday = 6, as pandas' `dt.weekday` numbers it (Gregorian calendar). */
  function Weekday(d: Date): (w: int)
    ensures 0 <= w < 7
  {
    var offsets := [0, 3, 2, 5, 0, 3, 5, 1, 4, 6, 2, 4];
    var y := if d.month < 3 then d.year - 1 else d.year;
    var sundayBased := (y + y / 4 - y / 100 + y / 400 + offsets[d.month - 1] + d.day) % 7;
    (sundayBased + 6) % 7
  }

  /** Chronological order on dates (string order on ISO dates). */
  predicate DateLe(a: Date, b: Date) {
    a.year < b.year || (a.year == b.year && (a.month < b.month || (a.month == b.month && a.day <= b.day)))
  }

  /** The structuring band [9000, 10000). */
  predicate InStructuringBand(amount: real) {
    StructuringMin <= amount < StructuringMax
  }

  /** Sender and receiver banks are in different locations. */
  predicate IsCrossBorder(t: Txn) {
    t.senderLocation != t.receiverLocation
  }

  /** Either side of the transaction is a high-risk location. */
  predicate TouchesHighRiskLocation(t: Txn) {
    t.senderLocation in HighRiskLocations || t.receiverLocation in HighRiskLocations
  }

  // ---------------------------------------------------------------------------
  // Counting, filtering and summing
  // ---------------------------------------------------------------------------

  /** Number of elements of `s` satisfying `p` (a boolean mask's `.sum()`). */
  function CountIf<T>(s: seq<T>, p: T -> bool): (n: nat)
    ensures n <= |s|
  {
    if s == [] then 0 else (if p(s[0]) then 1 else 0) + CountIf(s[1..], p)
  }

  lemma {:induction false} CountIfAppend<T>(a: seq<T>, b: seq<T>, p: T -> bool)
    ensures CountIf(a + b, p) == CountIf(a, p) + CountIf(b, p)
  {
    if a == [] {
      assert a + b == b;
    } else {
      assert (a + b)[1..] == a[1..] + b;
      CountIfAppend(a[1..], b, p);
    }
  }

  /** `CountIf` is zero exactly when no element satisfies the predicate. */
  lemma {:induction false} CountIfZero<T>(s: seq<T>, p: T -> bool)
    ensures CountIf(s, p) == 0 <==> forall i :: 0 <= i < |s| ==> !p(s[i])
  {
    if s != [] {
      CountIfZero(s[1..], p);
      assert forall i :: 1 <= i < |s| ==> s[i] == s[1..][i - 1];
    }
  }

  /** `CountIf` over a predicate that holds everywhere is the length. */
  lemma {:induction false} CountIfAll<T>(s: seq<T>, p: T -> bool)
    requires forall i :: 0 <= i < |s| ==> p(s[i])
    ensures CountIf(s, p) == |s|
  {
    if s != [] {
      assert forall i :: 0 <= i < |s| - 1 ==> s[1..][i] == s[i + 1];
      CountIfAll(s[1..], p);
    }
  }

  /** One element satisfying `p` makes the count positive. */
  lemma {:induction false} CountIfPositive<T>(s: seq<T>, p: T -> bool, k: nat)
    requires k < |s| && p(s[k])
    ensures CountIf(s, p) >= 1
  {
    if k > 0 {
      CountIfPositive(s[1..], p, k - 1);
    }
  }

  /** Elements of `s` satisfying `p`, in order (a boolean-mask selection of rows). */
  function Filter<T>(s: seq<T>, p: T -> bool): (r: seq<T>)
    ensures |r| == CountIf(s, p)
    ensures forall x :: x in r ==> x in s && p(x)
  {
    if s == [] then [] else (if p(s[0]) then [s[0]] else []) + Filter(s[1..], p)
  }

  /** `Filter` keeps exactly the elements that satisfy the predicate. */
  lemma {:induction false} FilterMembers<T>(s: seq<T>, p: T -> bool, x: T)
    ensures x in Filter(s, p) <==> x in s && p(x)
  {
    if s != [] {
      FilterMembers(s[1..], p, x);
      assert x in s <==> x == s[0] || x in s[1..];
    }
  }

  /** Column sum of Amount. */
  function SumAmounts(s: seq<Txn>): real {
    if s == [] then 0.0 else s[0].amount + SumAmounts(s[1..])
  }

  lemma {:induction false} SumAmountsAppend(a: seq<Txn>, b: seq<Txn>)
    ensures SumAmounts(a + b) == SumAmounts(a) + SumAmounts(b)
  {
    if a == [] {
      assert a + b == b;
    } else {
      assert (a + b)[1..] == a[1..] + b;
      SumAmountsAppend(a[1..], b);
    }
  }

  /** Column maximum of Amount. */
  function MaxAmount(s: seq<Txn>): (m: real)
    requires |s| > 0
    ensures exists i :: 0 <= i < |s| && s[i].amount == m
    ensures forall i :: 0 <= i < |s| ==> s[i].amount <= m
  {
    if |s| == 1 then s[0].amount
    else
      var rest := MaxAmount(s[1..]);
      assert forall i :: 1 <= i < |s| ==> s[i] == s[1..][i - 1];
      if s[0].amount >= rest then s[0].amount else rest
  }

  /** Column minimum of Amount. */
  function MinAmount(s: seq<Txn>): (m: real)
    requires |s| > 0
    ensures exists i :: 0 <= i < |s| && s[i].amount == m
    ensures forall i :: 0 <= i < |s| ==> m <= s[i].amount
  {
    if |s| == 1 then s[0].amount
    else
      var rest := MinAmount(s[1..]);
      assert forall i :: 1 <= i < |s| ==> s[i] == s[1..][i - 1];
      if s[0].amount <= rest then s[0].amount else rest
  }

  // ---------------------------------------------------------------------------
  // Distinct values of a column
  // ---------------------------------------------------------------------------

  /** The set of values a column takes (`set(col.unique())`), built element by element. */
  function Image(s: seq<Txn>, f: Txn -> string): set<string> {
    if s == [] then {} else {f(s[0])} + Image(s[1..], f)
  }

  /** A value is in the image exactly when some row maps to it. */
  lemma {:induction false} ImageMembers(s: seq<Txn>, f: Txn -> string, x: string)
    ensures x in Image(s, f) <==> exists i :: 0 <= i < |s| && f(s[i]) == x
  {
    if s != [] {
      ImageMembers(s[1..], f, x);
      assert forall i :: 1 <= i < |s| ==> s[i] == s[1..][i - 1];
      if x in Image(s[1..], f) {
        var i :| 0 <= i < |s[1..]| && f(s[1..][i]) == x;
        assert f(s[i + 1]) == x;
      }
    }
  }

  /** A column never has more distinct values than rows. */
  lemma {:induction false} ImageSize(s: seq<Txn>, f: Txn -> string)
    ensures |Image(s, f)| <= |s|
  {
    if s != [] {
      ImageSize(s[1..], f);
      assert Image(s, f) == {f(s[0])} + Image(s[1..], f);
    }
  }

  lemma {:induction false} ImageAppend(a: seq<Txn>, b: seq<Txn>, f: Txn -> string)
    ensures Image(a + b, f) == Image(a, f) + Image(b, f)
  {
    if a == [] {
      assert a + b == b;
    } else {
      assert (a + b)[1..] == a[1..] + b;
      ImageAppend(a[1..], b, f);
    }
  }

  function SenderOf(t: Txn): string { t.sender }
  function ReceiverOf(t: Txn): string { t.receiver }

  /** Every account that appears as a sender or a receiver. */
  function AllAccounts(df: seq<Txn>): set<string> {
    Image(df, SenderOf) + Image(df, ReceiverOf)
  }

  lemma AllAccountsMembers(df: seq<Txn>, a: string)
    ensures a in AllAccounts(df) <==> exists i :: 0 <= i < |df| && (df[i].sender == a || df[i].receiver == a)
  {
    ImageMembers(df, SenderOf, a);
    ImageMembers(df, ReceiverOf, a);
  }
}
