/**
 The claim campaign script: decimal token amounts to base units, rows to batches, and the
 balance the campaign needs.

 Strings are those of the parsed CSV file. An amount or an address may be missing. JavaScript
 reads a signed or unsigned numeral, or the empty string as zero, into a big integer and throws
 on anything else.
 */
module ClaimScript {
  import opened Prelude
  import opened Decimal

  const DECIMALS: nat := 18
  const EXISTENTIAL_DEPOSIT: nat := 10000000000000000

  /* ---------- amounts ---------- */

  /** Position of the first dot, or the length. */
  function FirstDot(s: string): (i: nat)
    ensures i <= |s|
    ensures i < |s| ==> s[i] == '.'
    ensures forall j :: 0 <= j < i ==> s[j] != '.'
  {
    if s == [] || s[0] == '.' then 0 else 1 + FirstDot(s[1..])
  }

  function WithoutDot(s: string): string {
    var i := FirstDot(s);
    if i == |s| then s else s[..i] + s[i + 1..]
  }

  function FractionDigits(s: string): nat {
    var i := FirstDot(s);
    if i == |s| then 0 else |s| - 1 - i
  }

  function StripZeros(s: string): string {
    if s != [] && s[0] == '0' then StripZeros(s[1..]) else s
  }

  function BaseUnits(s: string): string {
    StripZeros(WithoutDot(s)) + Zeros(if FractionDigits(s) <= DECIMALS then DECIMALS - FractionDigits(s) else 0)
  }

  method ParseAmount(amount: string) returns (tokens: string)
    ensures tokens == BaseUnits(amount)
  {
    var multiplier: int := DECIMALS;
    tokens := amount;
    var dot := 0;
    while dot < |amount| && amount[dot] != '.'
      invariant 0 <= dot <= |amount|
      invariant forall j :: 0 <= j < dot ==> amount[j] != '.'
    {
      dot := dot + 1;
    }
    if dot < |amount| {
      multiplier := multiplier - (|amount| - 1 - dot);
      tokens := amount[..dot] + amount[dot + 1..];
    }
    assert dot == FirstDot(amount);
    ghost var plain := tokens;
    while tokens != [] && tokens[0] == '0'
      invariant StripZeros(tokens) == StripZeros(plain)
      decreases |tokens|
    {
      tokens := tokens[1..];
    }
    ghost var stripped := tokens;
    var i := 0;
    while i < multiplier
      invariant 0 <= i && (multiplier >= 0 ==> i <= multiplier) && (multiplier < 0 ==> i == 0)
      invariant tokens == stripped + Zeros(i)
    {
      tokens := tokens + "0";
      i := i + 1;
    }
  }

  /** A plain decimal amount: digits with at most one dot. */
  predicate IsDecimal(s: string) {
    IsDigits(WithoutDot(s))
  }

  /** `BigInt` of a string: an error is a thrown `SyntaxError`. */
  function ToBigInt(s: string): Option<int> {
    if IsDigits(s) then Some(Value(s))
    else if |s| > 1 && s[0] in {'+', '-'} && IsDigits(s[1..]) then
      var magnitude: int := Value(s[1..]);
      Some(if s[0] == '-' then -magnitude else magnitude)
    else None
  }

  lemma {:induction false} StripKeepsValue(s: string)
    requires IsDigits(s)
    ensures IsDigits(StripZeros(s)) && Value(StripZeros(s)) == Value(s)
    decreases |s|
  {
    if s != [] && s[0] == '0' {
      LeadingZero(s);
      StripKeepsValue(s[1..]);
    }
  }

  /** Base units of a decimal amount, exactly: the digits times ten to the missing places. */
  lemma UnitsOf(s: string)
    requires IsDecimal(s)
    ensures var missing := if FractionDigits(s) <= DECIMALS then DECIMALS - FractionDigits(s) else 0;
            ToBigInt(BaseUnits(s)) == Some(Value(WithoutDot(s)) * Pow10(missing))
  {
    StripKeepsValue(WithoutDot(s));
    TrailingZeros(StripZeros(WithoutDot(s)), if FractionDigits(s) <= DECIMALS then DECIMALS - FractionDigits(s) else 0);
  }

  /** A sign in front of a decimal is carried over. */
  lemma SignedUnits(sign: char, s: string)
    requires sign in {'+', '-'} && IsDecimal(s)
    ensures var missing := if FractionDigits(s) <= DECIMALS then DECIMALS - FractionDigits(s) else 0;
            var units: int := Value(WithoutDot(s)) * Pow10(missing);
            ToBigInt(BaseUnits([sign] + s)) == Some(if sign == '-' then -units else units)
  {
    hide WithoutDot, FractionDigits, Value, Pow10;
    var missing := if FractionDigits(s) <= DECIMALS then DECIMALS - FractionDigits(s) else 0;
    SignKept(sign, s);
    DigitsOrZeros(s);
    var plain := WithoutDot(s) + Zeros(missing);
    assert BaseUnits([sign] + s) == [sign] + plain;
    assert ([sign] + plain)[0] == sign && !IsDigit(sign) && ([sign] + plain)[1..] == plain;
    TrailingZeros(WithoutDot(s), missing);
  }

  lemma DigitsOrZeros(s: string)
    ensures WithoutDot(s) != [] || FractionDigits(s) == 0
  {
  }

  lemma SignKept(sign: char, s: string)
    requires sign in {'+', '-'}
    ensures WithoutDot([sign] + s) == [sign] + WithoutDot(s) && FractionDigits([sign] + s) == FractionDigits(s)
  {
    hide FirstDot;
    DotAfterSign(sign, s);
    var i := FirstDot(s);
    if i < |s| { Slide(sign, s, i); }
  }

  lemma Slide(sign: char, s: string, i: nat)
    requires i < |s|
    ensures ([sign] + s)[..i + 1] + ([sign] + s)[i + 2..] == [sign] + (s[..i] + s[i + 1..])
  {
  }

  lemma DotAfterSign(sign: char, s: string)
    requires sign in {'+', '-'}
    ensures FirstDot([sign] + s) == 1 + FirstDot(s)
  {
    assert ([sign] + s)[0] == sign && ([sign] + s)[1..] == s;
  }

  lemma {:induction false} StripIs(s: string)
    ensures IsDigits(StripZeros(s)) <==> IsDigits(s)
    ensures StripZeros(s) != [] ==> StripZeros(s)[0] != '0'
  {
    if s != [] && s[0] == '0' {
      StripIs(s[1..]);
      assert s == [s[0]] + s[1..];
    }
  }

  /** An amount can be read exactly if it is a decimal, or has, after leading zeros, a sign and then only
      digits, and these or the zeros that are appended are at least one. */
  lemma ReadableExactly(s: string)
    ensures var t := StripZeros(WithoutDot(s));
            ToBigInt(BaseUnits(s)).Some? <==>
              || IsDecimal(s)
              || (t != [] && t[0] in {'+', '-'} && IsDigits(t[1..]) && (|t| > 1 || FractionDigits(s) < DECIMALS))
  {
    var missing := if FractionDigits(s) <= DECIMALS then DECIMALS - FractionDigits(s) else 0;
    var t := StripZeros(WithoutDot(s));
    StripIs(WithoutDot(s));
    assert BaseUnits(s) == t + Zeros(missing);
    assert IsDigits(t + Zeros(missing)) <==> IsDigits(t) by { DigitsConcat(t, Zeros(missing)); }
    if t != [] {
      assert (t + Zeros(missing))[0] == t[0] && (t + Zeros(missing))[1..] == t[1..] + Zeros(missing);
      DigitsConcat(t[1..], Zeros(missing));
    }
  }

  lemma DigitsConcat(a: string, b: string)
    requires IsDigits(b)
    ensures IsDigits(a + b) <==> IsDigits(a)
  {
    if IsDigits(a + b) { assert forall i :: 0 <= i < |a| ==> a[i] == (a + b)[i]; }
  }

  /** The amount a decimal stands for. */
  ghost function Amount(s: string): real
    requires IsDecimal(s)
  {
    Value(WithoutDot(s)) as real / Pow10(FractionDigits(s)) as real
  }

  const UNIT: real := 1000000000000000000.0

  lemma {:induction false} PowAdds(a: nat, b: nat)
    ensures Pow10(a + b) == Pow10(a) * Pow10(b)
  {
    if a > 0 {
      PowAdds(a - 1, b);
      Regroup(Pow10(a - 1), Pow10(b));
    }
  }

  lemma Regroup(a: nat, b: nat)
    ensures 10 * (a * b) == (10 * a) * b
  {
  }

  lemma {:induction false} PowGrows(a: nat, b: nat)
    requires a < b
    ensures Pow10(a) < Pow10(b)
  {
    if b > a + 1 { PowGrows(a, b - 1); }
  }

  lemma {:induction false} RealProduct(a: nat, b: nat)
    ensures (a * b) as real == a as real * b as real
  {
    if a > 0 {
      RealProduct(a - 1, b);
      assert a * b == (a - 1) * b + b;
    }
  }

  lemma UnitIsPower()
    ensures Pow10(DECIMALS) as real == UNIT
  {
    PowAdds(9, 9);
    assert Pow10(9) == 1000000000;
  }

  lemma Rescale(v: real, p: real, q: real)
    requires q != 0.0
    ensures (v / q) * (p * q) == v * p
  {
    assert (v / q) * q == v;
    assert (v / q) * (p * q) == ((v / q) * q) * p;
  }

  /** With at most 18 fractional digits the base units are the amount times `10^18`. */
  lemma ExactUnits(s: string)
    requires IsDecimal(s) && FractionDigits(s) <= DECIMALS
    ensures (Value(WithoutDot(s)) * Pow10(DECIMALS - FractionDigits(s))) as real == Amount(s) * UNIT
  {
    hide Value, WithoutDot, Pow10, FractionDigits;
    var v, f := Value(WithoutDot(s)), FractionDigits(s);
    PowAdds(DECIMALS - f, f);
    UnitIsPower();
    RealProduct(v, Pow10(DECIMALS - f));
    RealProduct(Pow10(DECIMALS - f), Pow10(f));
    Rescale(v as real, Pow10(DECIMALS - f) as real, Pow10(f) as real);
  }

  lemma Shrinks(v: real, p: real, q: real)
    requires v > 0.0 && 0.0 < p < q
    ensures v / q > 0.0 && (v / q) * p != v
  {
    var x := v / q;
    assert x * q == v;
    assert x > 0.0;
    assert x * (q - p) > 0.0;
    assert x * q == x * p + x * (q - p);
  }

  /** The script turns an amount into exactly `10^18` times as many base units if and only if it has
      at most 18 fractional digits, or is zero. */
  lemma UnitsExact(s: string)
    requires IsDecimal(s)
    ensures ToBigInt(BaseUnits(s)).Some?
    ensures ToBigInt(BaseUnits(s)).value as real == Amount(s) * UNIT <==>
              FractionDigits(s) <= DECIMALS || Amount(s) == 0.0
  {
    hide ToBigInt, BaseUnits, Pow10, Value, WithoutDot, FractionDigits;
    UnitsOf(s);
    var v, f := Value(WithoutDot(s)), FractionDigits(s);
    if f <= DECIMALS {
      ExactUnits(s);
    } else {
      PowZero();
      PowGrows(DECIMALS, f);
      UnitIsPower();
      if v > 0 { Shrinks(v as real, UNIT, Pow10(f) as real); }
    }
  }

  lemma PowZero()
    ensures Pow10(0) == 1
  {
  }

  lemma OneDotZeros(s: string)
    requires s == "1." + Zeros(19)
    ensures WithoutDot(s) == "1" + Zeros(19) && FractionDigits(s) == 19
  {
    assert s[0] == '1' && s[1..][0] == '.';
    assert FirstDot(s) == 1;
  }

  lemma OneThenZeros(n: nat)
    ensures IsDigits("1" + Zeros(n)) && Value("1" + Zeros(n)) == Pow10(n)
  {
    TrailingZeros("1", n);
    assert "1"[..0] == [];
  }

  lemma PowStep(n: nat)
    ensures Pow10(n + 1) == 10 * Pow10(n)
  {
  }

  lemma Quotient(p: nat)
    requires p > 0
    ensures p as real / p as real == 1.0 && p * 1 == p
  {
  }

  /** One token written with nineteen fractional digits is taken for ten tokens. */
  lemma TooManyDigits(s: string)
    requires s == "1." + Zeros(19)
    ensures IsDecimal(s) && Amount(s) == 1.0
    ensures ToBigInt(BaseUnits(s)) == Some(10 * Pow10(DECIMALS))
  {
    hide Value, Pow10, FirstDot, WithoutDot, FractionDigits, BaseUnits, ToBigInt, Zeros, IsDigits;
    OneDotZeros(s);
    OneThenZeros(19);
    assert Value(WithoutDot(s)) == Pow10(19);
    Quotient(Pow10(19));
    UnitsOf(s);
    PowZero();
    PowStep(DECIMALS);
  }

  /* ---------- rows and batches ---------- */

  datatype Row = Row(amount: Option<string>, address: Option<string>)

  datatype Payee = Ethereum(address: string) | Substrate(address: string)

  datatype Error = MissingAmount | BadAmount | MissingAddress | BadAddress

  datatype Result<+T> = Ok(value: T) | Err(error: Error)

  type Entry = (Payee, string)

  /** What one row adds: nothing for a zero amount. */
  function RowEntries(row: Row): Result<seq<Entry>> {
    if row.amount.None? then Err(MissingAmount)
    else
      var units := BaseUnits(row.amount.value);
      if ToBigInt(units).None? then Err(BadAmount)
      else if ToBigInt(units).value == 0 then Ok([])
      else if row.address.None? then Err(MissingAddress)
      else
        var address := row.address.value;
        var ethereum := "0x" <= address;
        if (ethereum && |address| != 42) || (!ethereum && |address| != 49) then Err(BadAddress)
        else Ok([(if ethereum then Ethereum(address) else Substrate(address), units)])
  }

  /** The entries of all rows in order, or the first row's error. */
  function AllEntries(rows: seq<Row>): Result<seq<Entry>> {
    if rows == [] then Ok([])
    else
      match RowEntries(rows[0])
      case Err(e) => Err(e)
      case Ok(head) =>
        match AllEntries(rows[1..])
        case Err(e) => Err(e)
        case Ok(tail) => Ok(head + tail)
  }

  function Flatten(batches: seq<seq<Entry>>): seq<Entry> {
    if batches == [] then [] else Flatten(batches[..|batches| - 1]) + batches[|batches| - 1]
  }

  /** All batches are full but the last, which is not. */
  predicate Batched(batches: seq<seq<Entry>>, size: nat) {
    && batches != []
    && (forall i :: 0 <= i < |batches| - 1 ==> |batches[i]| == size)
    && |batches[|batches| - 1]| < size
  }

  /** The base units of a row, if its amount is there and can be read. */
  function RowUnits(row: Row): Option<int> {
    if row.amount.None? then None else ToBigInt(BaseUnits(row.amount.value))
  }

  /** A row that makes a beneficiary. */
  predicate Counts(row: Row) { RowUnits(row).Some? && RowUnits(row).value != 0 }

  predicate IsHex(address: string) { |address| >= 2 && address[0] == '0' && address[1] == 'x' }

  /** What is wrong with a row: no amount, or one that cannot be read, or, unless that is zero, no address
      or one of the wrong length for its kind. */
  function Fault(row: Row): Option<Error> {
    if row.amount.None? then Some(MissingAmount)
    else if RowUnits(row).None? then Some(BadAmount)
    else if Counts(row) && row.address.None? then Some(MissingAddress)
    else if Counts(row) && |row.address.value| != (if IsHex(row.address.value) then 42 else 49) then Some(BadAddress)
    else None
  }

  /** The entry pays the row's amount to the row's address, of the kind that shows in its prefix. */
  ghost predicate Describes(row: Row, e: Entry) {
    && row.address == Some(e.0.address) && (e.0.Ethereum? <==> IsHex(e.0.address))
    && ToBigInt(e.1).Some? && ToBigInt(e.1) == RowUnits(row)
  }

  lemma RowMeans(row: Row)
    ensures RowEntries(row).Err? <==> Fault(row).Some?
    ensures RowEntries(row).Err? ==> Fault(row) == Some(RowEntries(row).error)
    ensures RowEntries(row).Ok? && !Counts(row) ==> RowEntries(row).value == []
    ensures RowEntries(row).Ok? && Counts(row) ==>
              |RowEntries(row).value| == 1 && Describes(row, RowEntries(row).value[0])
  {
    hide BaseUnits, ToBigInt;
    if row.address.Some? {
      var address := row.address.value;
      assert "0x" <= address <==> IsHex(address);
    }
  }

  /** The rows from `i` on that make a beneficiary, in order. */
  ghost function Paying(rows: seq<Row>, i: nat): seq<nat>
    requires i <= |rows|
    decreases |rows| - i
  {
    if i == |rows| then [] else (if Counts(rows[i]) then [i] else []) + Paying(rows, i + 1)
  }

  /** It is strictly increasing and has exactly these rows. */
  lemma {:induction false} PayingIs(rows: seq<Row>, i: nat)
    requires i <= |rows|
    ensures forall k :: 0 <= k < |Paying(rows, i)| ==>
              i <= Paying(rows, i)[k] < |rows| && Counts(rows[Paying(rows, i)[k]])
    ensures forall j, k :: 0 <= j < k < |Paying(rows, i)| ==> Paying(rows, i)[j] < Paying(rows, i)[k]
    ensures forall j :: i <= j < |rows| && Counts(rows[j]) ==> j in Paying(rows, i)
    decreases |rows| - i
  {
    hide Counts;
    if i < |rows| { PayingIs(rows, i + 1); }
  }

  /** One entry for every paying row, in the order of the rows. */
  ghost predicate Listed(rows: seq<Row>, i: nat, es: seq<Entry>)
    requires i <= |rows|
  {
    && |es| == |Paying(rows, i)|
    && forall k :: 0 <= k < |es| ==> Paying(rows, i)[k] < |rows| && Describes(rows[Paying(rows, i)[k]], es[k])
  }

  /** The first fault from row `i` on is this one. */
  ghost predicate FirstFault(rows: seq<Row>, i: nat, e: Error) {
    exists k :: i <= k < |rows| && Fault(rows[k]) == Some(e) && forall j :: i <= j < k ==> Fault(rows[j]) == None
  }

  lemma {:induction false} EntriesMean(rows: seq<Row>, i: nat)
    requires i <= |rows|
    ensures AllEntries(rows[i..]).Err? ==> FirstFault(rows, i, AllEntries(rows[i..]).error)
    ensures AllEntries(rows[i..]).Ok? ==>
              && (forall j :: i <= j < |rows| ==> Fault(rows[j]) == None)
              && Listed(rows, i, AllEntries(rows[i..]).value)
    decreases |rows| - i
  {
    hide RowEntries, Fault, Counts, Describes;
    if i < |rows| {
      assert rows[i..][0] == rows[i] && rows[i..][1..] == rows[i + 1..];
      RowMeans(rows[i]);
      EntriesMean(rows, i + 1);
      var rest := AllEntries(rows[i + 1..]);
      if RowEntries(rows[i]).Err? {
        assert FirstFault(rows, i, RowEntries(rows[i]).error);
      } else if rest.Err? {
        var k :| i + 1 <= k < |rows| && Fault(rows[k]) == Some(rest.error) && forall j :: i + 1 <= j < k ==>
          Fault(rows[j]) == None;
        assert FirstFault(rows, i, rest.error);
      } else {
        ListedMore(rows, i, RowEntries(rows[i]).value, rest.value);
      }
    }
  }

  lemma ListedMore(rows: seq<Row>, i: nat, head: seq<Entry>, rest: seq<Entry>)
    requires i < |rows| && Listed(rows, i + 1, rest)
    requires if Counts(rows[i]) then |head| == 1 && Describes(rows[i], head[0]) else head == []
    ensures Listed(rows, i, head + rest)
  {
    hide Counts, Describes;
    var es := head + rest;
    forall k | 0 <= k < |es| ensures Paying(rows, i)[k] < |rows| && Describes(rows[Paying(rows, i)[k]], es[k]) {
      if k >= |head| { assert es[k] == rest[k - |head|] && Paying(rows, i)[k] == Paying(rows, i + 1)[k - |head|]; }
    }
  }

  /** The body of the loop over rows, up to the entry it sets. */
  method ReadRow(row: Row) returns (r: Result<seq<Entry>>)
    ensures r == RowEntries(row)
    ensures if Fault(row).Some? then r == Err(Fault(row).value)
            else r.Ok? && if Counts(row) then |r.value| == 1 && Describes(row, r.value[0]) else r.value == []
  {
    RowMeans(row);
    hide BaseUnits, ToBigInt;
    if row.amount.None? { return Err(MissingAmount); }
    var amount := ParseAmount(row.amount.value);
    if ToBigInt(amount).None? { return Err(BadAmount); }
    if ToBigInt(amount).value == 0 { return Ok([]); }
    if row.address.None? { return Err(MissingAddress); }
    var address := row.address.value;
    var ethereum := "0x" <= address;
    if (ethereum && |address| != 42) || (!ethereum && |address| != 49) { return Err(BadAddress); }
    r := Ok([(if ethereum then Ethereum(address) else Substrate(address), amount)]);
  }

  /** `read_airdrop_csv` after the file has been read: the non-zero rows in order, cut into full
      batches followed by one, possibly empty, that is not full. */
  method ReadAirdrop(rows: seq<Row>, size: nat) returns (r: Result<seq<seq<Entry>>>)
    requires size > 0
    ensures match AllEntries(rows)
            case Err(e) => r == Err(e)
            case Ok(all) => r.Ok? && Batched(r.value, size) && Flatten(r.value) == all
    ensures r.Err? ==> FirstFault(rows, 0, r.error)
    ensures r.Ok? ==> Listed(rows, 0, Flatten(r.value)) && forall i :: 0 <= i < |rows| ==> Fault(rows[i]) == None
  {
    hide RowEntries, Flatten, Fault, Counts, Describes, Listed, FirstFault;
    EntriesMean(rows, 0);
    assert rows[0..] == rows;
    var beneficiaries: seq<seq<Entry>> := [];
    var count: nat := 0;
    var current: seq<Entry> := [];
    NothingRead(rows);
    for i := 0 to |rows|
      invariant Prepend(Flatten(beneficiaries) + current, AllEntries(rows[i..])) == AllEntries(rows)
      invariant forall j :: 0 <= j < |beneficiaries| ==> |beneficiaries[j]| == size
      invariant |current| < size && count == |beneficiaries| * size + |current|
    {
      assert rows[i..][0] == rows[i] && rows[i..][1..] == rows[i + 1..];
      var entries := ReadRow(rows[i]);
      if entries.Err? { return Err(entries.error); }
      PrependTwice(Flatten(beneficiaries), current, entries.value, AllEntries(rows[i + 1..]));
      if entries.value == [] {
        assert current + [] == current;
        continue;
      }
      OneEntry(rows[i]);
      current := current + entries.value;
      count := count + 1;
      FullExactly(count, |beneficiaries|, |current|, size);
      if count % size == 0 {
        FlattenPush(beneficiaries, current);
        beneficiaries := beneficiaries + [current];
        current := [];
        assert Flatten(beneficiaries) + [] == Flatten(beneficiaries);
      }
    }
    assert rows[|rows|..] == [];
    FlattenPush(beneficiaries, current);
    assert Flatten(beneficiaries) + current + [] == Flatten(beneficiaries) + current;
    r := Ok(beneficiaries + [current]);
  }

  ghost function Prepend(done: seq<Entry>, rest: Result<seq<Entry>>): Result<seq<Entry>> {
    match rest
    case Err(e) => Err(e)
    case Ok(es) => Ok(done + es)
  }

  lemma NothingRead(rows: seq<Row>)
    ensures Prepend(Flatten([]) + [], AllEntries(rows[0..])) == AllEntries(rows)
  {
    assert rows[0..] == rows;
    match AllEntries(rows) {
      case Err(_) =>
      case Ok(es) => assert [] + [] + es == es;
    }
  }

  lemma PrependTwice(done: seq<Entry>, current: seq<Entry>, head: seq<Entry>, tail: Result<seq<Entry>>)
    ensures tail.Ok? ==> done + current + (head + tail.value) == done + (current + head) + tail.value
  {
  }

  lemma OneEntry(row: Row)
    ensures RowEntries(row).Ok? ==> |RowEntries(row).value| <= 1
  {
  }

  lemma FlattenPush(batches: seq<seq<Entry>>, last: seq<Entry>)
    ensures Flatten(batches + [last]) == Flatten(batches) + last
  {
    assert (batches + [last])[..|batches|] == batches;
  }

  lemma Distributes(size: int, a: int, b: int)
    ensures size * b == size * a + size * (b - a)
  {
  }

  lemma {:induction false} AtLeastOnce(size: nat, k: nat)
    requires k > 0
    ensures size * k >= size
  {
    if k > 1 {
      AtLeastOnce(size, k - 1);
      Distributes(size, k - 1, k);
    }
  }

  lemma SameQuotient(size: nat, a: int, m: nat, b: int, r: nat)
    requires m < size && r < size && size * a + m == size * b + r
    ensures a == b && m == r
  {
    if a < b {
      Distributes(size, a, b);
      AtLeastOnce(size, b - a);
    } else if b < a {
      Distributes(size, b, a);
      AtLeastOnce(size, a - b);
    }
  }

  /** A count of `full` batches and `more` entries is a multiple of the size when these fill one. */
  lemma FullExactly(count: nat, full: nat, more: nat, size: nat)
    requires 0 < more <= size && count == full * size + more
    ensures count % size == 0 <==> more == size
    ensures more == size ==> count == (full + 1) * size
  {
    var q, r := count / size, count % size;
    assert count == size * q + r;
    if more == size { SameQuotient(size, full + 1, 0, q, r); } else { SameQuotient(size, full, more, q, r); }
  }

  /* ---------- the total ---------- */

  function Units(e: Entry): int {
    var units := ToBigInt(e.1);
    if units.None? then 0 else units.value
  }

  function Sum(es: seq<Entry>): int {
    if es == [] then 0 else Sum(es[..|es| - 1]) + Units(es[|es| - 1])
  }

  lemma {:induction false} SumConcat(a: seq<Entry>, b: seq<Entry>)
    ensures Sum(a + b) == Sum(a) + Sum(b)
  {
    if b == [] {
      assert a + b == a;
    } else {
      assert (a + b)[..|a + b| - 1] == a + b[..|b| - 1];
      SumConcat(a, b[..|b| - 1]);
    }
  }

  /** The balance check of `check_preconditions` needs the existential deposit and every entry. */
  method RequiredBalance(beneficiaries: seq<seq<Entry>>) returns (total: int)
    ensures total == EXISTENTIAL_DEPOSIT + Sum(Flatten(beneficiaries))
  {
    total := EXISTENTIAL_DEPOSIT;
    for m := 0 to |beneficiaries|
      invariant total == EXISTENTIAL_DEPOSIT + Sum(Flatten(beneficiaries[..m]))
    {
      var batch := beneficiaries[m];
      for k := 0 to |batch|
        invariant total == EXISTENTIAL_DEPOSIT + Sum(Flatten(beneficiaries[..m])) + Sum(batch[..k])
      {
        assert batch[..k + 1][..k] == batch[..k];
        total := total + Units(batch[k]);
      }
      assert batch[..|batch|] == batch && beneficiaries[..m + 1] == beneficiaries[..m] + [batch];
      FlattenPush(beneficiaries[..m], batch);
      SumConcat(Flatten(beneficiaries[..m]), batch);
    }
    assert beneficiaries[..|beneficiaries|] == beneficiaries;
  }

  /* ---------- rows to total ---------- */

  /** A plain decimal of at most 18 fractional digits and, unless it is zero, a well-formed address. */
  predicate GoodRow(row: Row) {
    && row.amount.Some? && IsDecimal(row.amount.value) && FractionDigits(row.amount.value) <= DECIMALS
    && (Value(WithoutDot(row.amount.value)) != 0 ==>
          row.address.Some? && |row.address.value| == if "0x" <= row.address.value then 42 else 49)
  }

  /** The tokens the rows promise. */
  ghost function Promised(rows: seq<Row>): real
    requires forall i :: 0 <= i < |rows| ==> GoodRow(rows[i])
  {
    if rows == [] then 0.0 else RowAmount(rows[0]) + Promised(rows[1..])
  }

  ghost function RowAmount(row: Row): real
    requires GoodRow(row)
  {
    Amount(row.amount.value)
  }

  lemma GoodRowEntries(row: Row)
    requires GoodRow(row)
    ensures RowEntries(row).Ok? && Sum(RowEntries(row).value) as real == RowAmount(row) * UNIT
  {
    hide ToBigInt, BaseUnits, Pow10, Value, WithoutDot, FractionDigits, Amount;
    UnitsOf(row.amount.value);
    ExactUnits(row.amount.value);
    var es := RowEntries(row).value;
    if es != [] { assert es[..0] == [] && |es| == 1; }
  }

  /** A good row makes a beneficiary exactly if its amount is not zero, and then of exactly that amount. */
  lemma GoodRowPays(row: Row)
    requires GoodRow(row)
    ensures Fault(row) == None
    ensures Counts(row) <==> Amount(row.amount.value) != 0.0
    ensures RowUnits(row).Some? && RowUnits(row).value as real == Amount(row.amount.value) * UNIT
  {
    hide ToBigInt, BaseUnits, Pow10, Value, WithoutDot, FractionDigits, Amount;
    var s := row.amount.value;
    UnitsOf(s);
    ExactUnits(s);
    ZeroUnits(Value(WithoutDot(s)), Pow10(DECIMALS - FractionDigits(s)));
    AmountZero(s);
    if row.address.Some? { assert "0x" <= row.address.value <==> IsHex(row.address.value); }
  }

  lemma ZeroUnits(v: nat, p: nat)
    requires p > 0
    ensures v * p == 0 <==> v == 0
  {
  }

  lemma AmountZero(s: string)
    requires IsDecimal(s)
    ensures Amount(s) == 0.0 <==> Value(WithoutDot(s)) == 0
  {
    hide Value, WithoutDot, Pow10, FractionDigits;
  }

  /** The entries of good rows are worth exactly `10^18` times the promised tokens. */
  lemma {:induction false} TotalIsExact(rows: seq<Row>)
    requires forall i :: 0 <= i < |rows| ==> GoodRow(rows[i])
    ensures AllEntries(rows).Ok? && Sum(AllEntries(rows).value) as real == Promised(rows) * UNIT
  {
    hide GoodRow, RowEntries, RowAmount;
    if rows != [] {
      GoodRowEntries(rows[0]);
      TotalIsExact(rows[1..]);
      SumConcat(RowEntries(rows[0]).value, AllEntries(rows[1..]).value);
    }
  }

  /** From the rows of the file to the balance check: whatever the batch size, good rows need the
      existential deposit of 0.01 tokens plus the tokens they promise, times exactly `10^18`. */
  method CampaignBalance(rows: seq<Row>, size: nat) returns (total: Result<int>)
    requires size > 0
    ensures AllEntries(rows).Err? ==> total == Err(AllEntries(rows).error)
    ensures (forall i :: 0 <= i < |rows| ==> GoodRow(rows[i])) ==>
              total.Ok? && total.value as real == (0.01 + Promised(rows)) * UNIT
  {
    hide GoodRow, Promised, AllEntries, Sum, Flatten;
    var batches := ReadAirdrop(rows, size);
    if forall i :: 0 <= i < |rows| ==> GoodRow(rows[i]) { TotalIsExact(rows); }
    if batches.Err? { return Err(batches.error); }
    var sum := RequiredBalance(batches.value);
    total := Ok(sum);
  }
}
