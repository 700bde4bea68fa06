/** Order numbers: a persistent counter row, created at 1 or incremented by
    one on every call, rendered as "99" followed by the counter value
    left-padded with zeros to ten digits. */
module OrderNumber {
  import opened Common
  import opened Text
  import opened Store

  /** The counter value after one upsert: 1 when the row is absent,
      otherwise one more than before. */
  function NextCounter(counter: Option<nat>): (v: nat)
    ensures v >= 1
    ensures counter.None? ==> v == 1
    ensures counter.Some? ==> v == counter.value + 1
  {
    match counter
    case None => 1
    case Some(value) => value + 1
  }

  /** "99" + String(value).padStart(10, "0"). */
  function FormatOrderNumber(value: nat): (r: string)
    ensures |r| >= 12 && r[..2] == "99"
  {
    "99" + PadStart(DecimalString(value), 10, '0')
  }

  /** Zero-padding the decimal string keeps it a digit string for the same value. */
  lemma PaddedValue(value: nat)
    ensures AllDigits(PadStart(DecimalString(value), 10, '0'))
    ensures DigitsValue(PadStart(DecimalString(value), 10, '0')) == value
  {
    var d := DecimalString(value);
    DecimalStringValue(value);
    if |d| < 10 {
      LeadingZerosValue(10 - |d|, d);
    }
  }

  /** The digits after the "99" prefix always denote the counter value. */
  lemma FormatValue(value: nat)
    ensures AllDigits(FormatOrderNumber(value))
    ensures AllDigits(FormatOrderNumber(value)[2..])
    ensures DigitsValue(FormatOrderNumber(value)[2..]) == value
  {
    var padded := PadStart(DecimalString(value), 10, '0');
    PaddedValue(value);
    var r := FormatOrderNumber(value);
    assert r[2..] == padded;
    forall i | 0 <= i < |r| ensures IsDigit(r[i]) {
      if i < 2 {
        assert r[i] == '9';
      } else {
        assert r[i] == padded[i - 2];
      }
    }
  }

  /** Below 10^10 every order number is exactly twelve digits. */
  lemma FormatShape(value: nat)
    requires value < Pow10(10)
    ensures |FormatOrderNumber(value)| == 12
    ensures AllDigits(FormatOrderNumber(value))
  {
    DecimalStringLength(value, 10);
    FormatValue(value);
  }

  /** From 10^10 on the number outgrows twelve characters. */
  lemma FormatOverflow(value: nat)
    requires value >= Pow10(10)
    ensures |FormatOrderNumber(value)| > 12
  {
    DecimalStringLength(value, 10);
  }

  /** Distinct counter values give distinct order numbers. */
  lemma FormatInjective(a: nat, b: nat)
    requires FormatOrderNumber(a) == FormatOrderNumber(b)
    ensures a == b
  {
    FormatValue(a);
    FormatValue(b);
  }

  /** `getNextOrderNumber`: upserts the counter row, then formats the new
      value; nothing else in the store changes. */
  method GetNextOrderNumber(db: Database) returns (r: string)
    requires db.Valid()
    modifies db
    ensures db.Valid()
    ensures db.orderCounter == Some(NextCounter(old(db.orderCounter)))
    ensures r == FormatOrderNumber(NextCounter(old(db.orderCounter)))
    ensures db.orders == old(db.orders) && db.events == old(db.events)
    ensures db.users == old(db.users) && db.addresses == old(db.addresses)
  {
    var value: nat;
    if db.orderCounter.None? {
      value := 1;
    } else {
      value := db.orderCounter.value + 1;
    }
    db.orderCounter := Some(value);
    r := "99" + PadStart(DecimalString(value), 10, '0');
  }

  /** Two successive calls give different numbers whose digits differ by
      exactly one. */
  lemma SuccessiveNumbers(counter: Option<nat>)
    ensures FormatOrderNumber(NextCounter(counter)) != FormatOrderNumber(NextCounter(Some(NextCounter(counter))))
    ensures AllDigits(FormatOrderNumber(NextCounter(counter))[2..])
    ensures AllDigits(FormatOrderNumber(NextCounter(Some(NextCounter(counter))))[2..])
    ensures DigitsValue(FormatOrderNumber(NextCounter(Some(NextCounter(counter))))[2..])
         == DigitsValue(FormatOrderNumber(NextCounter(counter))[2..]) + 1
  {
    var v := NextCounter(counter);
    FormatValue(v);
    FormatValue(v + 1);
  }
}
