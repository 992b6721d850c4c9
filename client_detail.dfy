/** The currency parsing of `tool_get_client_detail`: amounts Airtable stores
    as numbers or as text such as "$1,234", and the "Rollover Credit" lookup. */
module ClientDetail {
  import opened Wrappers
  import opened JsonValue
  import opened Text
  import opened Numeral

  /** The text `int()` is given: `val.replace('$', '').replace(',', '')`. */
  function Cleaned(s: string): (t: string)
    ensures '$' !in t && ',' !in t
  {
    RemoveCharKeeps(RemoveChar(s, '$'), ',', '$');
    RemoveChar(RemoveChar(s, '$'), ',')
  }

  /** `parse_currency` of `tool_get_client_detail`: numbers pass through, text
      loses its `$` and `,` and goes through `int()` (empty text is 0), and
      anything else is 0. A bool is read as its integer value, 1 or 0. */
  function ParseCurrency(val: Json): (r: Result<int, string>)
    ensures val.Number? ==> r == Success(val.n)
    ensures val.Bool? ==> r == Success(if val.b then 1 else 0)
    ensures val.Null? || val.Array? || val.Object? ==> r == Success(0)
    ensures val.Str? && Cleaned(val.s) == [] ==> r == Success(0)
    ensures val.Str? && Cleaned(val.s) != [] ==>
              (r.Success? <==> ParseInt(Cleaned(val.s)).Some?) &&
              (r.Success? ==> r.value == ParseInt(Cleaned(val.s)).value) &&
              (r.Failure? ==> r.error == IntError(Cleaned(val.s)))
  {
    match val
    case Number(n) => Success(n)
    case Bool(b) => Success(if b then 1 else 0)
    case Str(s) =>
      var t := Cleaned(s);
      if t == [] then Success(0)
      else
        (match ParseInt(t)
         case Some(n) => Success(n)
         case None => Failure(IntError(t)))
    case _ => Success(0)
  }

  /** The "Rollover Credit" field: a lookup field comes back as a list, whose
      first element (or 0) is parsed. */
  function RolloverCredit(val: Json): (r: Result<int, string>)
    ensures val.Array? && val.items == [] ==> r == Success(0)
    ensures val.Array? && val.items != [] ==> r == ParseCurrency(val.items[0])
    ensures !val.Array? ==> r == ParseCurrency(val)
  {
    if val.Array? then
      if val.items == [] then Success(0) else ParseCurrency(val.items[0])
    else ParseCurrency(val)
  }

  /** Digits grouped in threes from the right with commas. */
  function Grouped(t: string): string
    decreases |t|
  {
    if |t| <= 3 then t else Grouped(t[..|t| - 3]) + "," + t[|t| - 3..]
  }

  /** How Airtable shows a currency amount: `-$1,234` or `$56`. */
  function Dollars(n: int): string
  {
    (if n < 0 then "-" else "") + "$" + Grouped(Digits(if n < 0 then -n else n))
  }

  /** A run of digits holds no character that is not a digit. */
  lemma DigitsLack(t: string, c: char)
    requires AllDigits(t) && !IsDigit(c)
    ensures c !in t
  {
    forall i | 0 <= i < |t| ensures t[i] != c { assert IsDigit(t[i]); }
  }

  lemma {:induction false} GroupedUngroups(t: string)
    requires AllDigits(t)
    ensures RemoveChar(Grouped(t), ',') == t
    decreases |t|
  {
    if |t| > 3 {
      var head := t[..|t| - 3];
      var tail := t[|t| - 3..];
      var g := Grouped(head);
      assert Grouped(t) == g + "," + tail;
      assert RemoveChar(g + ",", ',') == head by {
        assert AllDigits(head);
        GroupedUngroups(head);
        RemoveCharAppend(g, ",", ',');
        RemoveCharOne(',', ',');
      }
      assert RemoveChar(tail, ',') == tail by {
        assert AllDigits(tail);
        DigitsLack(tail, ',');
      }
      RemoveCharAppend(g + ",", tail, ',');
      assert head + tail == t;
    } else {
      DigitsLack(t, ',');
    }
  }

  lemma {:induction false} GroupedNoDollar(t: string)
    requires AllDigits(t)
    ensures '$' !in Grouped(t)
    decreases |t|
  {
    if |t| > 3 {
      var head := t[..|t| - 3];
      var tail := t[|t| - 3..];
      assert AllDigits(head) && AllDigits(tail);
      GroupedNoDollar(head);
      DigitsLack(tail, '$');
      assert Grouped(t) == Grouped(head) + "," + tail;
    } else {
      DigitsLack(t, '$');
    }
  }

  /** Parsing an amount written as Airtable shows it gives the amount back. */
  lemma ParseCurrencyDollars(n: int)
    ensures ParseCurrency(Str(Dollars(n))) == Success(n)
  {
    var m := if n < 0 then -n else n;
    var sign: string := if n < 0 then "-" else "";
    var g := Grouped(Digits(m));
    GroupedNoDollar(Digits(m));
    GroupedUngroups(Digits(m));
    RemoveCharAppend(sign + "$", g, '$');
    RemoveCharAppend(sign, "$", '$');
    assert RemoveChar("$", '$') == [] by {
      assert "$"[1..] == [];
    }
    assert RemoveChar(sign, '$') == sign by {
      if n < 0 {
        assert "-"[1..] == [];
      }
    }
    RemoveCharAppend(sign, Digits(m), ',');
    assert RemoveChar(sign, ',') == sign by {
      if n < 0 {
        assert "-"[1..] == [];
      }
    }
    assert sign + Digits(m) == Decimal(n);
    ParseIntDecimal(n);
  }
}
