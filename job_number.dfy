/** `tool_reserve_job_number`: read a client's "Next Job #", hand out
    "<code> <nnn>" and write back the number after it. The Airtable query and
    update are the input `record` and the output `nextJobNumber`. */
module JobNumber {
  import opened Wrappers
  import opened JsonValue
  import opened Text
  import opened Numeral

  const NextJobField := "Next Job #"
  const NameField := "Clients"

  datatype Reservation = Reservation(
    clientCode: string,
    clientName: Json,
    reservedJobNumber: string,
    nextJobNumber: string)

  /** `int(next_num_str)` for the value of a truthy "Next Job #" field. Text
      that `int()` rejects is reported with the field's text; a list or an
      object makes `int()` raise a TypeError instead. */
  function JobNumberOf(next: Json): (r: Result<int, string>)
    ensures next.Number? ==> r == Success(next.n)
    ensures next.Str? ==> (r.Success? <==> ParseInt(next.s).Some?)
    ensures next.Str? && r.Success? ==> r.value == ParseInt(next.s).value
    ensures next.Str? && r.Failure? ==> r.error == "Invalid job number format: " + next.s
    ensures next.Bool? ==> r == Success(if next.b then 1 else 0)
    ensures next.Null? || next.Array? || next.Object? ==> r.Failure?
  {
    match next
    case Number(n) => Success(n)
    case Bool(b) => Success(if b then 1 else 0)
    case Str(s) =>
      (match ParseInt(s)
       case Some(n) => Success(n)
       case None => Failure("Invalid job number format: " + s))
    case Null => Failure("int() argument must be a string, a bytes-like object or a real number, not 'NoneType'")
    case Array(_) => Failure("int() argument must be a string, a bytes-like object or a real number, not 'list'")
    case Object(_) => Failure("int() argument must be a string, a bytes-like object or a real number, not 'dict'")
  }

  /** The whole tool once the record has been looked up (`None` when the
      query found no client). */
  function ReserveJobNumber(code: string, record: Option<map<string, Json>>): (r: Result<Reservation, string>)
    ensures record.None? ==> r == Failure("Client " + code + " not found")
    ensures record.Some? && !Truthy(GetOr(record.value, NextJobField, Str(""))) ==>
              r == Failure("No job number sequence configured for " + code)
    ensures record.Some? && Truthy(GetOr(record.value, NextJobField, Str(""))) ==>
              var number := JobNumberOf(GetOr(record.value, NextJobField, Str("")));
              (r.Success? <==> number.Success?) &&
              (number.Failure? ==> r == Failure(number.error))
    ensures r.Success? ==>
              record.Some? && JobNumberOf(GetOr(record.value, NextJobField, Str(""))).Success? &&
              var n := JobNumberOf(GetOr(record.value, NextJobField, Str(""))).value;
              r.value.clientCode == code &&
              r.value.clientName == GetOr(record.value, NameField, Str(code)) &&
              r.value.reservedJobNumber == code + " " + Pad3(n) &&
              r.value.nextJobNumber == Pad3(n + 1) &&
              ParseInt(r.value.nextJobNumber) == Some(n + 1)
  {
    match record
    case None => Failure("Client " + code + " not found")
    case Some(fields) =>
      var next := GetOr(fields, NextJobField, Str(""));
      if !Truthy(next) then Failure("No job number sequence configured for " + code)
      else
        match JobNumberOf(next)
        case Failure(e) => Failure(e)
        case Success(n) =>
          assert ParseInt(Pad3(n + 1)) == Some(n + 1) by {
            ParseIntPad3(n + 1);
          }
          Success(Reservation(code, GetOr(fields, NameField, Str(code)), code + " " + Pad3(n), Pad3(n + 1)))
  }

  /** The number written back is reserved by the next call, which writes back
      the one after it: reservations advance by exactly one. */
  lemma ReserveAdvances(code: string, fields: map<string, Json>)
    requires ReserveJobNumber(code, Some(fields)).Success?
    ensures var first := ReserveJobNumber(code, Some(fields)).value;
            var second := ReserveJobNumber(code, Some(fields[NextJobField := Str(first.nextJobNumber)]));
            second.Success? &&
            second.value.reservedJobNumber == code + " " + first.nextJobNumber &&
            ParseInt(second.value.nextJobNumber) == Some(JobNumberOf(GetOr(fields, NextJobField, Str(""))).value + 2)
  {
    var n := JobNumberOf(GetOr(fields, NextJobField, Str(""))).value;
    var written := Pad3(n + 1);
    ParseIntPad3(n + 1);
    assert IntTrim(written) != [];
    var fields' := fields[NextJobField := Str(written)];
    assert GetOr(fields', NextJobField, Str("")) == Str(written);
    assert Truthy(Str(written));
  }

  /** A number below 999 is reserved as three digits, and so is the next one. */
  lemma ThreeDigits(code: string, fields: map<string, Json>)
    requires ReserveJobNumber(code, Some(fields)).Success?
    requires 0 <= JobNumberOf(GetOr(fields, NextJobField, Str(""))).value < 999
    ensures var r := ReserveJobNumber(code, Some(fields)).value;
            |r.reservedJobNumber| == |code| + 4 && |r.nextJobNumber| == 3
  {
    var n := JobNumberOf(GetOr(fields, NextJobField, Str(""))).value;
    ParseIntPad3(n);
    ParseIntPad3(n + 1);
  }

  /** A sequence written as `:03d` reserves that number and leaves the next. */
  lemma ReservePadded(code: string, fields: map<string, Json>, n: int)
    requires GetOr(fields, NextJobField, Str("")) == Str(Pad3(n))
    ensures ReserveJobNumber(code, Some(fields)) ==
            Success(Reservation(code, GetOr(fields, NameField, Str(code)), code + " " + Pad3(n), Pad3(n + 1)))
  {
    ParseIntPad3(n);
    assert IntTrim(Pad3(n)) != [];
  }

  /** With `ReservePadded`: "007" reserves "<code> 007" and leaves "008". */
  lemma PadSevenAndEight()
    ensures Pad3(7) == "007" && Pad3(8) == "008"
  {
    assert Digits(7) == "7" && Digits(8) == "8";
    assert Zeros(2) == "00";
  }

  /** A sequence that is not a number is reported with its text and nothing is
      reserved. */
  lemma ReserveRejectsText(code: string, fields: map<string, Json>, s: string)
    requires GetOr(fields, NextJobField, Str("")) == Str(s) && s != [] && ParseInt(s).None?
    ensures ReserveJobNumber(code, Some(fields)) == Failure("Invalid job number format: " + s)
  {
  }

  /** A unit separator before the digits is not skipped: "\x1f41" reserves
      nothing. */
  lemma ReserveRejectsSeparator(code: string, fields: map<string, Json>)
    requires GetOr(fields, NextJobField, Str("")) == Str("\U{1F}41")
    ensures ReserveJobNumber(code, Some(fields)) == Failure("Invalid job number format: " + "\U{1F}41")
  {
    assert "\U{1F}41" == ['\U{1F}'] + "41";
    SeparatorNotSkipped('\U{1F}', "41");
    assert ParseInt("\U{1F}41") == None;
    ReserveRejectsText(code, fields, "\U{1F}41");
  }
}
