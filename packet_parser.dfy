/**
 * `PacketParser` (CVX-QLSX.App/Services/PacketParser.cs): reads the camera's comma-separated record
 * `Total,OK,NG,ProductID,MfgDate,ExpDate`, with both dates in ddMMyy, into a `CameraPacket`.
 * A date that does not read is kept only as raw text; it does not fail the parse.
 */
module PacketParser {
  import opened Wrappers
  import opened Int32s
  import opened Text
  import opened Numbers
  import opened Dates

  /** A decoded packet; `None` dates are the C# `null`s. */
  datatype CameraPacket = CameraPacket(
    totalCount: Int32,
    okCount: Int32,
    ngCount: Int32,
    productId: string,
    mfgDate: Option<DateValue>,
    expDate: Option<DateValue>,
    rawMfgDate: string,
    rawExpDate: string)

  /** A blank or wrongly sized field is no date; otherwise the strict ddMMyy reading. */
  function ParseDate(s: string): (r: Option<DateValue>)
    ensures r.Some? ==> |s| == 6 && InYearWindow(r.value)
  {
    if IsBlank(s) || |s| != 6 then None else ParseDdMMyy(s)
  }

  /** The fast checks in front of `TryParseExact` reject nothing it would accept. */
  lemma ParseDateIsParseExact(s: string)
    ensures ParseDate(s) == ParseDdMMyy(s)
  {
    if IsBlank(s) && |s| == 6 {
      assert IsWhiteSpace(s[0]) && !IsDigit(s[0]);
    }
  }

  /** `PacketParser.TryParse(rawData, out packet)`; `None` where it returns false. */
  function TryParse(rawData: string): (r: Option<CameraPacket>)
    ensures IsBlank(rawData) ==> r.None?
    ensures r.Some? ==> |Fields(rawData)| == 6 && r == ParseFields(Fields(rawData))
    ensures r.Some? ==> ',' !in r.value.productId
  {
    if IsBlank(rawData) then None
    else
      var parts := Fields(rawData);
      if |parts| != 6 then None
      else
        TrimNoComma(parts[3]);
        ParseFields(parts)
  }

  /** The comma-separated fields of a record. */
  function Fields(rawData: string): seq<string> {
    Split(Trim(rawData), ',')
  }

  /** Reads six fields: three trimmed Int32 counts, the trimmed product id, and the two trimmed raw
      dates with their readings. */
  function ParseFields(parts: seq<string>): (r: Option<CameraPacket>)
    requires |parts| == 6
    ensures r.Some? ==> Trim(r.value.productId) == r.value.productId
    ensures r.Some? ==> r.value.productId == Trim(parts[3])
    ensures r.Some? ==> r.value.mfgDate == ParseDate(r.value.rawMfgDate)
    ensures r.Some? ==> r.value.expDate == ParseDate(r.value.rawExpDate)
  {
    var total, ok, ng := ParseInt32(Trim(parts[0])), ParseInt32(Trim(parts[1])), ParseInt32(Trim(parts[2]));
    if total.None? || ok.None? || ng.None? then None
    else
      var rawMfg, rawExp := Trim(parts[4]), Trim(parts[5]);
      TrimByIdempotent(parts[3], WhiteSpace);
      Some(CameraPacket(total.value, ok.value, ng.value, Trim(parts[3]),
                        ParseDate(rawMfg), ParseDate(rawExp), rawMfg, rawExp))
  }

  /** Trimming keeps a comma-free field comma-free. */
  lemma TrimNoComma(s: string)
    requires ',' !in s
    ensures ',' !in Trim(s)
  {
    var a := TrimByIsSlice(s, WhiteSpace);
    var t := Trim(s);
    assert forall i :: 0 <= i < |t| ==> t[i] == s[a + i];
  }

  /** The parse succeeds exactly when the input is not blank, its trimmed text holds exactly five
      commas, and each of the first three fields, trimmed, is an Int32. */
  lemma TryParseSucceedsIff(rawData: string)
    ensures TryParse(rawData).Some? <==>
      !IsBlank(rawData) && Occurrences(Trim(rawData), ',') == 5
      && ParseInt32(Trim(Fields(rawData)[0])).Some?
      && ParseInt32(Trim(Fields(rawData)[1])).Some?
      && ParseInt32(Trim(Fields(rawData)[2])).Some?
  {
  }

  /** On success the counts are the parsed integers and the text fields are the trimmed fields. */
  lemma TryParseFields(rawData: string)
    requires TryParse(rawData).Some?
    ensures var p, f := TryParse(rawData).value, Fields(rawData);
      && Some(p.totalCount) == ParseInt32(Trim(f[0]))
      && Some(p.okCount) == ParseInt32(Trim(f[1]))
      && Some(p.ngCount) == ParseInt32(Trim(f[2]))
      && p.productId == Trim(f[3])
      && p.rawMfgDate == Trim(f[4]) && p.rawExpDate == Trim(f[5])
  {
  }

  /** `FormatDate`: ddMMyy, or "-" when there is no date. */
  function FormatDate(date: Option<DateValue>): (r: string)
    ensures r == "-" <==> date.None?
    ensures date.Some? ==> |r| == 6 && AllDigits(r)
  {
    match date
    case None => "-"
    case Some(d) => FormatDdMMyy(d)
  }

  /** A date in the two-digit-year window is read back from what `FormatDate` prints. */
  lemma FormatDateRoundTrip(date: Option<DateValue>)
    requires date.Some? && InYearWindow(date.value)
    ensures ParseDate(FormatDate(date)) == date
  {
    ParseFormatDdMMyy(date.value);
    ParseDateIsParseExact(FormatDate(date));
  }

  /** `FormatDateDisplay`: dd/MM/yyyy, or "-" when there is no date; distinct dates read differently. */
  function FormatDateDisplay(date: Option<DateValue>): (r: string)
    ensures r == "-" <==> date.None?
    ensures date.Some? ==> |r| == 10
  {
    match date
    case None => "-"
    case Some(d) => FormatDisplay(d)
  }

  /** A raw date the camera sent in ddMMyy and that reads as a date prints back as the same text. */
  lemma RawDateRoundTrip(rawData: string)
    requires TryParse(rawData).Some? && TryParse(rawData).value.mfgDate.Some?
    ensures FormatDate(TryParse(rawData).value.mfgDate) == TryParse(rawData).value.rawMfgDate
  {
    var p := TryParse(rawData).value;
    ParseDateIsParseExact(p.rawMfgDate);
    FormatParseDdMMyy(p.rawMfgDate);
  }

  /** The first and last characters of joined pieces are those of the first and last piece. */
  lemma {:induction false} JoinEnds(parts: seq<string>, sep: char)
    requires |parts| >= 1 && |parts[0]| > 0 && |parts[|parts| - 1]| > 0
    ensures var j := Join(parts, sep);
      |j| > 0 && j[0] == parts[0][0] && j[|j| - 1] == parts[|parts| - 1][|parts[|parts| - 1]| - 1]
  {
    if |parts| > 1 {
      assert parts[1..][|parts[1..]| - 1] == parts[|parts| - 1];
      if |parts[1]| > 0 {
        JoinEnds(parts[1..], sep);
      } else {
        JoinEndsLast(parts[1..], sep);
      }
    }
  }

  /** The last character of joined pieces is that of the last piece. */
  lemma {:induction false} JoinEndsLast(parts: seq<string>, sep: char)
    requires |parts| >= 1 && |parts[|parts| - 1]| > 0
    ensures var j := Join(parts, sep); |j| > 0 && j[|j| - 1] == parts[|parts| - 1][|parts[|parts| - 1]| - 1]
  {
    if |parts| > 1 {
      assert parts[1..][|parts[1..]| - 1] == parts[|parts| - 1];
      JoinEndsLast(parts[1..], sep);
    }
  }

  /** Comma-free pieces with no blank at the outer ends: a record with exactly those fields. */
  lemma FieldsOfJoin(parts: seq<string>)
    requires |parts| >= 1 && forall i :: 0 <= i < |parts| ==> ',' !in parts[i]
    requires |parts[0]| > 0 && !IsWhiteSpace(parts[0][0])
    requires |parts[|parts| - 1]| > 0 && !IsWhiteSpace(parts[|parts| - 1][|parts[|parts| - 1]| - 1])
    ensures Fields(Join(parts, ',')) == parts
    ensures |Join(parts, ',')| > 0 && !IsWhiteSpace(Join(parts, ',')[0])
  {
    var raw := Join(parts, ',');
    JoinEnds(parts, ',');
    TrimByNoOp(raw, WhiteSpace);
    SplitJoin(parts, ',');
  }

  /** A field with no blank at either end is its own trim. */
  lemma TrimmedField(s: string)
    requires |s| > 0 && !IsWhiteSpace(s[0]) && !IsWhiteSpace(s[|s| - 1])
    ensures Trim(s) == s
  {
    TrimByNoOp(s, WhiteSpace);
  }

  /** A record with six fields that does not start with a blank is read field by field. */
  lemma TryParseOfFields(rawData: string)
    requires |Fields(rawData)| == 6
    requires |rawData| > 0 && !IsWhiteSpace(rawData[0])
    ensures TryParse(rawData) == ParseFields(Fields(rawData))
  {
  }

  /** Fields whose three counts read are read into a packet of those counts, the trimmed text fields
      and whatever the two date fields read as. */
  lemma ParseFieldsOf(parts: seq<string>, total: Int32, ok: Int32, ng: Int32)
    requires |parts| == 6
    requires ParseInt32(Trim(parts[0])) == Some(total)
    requires ParseInt32(Trim(parts[1])) == Some(ok)
    requires ParseInt32(Trim(parts[2])) == Some(ng)
    ensures ParseFields(parts) == Some(CameraPacket(total, ok, ng, Trim(parts[3]),
      ParseDate(Trim(parts[4])), ParseDate(Trim(parts[5])), Trim(parts[4]), Trim(parts[5])))
  {
  }

  /** The date fields never decide whether a record is accepted: replacing them leaves the verdict. */
  lemma DatesNeverFailParse(parts: seq<string>, mfg: string, exp: string)
    requires |parts| == 6
    ensures ParseFields(parts).Some? == ParseFields(parts[4 := mfg][5 := exp]).Some?
  {
    var other := parts[4 := mfg][5 := exp];
    assert other[0] == parts[0] && other[1] == parts[1] && other[2] == parts[2];
  }

  /** A printed count is comma-free and has no blank at either end. */
  lemma CountFieldShape(n: Int32)
    ensures var s := IntToString(n); |s| > 0 && !IsWhiteSpace(s[0]) && !IsWhiteSpace(s[|s| - 1]) && ',' !in s
    ensures '\0' !in IntToString(n)
  {
    var s := IntToString(n);
    var digits := NatToString(if n < 0 then -(n as int) else n);
    assert s[|s| - 1] == digits[|digits| - 1];
    assert forall i :: 0 <= i < |s| ==> s[i] == '-' || IsDigit(s[i]) by {
      if n < 0 {
        assert forall i :: 1 <= i < |s| ==> s[i] == digits[i - 1];
      }
    }
  }

  /** A printed count reads back, trimmed, as that count. */
  lemma CountField(n: Int32)
    ensures Trim(IntToString(n)) == IntToString(n)
    ensures ParseInt32(Trim(IntToString(n))) == Some(n)
  {
    CountFieldShape(n);
    TrimmedField(IntToString(n));
    ParseIntToString(n);
  }

  /** A printed date is comma-free and has no blank at either end. */
  lemma DateFieldShape(d: DateValue)
    ensures var s := FormatDdMMyy(d); |s| > 0 && !IsWhiteSpace(s[0]) && !IsWhiteSpace(s[|s| - 1]) && ',' !in s
  {
    var s := FormatDdMMyy(d);
    assert forall i :: 0 <= i < |s| ==> IsDigit(s[i]);
  }

  /** A printed date of the window reads back, trimmed, as that date. */
  lemma DateField(d: DateValue)
    requires InYearWindow(d)
    ensures Trim(FormatDdMMyy(d)) == FormatDdMMyy(d)
    ensures ParseDate(FormatDdMMyy(d)) == Some(d)
  {
    DateFieldShape(d);
    TrimmedField(FormatDdMMyy(d));
    FormatDateRoundTrip(Some(d));
  }

  /** Text with no blank at either end (and so not empty). */
  predicate Trimmed(s: string) {
    |s| > 0 && !IsWhiteSpace(s[0]) && !IsWhiteSpace(s[|s| - 1])
  }

  /** Printing counts and joining them with a comma-free product id and two comma-free, trimmed date
      texts gives a record that is accepted with those counts, the product id trimmed, and the date
      texts with whatever they read as. */
  lemma PrintedRecordAccepted(total: Int32, ok: Int32, ng: Int32, productId: string, mfg: string, exp: string)
    requires ',' !in productId && ',' !in mfg && ',' !in exp && Trimmed(mfg) && Trimmed(exp)
    ensures var parts := [IntToString(total), IntToString(ok), IntToString(ng), productId, mfg, exp];
      TryParse(Join(parts, ',')) == Some(CameraPacket(total, ok, ng, Trim(productId), ParseDate(mfg), ParseDate(exp), mfg, exp))
  {
    var parts := [IntToString(total), IntToString(ok), IntToString(ng), productId, mfg, exp];
    assert TryParse(Join(parts, ',')) == ParseFields(parts) by {
      CountFieldShape(total);
      CountFieldShape(ok);
      CountFieldShape(ng);
      FieldsOfJoin(parts);
      TryParseOfFields(Join(parts, ','));
    }
    CountField(total);
    CountField(ok);
    CountField(ng);
    TrimmedField(mfg);
    TrimmedField(exp);
    ParseFieldsOf(parts, total, ok, ng);
  }

  /** Printing counts, a comma-free product id and two dates of the window as a record and reading it
      back gives the same counts, the product id trimmed, and the same dates. */
  lemma PrintedRecordParses(total: Int32, ok: Int32, ng: Int32, productId: string, mfg: DateValue, exp: DateValue)
    requires ',' !in productId && InYearWindow(mfg) && InYearWindow(exp)
    ensures var parts := [IntToString(total), IntToString(ok), IntToString(ng), productId, FormatDdMMyy(mfg), FormatDdMMyy(exp)];
      TryParse(Join(parts, ',')) == Some(CameraPacket(total, ok, ng, Trim(productId), Some(mfg), Some(exp),
                                                      FormatDdMMyy(mfg), FormatDdMMyy(exp)))
  {
    DateFieldShape(mfg);
    DateFieldShape(exp);
    DateField(mfg);
    DateField(exp);
    PrintedRecordAccepted(total, ok, ng, productId, FormatDdMMyy(mfg), FormatDdMMyy(exp));
  }

  /** The documented sample "10,12,2,Hehe,111225,110626": counts 10/12/2, product "Hehe",
      made 11 December 2025, expiring 11 June 2026. */
  lemma SampleParses()
    ensures TryParse("10,12,2,Hehe,111225,110626") ==
      Some(CameraPacket(10, 12, 2, "Hehe", Some(Date(2025, 12, 11)), Some(Date(2026, 6, 11)), "111225", "110626"))
  {
    SampleRecord();
    SampleFields();
    PrintedRecordParses(10, 12, 2, "Hehe", Date(2025, 12, 11), Date(2026, 6, 11));
  }

  /** The sample record is its six fields joined by commas. */
  lemma SampleRecord()
    ensures "10,12,2,Hehe,111225,110626" == Join(["10", "12", "2", "Hehe", "111225", "110626"], ',')
  {
    var parts := ["10", "12", "2", "Hehe", "111225", "110626"];
    assert parts[1..][1..][1..][1..][1..] == ["110626"];
    SampleText();
  }

  /** The sample record, field by field. */
  lemma SampleText()
    ensures "10,12,2,Hehe,111225,110626" ==
      "10" + "," + "12" + "," + "2" + "," + "Hehe" + "," + "111225" + "," + "110626"
  {
  }

  /** The sample's fields, as the simulator prints them. */
  lemma SampleFields()
    ensures IntToString(10) == "10" && IntToString(12) == "12" && IntToString(2) == "2"
    ensures FormatDdMMyy(Date(2025, 12, 11)) == "111225" && FormatDdMMyy(Date(2026, 6, 11)) == "110626"
    ensures Trim("Hehe") == "Hehe"
  {
    TrimmedField("Hehe");
  }

  /** "1,2,3,4": four fields instead of six, rejected. */
  lemma TooFewFieldsFails()
    ensures TryParse(Join(["1", "2", "3", "4"], ',')).None?
  {
    FieldsOfJoin(["1", "2", "3", "4"]);
  }

  /** "a,b,c,D,111225,110626": non-numeric counts, rejected. */
  lemma NonNumericCountFails()
    ensures TryParse(Join(["a", "b", "c", "D", "111225", "110626"], ',')).None?
  {
    var parts := ["a", "b", "c", "D", "111225", "110626"];
    FieldsOfJoin(parts);
    TryParseOfFields(Join(parts, ','));
    TrimmedField("a");
    assert TrimBy("a", NumberWhite) == "a";
  }

  /** "-5,2,3,D,1112,110626": a four-character manufacturing date leaves the date unset without failing
      the parse, and the leading minus sign on a count is accepted. */
  lemma ShortDateAndNegativeCount()
    ensures var r := TryParse(Join(["-5", "2", "3", "D", "1112", "110626"], ','));
      r.Some? && r.value.totalCount == -5 && r.value.mfgDate.None? && r.value.rawMfgDate == "1112"
  {
    assert IntToString(-5) == "-5" && IntToString(2) == "2" && IntToString(3) == "3";
    assert ',' !in "1112" && ',' !in "110626" && ',' !in "D";
    PrintedRecordAccepted(-5, 2, 3, "D", "1112", "110626");
  }
}
