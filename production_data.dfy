/**
 * `ProductionData.TryParse` (CVX-QLSX.App/Models/ProductionData.cs), the decoder on the live TCP
 * path: the same six-field record as `PacketParser`, but the counts are handed to `int.TryParse`
 * untrimmed and the two dates are kept as text without being checked.
 */
module ProductionDataModule {
  import opened Wrappers
  import opened Int32s
  import opened Text
  import opened Numbers
  import PacketParser

  datatype ProductionData = ProductionData(
    totalCount: Int32,
    okCount: Int32,
    ngCount: Int32,
    productId: string,
    mfgDate: string,
    expDate: string)

  /** `ProductionData.TryParse(csvData, out result)`; `None` where it returns false. */
  function TryParse(csvData: string): (r: Option<ProductionData>)
    ensures IsBlank(csvData) ==> r.None?
    ensures r.Some? ==> |PacketParser.Fields(csvData)| == 6 && r == ParseFields(PacketParser.Fields(csvData))
  {
    if IsBlank(csvData) then None
    else
      var parts := PacketParser.Fields(csvData);
      if |parts| != 6 then None else ParseFields(parts)
  }

  /** Reads six fields: three Int32 counts as they stand (`int.TryParse` skips their outer blanks
      itself), and the product id and the two date texts trimmed. */
  function ParseFields(parts: seq<string>): (r: Option<ProductionData>)
    requires |parts| == 6
    ensures r.Some? ==> Trim(r.value.productId) == r.value.productId
    ensures r.Some? ==> Trim(r.value.mfgDate) == r.value.mfgDate && Trim(r.value.expDate) == r.value.expDate
  {
    var total, ok, ng := ParseInt32(parts[0]), ParseInt32(parts[1]), ParseInt32(parts[2]);
    if total.None? || ok.None? || ng.None? then None
    else
      TrimByIdempotent(parts[3], WhiteSpace);
      TrimByIdempotent(parts[4], WhiteSpace);
      TrimByIdempotent(parts[5], WhiteSpace);
      Some(ProductionData(total.value, ok.value, ng.value, Trim(parts[3]), Trim(parts[4]), Trim(parts[5])))
  }

  /** The record is accepted exactly when it is not blank, its trimmed text holds exactly five commas,
      and each of the first three fields is an Int32. */
  lemma TryParseSucceedsIff(csvData: string)
    ensures TryParse(csvData).Some? <==>
      !IsBlank(csvData) && Occurrences(Trim(csvData), ',') == 5
      && ParseInt32(PacketParser.Fields(csvData)[0]).Some?
      && ParseInt32(PacketParser.Fields(csvData)[1]).Some?
      && ParseInt32(PacketParser.Fields(csvData)[2]).Some?
  {
  }

  /** The date texts are not validated: whatever they hold, the verdict is that of the counts. */
  lemma DatesNotValidated(parts: seq<string>, mfg: string, exp: string)
    requires |parts| == 6
    ensures ParseFields(parts).Some? == ParseFields(parts[4 := mfg][5 := exp]).Some?
  {
    var other := parts[4 := mfg][5 := exp];
    assert other[0] == parts[0] && other[1] == parts[1] && other[2] == parts[2];
  }

  /** The three count fields of a record hold no '\0'. */
  predicate CountsNulFree(csvData: string) {
    var parts := PacketParser.Fields(csvData);
    forall k :: 0 <= k < 3 && k < |parts| ==> '\0' !in parts[k]
  }

  /** For ASCII text whose count fields hold no '\0' the live decoder and `PacketParser` accept the
      same records and agree on the counts, the product id and the raw date texts. */
  lemma AgreesWithPacketParser(csvData: string)
    requires IsAscii(csvData) && CountsNulFree(csvData)
    ensures TryParse(csvData).Some? <==> PacketParser.TryParse(csvData).Some?
    ensures TryParse(csvData).Some? ==>
      var d, p := TryParse(csvData).value, PacketParser.TryParse(csvData).value;
      && d.totalCount == p.totalCount && d.okCount == p.okCount && d.ngCount == p.ngCount
      && d.productId == p.productId && d.mfgDate == p.rawMfgDate && d.expDate == p.rawExpDate
  {
    if !IsBlank(csvData) {
      var parts := PacketParser.Fields(csvData);
      if |parts| == 6 {
        TrimAscii(csvData);
        SplitAscii(Trim(csvData), ',');
        ParseIgnoresTrim(parts[0]);
        ParseIgnoresTrim(parts[1]);
        ParseIgnoresTrim(parts[2]);
      }
    }
  }

  /** The two parsers disagree on a count field with '\0' before a blank: the live decoder refuses
      "1\0 ,1,0,D,111225,110626", while `PacketParser`, which trims the field first, reads it. */
  lemma ParsersDisagreeAfterNul()
    ensures var record := Join(["1\0 ", "1", "0", "D", "111225", "110626"], ',');
      TryParse(record).None? && PacketParser.TryParse(record).Some? && PacketParser.TryParse(record).value.totalCount == 1
  {
    var parts := ["1\0 ", "1", "0", "D", "111225", "110626"];
    var record := Join(parts, ',');
    PacketParser.FieldsOfJoin(parts);
    PacketParser.TryParseOfFields(record);
    TrimMattersAfterNul();
    PacketParser.CountField(1);
    PacketParser.CountField(0);
    assert IntToString(1) == "1" && IntToString(0) == "0";
    PacketParser.ParseFieldsOf(parts, 1, 1, 0);
  }

  /** Blanks around a count are accepted, as `NumberStyles.Integer` allows. */
  lemma BlanksAroundCountAccepted(n: Int32)
    ensures ParseInt32(" " + IntToString(n) + "\t") == Some(n)
  {
    var s := IntToString(n);
    var padded := " " + s + "\t";
    PacketParser.CountFieldShape(n);
    assert TrimStartBy(padded, NumberWhite) == s + "\t" by {
      assert padded[1..] == s + "\t";
    }
    assert TrimEndBy(s + "\t", NumberWhite) == s by {
      assert (s + "\t")[..|s|] == s;
    }
    ParseIntToString(n);
    TrimByNoOp(s, NumberWhite);
  }
}
