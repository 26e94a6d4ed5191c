// The JSON lines of the KPM decoder: how indication messages of format 1 are printed, and
// what a JSON reader gets back for the record in a row and a column of the message
// (tools/ocudu_kpm_v05_decode.cpp).
module KpmJson {
  import opened Json
  import opened JsonNumber

  datatype MeasType = MeasName(name: string) | MeasId(id: nat) | OtherType

  type StreamText = s: string | IsStreamText(s) witness "0"

  datatype MeasRecord = Integer(value: nat) | Real(text: StreamText) | NoValue | NotSatisfied | UnknownRecord

  datatype IndMsgFormat1 = IndMsgFormat1(measInfoList: seq<MeasType>, measData: seq<seq<MeasRecord>>)

  // ------------------------------------------------------------ integers

  function Digit(n: nat): char
    requires n < 10
  {
    ['0', '1', '2', '3', '4', '5', '6', '7', '8', '9'][n]
  }

  function Decimal(n: nat): (s: string)
    ensures s != ""
  {
    if n < 10 then [Digit(n)] else Decimal(n / 10) + [Digit(n % 10)]
  }

  function DigitValue(c: char): nat
    requires IsDigit(c)
  {
    c as int - '0' as int
  }

  /** The number some digits write. */
  function ValueOf(digits: string): nat
    requires AllDigits(digits)
  {
    if digits == "" then 0
    else 10 * ValueOf(digits[..|digits| - 1]) + DigitValue(digits[|digits| - 1])
  }

  /** The text is digits, without a leading zero, of this value. */
  predicate Writes(text: string, n: nat) {
    IsInt(text) && ValueOf(text) == n
  }

  /** A printed integer has digits only and no leading zero. */
  lemma {:induction false} DecimalIsInt(n: nat)
    ensures IsInt(Decimal(n)) && AllDigits(Decimal(n))
    ensures n > 0 ==> Decimal(n) != ['0']
  {
    if n < 10 {
    } else {
      DecimalIsInt(n / 10);
    }
  }

  lemma {:induction false} DecimalWrites(n: nat)
    ensures Writes(Decimal(n), n) && IsStreamText(Decimal(n))
  {
    DecimalIsInt(n);
    if n < 10 {
      assert Decimal(n)[..0] == "";
    } else {
      DecimalWrites(n / 10);
      assert Decimal(n)[..|Decimal(n)| - 1] == Decimal(n / 10);
    }
  }

  /** Decimal digits, the highest first. */
  lemma DecimalDigits()
    ensures Decimal(9081726354) == ['9', '0', '8', '1', '7', '2', '6', '3', '5', '4']
  {
    assert Decimal(9) == ['9'];
    assert Decimal(90) == ['9', '0'];
    assert Decimal(908) == ['9', '0', '8'];
    assert Decimal(9081) == ['9', '0', '8', '1'];
    assert Decimal(90817) == ['9', '0', '8', '1', '7'];
    assert Decimal(908172) == ['9', '0', '8', '1', '7', '2'];
    assert Decimal(9081726) == ['9', '0', '8', '1', '7', '2', '6'];
    assert Decimal(90817263) == ['9', '0', '8', '1', '7', '2', '6', '3'];
    assert Decimal(908172635) == ['9', '0', '8', '1', '7', '2', '6', '3', '5'];
  }

  lemma DecimalIsNumber(n: nat)
    ensures IsJsonNumber(Decimal(n))
  {
    DecimalIsInt(n);
    NumberOf("", Decimal(n), "", "");
    assert "" + (Decimal(n) + ("" + "")) == Decimal(n);
  }

  // ------------------------------------------------------------ what a line says

  /** The name is this prefix and then this number. */
  predicate IsNumbered(name: string, prefix: string, n: nat) {
    prefix <= name && Writes(name[|prefix|..], n)
  }

  /** The name that goes with a column: the one the message gives it, or one that is made of the
      id or the position. */
  predicate NamesColumn(name: string, labels: seq<MeasType>, col: nat) {
    if col < |labels| && labels[col].MeasName? then name == labels[col].name
    else if col < |labels| && labels[col].MeasId? then IsNumbered(name, "meas_id_", labels[col].id)
    else IsNumbered(name, "measurement_", col)
  }

  /** The type and the value of a record. */
  predicate Describes(typeName: string, v: Value, r: MeasRecord) {
    match r
    case Integer(n) => typeName == "integer" && v.Number? && Writes(v.digits, n)
    case Real(text) => typeName == "real" && v == Number(text)
    case NoValue => typeName == "no_value" && v.Null?
    case NotSatisfied => typeName == "not_satisfied" && v.Null?
    case UnknownRecord => typeName == "unknown" && v.Null?
  }

  /** An object with the name, the type and the value of a record of this column, in this order. */
  predicate IsMeasurement(v: Value, labels: seq<MeasType>, r: MeasRecord, col: nat) {
    && v.Object? && |v.members| == 3
    && v.members[0].key == "name" && v.members[1].key == "type" && v.members[2].key == "value"
    && v.members[0].value.String? && NamesColumn(v.members[0].value.text, labels, col)
    && v.members[1].value.String? && Describes(v.members[1].value.text, v.members[2].value, r)
  }

  /** How many records are in the first rows. */
  function RecordsIn(data: seq<seq<MeasRecord>>, rows: nat): nat
    requires rows <= |data|
  {
    if rows == 0 then 0 else RecordsIn(data, rows - 1) + |data[rows - 1]|
  }

  /** The record in this row and column stands where the records before it end. */
  predicate HoldsRecord(items: seq<Value>, msg: IndMsgFormat1, row: nat, col: nat)
    requires row < |msg.measData| && col < |msg.measData[row]|
  {
    var i := RecordsIn(msg.measData, row) + col;
    i < |items| && IsMeasurement(items[i], msg.measInfoList, msg.measData[row][col], col)
  }

  /** The records of the first rows, row by row, and nothing else. */
  ghost predicate AreMeasurements(items: seq<Value>, msg: IndMsgFormat1, rows: nat)
    requires rows <= |msg.measData|
  {
    && |items| == RecordsIn(msg.measData, rows)
    && forall row, col :: 0 <= row < rows && 0 <= col < |msg.measData[row]| ==> HoldsRecord(items, msg, row, col)
  }

  /** The document of a message: where it comes from, and its measurements. */
  ghost predicate IsDocument(doc: Value, msg: IndMsgFormat1) {
    && doc.Object? && |doc.members| == 4
    && doc.members[0] == Member("decoded_by", String("ocudu-generated-asn1-cpp"))
    && doc.members[1] == Member("kpm_version", String("E2SM-KPM-R003-v05.00"))
    && doc.members[2] == Member("format", String("ind_msg_format1"))
    && doc.members[3].key == "measurements" && doc.members[3].value.Array?
    && AreMeasurements(doc.members[3].value.items, msg, |msg.measData|)
  }

  /** The name of a column has no control character that is left unescaped, and the record, if it
      is a floating point number, was printed as a JSON number. */
  ghost predicate Readable(labels: seq<MeasType>, r: MeasRecord, col: nat) {
    && (col < |labels| && labels[col].MeasName? ==> Printable(labels[col].name))
    && (r.Real? ==> IsJsonNumber(r.text))
  }

  ghost predicate RowReadable(labels: seq<MeasType>, records: seq<MeasRecord>) {
    forall col :: 0 <= col < |records| ==> Readable(labels, records[col], col)
  }

  ghost predicate AllReadable(msg: IndMsgFormat1, rows: nat)
    requires rows <= |msg.measData|
  {
    forall row :: 0 <= row < rows ==> RowReadable(msg.measInfoList, msg.measData[row])
  }

  // ------------------------------------------------------------ what is printed

  function MeasNameAt(msg: IndMsgFormat1, index: nat): (name: string)
    ensures NamesColumn(name, msg.measInfoList, index)
  {
    DecimalWrites(index);
    if index >= |msg.measInfoList| then Numbered("measurement_", index)
    else match msg.measInfoList[index]
         case MeasName(name) => name
         case MeasId(id) => Numbered("meas_id_", id)
         case OtherType => Numbered("measurement_", index)
  }

  function Numbered(prefix: string, n: nat): (name: string)
    ensures IsNumbered(name, prefix, n)
  {
    DecimalWrites(n);
    assert (prefix + Decimal(n))[|prefix|..] == Decimal(n);
    prefix + Decimal(n)
  }

  function TypeName(r: MeasRecord): string {
    match r
    case Integer(_) => "integer"
    case Real(_) => "real"
    case NoValue => "no_value"
    case NotSatisfied => "not_satisfied"
    case UnknownRecord => "unknown"
  }

  function RecordValue(r: MeasRecord): (v: Value)
    ensures Describes(TypeName(r), v, r)
  {
    match r
    case Integer(n) => DecimalWrites(n); Number(Decimal(n))
    case Real(text) => Number(text)
    case _ => Null
  }

  function Measurement(msg: IndMsgFormat1, r: MeasRecord, col: nat): (v: Value)
    ensures IsMeasurement(v, msg.measInfoList, r, col)
  {
    Triple(MeasNameAt(msg, col), TypeName(r), RecordValue(r))
  }

  function Row(msg: IndMsgFormat1, records: seq<MeasRecord>): (items: seq<Value>)
    ensures |items| == |records|
    ensures forall col :: 0 <= col < |records| ==> items[col] == Measurement(msg, records[col], col)
  {
    seq(|records|, col requires 0 <= col < |records| => Measurement(msg, records[col], col))
  }

  /** All measurements of the first rows. */
  function Rows(msg: IndMsgFormat1, rows: nat): seq<Value>
    requires rows <= |msg.measData|
  {
    if rows == 0 then [] else Rows(msg, rows - 1) + Row(msg, msg.measData[rows - 1])
  }

  function Members(items: seq<Value>): seq<Member> {
    [Member("decoded_by", String("ocudu-generated-asn1-cpp")),
     Member("kpm_version", String("E2SM-KPM-R003-v05.00")),
     Member("format", String("ind_msg_format1")),
     Member("measurements", Array(items))]
  }

  /** Every record is at its row and column. */
  lemma {:induction false} RowsAreMeasurements(msg: IndMsgFormat1, rows: nat)
    requires rows <= |msg.measData|
    ensures AreMeasurements(Rows(msg, rows), msg, rows)
  {
    if rows == 0 {
    } else {
      RowsAreMeasurements(msg, rows - 1);
      var above, last := Rows(msg, rows - 1), Row(msg, msg.measData[rows - 1]);
      forall row, col | 0 <= row < rows && 0 <= col < |msg.measData[row]|
        ensures HoldsRecord(above + last, msg, row, col)
      {
        var i := RecordsIn(msg.measData, row) + col;
        if row < rows - 1 {
          assert HoldsRecord(above, msg, row, col);
          assert (above + last)[i] == above[i];
        } else {
          assert (above + last)[i] == last[col];
        }
      }
    }
  }

  lemma NumberedIsPrintable(prefix: string, n: nat)
    requires Printable(prefix)
    ensures Printable(Numbered(prefix, n))
  {
    DecimalIsInt(n);
  }

  lemma NameIsPrintable(msg: IndMsgFormat1, col: nat)
    ensures var labels := msg.measInfoList;
            Printable(MeasNameAt(msg, col))
            <==> (col < |labels| && labels[col].MeasName? ==> Printable(labels[col].name))
  {
    assert Printable("meas_id_") && Printable("measurement_");
    NumberedIsPrintable("measurement_", col);
    if col < |msg.measInfoList| && msg.measInfoList[col].MeasId? {
      NumberedIsPrintable("meas_id_", msg.measInfoList[col].id);
    }
  }

  lemma RecordIsWellFormed(r: MeasRecord)
    ensures Streamed(RecordValue(r))
    ensures WellFormed(RecordValue(r)) <==> (r.Real? ==> IsJsonNumber(r.text))
  {
    match r {
      case Integer(n) =>
        DecimalWrites(n);
        DecimalIsNumber(n);
      case Real(text) => assert IsStreamText(text);
      case _ =>
    }
  }

  /** An object with the members of a measurement. */
  function Triple(name: string, typeName: string, value: Value): Value {
    Object([Member("name", String(name)), Member("type", String(typeName)), Member("value", value)])
  }

  lemma TripleIsWellFormed(name: string, typeName: string, value: Value)
    ensures Streamed(Triple(name, typeName, value)) <==> Streamed(value)
    ensures WellFormed(Triple(name, typeName, value)) <==> Printable(name) && Printable(typeName) && WellFormed(value)
  {
    var members := Triple(name, typeName, value).members;
    assert Printable("name") && Printable("type") && Printable("value");
    assert Streamed(members[0].value) && Streamed(members[1].value) && members[2].value == value;
    assert WellFormedMember(members[0]) <==> Printable(name);
    assert WellFormedMember(members[1]) <==> Printable(typeName);
    assert WellFormedMember(members[2]) <==> WellFormed(value);
  }

  lemma TypeIsPlain(r: MeasRecord)
    ensures Plain(TypeName(r)) && Printable(TypeName(r))
  {
    PlainIsItself(TypeName(r));
  }

  lemma MeasurementIsWellFormed(msg: IndMsgFormat1, r: MeasRecord, col: nat)
    ensures Streamed(Measurement(msg, r, col))
    ensures WellFormed(Measurement(msg, r, col)) <==> Readable(msg.measInfoList, r, col)
  {
    TripleIsWellFormed(MeasNameAt(msg, col), TypeName(r), RecordValue(r));
    NameIsPrintable(msg, col);
    RecordIsWellFormed(r);
    TypeIsPlain(r);
  }

  ghost predicate IsReadableIff(items: seq<Value>, readable: bool) {
    Streamed(Array(items)) && (WellFormed(Array(items)) <==> readable)
  }

  lemma {:induction false} RowsAreWellFormed(msg: IndMsgFormat1, rows: nat)
    requires rows <= |msg.measData|
    ensures IsReadableIff(Rows(msg, rows), AllReadable(msg, rows))
  {
    if rows == 0 {
    } else {
      RowsAreWellFormed(msg, rows - 1);
      NextRowIsWellFormed(msg, Rows(msg, rows - 1), AllReadable(msg, rows - 1), msg.measData[rows - 1]);
      NextRowReadable(msg, rows);
    }
  }

  lemma NextRowIsWellFormed(msg: IndMsgFormat1, above: seq<Value>, readable: bool, records: seq<MeasRecord>)
    requires IsReadableIff(above, readable)
    ensures IsReadableIff(above + Row(msg, records), readable && RowReadable(msg.measInfoList, records))
  {
    RowIsWellFormed(msg, records);
    Appended(above, Row(msg, records));
  }

  lemma NextRowReadable(msg: IndMsgFormat1, rows: nat)
    requires 0 < rows <= |msg.measData|
    ensures AllReadable(msg, rows)
            <==> AllReadable(msg, rows - 1) && RowReadable(msg.measInfoList, msg.measData[rows - 1])
  {
  }

  lemma RowIsWellFormed(msg: IndMsgFormat1, records: seq<MeasRecord>)
    ensures Streamed(Array(Row(msg, records)))
    ensures WellFormed(Array(Row(msg, records))) <==> RowReadable(msg.measInfoList, records)
  {
    forall col | 0 <= col < |records|
      ensures Streamed(Row(msg, records)[col])
      ensures WellFormed(Row(msg, records)[col]) <==> Readable(msg.measInfoList, records[col], col)
    {
      MeasurementIsWellFormed(msg, records[col], col);
    }
  }

  lemma Appended(a: seq<Value>, b: seq<Value>)
    ensures Streamed(Array(a + b)) <==> Streamed(Array(a)) && Streamed(Array(b))
    ensures WellFormed(Array(a + b)) <==> WellFormed(Array(a)) && WellFormed(Array(b))
  {
    assert forall i :: 0 <= i < |a| ==> (a + b)[i] == a[i];
    assert forall i :: 0 <= i < |b| ==> (a + b)[|a| + i] == b[i];
    assert forall i :: |a| <= i < |a + b| ==> (a + b)[i] == b[i - |a|];
  }

  // ------------------------------------------------------------ texts in pieces

  predicate IsPlain(c: char) {
    c as int >= 0x20 && c != '"' && c != '\\'
  }

  /** Nothing in the text is escaped. */
  predicate Plain(value: string) {
    forall i :: 0 <= i < |value| ==> IsPlain(value[i])
  }

  lemma {:induction false} PlainIsItself(value: string)
    requires Plain(value)
    ensures Escaped(value) == value && Printable(value)
  {
    if value == "" {
    } else {
      PlainIsItself(value[1..]);
      assert value == [value[0]] + value[1..];
    }
  }

  function Quoted(text: string): string {
    "\"" + (text + "\"")
  }

  /** A key and a string, as the printer writes them. */
  function Field(key: string, text: string): string {
    Quoted(key) + (":" + Quoted(text))
  }

  /** A member whose key is plain: the printer escapes only its value. */
  lemma FieldText(key: string, text: string)
    requires Plain(key)
    ensures MemberText(Member(key, String(text))) == Field(key, Escaped(text))
    ensures Plain(text) ==> MemberText(Member(key, String(text))) == Field(key, text)
  {
    PlainIsItself(key);
    if Plain(text) {
      PlainIsItself(text);
    }
  }

  function DecodedBy(): string {
    Field("decoded_by", "ocudu-generated-asn1-cpp")
  }

  function KpmVersion(): string {
    Field("kpm_version", "E2SM-KPM-R003-v05.00")
  }

  function Format(): string {
    Field("format", "ind_msg_format1")
  }

  lemma MembersOf4(m: seq<Member>)
    requires |m| == 4
    ensures MembersText(m)
            == MemberText(m[0]) + ("," + (MemberText(m[1]) + ("," + (MemberText(m[2]) + ("," + MemberText(m[3]))))))
  {
    assert MembersText(m[3..]) == MemberText(m[3]);
    assert MembersText(m[2..]) == MemberText(m[2]) + ("," + MembersText(m[2..][1..])) && m[2..][1..] == m[3..];
    assert MembersText(m[1..]) == MemberText(m[1]) + ("," + MembersText(m[1..][1..])) && m[1..][1..] == m[2..];
  }

  lemma HeadIsPlain()
    ensures Plain("decoded_by") && Plain("ocudu-generated-asn1-cpp")
    ensures Plain("kpm_version") && Plain("E2SM-KPM-R003-v05.00")
    ensures Plain("format") && Plain("ind_msg_format1") && Plain("measurements")
  {
  }

  lemma HeadText()
    ensures MemberText(Member("decoded_by", String("ocudu-generated-asn1-cpp"))) == DecodedBy()
    ensures MemberText(Member("kpm_version", String("E2SM-KPM-R003-v05.00"))) == KpmVersion()
    ensures MemberText(Member("format", String("ind_msg_format1"))) == Format()
  {
    HeadIsPlain();
    FieldText("decoded_by", "ocudu-generated-asn1-cpp");
    FieldText("kpm_version", "E2SM-KPM-R003-v05.00");
    FieldText("format", "ind_msg_format1");
  }

  lemma MeasurementsText(items: seq<Value>)
    ensures MemberText(Member("measurements", Array(items)))
            == Quoted("measurements") + (":" + ("[" + (ItemsText(items) + "]")))
  {
    HeadIsPlain();
    PlainIsItself("measurements");
  }

  lemma TripleGrouped(a: string, b: string)
    ensures "{" + ((a + ("," + b)) + "}") == (("{" + (a + ",")) + b) + "}"
  {
    assert (a + ("," + b)) + "}" == (a + ",") + (b + "}");
  }

  lemma MembersOf3(m: seq<Member>)
    requires |m| == 3
    ensures MembersText(m) == MemberText(m[0]) + ("," + (MemberText(m[1]) + ("," + MemberText(m[2]))))
  {
    assert MembersText(m[2..]) == MemberText(m[2]);
    assert MembersText(m[1..]) == MemberText(m[1]) + ("," + MembersText(m[1..][1..])) && m[1..][1..] == m[2..];
  }

  lemma NameMember(name: string)
    ensures MemberText(Member("name", String(name))) == Field("name", Escaped(name))
  {
    assert Plain("name");
    FieldText("name", name);
  }

  lemma TypeMember(typeName: string)
    requires Plain(typeName)
    ensures MemberText(Member("type", String(typeName))) == Field("type", typeName)
  {
    assert Plain("type");
    FieldText("type", typeName);
  }

  lemma ValueMember(value: Value)
    ensures MemberText(Member("value", value)) == Quoted("value") + (":" + Text(value))
  {
    assert Plain("value");
    PlainIsItself("value");
  }

  lemma TripleMembers(name: string, typeName: string, value: Value)
    requires Plain(typeName)
    ensures MembersText(Triple(name, typeName, value).members)
            == Field("name", Escaped(name)) + ("," + TypeAndValue(typeName, Text(value)))
  {
    MembersOf3(Triple(name, typeName, value).members);
    NameMember(name);
    TypeMember(typeName);
    ValueMember(value);
  }

  /** The text of a measurement, in the pieces it is written in. */
  lemma MeasurementText(name: string, typeName: string, value: Value)
    requires Plain(typeName)
    ensures Text(Triple(name, typeName, value))
            == (("{" + (Field("name", Escaped(name)) + ",")) + TypeAndValue(typeName, Text(value))) + "}"
  {
    TripleMembers(name, typeName, value);
    TripleGrouped(Field("name", Escaped(name)), TypeAndValue(typeName, Text(value)));
  }

  function TypeAndValue(typeName: string, value: string): string {
    Field("type", typeName) + ("," + (Quoted("value") + (":" + value)))
  }

  lemma DocumentGrouped(a: string, b: string, c: string, d: string, e: string)
    ensures "{" + ((a + ("," + (b + ("," + (c + ("," + (d + (":" + ("[" + (e + "]")))))))))) + "}")
            == ("{" + (a + ",")) + ((b + ",") + ((c + ",") + ((d + (":" + "[")) + (e + "]}"))))
  {
    var f := d + (":" + "[");
    assert d + (":" + ("[" + (e + "]"))) == f + (e + "]");
    assert (f + (e + "]")) + "}" == f + (e + "]}");
    assert (c + ("," + (f + (e + "]")))) + "}" == (c + ",") + (f + (e + "]}"));
    assert (b + ("," + (c + ("," + (f + (e + "]")))))) + "}" == (b + ",") + ((c + ",") + (f + (e + "]}")));
  }

  /** The line, in the pieces it is written in. */
  function Line(body: string): string {
    "{\"decoded_by\":\"" + ("ocudu-generated-asn1-cpp\"," + ("\"kpm_version\":\"E2SM-KPM-R003-v05.00\"," +
    ("\"format\":\"ind_msg_format1\"," + ("\"measurements\":[" + (body + "]}")))))
  }

  lemma ProducerText(rest: string)
    ensures ("{" + (DecodedBy() + ",")) + rest == "{\"decoded_by\":\"" + ("ocudu-generated-asn1-cpp\"," + rest)
  {
    var k, t, v := "{\"decoded_by\":\"", "ocudu-generated-asn1-cpp", "ocudu-generated-asn1-cpp\",";
    assert v == t + "\",";
    KeyText("decoded_by", t);
    assert "{" + ("\"" + ("decoded_by" + ("\"" + (":" + "\"")))) == k;
    assert (k + v) + rest == k + (v + rest);
  }

  lemma KeyText(k: string, t: string)
    ensures "{" + (Field(k, t) + ",") == ("{" + ("\"" + (k + ("\"" + (":" + "\""))))) + (t + "\",")
  {
    assert Field(k, t) + "," == ("\"" + (k + ("\"" + (":" + "\"")))) + (t + "\",");
  }

  lemma VersionText()
    ensures KpmVersion() + "," == "\"kpm_version\":\"E2SM-KPM-R003-v05.00\","
  {
  }

  lemma FormatText()
    ensures Format() + "," == "\"format\":\"ind_msg_format1\","
    ensures Quoted("measurements") + (":" + "[") == "\"measurements\":["
  {
  }

  /** It is the text of the document. */
  lemma DocumentText(items: seq<Value>)
    ensures Text(Object(Members(items))) == Line(ItemsText(items))
  {
    MembersOf4(Members(items));
    HeadText();
    MeasurementsText(items);
    DocumentGrouped(DecodedBy(), KpmVersion(), Format(), Quoted("measurements"), ItemsText(items));
    VersionText();
    FormatText();
    ProducerText("\"kpm_version\":\"E2SM-KPM-R003-v05.00\"," +
                 ("\"format\":\"ind_msg_format1\"," + ("\"measurements\":[" + (ItemsText(items) + "]}"))));
  }

  // ------------------------------------------------------------ the printing loops

  lemma {:induction false} EscapedAppend(value: string, c: char)
    ensures Escaped(value + [c]) == Escaped(value) + Escape(c)
  {
    EscapedSplit(value, [c]);
    assert [c][1..] == "";
  }

  method EscapeJson(value: string) returns (out: string)
    ensures out == Escaped(value)
  {
    out := "";
    var i := 0;
    while i < |value|
      invariant 0 <= i <= |value| && out == Escaped(value[..i])
    {
      var ch := value[i];
      ghost var before := out;
      if ch == '\\' {
        out := out + ['\\', '\\'];
      } else if ch == '"' {
        out := out + ['\\', '"'];
      } else if ch == '\n' {
        out := out + ['\\', 'n'];
      } else if ch == '\r' {
        out := out + ['\\', 'r'];
      } else if ch == '\t' {
        out := out + ['\\', 't'];
      } else {
        out := out + [ch];
      }
      assert out == before + Escape(ch);
      EscapedAppend(value[..i], ch);
      assert value[..i + 1] == value[..i] + [ch];
      i := i + 1;
    }
    assert value[..i] == value;
  }

  method WriteMeasurementJson(msg: IndMsgFormat1, record: MeasRecord, index: nat) returns (out: string)
    ensures out == Text(Measurement(msg, record, index))
    ensures var name := "{\"name\":\"" + (Escaped(MeasNameAt(msg, index)) + "\",");
            match record
            case Integer(n) => out == name + ("\"type\":\"integer\",\"value\":" + (Decimal(n) + "}"))
            case Real(text) => out == name + ("\"type\":\"real\",\"value\":" + (text + "}"))
            case NoValue => out == name + ("\"type\":\"no_value\",\"value\":null" + "}")
            case NotSatisfied => out == name + ("\"type\":\"not_satisfied\",\"value\":null" + "}")
            case UnknownRecord => out == name + ("\"type\":\"unknown\",\"value\":null" + "}")
  {
    var name := EscapeJson(MeasNameAt(msg, index));
    out := "{\"name\":\"" + (name + "\",");
    match record {
      case Integer(n) =>
        IntegerText(Decimal(n));
        out := out + ("\"type\":\"integer\",\"value\":" + (Decimal(n) + "}"));
      case Real(text) =>
        RealText(text);
        out := out + ("\"type\":\"real\",\"value\":" + (text + "}"));
      case NoValue =>
        NoValueText();
        out := out + ("\"type\":\"no_value\",\"value\":null" + "}");
      case NotSatisfied =>
        NotSatisfiedText();
        out := out + ("\"type\":\"not_satisfied\",\"value\":null" + "}");
      case UnknownRecord =>
        UnknownText();
        out := out + ("\"type\":\"unknown\",\"value\":null" + "}");
    }
    TypeIsPlain(record);
    MeasurementText(MeasNameAt(msg, index), TypeName(record), RecordValue(record));
    NameText(name, TypeAndValue(TypeName(record), Text(RecordValue(record))));
  }

  // The texts of the five kinds of records.

  lemma IntegerText(v: string)
    ensures TypeAndValue("integer", v) + "}" == "\"type\":\"integer\",\"value\":" + (v + "}")
  {
  }

  lemma RealText(v: string)
    ensures TypeAndValue("real", v) + "}" == "\"type\":\"real\",\"value\":" + (v + "}")
  {
  }

  lemma NoValueText()
    ensures TypeAndValue("no_value", "null") == "\"type\":\"no_value\",\"value\":null"
  {
  }

  lemma NotSatisfiedText()
    ensures TypeAndValue("not_satisfied", "null") == "\"type\":\"not_satisfied\",\"value\":null"
  {
  }

  lemma UnknownText()
    ensures TypeAndValue("unknown", "null") == "\"type\":\"unknown\",\"value\":null"
  {
  }

  lemma NameText(name: string, rest: string)
    ensures (("{" + (Field("name", name) + ",")) + rest) + "}" == ("{\"name\":\"" + (name + "\",")) + (rest + "}")
  {
    assert "{" + (Field("name", name) + ",") == "{\"name\":\"" + (name + "\",");
  }

  lemma {:induction false} ItemsTextAppend(items: seq<Value>, item: Value)
    ensures ItemsText(items + [item]) == (if items == [] then Text(item) else (ItemsText(items) + ",") + Text(item))
  {
    if items == [] {
      assert items + [item] == [item];
    } else {
      var all := items + [item];
      assert all[1..] == items[1..] + [item] && all[0] == items[0];
      ItemsTextAppend(items[1..], item);
      if |items| == 1 {
        assert items[1..] == [];
        Comma(Text(items[0]), Text(item));
      } else {
        Regroup(Text(items[0]), ItemsText(items[1..]), Text(item));
      }
    }
  }

  lemma Comma(a: string, b: string)
    ensures a + ("," + b) == (a + ",") + b
  {
  }

  lemma Regroup(a: string, b: string, c: string)
    ensures a + ("," + ((b + ",") + c)) == ((a + ("," + b)) + ",") + c
  {
  }

  /** What the body of the inner loop appends. */
  lemma MeasurementAdded(above: seq<Value>, items: seq<Value>, col: nat)
    requires col < |items|
    ensures var printed := above + items[..col];
            ItemsText(above + items[..col + 1])
            == (if printed == [] then ItemsText(printed) else ItemsText(printed) + ",") + Text(items[col])
  {
    var printed := above + items[..col];
    assert above + items[..col + 1] == printed + [items[col]];
    ItemsTextAppend(printed, items[col]);
    assert "" + Text(items[col]) == Text(items[col]);
  }

  /** The inner loop of write_format1_json: a comma before every measurement but the first. */
  method WriteRow(msg: IndMsgFormat1, records: seq<MeasRecord>, ghost above: seq<Value>, before: string, none: bool)
    returns (body: string, first: bool)
    requires before == ItemsText(above) && (none <==> above == [])
    ensures body == ItemsText(above + Row(msg, records)) && (first <==> above + Row(msg, records) == [])
  {
    body, first := before, none;
    ghost var items := Row(msg, records);
    assert above + items[..0] == above;
    var col := 0;
    while col < |records|
      invariant 0 <= col <= |records|
      invariant body == ItemsText(above + items[..col]) && (first <==> above + items[..col] == [])
    {
      MeasurementAdded(above, items, col);
      if !first {
        body := body + ",";
      }
      first := false;
      var text := WriteMeasurementJson(msg, records[col], col);
      body := body + text;
      col := col + 1;
    }
    assert items[..col] == items;
  }

  /** The outer loop: row by row. */
  method WriteMeasurements(msg: IndMsgFormat1) returns (body: string)
    ensures body == ItemsText(Rows(msg, |msg.measData|))
  {
    body := "";
    var first := true;
    var row := 0;
    ghost var printed: seq<Value> := [];
    while row < |msg.measData|
      invariant 0 <= row <= |msg.measData|
      invariant body == ItemsText(printed) && (first <==> printed == [])
      invariant printed == Rows(msg, row)
    {
      body, first := WriteRow(msg, msg.measData[row], printed, body, first);
      printed := printed + Row(msg, msg.measData[row]);
      row := row + 1;
    }
  }

  /** The line as a whole: a JSON document if and only if every name is free of unescaped control
      characters and every floating point value was printed as a number. Then a reader gets back
      every record, at its row and column, with the name of its column, its type and its value.
      In any case it is one line. */
  method WriteFormat1Json(msg: IndMsgFormat1) returns (out: string)
    ensures out == Text(Document(msg)) && out == Line(ItemsText(Rows(msg, |msg.measData|)))
    ensures ReadDocument(out).Some? <==> AllReadable(msg, |msg.measData|)
    ensures ReadDocument(out).Some? ==> IsDocument(ReadDocument(out).value, msg)
    ensures OneLine(out)
  {
    var body := WriteMeasurements(msg);
    out := "{\"decoded_by\":\"" + ("ocudu-generated-asn1-cpp\"," + ("\"kpm_version\":\"E2SM-KPM-R003-v05.00\"," +
           ("\"format\":\"ind_msg_format1\"," + ("\"measurements\":[" + (body + "]}")))));
    DocumentText(Rows(msg, |msg.measData|));
    PrintRoundTrip(msg);
    PrintedIsOneLine(msg);
  }

  // ------------------------------------------------------------ round trip

  function Document(msg: IndMsgFormat1): Value {
    Object(Members(Rows(msg, |msg.measData|)))
  }

  lemma DocumentIsWellFormed(msg: IndMsgFormat1)
    ensures Streamed(Document(msg))
    ensures WellFormed(Document(msg)) <==> AllReadable(msg, |msg.measData|)
  {
    var items := Rows(msg, |msg.measData|);
    RowsAreWellFormed(msg, |msg.measData|);
    MembersAreWellFormed(items);
  }

  lemma MembersAreWellFormed(items: seq<Value>)
    ensures Streamed(Object(Members(items))) <==> Streamed(Array(items))
    ensures WellFormed(Object(Members(items))) <==> WellFormed(Array(items))
  {
    var m := Members(items);
    HeadIsPlain();
    assert m[3].value == Array(items);
    assert WellFormedMember(m[0]) && WellFormedMember(m[1]) && WellFormedMember(m[2]);
    assert WellFormedMember(m[3]) <==> WellFormed(Array(items));
  }

  /** Print round trip: a JSON reader of the printed line gets back every record of the message,
      row by row, with the name its column has in the message, its type and its value, if and
      only if no name has a control character that the printer leaves unescaped and every
      floating point value was printed as a JSON number; otherwise the line is no JSON document. */
  lemma PrintRoundTrip(msg: IndMsgFormat1)
    ensures var doc := ReadDocument(Text(Document(msg)));
            && (doc.Some? <==> AllReadable(msg, |msg.measData|))
            && (doc.Some? ==> IsDocument(doc.value, msg))
  {
    DocumentIsWellFormed(msg);
    DocumentRoundTrip(Members(Rows(msg, |msg.measData|)));
    RowsAreMeasurements(msg, |msg.measData|);
  }

  /** What is read back for one record: its name is the one the message gives its column, or
      meas_id_ and the id in digits, or measurement_ and the position in digits. */
  lemma RecordIsFound(msg: IndMsgFormat1, row: nat, col: nat) returns (v: Value, digits: string)
    requires AllReadable(msg, |msg.measData|) && row < |msg.measData| && col < |msg.measData[row]|
    ensures var doc := ReadDocument(Text(Document(msg)));
            var i := RecordsIn(msg.measData, row) + col;
            && doc.Some? && IsDocument(doc.value, msg)
            && i < |doc.value.members[3].value.items| && doc.value.members[3].value.items[i] == v
    ensures v.Object? && |v.members| == 3
    ensures var labels := msg.measInfoList;
            if col < |labels| && labels[col].MeasName? then
              v.members[0] == Member("name", String(labels[col].name))
            else if col < |labels| && labels[col].MeasId? then
              v.members[0] == Member("name", String("meas_id_" + digits)) && Writes(digits, labels[col].id)
            else v.members[0] == Member("name", String("measurement_" + digits)) && Writes(digits, col)
    ensures v.members[1].key == "type" && v.members[2].key == "value" && v.members[1].value.String?
    ensures Describes(v.members[1].value.text, v.members[2].value, msg.measData[row][col])
  {
    PrintRoundTrip(msg);
    var items := ReadDocument(Text(Document(msg))).value.members[3].value.items;
    assert HoldsRecord(items, msg, row, col);
    v := items[RecordsIn(msg.measData, row) + col];
    var name := v.members[0].value.text;
    if col < |msg.measInfoList| && msg.measInfoList[col].MeasId? {
      digits := name[|"meas_id_"|..];
      assert name == "meas_id_" + digits;
    } else if IsNumbered(name, "measurement_", col) {
      digits := name[|"measurement_"|..];
      assert name == "measurement_" + digits;
    } else {
      digits := "";
    }
  }

  /** One message is one line, whatever the names contain. */
  lemma PrintedIsOneLine(msg: IndMsgFormat1)
    ensures OneLine(Text(Document(msg)))
  {
    DocumentIsWellFormed(msg);
    TextIsOneLine(Document(msg));
  }

  lemma NanIsNoNumber()
    ensures !IsJsonNumber("nan")
  {
    assert "nan"[0] == 'n';
    if IsJsonNumber("nan") {
      NumberChars("nan");
    }
  }

  /** The stream prints nan for a value that is no number, and then nothing is read. */
  lemma NanIsNotRead(name: string)
    ensures ReadDocument(Text(Document(IndMsgFormat1([MeasName(name)], [[Real("nan")]])))).None?
  {
    var msg := IndMsgFormat1([MeasName(name)], [[Real("nan")]]);
    PrintRoundTrip(msg);
    NanIsNoNumber();
    assert !Readable(msg.measInfoList, msg.measData[0][0], 0);
    assert !RowReadable(msg.measInfoList, msg.measData[0]);
  }
}
