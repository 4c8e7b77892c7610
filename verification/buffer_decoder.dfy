/**
  The buffer decoder of the MQTT data module (parse_input_buffer): pad the bytes
  read from a meter table, unpack them as little-endian signed 32-bit integers,
  and name the fields of tables 23 and 28.
 */
module BufferDecoder {
  import opened Wrappers
  import opened Int32Codec

  /** Buffers shorter than this are padded with zero bytes before unpacking. */
  const MinLength: nat := 36

  /**
    A decoded reading. Count is a raw integer field (published as a Python int);
    Thousandths(n) is the field divided by 1000 (a Python float), kept exact.
   */
  datatype Value = Count(n: int) | Thousandths(n: int)

  function AsReal(v: Value): real {
    match v
    case Count(n) => n as real
    case Thousandths(n) => n as real / 1000.0
  }

  /** One entry of the decoded dictionary; a sequence of them keeps its insertion order. */
  datatype Sample = Sample(key: string, value: Value)

  /**
    The exceptions parse_input_buffer lets escape. None is a ValueError, so its
    own handler catches none of them.
   */
  datatype ParseError =
    | StructError        // the padded length is not a multiple of four
    | IndexError         // table 28 needs a tenth integer that a 36-byte buffer lacks
    | UnboundLocalError  // a table id other than 23 or 28 never binds the result

  /** Right-pad with zero bytes up to MinLength; longer buffers are left alone. */
  function Pad(bs: seq<Byte>): (r: seq<Byte>)
    ensures |bs| < MinLength ==> |r| == MinLength
    ensures |bs| >= MinLength ==> r == bs
    ensures |bs| <= |r| && r[..|bs|] == bs
    ensures forall i :: |bs| <= i < |r| ==> r[i] == 0
  {
    if |bs| < MinLength then bs + seq(MinLength - |bs|, _ => 0) else bs
  }

  /** The i-th byte of the buffer, reading past its end as zero. */
  function ByteOrZero(bs: seq<Byte>, i: nat): Byte {
    if i < |bs| then bs[i] else 0
  }

  /** The k-th little-endian int32 field of the buffer, missing bytes being zero. */
  function WordAt(bs: seq<Byte>, k: nat): int {
    DecodeInt32(ByteOrZero(bs, 4 * k), ByteOrZero(bs, 4 * k + 1), ByteOrZero(bs, 4 * k + 2), ByteOrZero(bs, 4 * k + 3))
  }

  /** One named field of a table: which integer, under which key, and whether it is divided by 1000. */
  datatype Field = Field(index: nat, key: string, perThousand: bool)

  /** The keys of a field layout, in layout order. */
  function FieldKeys(fields: seq<Field>): seq<string> {
    seq(|fields|, i requires 0 <= i < |fields| => fields[i].key)
  }

  /** Table 23: energy import and export, in thousandths. */
  const Table23Fields: seq<Field> := [Field(0, "Fwd_kWh", true), Field(1, "Rev_kWh", true)]

  /** Table 28: power import and export raw; phase currents and voltages in thousandths. */
  const Table28Fields: seq<Field> := [
    Field(0, "fwd_Now", false), Field(1, "rev_Now", false),
    Field(4, "L1_A", true), Field(5, "L2_A", true), Field(6, "L3_A", true),
    Field(7, "L1_V", true), Field(8, "L2_V", true), Field(9, "L3_V", true)]

  function FieldValue(f: Field, ints: seq<int>): Value
    requires f.index < |ints|
  {
    if f.perThousand then Thousandths(ints[f.index]) else Count(ints[f.index])
  }

  /** The dictionary a table's fields build from its integers, in field order. */
  function ApplyFields(fields: seq<Field>, ints: seq<int>): (r: seq<Sample>)
    requires forall i :: 0 <= i < |fields| ==> fields[i].index < |ints|
    ensures |r| == |fields|
  {
    if fields == [] then []
    else [Sample(fields[0].key, FieldValue(fields[0], ints))] + ApplyFields(fields[1..], ints)
  }

  /** The i-th entry of the dictionary comes from the i-th field. */
  lemma {:induction false} ApplyFieldsAt(fields: seq<Field>, ints: seq<int>, i: nat)
    requires forall j :: 0 <= j < |fields| ==> fields[j].index < |ints|
    requires i < |fields|
    ensures ApplyFields(fields, ints)[i] == Sample(fields[i].key, FieldValue(fields[i], ints))
    decreases i
  {
    if i > 0 {
      ApplyFieldsAt(fields[1..], ints, i - 1);
    }
  }

  /**
    parse_input_buffer(byte, table_id). The result is an exception exactly in
    the three cases listed in ParseError, and each case is told apart.
   */
  function ParseInputBuffer(bs: seq<Byte>, tableId: int): (r: Result<seq<Sample>, ParseError>)
    ensures r == Failure(StructError) <==> |bs| >= MinLength && |bs| % 4 != 0
    ensures r == Failure(IndexError) <==> tableId == 28 && |bs| <= MinLength
    ensures r == Failure(UnboundLocalError) <==>
              tableId != 23 && tableId != 28 && (|bs| < MinLength || |bs| % 4 == 0)
    ensures r.Success? <==>
              || (tableId == 23 && (|bs| < MinLength || |bs| % 4 == 0))
              || (tableId == 28 && |bs| >= 40 && |bs| % 4 == 0)
  {
    var padded := Pad(bs);
    if |padded| % 4 != 0 then Failure(StructError)
    else
      var ints := Unpack(padded);
      if tableId == 23 then Success(ApplyFields(Table23Fields, ints))
      else if tableId == 28 then
        if |ints| < 10 then Failure(IndexError) else Success(ApplyFields(Table28Fields, ints))
      else Failure(UnboundLocalError)
  }

  /** The keys of a decoded dictionary. */
  function Keys(samples: seq<Sample>): set<string> {
    set i | 0 <= i < |samples| :: samples[i].key
  }

  /** No key occurs twice, as in a dictionary. */
  predicate DistinctKeys(samples: seq<Sample>) {
    forall i, j :: 0 <= i < j < |samples| ==> samples[i].key != samples[j].key
  }

  /** The padded buffer unpacks to the fields of the raw buffer, missing bytes read as zero. */
  lemma UnpackPadded(bs: seq<Byte>, k: nat)
    requires |Pad(bs)| % 4 == 0 && k < |Pad(bs)| / 4
    ensures Unpack(Pad(bs))[k] == WordAt(bs, k)
  {
    var p := Pad(bs);
    forall i | 4 * k <= i < 4 * k + 4 ensures p[i] == ByteOrZero(bs, i) {
      if i < |bs| {
        assert p[..|bs|][i] == bs[i];
      }
    }
  }

  /** Table 23: Fwd_kWh and Rev_kWh are the first two fields divided by 1000. */
  lemma Table23Layout(bs: seq<Byte>)
    requires |bs| < MinLength || |bs| % 4 == 0
    ensures ParseInputBuffer(bs, 23) ==
              Success([Sample("Fwd_kWh", Thousandths(WordAt(bs, 0))), Sample("Rev_kWh", Thousandths(WordAt(bs, 1)))])
  {
    var ints := Unpack(Pad(bs));
    var r := ApplyFields(Table23Fields, ints);
    forall i | 0 <= i < 2
      ensures r[i] == Sample(Table23Fields[i].key, FieldValue(Table23Fields[i], ints))
      ensures ints[Table23Fields[i].index] == WordAt(bs, Table23Fields[i].index)
    {
      ApplyFieldsAt(Table23Fields, ints, i);
      UnpackPadded(bs, Table23Fields[i].index);
    }
    assert r == [r[0], r[1]];
  }

  /** Table 23 depends on the first eight bytes only (bytes beyond a short buffer being zero). */
  lemma Table23ReadsEightBytes(bs: seq<Byte>, bs': seq<Byte>)
    requires |bs| < MinLength || |bs| % 4 == 0
    requires |bs'| < MinLength || |bs'| % 4 == 0
    requires forall i :: 0 <= i < 8 ==> ByteOrZero(bs, i) == ByteOrZero(bs', i)
    ensures ParseInputBuffer(bs, 23) == ParseInputBuffer(bs', 23)
  {
    Table23Layout(bs);
    Table23Layout(bs');
    assert WordAt(bs, 0) == WordAt(bs', 0);
    assert WordAt(bs, 1) == WordAt(bs', 1);
  }

  /** Table 28: power import and export raw, then three currents and three voltages in thousandths. */
  lemma Table28Layout(bs: seq<Byte>)
    requires |bs| >= 40 && |bs| % 4 == 0
    ensures ParseInputBuffer(bs, 28) ==
              Success([ Sample("fwd_Now", Count(WordAt(bs, 0))),
                        Sample("rev_Now", Count(WordAt(bs, 1))),
                        Sample("L1_A", Thousandths(WordAt(bs, 4))),
                        Sample("L2_A", Thousandths(WordAt(bs, 5))),
                        Sample("L3_A", Thousandths(WordAt(bs, 6))),
                        Sample("L1_V", Thousandths(WordAt(bs, 7))),
                        Sample("L2_V", Thousandths(WordAt(bs, 8))),
                        Sample("L3_V", Thousandths(WordAt(bs, 9))) ])
  {
    var ints := Unpack(Pad(bs));
    var r := ApplyFields(Table28Fields, ints);
    forall i | 0 <= i < 8
      ensures r[i] == Sample(Table28Fields[i].key, FieldValue(Table28Fields[i], ints))
      ensures ints[Table28Fields[i].index] == WordAt(bs, Table28Fields[i].index)
    {
      ApplyFieldsAt(Table28Fields, ints, i);
      UnpackPadded(bs, Table28Fields[i].index);
    }
    assert r[0] == Sample("fwd_Now", Count(WordAt(bs, 0)));
    assert r[1] == Sample("rev_Now", Count(WordAt(bs, 1)));
    assert r[2] == Sample("L1_A", Thousandths(WordAt(bs, 4)));
    assert r[3] == Sample("L2_A", Thousandths(WordAt(bs, 5)));
    assert r[4] == Sample("L3_A", Thousandths(WordAt(bs, 6)));
    assert r[5] == Sample("L1_V", Thousandths(WordAt(bs, 7)));
    assert r[6] == Sample("L2_V", Thousandths(WordAt(bs, 8)));
    assert r[7] == Sample("L3_V", Thousandths(WordAt(bs, 9)));
    assert r == [r[0], r[1], r[2], r[3], r[4], r[5], r[6], r[7]];
  }

  /** Table 28 ignores fields 2 and 3 (bytes 8 to 15) and everything past byte 40. */
  lemma Table28SkipsFieldsTwoAndThree(bs: seq<Byte>, bs': seq<Byte>)
    requires |bs| >= 40 && |bs| % 4 == 0
    requires |bs'| >= 40 && |bs'| % 4 == 0
    requires forall i :: 0 <= i < 8 || 16 <= i < 40 ==> bs[i] == bs'[i]
    ensures ParseInputBuffer(bs, 28) == ParseInputBuffer(bs', 28)
  {
    Table28Layout(bs);
    Table28Layout(bs');
    forall k | k in {0, 1, 4, 5, 6, 7, 8, 9} ensures WordAt(bs, k) == WordAt(bs', k) {
      assert bs[4 * k] == bs'[4 * k] && bs[4 * k + 1] == bs'[4 * k + 1];
      assert bs[4 * k + 2] == bs'[4 * k + 2] && bs[4 * k + 3] == bs'[4 * k + 3];
    }
  }

  /** On a buffer that unpacks as it is, each field is the unpacked integer. */
  lemma WordAtUnpack(bs: seq<Byte>, k: nat)
    requires |bs| % 4 == 0 && k < |bs| / 4
    ensures WordAt(bs, k) == Unpack(bs)[k]
  {
  }

  /** An 8-byte table 23 holding the integers [1000, 2000] decodes to 1.0 and 2.0. */
  lemma Table23Example(bs: seq<Byte>)
    requires |bs| == 8 && Unpack(bs) == [1000, 2000]
    ensures ParseInputBuffer(bs, 23).Success?
    ensures var r := ParseInputBuffer(bs, 23).value;
            && |r| == 2
            && r[0].key == "Fwd_kWh" && AsReal(r[0].value) == 1.0
            && r[1].key == "Rev_kWh" && AsReal(r[1].value) == 2.0
  {
    Table23Layout(bs);
    WordAtUnpack(bs, 0);
    WordAtUnpack(bs, 1);
  }

  /** A 40-byte table 28 holding [100, -50, 0, 0, 5000, 6000, 7000, 120000, 121000, 122000]. */
  lemma Table28Example(bs: seq<Byte>)
    requires |bs| == 40 && Unpack(bs) == [100, -50, 0, 0, 5000, 6000, 7000, 120000, 121000, 122000]
    ensures ParseInputBuffer(bs, 28).Success?
    ensures var r := ParseInputBuffer(bs, 28).value;
            && |r| == 8
            && r[0] == Sample("fwd_Now", Count(100)) && r[1] == Sample("rev_Now", Count(-50))
            && r[2] == Sample("L1_A", Thousandths(5000)) && r[3] == Sample("L2_A", Thousandths(6000))
            && r[4] == Sample("L3_A", Thousandths(7000)) && r[5] == Sample("L1_V", Thousandths(120000))
            && r[6] == Sample("L2_V", Thousandths(121000)) && r[7] == Sample("L3_V", Thousandths(122000))
            && AsReal(r[2].value) == 5.0 && AsReal(r[3].value) == 6.0 && AsReal(r[4].value) == 7.0
            && AsReal(r[5].value) == 120.0 && AsReal(r[6].value) == 121.0 && AsReal(r[7].value) == 122.0
  {
    Table28Layout(bs);
    forall k | 0 <= k < 10 ensures WordAt(bs, k) == Unpack(bs)[k] {
      WordAtUnpack(bs, k);
    }
  }

  /** A decoded dictionary never repeats a key, and is never empty. */
  lemma DecodedKeysDistinct(bs: seq<Byte>, tableId: int)
    requires ParseInputBuffer(bs, tableId).Success?
    ensures DistinctKeys(ParseInputBuffer(bs, tableId).value)
    ensures ParseInputBuffer(bs, tableId).value != []
  {
    if tableId == 23 {
      Table23Layout(bs);
    } else {
      Table28Layout(bs);
    }
  }

  /** The key sets: two for table 23, eight for table 28. */
  lemma DecodedKeys(bs: seq<Byte>, tableId: int)
    requires ParseInputBuffer(bs, tableId).Success?
    ensures tableId == 23 ==> Keys(ParseInputBuffer(bs, tableId).value) == {"Fwd_kWh", "Rev_kWh"}
    ensures tableId == 28 ==>
              Keys(ParseInputBuffer(bs, tableId).value) ==
                {"fwd_Now", "rev_Now", "L1_A", "L2_A", "L3_A", "L1_V", "L2_V", "L3_V"}
  {
    var r := ParseInputBuffer(bs, tableId).value;
    if tableId == 23 {
      Table23Layout(bs);
      assert r[0].key == "Fwd_kWh" && r[1].key == "Rev_kWh";
    } else {
      Table28Layout(bs);
      assert r[0].key == "fwd_Now" && r[1].key == "rev_Now";
      assert r[2].key == "L1_A" && r[3].key == "L2_A" && r[4].key == "L3_A";
      assert r[5].key == "L1_V" && r[6].key == "L2_V" && r[7].key == "L3_V";
    }
  }
}
