/**
 * The JSON text the bounded writers produce, independent of which buffer holds it: keyed fields,
 * the comma rule between them, and a whole object `{f1,f2,...}` written into a buffer of a given
 * size. Keys and string values are inserted verbatim, without the escaping of section 7 of
 * RFC 8259.
 */
module JsonText {
  import opened Decimal
  import opened Hex
  import opened CStd
  import opened BoundedText

  /** `"key":`, the text every keyed writer starts its fragment with. */
  function KeyPrefix(key: string): (r: string)
    ensures |r| == |key| + 3 && r[0] == '"'
  {
    "\"" + key + "\":"
  }

  /** The element divider: a comma unless at most the opening brace is written. */
  function Divider(s: Sink): seq<string>
  {
    if |s.text| > 1 then [","] else []
  }

  /** One hex pair per byte, as `%02x` formats them. */
  function HexPairs(val: seq<byte>): (r: seq<string>)
    ensures |r| == |val|
  {
    seq(|val|, i requires 0 <= i < |val| => ByteToHex(val[i]))
  }

  /** The fragments of a `write_bytes` field, after the divider. */
  function BytesFrags(key: string, val: seq<byte>): seq<string>
  {
    [KeyPrefix(key) + "\""] + HexPairs(val) + ["\""]
  }

  /** A keyed write: the divider the state calls for, then the field's fragments. */
  function WriteField(s: Sink, field: seq<string>): Sink
  {
    PutAll(s, Divider(s) + field)
  }

  /** What a keyed write returns: the sum over its `snprintf` calls. */
  function FieldReturned(s: Sink, field: seq<string>): nat
  {
    ReturnedAll(s, Divider(s) + field)
  }

  /** Keyed writes in order. */
  function WriteFields(s: Sink, fields: seq<seq<string>>): Sink
  {
    if fields == [] then s else WriteField(WriteFields(s, fields[..|fields| - 1]), fields[|fields| - 1])
  }

  /** The sum of their return values, as a record writer accumulates it in `total`. */
  function FieldsReturned(s: Sink, fields: seq<seq<string>>): nat
  {
    if fields == [] then 0
    else FieldsReturned(s, fields[..|fields| - 1]) + FieldReturned(WriteFields(s, fields[..|fields| - 1]), fields[|fields| - 1])
  }

  /** The text of each field. */
  function Texts(fields: seq<seq<string>>): (r: seq<string>)
    ensures |r| == |fields|
  {
    seq(|fields|, i requires 0 <= i < |fields| => Concat(fields[i]))
  }

  predicate NonEmptyFields(fields: seq<seq<string>>)
  {
    forall i | 0 <= i < |fields| :: Concat(fields[i]) != []
  }

  /** Texts joined by commas. */
  function Joined(texts: seq<string>): string
  {
    if texts == [] then []
    else if |texts| == 1 then texts[0]
    else Joined(texts[..|texts| - 1]) + "," + texts[|texts| - 1]
  }

  /** The fragments of several fields with a comma fragment between consecutive fields. */
  function Flat(fields: seq<seq<string>>): seq<string>
  {
    if fields == [] then []
    else if |fields| == 1 then fields[0]
    else Flat(fields[..|fields| - 1]) + [","] + fields[|fields| - 1]
  }

  /** The complete object text: the fields between braces, separated by commas. */
  function ObjectText(fields: seq<seq<string>>): string
  {
    "{" + Joined(Texts(fields)) + "}"
  }

  /** A buffer of `len` bytes just initialised (`len - 1` bytes of room) with the opening brace written. */
  function Opened(len: nat): Sink
    requires len >= 1
  {
    Put(Sink([], len - 1, []), "{")
  }

  /** What an object writer leaves: opening brace, the keyed fields, closing brace. */
  function ObjectSink(len: nat, fields: seq<seq<string>>): Sink
    requires len >= 1
  {
    Put(WriteFields(Opened(len), fields), "}")
  }

  /** The hex pairs together are the lowercase hex rendering of the bytes. */
  lemma {:induction false} HexPairsConcat(val: seq<byte>)
    ensures Concat(HexPairs(val)) == BytesToHex(val)
  {
    if val != [] {
      var init := val[..|val| - 1];
      HexPairsConcat(init);
      assert HexPairs(val)[..|val| - 1] == HexPairs(init);
    }
  }

  /** `write_bytes` renders its value as `"key":"<two hex digits per byte>"`. */
  lemma BytesFragsText(key: string, val: seq<byte>)
    ensures Concat(BytesFrags(key, val)) == KeyPrefix(key) + "\"" + BytesToHex(val) + "\""
  {
    var open := KeyPrefix(key) + "\"";
    ConcatAppend([open] + HexPairs(val), ["\""]);
    ConcatAppend([open], HexPairs(val));
    HexPairsConcat(val);
    ConcatSingle(open);
    ConcatSingle("\"");
  }

  /**
   * A keyed write that fits appends the old text, a comma exactly when more than the opening
   * brace was written, and the field.
   */
  lemma FieldAppended(s: Sink, field: seq<string>)
    requires |Concat(Divider(s) + field)| < s.rem
    ensures WriteField(s, field).text == s.text + (if |s.text| > 1 then "," else "") + Concat(field)
    ensures FieldReturned(s, field) == |Concat(Divider(s) + field)|
  {
    PutAllFits(s, Divider(s) + field);
    ConcatAppend(Divider(s), field);
    ConcatSingle(",");
  }

  /** One more keyed write after several. */
  lemma WriteFieldsSnoc(s: Sink, fields: seq<seq<string>>, field: seq<string>)
    ensures WriteFields(s, fields + [field]) == WriteField(WriteFields(s, fields), field)
    ensures FieldsReturned(s, fields + [field]) == FieldsReturned(s, fields) + FieldReturned(WriteFields(s, fields), field)
  {
    assert (fields + [field])[..|fields|] == fields;
  }

  lemma {:induction false} WriteFieldsAppend(s: Sink, a: seq<seq<string>>, b: seq<seq<string>>)
    ensures WriteFields(s, a + b) == WriteFields(WriteFields(s, a), b)
    ensures FieldsReturned(s, a + b) == FieldsReturned(s, a) + FieldsReturned(WriteFields(s, a), b)
    decreases |b|
  {
    if b == [] {
      assert a + b == a;
    } else {
      WriteFieldsAppend(s, a, b[..|b| - 1]);
      assert (a + b)[..|a + b| - 1] == a + b[..|b| - 1];
    }
  }

  /** A full buffer ignores every keyed write. */
  lemma {:induction false} WriteFieldsLatched(s: Sink, fields: seq<seq<string>>)
    requires s.rem == 0
    ensures WriteFields(s, fields) == s && FieldsReturned(s, fields) == 0
  {
    if fields != [] {
      WriteFieldsLatched(s, fields[..|fields| - 1]);
      PutAllLatched(s, Divider(s) + fields[|fields| - 1]);
    }
  }

  lemma {:induction false} FlatText(fields: seq<seq<string>>)
    requires NonEmptyFields(fields)
    ensures Concat(Flat(fields)) == Joined(Texts(fields))
    ensures fields != [] ==> Concat(Flat(fields)) != []
  {
    if |fields| > 1 {
      var init := fields[..|fields| - 1];
      FlatText(init);
      assert Texts(fields)[..|fields| - 1] == Texts(init);
      ConcatAppend(Flat(init) + [","], fields[|fields| - 1]);
      ConcatAppend(Flat(init), [","]);
      ConcatSingle(",");
    } else if |fields| == 1 {
      assert Concat(fields[0]) != [];
    }
  }

  /**
   * Right after the opening brace the state-dependent dividers are exactly the commas between
   * fields: the keyed writes are the plain writes of the flattened fragments.
   */
  lemma {:induction false} WriteFieldsFlat(s: Sink, fields: seq<seq<string>>)
    requires |s.text| == 1 && s.spill == [] && NonEmptyFields(fields)
    ensures WriteFields(s, fields) == PutAll(s, Flat(fields))
    ensures FieldsReturned(s, fields) == ReturnedAll(s, Flat(fields))
  {
    if fields != [] {
      var init := fields[..|fields| - 1];
      WriteFieldsFlat(s, init);
      assert fields == init + [fields[|fields| - 1]];
      FlatStep(s, init, fields[|fields| - 1]);
    }
  }

  lemma FlatStep(s: Sink, init: seq<seq<string>>, last: seq<string>)
    requires |s.text| == 1 && s.spill == [] && NonEmptyFields(init + [last])
    requires WriteFields(s, init) == PutAll(s, Flat(init))
    requires FieldsReturned(s, init) == ReturnedAll(s, Flat(init))
    ensures WriteFields(s, init + [last]) == PutAll(s, Flat(init + [last]))
    ensures FieldsReturned(s, init + [last]) == ReturnedAll(s, Flat(init + [last]))
  {
    WriteFieldsSnoc(s, init, last);
    assert (init + [last])[..|init|] == init;
    if init == [] {
      assert Divider(s) + last == last;
    } else {
      NonEmptyFieldsFront(init, last);
      PutAllAppend(s, Flat(init), [","] + last);
      FlatSnoc(init, last);
      DividerAfterFields(s, init, last);
    }
  }

  lemma NonEmptyFieldsFront(init: seq<seq<string>>, last: seq<string>)
    requires NonEmptyFields(init + [last])
    ensures NonEmptyFields(init)
  {
    forall i | 0 <= i < |init| ensures Concat(init[i]) != [] {
      assert init[i] == (init + [last])[i];
    }
  }

  /** One more field is a comma and its fragments after the others. */
  lemma FlatSnoc(init: seq<seq<string>>, last: seq<string>)
    requires init != []
    ensures Flat(init + [last]) == Flat(init) + ([","] + last)
  {
    assert (init + [last])[..|init|] == init;
  }

  /** After at least one field the divider is a comma, or the buffer is full and it does not matter. */
  lemma DividerAfterFields(s: Sink, init: seq<seq<string>>, last: seq<string>)
    requires |s.text| == 1 && s.spill == [] && NonEmptyFields(init) && init != []
    ensures PutAll(PutAll(s, Flat(init)), Divider(PutAll(s, Flat(init))) + last) == PutAll(PutAll(s, Flat(init)), [","] + last)
    ensures ReturnedAll(PutAll(s, Flat(init)), Divider(PutAll(s, Flat(init))) + last) == ReturnedAll(PutAll(s, Flat(init)), [","] + last)
  {
    var mid := PutAll(s, Flat(init));
    if mid.rem == 0 {
      PutAllLatched(mid, Divider(mid) + last);
      PutAllLatched(mid, [","] + last);
    } else {
      PutAllWholeFragments(s, Flat(init));
      FlatText(init);
    }
  }

  /**
   * An object written into a buffer of `len` bytes: when its text leaves a byte to spare the buffer
   * holds exactly that text and the writes return its field part's length; otherwise the buffer
   * ends up full. Either way what the buffer shows is a prefix of the object text.
   */
  lemma ObjectRendering(len: nat, fields: seq<seq<string>>)
    requires len >= 2 && NonEmptyFields(fields)
    ensures var o := ObjectSink(len, fields);
      && (|ObjectText(fields)| < len - 1 ==>
            o.text == ObjectText(fields) && o.spill == [] && o.rem == len - 1 - |ObjectText(fields)|
            && FieldsReturned(Opened(len), fields) == |Joined(Texts(fields))|)
      && (|ObjectText(fields)| >= len - 1 ==> o.rem == 0)
      && o.text + o.spill <= ObjectText(fields)
  {
    var o := ObjectSink(len, fields);
    FlatText(fields);
    if Opened(len).rem == 0 {
      WriteFieldsLatched(Opened(len), fields);
      assert o == Opened(len) && o.text == [] && o.spill == [];
    } else {
      ObjectRenderingOpened(len, fields);
    }
  }

  /** With room after the opening brace, the object is the brace, the flattened fields and the closing brace in turn. */
  lemma ObjectAsPuts(len: nat, fields: seq<seq<string>>)
    requires len >= 2 && NonEmptyFields(fields) && Opened(len).rem > 0
    ensures var all := ["{"] + Flat(fields) + ["}"];
      ObjectSink(len, fields) == PutAll(Sink([], len - 1, []), all) && Concat(all) == ObjectText(fields)
  {
    var start := Sink([], len - 1, []);
    FlatText(fields);
    WriteFieldsFlat(Opened(len), fields);
    var all := ["{"] + Flat(fields) + ["}"];
    PutAllAppend(start, ["{"], Flat(fields));
    PutAllSnoc(start, ["{"] + Flat(fields), "}");
    PutAllSnoc(start, [], "{");
    ConcatAppend(["{"] + Flat(fields), ["}"]);
    ConcatAppend(["{"], Flat(fields));
    ConcatSingle("{");
    ConcatSingle("}");
  }

  lemma ObjectRenderingOpened(len: nat, fields: seq<seq<string>>)
    requires len >= 2 && NonEmptyFields(fields) && Opened(len).rem > 0
    ensures var o := ObjectSink(len, fields);
      && (|ObjectText(fields)| < len - 1 ==>
            o.text == ObjectText(fields) && o.spill == [] && o.rem == len - 1 - |ObjectText(fields)|
            && FieldsReturned(Opened(len), fields) == |Joined(Texts(fields))|)
      && (|ObjectText(fields)| >= len - 1 ==> o.rem == 0)
      && o.text + o.spill <= ObjectText(fields)
  {
    var start := Sink([], len - 1, []);
    var all := ["{"] + Flat(fields) + ["}"];
    ObjectAsPuts(len, fields);
    FlatText(fields);
    WriteFieldsFlat(Opened(len), fields);
    PutAllPrefix(start, all);
    if |ObjectText(fields)| < len - 1 {
      PutAllFits(start, all);
      PutAllFits(Opened(len), Flat(fields));
    } else {
      PutAllOverflows(start, all);
    }
  }

  lemma HexIsText(b: byte)
    ensures NoNul(ByteToHex(b))
  {
  }

  lemma NoNulConcat(a: string, b: string)
    requires NoNul(a) && NoNul(b)
    ensures NoNul(a + b)
  {
  }

  lemma DigitsNoNul(s: string)
    requires AllDigits(s)
    ensures NoNul(s)
  {
  }

  /** One more hex pair after the first `i`. */
  lemma HexPairsStep(s0: Sink, val: seq<byte>, i: nat)
    requires i < |val|
    ensures PutAll(s0, HexPairs(val[..i + 1])) == Put(PutAll(s0, HexPairs(val[..i])), ByteToHex(val[i]))
    ensures ReturnedAll(s0, HexPairs(val[..i + 1]))
      == ReturnedAll(s0, HexPairs(val[..i])) + Returned(PutAll(s0, HexPairs(val[..i])), ByteToHex(val[i]))
  {
    assert HexPairs(val[..i + 1]) == HexPairs(val[..i]) + [ByteToHex(val[i])];
    PutAllSnoc(s0, HexPairs(val[..i]), ByteToHex(val[i]));
  }

  /** The three stages of `write_bytes` (key, hex pairs, closing quote) make one keyed write. */
  lemma BytesSteps(key: string, val: seq<byte>, s0: Sink, s1: Sink, s2: Sink)
    requires s1 == WriteField(s0, [KeyPrefix(key) + "\""])
    requires s2 == PutAll(s1, HexPairs(val))
    ensures Put(s2, "\"") == WriteField(s0, BytesFrags(key, val))
    ensures FieldReturned(s0, [KeyPrefix(key) + "\""]) + ReturnedAll(s1, HexPairs(val)) + Returned(s2, "\"")
      == FieldReturned(s0, BytesFrags(key, val))
  {
    var open := Divider(s0) + [KeyPrefix(key) + "\""];
    PutAllAppend(s0, open, HexPairs(val));
    PutAllSnoc(s0, open + HexPairs(val), "\"");
    BytesFragsSplit(Divider(s0), key, val);
  }

  lemma BytesFragsSplit(divider: seq<string>, key: string, val: seq<byte>)
    ensures divider + BytesFrags(key, val) == divider + [KeyPrefix(key) + "\""] + HexPairs(val) + ["\""]
  {
  }

  /** A buffer with text (no NUL) at its start and a NUL right after it reads back as that text. */
  lemma {:induction false} CStringAt(buf: seq<char>, n: nat)
    requires n < |buf| && buf[n] == '\0' && NoNul(buf[..n])
    ensures CString(buf) == buf[..n]
  {
    if n > 0 {
      CStringAt(buf[1..], n - 1);
      assert buf[1..][..n - 1] == buf[..n][1..];
      assert buf[..n] == [buf[0]] + buf[1..][..n - 1];
    }
  }

  /**
   * The buffer's layout against what it holds: the committed text without NUL, then the spilled
   * fragment of an overflowing write, then a NUL; room left only while nothing has spilled.
   */
  predicate Layout(b: string, idx: nat, rem: nat, max: nat, k: Sink)
  {
    |b| == max + 1 && k.rem == rem && |k.text| == idx
    && (if rem == 0 && max > 0 then idx + |k.spill| + 1 == max
        else idx + rem == max && k.spill == [])
    && b[..idx] == k.text && NoNul(k.text) && NoNul(k.spill)
    && b[idx..idx + |k.spill|] == k.spill
    && (max > 0 ==> b[idx + |k.spill|] == '\0')
  }

  /**
   * `vsnprintf(&dst[at], room, ...)` with the formatted fragment: at most `room - 1` characters
   * and a NUL are written; the full formatted length is returned.
   */
  method Vsnprintf(dst: array<char>, at: nat, room: nat, frag: string) returns (n: nat, k: nat)
    requires 0 < room && at + room <= dst.Length
    modifies dst
    ensures n == |frag| && k == (if |frag| < room then |frag| else room - 1)
    ensures dst[..at] == old(dst[..at]) && dst[at..at + k] == frag[..k] && dst[at + k] == '\0'
  {
    k := if |frag| < room then |frag| else room - 1;
    forall j | 0 <= j < k {
      dst[at + j] := frag[j];
    }
    dst[at + k] := '\0';
    n := |frag|;
  }
}
