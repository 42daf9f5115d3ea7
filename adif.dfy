/**
 * ADI records: a sequence of data-specifiers `<NAME:LEN>DATA`, where LEN
 * is the decimal character length of DATA, ended by the end-of-record
 * tag `<eor>`. A decoder that reads each LEN and then takes exactly that
 * many characters recovers every field, whatever characters the values
 * hold.
 */
module Adif {
  import opened Wrappers

  // ------------------------------------------------------------ decimals

  predicate IsDigit(c: char)
  {
    '0' <= c <= '9'
  }

  predicate AllDigits(s: string)
  {
    forall i :: 0 <= i < |s| ==> IsDigit(s[i])
  }

  function DigitChar(d: nat): (c: char)
    requires d < 10
    ensures IsDigit(c)
  {
    ['0', '1', '2', '3', '4', '5', '6', '7', '8', '9'][d]
  }

  function DigitValue(c: char): (d: nat)
    requires IsDigit(c)
    ensures d < 10
  {
    (c as int - '0' as int) as nat
  }

  /** `str(n)` for a length: its decimal digits, without leading zeros. */
  function NatToDecimal(n: nat): (s: string)
    ensures |s| > 0 && AllDigits(s)
    ensures s[0] == '0' ==> n == 0 && s == "0"
    decreases n
  {
    if n < 10 then [DigitChar(n)] else NatToDecimal(n / 10) + [DigitChar(n % 10)]
  }

  /** The number a string of decimal digits denotes. */
  function DecimalValue(s: string): nat
    requires AllDigits(s)
    decreases |s|
  {
    if s == [] then 0 else DecimalValue(s[..|s| - 1]) * 10 + DigitValue(s[|s| - 1])
  }

  lemma DigitRoundTrip(d: nat)
    requires d < 10
    ensures DigitValue(DigitChar(d)) == d
  {
  }

  /** Reading back a written length gives the length. */
  lemma {:induction false} DecimalRoundTrip(n: nat)
    ensures DecimalValue(NatToDecimal(n)) == n
    decreases n
  {
    var s := NatToDecimal(n);
    if n < 10 {
      DigitRoundTrip(n);
      assert s[..|s| - 1] == [];
    } else {
      DecimalRoundTrip(n / 10);
      DigitRoundTrip(n % 10);
      assert s[..|s| - 1] == NatToDecimal(n / 10);
    }
  }

  // ------------------------------------------------------------- writing

  /** A field name the decoder can delimit: it holds neither `:` nor `>`. */
  predicate PlainName(name: string)
  {
    forall i :: 0 <= i < |name| ==> name[i] != ':' && name[i] != '>'
  }

  /** One data-specifier: `<` NAME `:` LEN `>` DATA. */
  function Field(name: string, value: string): string
  {
    "<" + name + ":" + NatToDecimal(|value|) + ">" + value
  }

  /** The data-specifiers of `fields`, in order. */
  function Specifiers(fields: seq<(string, string)>): string
  {
    if fields == [] then [] else Field(fields[0].0, fields[0].1) + Specifiers(fields[1..])
  }

  const EndOfRecord := "<eor>"

  /** A record: its data-specifiers followed by the end-of-record tag. */
  function Record(fields: seq<(string, string)>): string
  {
    Specifiers(fields) + EndOfRecord
  }

  /** String regrouping, stated apart so the round-trip proofs do not search for it. */
  lemma AppendAssoc(x: string, y: string, z: string)
    ensures (x + y) + z == x + (y + z)
  {
  }

  /** The data-specifiers of two field lists one after the other. */
  lemma {:induction false} SpecifiersAppend(a: seq<(string, string)>, b: seq<(string, string)>)
    ensures Specifiers(a + b) == Specifiers(a) + Specifiers(b)
    decreases |a|
  {
    if a == [] {
      assert a + b == b;
      assert Specifiers(a) + Specifiers(b) == Specifiers(b);
    } else {
      var ab := a + b;
      assert ab[0] == a[0] && ab[1..] == a[1..] + b;
      SpecifiersAppend(a[1..], b);
      AppendAssoc(Field(a[0].0, a[0].1), Specifiers(a[1..]), Specifiers(b));
    }
  }

  /** A record ends with exactly `<eor>`, and nothing of it follows the last field's data. */
  lemma RecordEnd(fields: seq<(string, string)>)
    ensures var r := Record(fields);
      |r| >= |EndOfRecord| && r[..|r| - |EndOfRecord|] == Specifiers(fields) && r[|r| - |EndOfRecord|..] == EndOfRecord
  {
  }

  // ------------------------------------------------------------- reading

  /** The index of the first character of `s` in `cs`, or `|s|` when there is none. */
  function FirstOf(s: string, cs: set<char>): (i: nat)
    ensures i <= |s|
    ensures i < |s| ==> s[i] in cs
    ensures forall k :: 0 <= k < i ==> s[k] !in cs
  {
    if s == [] then 0
    else if s[0] in cs then 0
    else 1 + FirstOf(s[1..], cs)
  }

  /** Puts a decoded field in front of the fields decoded after it. */
  function Prepend(field: (string, string), rest: Option<seq<(string, string)>>): (r: Option<seq<(string, string)>>)
    ensures r.Some? <==> rest.Some?
    ensures r.Some? ==> r.value == [field] + rest.value
  {
    match rest
    case None => None
    case Some(fields) => Some([field] + fields)
  }

  /**
   * The reference decoder. Input must start with `<`; the tag after it
   * is read by `DecodeTag`.
   */
  function DecodeRecord(s: string): (r: Option<seq<(string, string)>>)
    decreases |s|
  {
    if s == [] || s[0] != '<' then None else DecodeTag(s[1..])
  }

  /**
   * A tag runs to the first `:` or `>`. `eor>` must end the input; a tag
   * ended by `:` is a field name, whose length and data `DecodeData` reads.
   */
  function DecodeTag(rest: string): (r: Option<seq<(string, string)>>)
    decreases |rest|
  {
    var i := FirstOf(rest, {':', '>'});
    if i == |rest| then None
    else if rest[i] == '>' then
      if rest[..i] == "eor" && i + 1 == |rest| then Some([]) else None
    else DecodeData(rest[..i], rest[i + 1..])
  }

  /** LEN runs to the next `>`; exactly LEN characters of data follow it. */
  function DecodeData(name: string, after: string): (r: Option<seq<(string, string)>>)
    decreases |after|
  {
    var j := FirstOf(after, {'>'});
    if j == |after| || j == 0 || !AllDigits(after[..j]) then None
    else
      var len := DecimalValue(after[..j]);
      var data := after[j + 1..];
      if len > |data| then None
      else Prepend((name, data[..len]), DecodeRecord(data[len..]))
  }

  /** A delimiter search skips a prefix that holds none of the delimiters. */
  lemma {:induction false} FirstOfAfterPlain(a: string, b: string, cs: set<char>)
    requires forall k :: 0 <= k < |a| ==> a[k] !in cs
    requires |b| > 0 && b[0] in cs
    ensures FirstOf(a + b, cs) == |a|
    decreases |a|
  {
    if a == [] {
      assert a + b == b;
    } else {
      assert (a + b)[0] == a[0];
      assert (a + b)[1..] == a[1..] + b;
      FirstOfAfterPlain(a[1..], b, cs);
    }
  }

  /** A tag ended by `:` after a plain name is read as that field's name. */
  lemma DecodeTagName(name: string, after: string)
    requires PlainName(name)
    ensures DecodeTag(name + ":" + after) == DecodeData(name, after)
  {
    var rest := name + ":" + after;
    assert rest == name + (":" + after);
    FirstOfAfterPlain(name, ":" + after, {':', '>'});
    assert rest[..|name|] == name;
    assert rest[|name| + 1..] == after;
  }

  /** A written length, `>` and that many characters give the value, then the rest is decoded. */
  lemma DecodeDataValue(name: string, value: string, tail: string)
    ensures DecodeData(name, NatToDecimal(|value|) + ">" + value + tail) ==
            Prepend((name, value), DecodeRecord(tail))
  {
    var digits := NatToDecimal(|value|);
    var after := digits + ">" + value + tail;
    assert after == digits + (">" + value + tail);
    assert forall k :: 0 <= k < |digits| ==> digits[k] !in {'>'} by {
      forall k | 0 <= k < |digits| ensures digits[k] !in {'>'} {
        assert IsDigit(digits[k]);
      }
    }
    FirstOfAfterPlain(digits, ">" + value + tail, {'>'});
    assert after[..|digits|] == digits;
    DecimalRoundTrip(|value|);
    var data := after[|digits| + 1..];
    assert data == value + tail;
    assert data[..|value|] == value;
    assert data[|value|..] == tail;
  }

  /** Decoding one data-specifier in front of more input yields its name and value and the rest. */
  lemma DecodeField(name: string, value: string, tail: string)
    requires PlainName(name)
    ensures DecodeRecord(Field(name, value) + tail) == Prepend((name, value), DecodeRecord(tail))
  {
    var digits := NatToDecimal(|value|);
    var s := Field(name, value) + tail;
    var after := digits + ">" + value + tail;
    assert s == "<" + (name + ":" + after);
    assert s[1..] == name + ":" + after;
    DecodeTagName(name, after);
    DecodeDataValue(name, value, tail);
  }

  /** Decoding the end-of-record tag alone gives no fields. */
  lemma DecodeEnd()
    ensures DecodeRecord(EndOfRecord) == Some([])
  {
    var rest := EndOfRecord[1..];
    assert rest == "eor" + ">";
    FirstOfAfterPlain("eor", ">", {':', '>'});
    assert rest[..3] == "eor";
  }

  /**
   * The round trip: decoding a record recovers every (name, value) pair
   * in order, whenever no name holds `:` or `>`.
   */
  lemma {:induction false} RecordRoundTrip(fields: seq<(string, string)>)
    requires forall i :: 0 <= i < |fields| ==> PlainName(fields[i].0)
    ensures DecodeRecord(Record(fields)) == Some(fields)
  {
    if fields == [] {
      assert Record(fields) == EndOfRecord;
      DecodeEnd();
    } else {
      var f := fields[0];
      var head := Field(f.0, f.1);
      var tail := Record(fields[1..]);
      AppendAssoc(head, Specifiers(fields[1..]), EndOfRecord);
      RecordRoundTrip(fields[1..]);
      DecodeField(f.0, f.1, tail);
      assert [(f.0, f.1)] + fields[1..] == fields;
    }
  }

  /** Every data-specifier's length prefix is the length of the value that follows it. */
  lemma FieldLengthPrefix(name: string, value: string)
    ensures var f := Field(name, value);
      var digits := NatToDecimal(|value|);
      && f == "<" + name + ":" + digits + ">" + value
      && DecimalValue(digits) == |value|
  {
    DecimalRoundTrip(|value|);
  }
}
