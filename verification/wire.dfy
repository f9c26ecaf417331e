/** The text layer every frame of the protocol is built from: splitting a
    frame on ':', Python's int() on ASCII bytes, Python's decimal rendering of
    an int, and the float packing the program delegates to base64 and numpy.

    A frame is a `string` whose characters stand for the bytes on the wire. */
module Wire {
  import opened Wrappers

  /** The packing that is not part of this model, passed in as values:
      `pack` is base64 of little-endian float32s, `unpack` its inverse
      (failing on malformed text or a length that is not a multiple of four
      bytes), and `number` is Python's float() on a field. */
  datatype Codec = Codec(
    pack: seq<real> -> string,
    unpack: string -> Option<seq<real>>,
    number: string -> Option<real>)

  /** The base64 alphabet of section 4 of RFC 4648 has no ':', so a packed
      payload never contains the field separator. */
  ghost predicate PacksColonFree(codec: Codec) {
    forall xs :: ':' !in codec.pack(xs)
  }

  /** `.decode('ascii')` succeeds exactly on bytes below 128. */
  predicate IsAscii(s: string) {
    forall i :: 0 <= i < |s| ==> s[i] as int < 128
  }

  // ---------------------------------------------------------------------
  // Fields: bytes.split(b':')
  // ---------------------------------------------------------------------

  /** Fields joined back with ':' between them. */
  function Join(fields: seq<string>): string
    requires |fields| >= 1
    decreases |fields|
  {
    if |fields| == 1 then fields[0] else fields[0] + ":" + Join(fields[1..])
  }

  /** The fields of `s` between separators, as `s.split(b':')` returns them:
      never empty, no field holds a ':', and joining them restores `s`. */
  function Split(s: string): (fields: seq<string>)
    ensures |fields| >= 1
    ensures forall i :: 0 <= i < |fields| ==> ':' !in fields[i]
    ensures Join(fields) == s
    decreases |s|
  {
    if |s| == 0 then [""]
    else
      var rest := Split(s[1..]);
      if s[0] == ':' then
        assert ([""] + rest)[1..] == rest;
        [""] + rest
      else
        var fields := [[s[0]] + rest[0]] + rest[1..];
        assert fields[1..] == rest[1..];
        assert s == [s[0]] + s[1..];
        fields
  }

  /** A text without separators is a single field. */
  lemma {:induction false} SplitColonFree(a: string)
    requires ':' !in a
    ensures Split(a) == [a]
    decreases |a|
  {
    if |a| > 0 {
      SplitColonFree(a[1..]);
    }
  }

  /** A leading separator-free field is split off as the first field. */
  lemma {:induction false} SplitField(a: string, b: string)
    requires ':' !in a
    ensures Split(a + ":" + b) == [a] + Split(b)
    decreases |a|
  {
    if |a| == 0 {
      assert a + ":" + b == [':'] + b;
      assert (a + ":" + b)[1..] == b;
    } else {
      assert (a + ":" + b)[1..] == a[1..] + ":" + b;
      SplitField(a[1..], b);
      assert [a[0]] + a[1..] == a;
    }
  }

  /** Splitting undoes joining, for fields that hold no separator. */
  lemma {:induction false} SplitJoin(fields: seq<string>)
    requires |fields| >= 1
    requires forall i :: 0 <= i < |fields| ==> ':' !in fields[i]
    ensures Split(Join(fields)) == fields
    decreases |fields|
  {
    if |fields| == 1 {
      SplitColonFree(fields[0]);
    } else {
      SplitJoin(fields[1..]);
      SplitField(fields[0], Join(fields[1..]));
      assert [fields[0]] + fields[1..] == fields;
    }
  }

  /** Field `k` of `s`, or None where Python's `[k]` raises IndexError. */
  function Field(s: string, k: nat): (r: Option<string>)
    ensures r.Some? <==> k < |Split(s)|
    ensures r.Some? ==> ':' !in r.value
  {
    var fields := Split(s);
    if k < |fields| then Some(fields[k]) else None
  }

  // ---------------------------------------------------------------------
  // Integers: Python's int() and f'{n}'
  // ---------------------------------------------------------------------

  predicate IsDigit(c: char) {
    '0' <= c <= '9'
  }

  /** The whitespace int() strips from bytes: space, \t, \n, \v, \f, \r. */
  predicate IsSpace(c: char) {
    c == ' ' || '\t' <= c <= '\r'
  }

  predicate AllDigits(s: string) {
    forall i :: 0 <= i < |s| ==> IsDigit(s[i])
  }

  function TrimStart(s: string): string
    decreases |s|
  {
    if |s| > 0 && IsSpace(s[0]) then TrimStart(s[1..]) else s
  }

  function TrimEnd(s: string): string
    decreases |s|
  {
    if |s| > 0 && IsSpace(s[|s| - 1]) then TrimEnd(s[..|s| - 1]) else s
  }

  function DigitValue(c: char): nat
    requires IsDigit(c)
  {
    c as int - '0' as int
  }

  /** The number a run of decimal digits denotes (leading zeros allowed). */
  function DigitsValue(s: string): nat
    requires AllDigits(s)
    decreases |s|
  {
    if |s| == 0 then 0
    else 10 * DigitsValue(s[..|s| - 1]) + DigitValue(s[|s| - 1])
  }

  /** Digits with single underscores between them, as int() admits them. */
  predicate DigitGroups(s: string) {
    && |s| > 0
    && IsDigit(s[0])
    && IsDigit(s[|s| - 1])
    && (forall i :: 0 <= i < |s| ==> IsDigit(s[i]) || s[i] == '_')
    && (forall i :: 0 <= i < |s| - 1 ==> s[i] == '_' ==> s[i + 1] != '_')
  }

  /** The digits of a digit-group text, underscores dropped. */
  function DropUnderscores(s: string): (t: string)
    requires forall i :: 0 <= i < |s| ==> IsDigit(s[i]) || s[i] == '_'
    ensures AllDigits(t)
    ensures AllDigits(s) ==> t == s
    decreases |s|
  {
    if |s| == 0 then ""
    else if s[0] == '_' then DropUnderscores(s[1..])
    else [s[0]] + DropUnderscores(s[1..])
  }

  /** Python's int() on a field: surrounding whitespace, an optional sign
      and underscore-separated digit groups; None where int() raises
      ValueError. */
  function ParseInt(s: string): Option<int>
  {
    var t := TrimEnd(TrimStart(s));
    var signed := |t| > 0 && (t[0] == '+' || t[0] == '-');
    var body := if signed then t[1..] else t;
    if !DigitGroups(body) then None
    else
      var v: int := DigitsValue(DropUnderscores(body));
      Some(if signed && t[0] == '-' then -v else v)
  }

  /** The decimal digits of a natural number, most significant first, no
      leading zero; they denote the number itself. */
  function NatDecimal(n: nat): (s: string)
    ensures |s| > 0 && AllDigits(s)
    ensures DigitsValue(s) == n
    ensures |s| > 1 ==> s[0] != '0'
    decreases n
  {
    var last := ('0' as int + n % 10) as char;
    if n < 10 then [last]
    else
      var s := NatDecimal(n / 10) + [last];
      assert s[..|s| - 1] == NatDecimal(n / 10);
      s
  }

  /** f'{n}' for a Python int. */
  function Decimal(n: int): (s: string)
    ensures |s| > 0 && ':' !in s && IsAscii(s)
    ensures IsDigit(s[0]) || s[0] == '-'
    ensures IsDigit(s[|s| - 1])
  {
    var s := if n < 0 then "-" + NatDecimal(-n) else NatDecimal(n);
    assert forall i :: 0 <= i < |s| ==> IsDigit(s[i]) || s[i] == '-';
    s
  }

  lemma TrimIdle(s: string)
    requires |s| > 0 && !IsSpace(s[0]) && !IsSpace(s[|s| - 1])
    ensures TrimEnd(TrimStart(s)) == s
  {
  }

  /** int() reads back what f'{n}' wrote. */
  lemma {:induction false} ParseDecimal(n: int)
    ensures ParseInt(Decimal(n)) == Some(n)
  {
    var s := Decimal(n);
    TrimIdle(s);
    var digits := NatDecimal(if n < 0 then -n else n);
    if n < 0 {
      assert s[1..] == digits;
    } else {
      assert s == digits;
    }
    assert DigitGroups(digits);
  }

  /** int() of a field that is a plain digit run is its digit value. */
  lemma ParseDigits(s: string)
    requires |s| > 0 && AllDigits(s)
    ensures ParseInt(s) == Some(DigitsValue(s) as int)
  {
    TrimIdle(s);
  }
}
