/** The string codecs `PersistentValue` uses to keep arrays in a
    `SharedPreferences` string, and the key it files a value under.  Java's
    `String.trim`, `String.split`, `Long.toString`, `Long.parseLong`,
    `Integer.parseInt` and `Boolean.parseBoolean` are written out here with
    the behaviour the codecs rely on. */
module PersistentValue {
  import opened Common

  // ------------------------------------------------------------- strings

  /** Every character is one `String.trim` removes (code point at most
      U+0020). */
  predicate Blank(s: string) {
    forall i :: 0 <= i < |s| ==> s[i] <= ' '
  }

  function TrimStart(s: string): (r: string)
    ensures |r| <= |s| && r == s[|s| - |r|..]
    ensures r == [] <==> Blank(s)
    ensures r != [] ==> r[0] > ' '
  {
    if |s| > 0 && s[0] <= ' ' then TrimStart(s[1..]) else s
  }

  function TrimEnd(s: string): (r: string)
    ensures |r| <= |s| && r == s[..|r|]
    ensures r == [] <==> Blank(s)
    ensures r != [] ==> r[|r| - 1] > ' '
  {
    if |s| > 0 && s[|s| - 1] <= ' ' then TrimEnd(s[..|s| - 1]) else s
  }

  /** `String.trim()`: the string without its leading and trailing
      characters up to U+0020; empty exactly for a blank string. */
  function Trim(s: string): (r: string)
    ensures |r| == 0 <==> Blank(s)
    ensures r != [] ==> r[0] > ' ' && r[|r| - 1] > ' '
  {
    TrimEnd(TrimStart(s))
  }

  /** The parts joined with one separator between neighbours: what the index
      loop of every `toStringSet` appends to its `StringBuilder`. */
  function Join(parts: seq<string>, sep: char): (r: string)
    ensures parts == [] ==> r == []
    ensures |parts| == 1 ==> r == parts[0]
    ensures parts != [] && parts[0] != [] ==> r != [] && r[0] == parts[0][0]
    ensures parts != [] ==> |r| >= |parts[|parts| - 1]| && r[|r| - |parts[|parts| - 1]|..] == parts[|parts| - 1]
  {
    if |parts| == 0 then []
    else if |parts| == 1 then parts[0]
    else Join(parts[..|parts| - 1], sep) + [sep] + parts[|parts| - 1]
  }

  /** Every field between separators, empty ones included. */
  function SplitAll(s: string, sep: char): (r: seq<string>)
    ensures |r| >= 1
  {
    if |s| == 0 then [[]]
    else
      var rest := SplitAll(s[1..], sep);
      if s[0] == sep then [[]] + rest else [[s[0]] + rest[0]] + rest[1..]
  }

  function DropTrailingEmpty(fields: seq<string>): (r: seq<string>)
    ensures |r| <= |fields| && r == fields[..|r|]
    ensures r != [] ==> r[|r| - 1] != []
  {
    if fields != [] && fields[|fields| - 1] == [] then DropTrailingEmpty(fields[..|fields| - 1]) else fields
  }

  /** `String.split(sep)` on a one-character literal pattern: a string
      without the separator is its only field; otherwise the fields, with
      the trailing empty ones removed. */
  function JavaSplit(s: string, sep: char): (r: seq<string>)
    ensures sep !in s ==> r == [s]
  {
    if sep !in s then [s] else DropTrailingEmpty(SplitAll(s, sep))
  }

  /** The fields a decoder goes through: none for a blank string
      (`value.trim().length() == 0`), otherwise `value.split(sep)`. */
  function Fields(value: string, sep: char): (r: seq<string>)
    ensures Blank(value) ==> r == []
    ensures !Blank(value) ==> r == JavaSplit(value, sep)
  {
    if |Trim(value)| == 0 then [] else JavaSplit(value, sep)
  }

  // ------------------------------------------------------------- numbers

  function DigitChar(d: nat): (c: char)
    requires d < 10
    ensures '0' <= c <= '9'
  {
    (48 + d) as char
  }

  /** The decimal digits of n, most significant first, without leading
      zeros. */
  function Digits(n: nat): (r: string)
    ensures |r| >= 1 && forall i :: 0 <= i < |r| ==> '0' <= r[i] <= '9'
  {
    (if n < 10 then [] else Digits(n / 10)) + [DigitChar(n % 10)]
  }

  /** `Long.toString(n)` / `Integer.toString(n)`, which is what
      `StringBuilder.append` writes for a `long` or an `int`. */
  function Decimal(n: int): (r: string)
    ensures |r| >= 1 && r[|r| - 1] > ' '
    ensures forall i :: 0 <= i < |r| ==> r[i] == '-' || '0' <= r[i] <= '9'
  {
    if n < 0 then "-" + Digits(-n) else Digits(n)
  }

  predicate AllDigits(s: string) {
    forall i :: 0 <= i < |s| ==> '0' <= s[i] <= '9'
  }

  function DigitsValue(s: string): nat
    requires AllDigits(s)
  {
    if |s| == 0 then 0 else DigitsValue(s[..|s| - 1]) * 10 + (s[|s| - 1] as int - 48)
  }

  /** The value of an optional `-` or `+` followed by at least one decimal
      digit; nothing for any other string. */
  function DecimalValue(s: string): (r: Option<int>)
    ensures s == [] ==> r.None?
    ensures s != [] && s[0] != '-' && s[0] != '+' && !AllDigits(s) ==> r.None?
  {
    if |s| == 0 then None
    else
      var digits := if s[0] == '-' || s[0] == '+' then s[1..] else s;
      if |digits| == 0 || !AllDigits(digits) then None
      else
        var v: int := DigitsValue(digits);
        Some(if s[0] == '-' then -v else v)
  }

  /** `Long.parseLong(s)` (lo, hi the `long` range) and `Integer.parseInt(s)`
      (the `int` range): a decimal whose value is in range, or
      `NumberFormatException`. */
  function ParseInteger(s: string, lo: int, hi: int): (r: Result<int>)
    ensures r.Ok? <==> DecimalValue(s).Some? && lo <= DecimalValue(s).value <= hi
    ensures r.Ok? ==> r.value == DecimalValue(s).value
    ensures r.Err? ==> r.error == NumberFormat
  {
    match DecimalValue(s)
    case Some(n) => if lo <= n <= hi then Ok(n) else Err(NumberFormat)
    case None => Err(NumberFormat)
  }

  function ParseLong(s: string): (r: Result<Int64>)
    ensures r.Err? ==> r.error == NumberFormat
  {
    match ParseInteger(s, LONG_MIN, LONG_MAX)
    case Ok(n) => Ok(n as Int64)
    case Err(e) => Err(e)
  }

  function ParseInt(s: string): (r: Result<Int32>)
    ensures r.Err? ==> r.error == NumberFormat
  {
    match ParseInteger(s, INT_MIN, INT_MAX)
    case Ok(n) => Ok(n as Int32)
    case Err(e) => Err(e)
  }

  function LongText(x: Int64): string {
    Decimal(x as int)
  }

  function IntText(x: Int32): string {
    Decimal(x as int)
  }

  // ------------------------------------------------------------ booleans

  function LowerAscii(c: char): char {
    if 'A' <= c <= 'Z' then (c as int + 32) as char else c
  }

  /** `Boolean.parseBoolean(s)`: `"true"` in any mix of case; anything
      else is false. */
  function ParseBoolean(s: string): (b: bool)
    ensures b ==> |s| == 4
  {
    |s| == 4 && LowerAscii(s[0]) == 't' && LowerAscii(s[1]) == 'r' && LowerAscii(s[2]) == 'u' && LowerAscii(s[3]) == 'e'
  }

  /** What `StringBuilder.append(boolean)` writes */
  function BooleanText(b: bool): string {
    if b then "true" else "false"
  }

  function BooleanField(s: string): Result<bool> {
    Ok(ParseBoolean(s))
  }

  function StringField(s: string): Result<string> {
    Ok(s)
  }

  // ---------------------------------------------------- codec definitions

  /** Each element's text */
  function Shown<T>(xs: seq<T>, show: T -> string): (r: seq<string>)
    ensures |r| == |xs| && forall i :: 0 <= i < |xs| ==> r[i] == show(xs[i])
  {
    seq(|xs|, i requires 0 <= i < |xs| => show(xs[i]))
  }

  /** The decoder loop: each field parsed in order; the first field that
      does not parse ends it with that field's exception. */
  function ParseEach<T>(fields: seq<string>, parse: string -> Result<T>): (r: Result<seq<T>>)
    ensures r.Ok? ==> |r.value| == |fields| && forall i :: 0 <= i < |fields| ==> parse(fields[i]) == Ok(r.value[i])
    ensures r.Err? ==> exists i :: 0 <= i < |fields| && parse(fields[i]) == Err(r.error)
    ensures (forall i :: 0 <= i < |fields| ==> parse(fields[i]).Ok?) ==> r.Ok?
  {
    if |fields| == 0 then Ok([])
    else
      match ParseEach(fields[..|fields| - 1], parse)
      case Err(e) => Err(e)
      case Ok(xs) =>
        match parse(fields[|fields| - 1])
        case Err(e) => Err(e)
        case Ok(x) => Ok(xs + [x])
  }

  /** A decoder: no elements for a blank string, else one per field. */
  function Decode<T>(value: string, sep: char, parse: string -> Result<T>): (r: Result<seq<T>>)
  {
    ParseEach(Fields(value, sep), parse)
  }

  /** `toStringSet(long[])` */
  function LongsText(a: seq<Int64>): string {
    Join(Shown(a, LongText), '\n')
  }

  /** `toStringSet(int[])` */
  function IntegersText(a: seq<Int32>): string {
    Join(Shown(a, IntText), '\n')
  }

  /** `toStringSet(boolean[])` */
  function BooleansText(a: seq<bool>): string {
    Join(Shown(a, BooleanText), '\n')
  }

  /** `toStringSet(String[])` as written: joined with `,` */
  function StringsTextAsWritten(a: seq<string>): string {
    Join(a, ',')
  }

  /** `toStringSet(String[])` with the separator its decoder splits on */
  function StringsText(a: seq<string>): string {
    Join(a, '\n')
  }

  /** `toLongArray` */
  function LongsOf(value: string): Result<seq<Int64>> {
    Decode(value, '\n', ParseLong)
  }

  /** `toIntegerArray` */
  function IntegersOf(value: string): Result<seq<Int32>> {
    Decode(value, '\n', ParseInt)
  }

  /** `toStringArray` */
  function StringsOf(value: string): seq<string> {
    Fields(value, '\n')
  }

  /** `toBooleanArray` as written: splits on `,` */
  function BooleansOfAsWritten(value: string): seq<bool> {
    Decode(value, ',', BooleanField).value
  }

  /** `toBooleanArray` with the separator its encoder joins with */
  function BooleansOf(value: string): seq<bool> {
    Decode(value, '\n', BooleanField).value
  }

  // ------------------------------------------------------------- lemmas

  lemma SplitAllWithoutSeparator(s: string, sep: char)
    requires sep !in s
    ensures SplitAll(s, sep) == [s]
  {
    if |s| > 0 {
      SplitAllWithoutSeparator(s[1..], sep);
      assert [s[0]] + s[1..] == s;
    }
  }

  lemma {:induction false} SplitAllSnoc(x: string, sep: char, p: string)
    requires sep !in p
    ensures SplitAll(x + [sep] + p, sep) == SplitAll(x, sep) + [p]
  {
    if |x| == 0 {
      assert x + [sep] + p == [sep] + p;
      assert ([sep] + p)[1..] == p;
      SplitAllWithoutSeparator(p, sep);
    } else {
      assert (x + [sep] + p)[1..] == x[1..] + [sep] + p;
      SplitAllSnoc(x[1..], sep, p);
    }
  }

  /** Splitting undoes joining, empty fields included, when no part holds
      the separator. */
  lemma {:induction false} SplitAllJoin(parts: seq<string>, sep: char)
    requires parts != []
    requires forall i :: 0 <= i < |parts| ==> sep !in parts[i]
    ensures SplitAll(Join(parts, sep), sep) == parts
  {
    if |parts| == 1 {
      SplitAllWithoutSeparator(parts[0], sep);
    } else {
      var init := parts[..|parts| - 1];
      SplitAllJoin(init, sep);
      SplitAllSnoc(Join(init, sep), sep, parts[|parts| - 1]);
      assert init + [parts[|parts| - 1]] == parts;
    }
  }

  /** A decoder's fields are the encoder's parts when no part holds the
      separator and the last part is not blank (so that neither the
      blank check nor the removal of trailing empty fields drops anything). */
  lemma FieldsOfJoin(parts: seq<string>, sep: char)
    requires forall i :: 0 <= i < |parts| ==> sep !in parts[i]
    requires parts != [] ==> !Blank(parts[|parts| - 1])
    ensures Fields(Join(parts, sep), sep) == parts
  {
    if parts != [] {
      var s := Join(parts, sep);
      JoinNotBlank(parts, sep);
      SplitAllJoin(parts, sep);
      if sep in s {
        assert DropTrailingEmpty(parts) == parts;
      } else {
        SplitAllWithoutSeparator(s, sep);
      }
    }
  }

  lemma {:induction false} ParseEachShown<T>(xs: seq<T>, show: T -> string, parse: string -> Result<T>)
    requires forall i :: 0 <= i < |xs| ==> parse(show(xs[i])) == Ok(xs[i])
    ensures ParseEach(Shown(xs, show), parse) == Ok(xs)
  {
    if |xs| > 0 {
      var init := xs[..|xs| - 1];
      assert Shown(xs, show)[..|xs| - 1] == Shown(init, show);
      ParseEachShown(init, show, parse);
      assert init + [xs[|xs| - 1]] == xs;
    }
  }

  /** Decoding what the matching encoder wrote gives the elements back, when
      every element's text parses to the element, contains no separator and
      the last one is not blank. */
  lemma DecodeEncode<T>(xs: seq<T>, sep: char, show: T -> string, parse: string -> Result<T>)
    requires forall i :: 0 <= i < |xs| ==> sep !in show(xs[i]) && parse(show(xs[i])) == Ok(xs[i])
    requires xs != [] ==> !Blank(show(xs[|xs| - 1]))
    ensures Decode(Join(Shown(xs, show), sep), sep, parse) == Ok(xs)
  {
    FieldsOfJoin(Shown(xs, show), sep);
    ParseEachShown(xs, show, parse);
  }

  lemma {:induction false} DigitsValueOfDigits(n: nat)
    ensures DigitsValue(Digits(n)) == n
  {
    var d := Digits(n);
    if n >= 10 {
      DigitsValueOfDigits(n / 10);
      assert d[..|d| - 1] == Digits(n / 10);
    } else {
      assert d[..|d| - 1] == [];
    }
  }

  lemma DecimalValueOfDigits(d: string)
    requires |d| >= 1 && AllDigits(d)
    ensures DecimalValue(d) == Some(DigitsValue(d) as int)
    ensures DecimalValue("-" + d) == Some(-(DigitsValue(d) as int))
  {
    assert ("-" + d)[1..] == d;
  }

  /** A decimal written by `toString` is read back with its value. */
  lemma DecimalValueOfDecimal(n: int)
    ensures DecimalValue(Decimal(n)) == Some(n)
  {
    var d := Digits(if n < 0 then -n else n);
    DigitsValueOfDigits(if n < 0 then -n else n);
    DecimalValueOfDigits(d);
  }

  /** `parseLong`/`parseInt` read back what `toString` wrote, for every
      value in range. */
  lemma ParseDecimal(n: int, lo: int, hi: int)
    requires lo <= n <= hi
    ensures ParseInteger(Decimal(n), lo, hi) == Ok(n)
  {
    DecimalValueOfDecimal(n);
  }

  /** `toStringSet(long[])` writes the decimal elements joined by a newline:
      nothing for no elements, no leading or trailing separator otherwise. */
  lemma LongsTextShape(a: seq<Int64>)
    ensures a == [] ==> LongsText(a) == ""
    ensures a != [] ==> var s := LongsText(a); |s| > 0 && s[0] != '\n' && s[|s| - 1] != '\n'
    ensures |a| == 1 ==> LongsText(a) == Decimal(a[0] as int)
  {
  }

  /** `toStringSet(int[])`, likewise */
  lemma IntegersTextShape(a: seq<Int32>)
    ensures a == [] ==> IntegersText(a) == ""
    ensures a != [] ==> var s := IntegersText(a); |s| > 0 && s[0] != '\n' && s[|s| - 1] != '\n'
    ensures |a| == 1 ==> IntegersText(a) == Decimal(a[0] as int)
  {
  }

  /** `toLongArray(toStringSet(a)) == a` for every `long[]` a. */
  lemma LongsRoundTrip(a: seq<Int64>)
    ensures LongsOf(LongsText(a)) == Ok(a)
  {
    forall i | 0 <= i < |a|
      ensures '\n' !in LongText(a[i]) && ParseLong(LongText(a[i])) == Ok(a[i])
    {
      ParseDecimal(a[i] as int, LONG_MIN, LONG_MAX);
    }
    DecodeEncode(a, '\n', LongText, ParseLong);
  }

  /** `toIntegerArray(toStringSet(a)) == a` for every `int[]` a. */
  lemma IntegersRoundTrip(a: seq<Int32>)
    ensures IntegersOf(IntegersText(a)) == Ok(a)
  {
    forall i | 0 <= i < |a|
      ensures '\n' !in IntText(a[i]) && ParseInt(IntText(a[i])) == Ok(a[i])
    {
      ParseDecimal(a[i] as int, INT_MIN, INT_MAX);
    }
    DecodeEncode(a, '\n', IntText, ParseInt);
  }

  /** Every decoder gives no elements for blank input. */
  lemma BlankDecodesEmpty(value: string)
    requires Blank(value)
    ensures LongsOf(value) == Ok([]) && IntegersOf(value) == Ok([])
    ensures StringsOf(value) == [] && BooleansOfAsWritten(value) == [] && BooleansOf(value) == []
  {
  }

  /** For other input a decoder that succeeds gives one element per field
      of `split`. */
  lemma DecodedLengthIsFieldCount(value: string)
    requires !Blank(value)
    ensures LongsOf(value).Ok? ==> |LongsOf(value).value| == |JavaSplit(value, '\n')|
    ensures IntegersOf(value).Ok? ==> |IntegersOf(value).value| == |JavaSplit(value, '\n')|
    ensures |StringsOf(value)| == |JavaSplit(value, '\n')|
    ensures |BooleansOfAsWritten(value)| == |JavaSplit(value, ',')|
  {
  }

  /** A field that is not a decimal `long` makes `toLongArray` throw
      `NumberFormatException`, and only such a field does. */
  lemma LongsOfRejectsBadField(value: string)
    ensures LongsOf(value).Err? <==> exists i :: 0 <= i < |Fields(value, '\n')| && ParseLong(Fields(value, '\n')[i]).Err?
    ensures LongsOf(value).Err? ==> LongsOf(value).error == NumberFormat
  {
  }

  /** The same for `toIntegerArray` and the `int` range. */
  lemma IntegersOfRejectsBadField(value: string)
    ensures IntegersOf(value).Err? <==> exists i :: 0 <= i < |Fields(value, '\n')| && ParseInt(Fields(value, '\n')[i]).Err?
    ensures IntegersOf(value).Err? ==> IntegersOf(value).error == NumberFormat
  {
  }

  /** A `long` outside the `int` range is read by `parseLong` and refused
      by `parseInt`. */
  lemma IntOverflowIsRejected(n: Int64)
    requires !(INT_MIN <= n as int <= INT_MAX)
    ensures ParseInt(LongText(n)).Err?
    ensures ParseLong(LongText(n)) == Ok(n)
  {
    DecimalValueOfDecimal(n as int);
  }

  // ----------------------------------------- separator mismatch (as written)

  lemma {:induction false} JoinAvoids(parts: seq<string>, sep: char, c: char)
    requires c != sep
    requires forall i :: 0 <= i < |parts| ==> c !in parts[i]
    ensures c !in Join(parts, sep)
  {
    if |parts| > 1 {
      JoinAvoids(parts[..|parts| - 1], sep, c);
    }
  }

  lemma {:induction false} JoinLength(parts: seq<string>, sep: char)
    requires |parts| >= 2
    ensures |Join(parts, sep)| >= |parts[0]| + 1 + |parts[|parts| - 1]|
  {
    if |parts| > 2 {
      JoinLength(parts[..|parts| - 1], sep);
    }
  }

  /** A non-blank text without the separator is one field. */
  lemma OneField<T>(s: string, sep: char, parse: string -> Result<T>)
    requires sep !in s && !Blank(s)
    ensures Fields(s, sep) == [s]
    ensures parse(s).Ok? ==> Decode(s, sep, parse) == Ok([parse(s).value])
  {
    var fields: seq<string> := [s];
    assert fields[..0] == [];
    if parse(s).Ok? {
      assert ParseEach(fields, parse) == Ok([] + [parse(s).value]);
      assert [] + [parse(s).value] == [parse(s).value];
    }
  }

  lemma BooleanTextFacts(b: bool)
    ensures var t := BooleanText(b); ',' !in t && '\n' !in t && |t| >= 4 && t[0] > ' '
  {
  }

  /** The text ends with its last part, so a last part that is not blank
      makes the text not blank. */
  lemma JoinNotBlank(parts: seq<string>, sep: char)
    requires parts != [] && !Blank(parts[|parts| - 1])
    ensures !Blank(Join(parts, sep))
  {
    var s, last := Join(parts, sep), parts[|parts| - 1];
    var k :| 0 <= k < |last| && last[k] > ' ';
    assert s[|s| - |last| + k] == last[k];
  }

  lemma BooleansTextOfTwoOrMore(a: seq<bool>)
    requires |a| >= 2
    ensures var s := BooleansText(a); ',' !in s && !Blank(s) && |s| >= 9
  {
    var parts := Shown(a, BooleanText);
    forall i | 0 <= i < |parts|
      ensures ',' !in parts[i] && |parts[i]| >= 4 && parts[i][0] > ' '
    {
      BooleanTextFacts(a[i]);
    }
    JoinAvoids(parts, '\n', ',');
    JoinLength(parts, '\n');
    JoinNotBlank(parts, '\n');
  }

  /** As written, `toBooleanArray(toStringSet(a))` for two or more elements
      is a single `false`: the newline-joined text has no comma, so it is
      one field, and that field is not `"true"`. */
  lemma BooleansRoundTripFailsAsWritten(a: seq<bool>)
    requires |a| >= 2
    ensures BooleansOfAsWritten(BooleansText(a)) == [false]
  {
    var s := BooleansText(a);
    BooleansTextOfTwoOrMore(a);
    OneField(s, ',', BooleanField);
  }

  /** The smallest instance: `{true, false}` comes back as `{false}`. */
  lemma BooleansExample()
    ensures BooleansText([true, false]) == "true\nfalse"
    ensures BooleansOfAsWritten("true\nfalse") == [false]
  {
    var parts: seq<string> := ["true", "false"];
    assert Shown([true, false], BooleanText) == parts;
    assert parts[..1] == ["true"];
    assert Join(parts, '\n') == "true" + ['\n'] + "false" == "true\nfalse";
    BooleansRoundTripFailsAsWritten([true, false]);
  }

  /** As written, `toStringArray(toStringSet(a))` for two or more elements
      without a newline, the last one not blank, is the single comma-joined
      string. */
  lemma StringsRoundTripFailsAsWritten(a: seq<string>)
    requires |a| >= 2
    requires forall i :: 0 <= i < |a| ==> '\n' !in a[i]
    requires !Blank(a[|a| - 1])
    ensures StringsOf(StringsTextAsWritten(a)) == [Join(a, ',')]
    ensures StringsOf(StringsTextAsWritten(a)) != a
  {
    JoinAvoids(a, ',', '\n');
    JoinNotBlank(a, ',');
    JoinLength(a, ',');
  }

  /** The smallest instance: `{"a", "b"}` comes back as `{"a,b"}`. */
  lemma StringsExample()
    ensures StringsOf(StringsTextAsWritten(["a", "b"])) == ["a,b"]
  {
    var a: seq<string> := ["a", "b"];
    var t := "a,b";
    assert a[..1] == ["a"];
    assert Join(a, ',') == "a" + [','] + "b" == t;
    assert t[0] > ' ' && '\n' !in t;
    OneField(t, '\n', StringField);
  }

  // ------------------------------------------- separator agreed (corrected)

  /** With the decoder splitting on the newline the encoder writes, every
      `boolean[]` comes back. */
  lemma BooleansRoundTrip(a: seq<bool>)
    ensures BooleansOf(BooleansText(a)) == a
  {
    forall i | 0 <= i < |a|
      ensures '\n' !in BooleanText(a[i]) && BooleanField(BooleanText(a[i])) == Ok(a[i])
    {
    }
    if a != [] {
      assert BooleanText(a[|a| - 1])[0] > ' ';
    }
    DecodeEncode(a, '\n', BooleanText, BooleanField);
  }

  /** With the encoder joining on the newline the decoder splits on, a
      `String[]` comes back when no element holds a newline and the last one
      is not blank (a blank or empty last element is dropped by `trim` or by
      `split`). */
  lemma StringsRoundTrip(a: seq<string>)
    requires forall i :: 0 <= i < |a| ==> '\n' !in a[i]
    requires a != [] ==> !Blank(a[|a| - 1])
    ensures StringsOf(StringsText(a)) == a
  {
    FieldsOfJoin(a, '\n');
  }

  // -------------------------------------------------------------- getKey

  /** The parts of a `Class` that `getKey` reads */
  datatype JavaClass = JavaClass(packageName: string)

  /** `getKey(claz, name)`, and `getKey(context, name)` with the context's
      class: the package name immediately followed by the name. */
  function GetKey(claz: JavaClass, name: string): (r: string)
    ensures |r| == |claz.packageName| + |name|
    ensures r[..|claz.packageName|] == claz.packageName && r[|claz.packageName|..] == name
  {
    claz.packageName + name
  }

  /** Within one package the key determines the name. */
  lemma KeyDeterminesName(claz: JavaClass, n1: string, n2: string)
    requires GetKey(claz, n1) == GetKey(claz, n2)
    ensures n1 == n2
  {
    assert n1 == GetKey(claz, n1)[|claz.packageName|..];
  }

  /** With no separator, a value in another package can share a key:
      `com.foo` with `bar` and `com.fo` with `obar` both give
      `com.foobar`. */
  lemma KeysOfDifferentPackagesCanCollide()
    ensures GetKey(JavaClass("com.foo"), "bar") == GetKey(JavaClass("com.fo"), "obar")
  {
  }

  // -------------------------------------------------------------- methods

  /** The loop of every `toStringSet`: append each element's text, and the
      separator after every element but the last. */
  method AppendJoined<T>(value: array<T>, show: T -> string, sep: char) returns (s: string)
    ensures s == Join(Shown(value[..], show), sep)
  {
    s := "";
    var i := 0;
    while i < value.Length
      invariant 0 <= i <= value.Length
      invariant i == 0 ==> s == ""
      invariant 0 < i ==> s == Join(Shown(value[..i], show), sep) + (if i < value.Length then [sep] else [])
    {
      ghost var before := Shown(value[..i], show);
      s := s + show(value[i]);
      assert Shown(value[..i + 1], show) == before + [show(value[i])];
      assert Shown(value[..i + 1], show)[..i] == before;
      if i < value.Length - 1 {
        s := s + [sep];
      }
      i := i + 1;
    }
    assert value[..i] == value[..];
  }

  /** One more field parsed by the decoder loop */
  lemma ParseEachStep<T>(fields: seq<string>, i: nat, parse: string -> Result<T>)
    requires i < |fields| && ParseEach(fields[..i], parse).Ok?
    ensures parse(fields[i]).Ok? ==> ParseEach(fields[..i + 1], parse) == Ok(ParseEach(fields[..i], parse).value + [parse(fields[i]).value])
    ensures parse(fields[i]).Err? ==> ParseEach(fields, parse) == Err(parse(fields[i]).error)
  {
    assert fields[..i + 1][..i] == fields[..i];
    if parse(fields[i]).Err? {
      ParseEachKeepsError(fields, i + 1, parse);
    }
  }

  /** Once a prefix of the fields fails, the whole decoding fails with the
      same exception. */
  lemma {:induction false} ParseEachKeepsError<T>(fields: seq<string>, j: nat, parse: string -> Result<T>)
    requires j <= |fields| && ParseEach(fields[..j], parse).Err?
    ensures ParseEach(fields, parse) == ParseEach(fields[..j], parse)
    decreases |fields|
  {
    if j == |fields| {
      assert fields[..j] == fields;
    } else {
      var init := fields[..|fields| - 1];
      assert init[..j] == fields[..j];
      ParseEachKeepsError(init, j, parse);
    }
  }

  /** The loop of every array decoder: one array slot per field, filled in
      order with the counter `i`, until a field does not parse. */
  method ParseInto<T(0)>(value: string, sep: char, parse: string -> Result<T>) returns (r: Result<array<T>>)
    ensures r.Ok? <==> Decode(value, sep, parse).Ok?
    ensures r.Ok? ==> r.value[..] == Decode(value, sep, parse).value
    ensures r.Err? ==> r.error == Decode(value, sep, parse).error
  {
    if |Trim(value)| == 0 {
      var none := new T[0];
      return Ok(none);
    }
    var vals := JavaSplit(value, sep);
    assert vals == Fields(value, sep);
    var a := new T[|vals|];
    var i := 0;
    while i < |vals|
      invariant 0 <= i <= |vals| == a.Length
      invariant ParseEach(vals[..i], parse) == Ok(a[..i])
    {
      ParseEachStep(vals, i, parse);
      match parse(vals[i])
      case Err(e) =>
        return Err(e);
      case Ok(x) =>
        a[i] := x;
        assert a[..i + 1] == a[..i] + [x];
      i := i + 1;
    }
    assert vals[..i] == vals;
    assert a[..i] == a[..];
    r := Ok(a);
  }

  /** `toStringSet(long[])` */
  method ToStringSetLongs(value: array<Int64>) returns (s: string)
    ensures s == LongsText(value[..])
  {
    s := AppendJoined(value, LongText, '\n');
  }

  /** `toStringSet(int[])` */
  method ToStringSetIntegers(value: array<Int32>) returns (s: string)
    ensures s == IntegersText(value[..])
  {
    s := AppendJoined(value, IntText, '\n');
  }

  /** `toStringSet(boolean[])` */
  method ToStringSetBooleans(value: array<bool>) returns (s: string)
    ensures s == BooleansText(value[..])
  {
    s := AppendJoined(value, BooleanText, '\n');
  }

  /** `toStringSet(String[])` as written */
  method ToStringSetStringsAsWritten(value: array<string>) returns (s: string)
    ensures s == StringsTextAsWritten(value[..])
  {
    s := AppendJoined(value, (x: string) => x, ',');
    assert Shown(value[..], (x: string) => x) == value[..];
  }

  /** `toStringSet(String[])` joining with the decoder's newline */
  method ToStringSetStrings(value: array<string>) returns (s: string)
    ensures s == StringsText(value[..])
  {
    s := AppendJoined(value, (x: string) => x, '\n');
    assert Shown(value[..], (x: string) => x) == value[..];
  }

  /** `toLongArray(value)` */
  method ToLongArray(value: string) returns (r: Result<array<Int64>>)
    ensures r.Ok? <==> LongsOf(value).Ok?
    ensures r.Ok? ==> r.value[..] == LongsOf(value).value
    ensures r.Err? ==> r.error == NumberFormat
  {
    r := ParseInto(value, '\n', ParseLong);
  }

  /** `toIntegerArray(value)` */
  method ToIntegerArray(value: string) returns (r: Result<array<Int32>>)
    ensures r.Ok? <==> IntegersOf(value).Ok?
    ensures r.Ok? ==> r.value[..] == IntegersOf(value).value
    ensures r.Err? ==> r.error == NumberFormat
  {
    r := ParseInto(value, '\n', ParseInt);
  }

  /** `toStringArray(value)` */
  method ToStringArray(value: string) returns (r: array<string>)
    ensures r[..] == StringsOf(value)
  {
    var vals := Fields(value, '\n');
    r := new string[|vals|](i requires 0 <= i < |vals| => vals[i]);
  }

  /** `toBooleanArray(value)` as written */
  method ToBooleanArrayAsWritten(value: string) returns (r: array<bool>)
    ensures r[..] == BooleansOfAsWritten(value)
  {
    var a := ParseInto(value, ',', BooleanField);
    r := a.value;
  }

  /** `toBooleanArray(value)` splitting on the encoder's newline */
  method ToBooleanArray(value: string) returns (r: array<bool>)
    ensures r[..] == BooleansOf(value)
  {
    var a := ParseInto(value, '\n', BooleanField);
    r := a.value;
  }
}
