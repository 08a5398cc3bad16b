/** The pieces of JavaScript semantics the handlers and forms rely on: absent fields,
    truthiness, the `x || fallback` idiom, `trim()`, `toLowerCase()` on ASCII,
    `split(" ")`, `startsWith`, `Number()` and `String()` of an integer. */
module Js {

  datatype Option<+T> = None | Some(value: T)

  /** A value or the error a handler throws or answers with. */
  datatype Result<+T, +E> = Ok(value: T) | Err(error: E)

  /** What an Express handler answers: the status code and, when there is one, the
      JSON body. */
  datatype Reply<+T> = Reply(status: int, body: Option<T>)

  /** A field that JSON may carry as a number or as a string (`catwayNumber`). */
  datatype Scalar = Num(n: int) | Str(s: string)

  /** The WhiteSpace and LineTerminator code points of ECMAScript: the set `\s` matches
      in a regular expression and the set `trim()` removes. */
  predicate IsSpace(c: char) {
    || c == '\t' || c == '\n' || c == '\U{000B}' || c == '\U{000C}' || c == '\r' || c == ' '
    || c == '\U{00A0}' || c == '\U{1680}' || ('\U{2000}' <= c <= '\U{200A}')
    || c == '\U{2028}' || c == '\U{2029}' || c == '\U{202F}' || c == '\U{205F}'
    || c == '\U{3000}' || c == '\U{FEFF}'
  }

  /** The characters `.` does not match in a regular expression without the `s` flag. */
  predicate IsLineTerminator(c: char) {
    c == '\n' || c == '\r' || c == '\U{2028}' || c == '\U{2029}'
  }

  lemma LineTerminatorIsSpace(c: char)
    ensures IsLineTerminator(c) ==> IsSpace(c)
  {
  }

  /** A string field is truthy when it is present and not empty. */
  predicate Truthy(o: Option<string>) {
    o.Some? && o.value != ""
  }

  /** A number is truthy unless it is 0; a string unless it is empty. */
  predicate ScalarTruthy(o: Option<Scalar>) {
    match o
    case None => false
    case Some(Num(n)) => n != 0
    case Some(Str(s)) => s != ""
  }

  /** `field || fallback`: the supplied value when truthy, otherwise the fallback.
      The result is empty only when both are, so the idiom can never clear a field. */
  function OrElse(o: Option<string>, fallback: string): (r: string)
    ensures Truthy(o) ==> r == o.value
    ensures !Truthy(o) ==> r == fallback
    ensures r == "" <==> !Truthy(o) && fallback == ""
  {
    if Truthy(o) then o.value else fallback
  }

  predicate StartsWith(s: string, prefix: string) {
    |prefix| <= |s| && s[..|prefix|] == prefix
  }

  // ---------------------------------------------------------------- trim

  /** No white space at either end: what `trim()` leaves. */
  predicate Unpadded(s: string) {
    s == [] || (!IsSpace(s[0]) && !IsSpace(s[|s| - 1]))
  }

  /** `s.trim()`: white space removed from both ends, so what is left never starts or
      ends with white space. */
  function Trim(s: string): (r: string)
    ensures Unpadded(r) && |r| <= |s|
    decreases |s|
  {
    if s != [] && IsSpace(s[0]) then Trim(s[1..])
    else if s != [] && IsSpace(s[|s| - 1]) then Trim(s[..|s| - 1])
    else s
  }

  /** Trimming leaves nothing exactly when every character is white space. */
  lemma {:induction false} TrimBlank(s: string)
    ensures Trim(s) == "" <==> forall i :: 0 <= i < |s| ==> IsSpace(s[i])
    decreases |s|
  {
    if s != [] && IsSpace(s[0]) {
      TrimBlank(s[1..]);
      assert forall i :: 0 < i < |s| ==> s[i] == s[1..][i - 1];
    } else if s != [] && IsSpace(s[|s| - 1]) {
      TrimBlank(s[..|s| - 1]);
      assert forall i :: 0 <= i < |s| - 1 ==> s[i] == s[..|s| - 1][i];
    }
  }

  /** What trimming keeps is one slice `s[a..a + |Trim(s)|]` of the string, and what it
      drops on either side is white space. */
  lemma {:induction false} TrimSlice(s: string) returns (a: nat)
    ensures a + |Trim(s)| <= |s| && Trim(s) == s[a..a + |Trim(s)|]
    ensures forall k :: 0 <= k < a ==> IsSpace(s[k])
    ensures forall k :: a + |Trim(s)| <= k < |s| ==> IsSpace(s[k])
    decreases |s|
  {
    if s != [] && IsSpace(s[0]) {
      var b := TrimSlice(s[1..]);
      a := b + 1;
    } else if s != [] && IsSpace(s[|s| - 1]) {
      a := TrimSlice(s[..|s| - 1]);
    } else {
      a := 0;
    }
  }

  /** A string with no white space at either end is its own trim. */
  lemma TrimUnpadded(s: string)
    ensures Unpadded(s) ==> Trim(s) == s
  {
  }

  /** Trimming twice is trimming once. */
  lemma TrimIdempotent(s: string)
    ensures Trim(Trim(s)) == Trim(s)
  {
    TrimUnpadded(Trim(s));
  }

  // ---------------------------------------------------------------- lower case

  function LowerChar(c: char): char {
    if 'A' <= c <= 'Z' then (c as int + 32) as char else c
  }

  /** `s.toLowerCase()` on ASCII letters; every other character is kept. */
  function ToLower(s: string): (r: string)
    ensures |r| == |s| && forall i :: 0 <= i < |s| ==> r[i] == LowerChar(s[i])
  {
    seq(|s|, i requires 0 <= i < |s| => LowerChar(s[i]))
  }

  /** Lower-casing keeps every white-space character and never creates one. */
  lemma LowerKeepsSpace(c: char)
    ensures IsSpace(LowerChar(c)) == IsSpace(c)
    ensures IsLineTerminator(LowerChar(c)) == IsLineTerminator(c)
    ensures LowerChar(LowerChar(c)) == LowerChar(c)
  {
  }

  /** No ASCII capital letter: what `toLowerCase()` leaves. */
  predicate IsLower(s: string) {
    forall i :: 0 <= i < |s| ==> LowerChar(s[i]) == s[i]
  }

  /** The Mongoose `lowercase: true, trim: true` setters, applied in that order. */
  function Normalize(s: string): (r: string)
    ensures |r| <= |s|
  {
    Trim(ToLower(s))
  }

  /** What the setters produce is lower case with no white space at either end. */
  lemma {:induction false} NormalizeShape(s: string)
    ensures Unpadded(Normalize(s)) && IsLower(Normalize(s))
  {
    var l := ToLower(s);
    var r := Trim(l);
    var a := TrimSlice(l);
    forall i | 0 <= i < |r| ensures LowerChar(r[i]) == r[i] {
      assert r[i] == l[a + i];
      LowerKeepsSpace(s[a + i]);
    }
  }

  /** A lower-case string with no white space at either end is left as it is by the setters. */
  lemma {:induction false} NormalizeFixed(s: string)
    requires Unpadded(s) && IsLower(s)
    ensures Normalize(s) == s
  {
    assert ToLower(s) == s;
    TrimUnpadded(s);
  }

  /** A normalized string is left as it is by normalizing it again. */
  lemma {:induction false} NormalizeIdempotent(s: string)
    ensures Normalize(Normalize(s)) == Normalize(s)
  {
    NormalizeShape(s);
    NormalizeFixed(Normalize(s));
  }

  // ---------------------------------------------------------------- split

  function IndexOf(s: string, c: char): (i: nat)
    requires c in s
    ensures i < |s| && s[i] == c && c !in s[..i]
  {
    if s[0] == c then 0 else 1 + IndexOf(s[1..], c)
  }

  /** `s.split(sep)` for a one-character separator: never empty, and no part holds
      the separator. */
  function Split(s: string, sep: char): (parts: seq<string>)
    ensures |parts| >= 1
    ensures forall k :: 0 <= k < |parts| ==> sep !in parts[k]
    decreases |s|
  {
    if sep in s then
      var i := IndexOf(s, sep);
      [s[..i]] + Split(s[i + 1..], sep)
    else
      [s]
  }

  /** The parts joined back with the separator. */
  function Join(parts: seq<string>, sep: char): string
    requires |parts| >= 1
  {
    if |parts| == 1 then parts[0] else parts[0] + [sep] + Join(parts[1..], sep)
  }

  /** `split` loses nothing: joining its parts with the separator rebuilds the string. */
  lemma {:induction false} SplitJoin(s: string, sep: char)
    ensures Join(Split(s, sep), sep) == s
    decreases |s|
  {
    if sep in s {
      var i := IndexOf(s, sep);
      var rest := Split(s[i + 1..], sep);
      var parts := Split(s, sep);
      assert parts == [s[..i]] + rest;
      assert parts[0] == s[..i] && parts[1..] == rest;
      calc {
        Join(parts, sep);
        s[..i] + [sep] + Join(rest, sep);
        { SplitJoin(s[i + 1..], sep); }
        s[..i] + [sep] + s[i + 1..];
        { assert s == s[..i] + [sep] + s[i + 1..]; }
        s;
      }
    }
  }

  /** The first part is the text before the first separator, or all of `s`. */
  lemma SplitFirst(s: string, sep: char)
    ensures Split(s, sep)[0] == if sep in s then s[..IndexOf(s, sep)] else s
  {
  }

  /** Splitting `w + [sep] + rest`, where the word `w` holds no separator, gives `w`
      followed by the parts of `rest`. */
  lemma {:induction false} SplitAfterWord(w: string, sep: char, rest: string)
    requires sep !in w
    ensures Split(w + [sep] + rest, sep) == [w] + Split(rest, sep)
  {
    var s := w + [sep] + rest;
    assert s[|w|] == sep;
    assert s[..|w|] == w;
    var i := IndexOf(s, sep);
    assert s[..i] == w;
    assert s[i + 1..] == rest;
  }

  // ---------------------------------------------------------------- numbers

  predicate IsDigit(c: char) {
    '0' <= c <= '9'
  }

  predicate AllDigits(s: string) {
    forall i :: 0 <= i < |s| ==> IsDigit(s[i])
  }

  function DigitChar(d: nat): (c: char)
    requires d < 10
    ensures IsDigit(c)
  {
    ('0' as int + d) as char
  }

  function ParseDigits(s: string): nat
    requires AllDigits(s)
  {
    if s == [] then 0
    else 10 * ParseDigits(s[..|s| - 1]) + ((s[|s| - 1] as int) - ('0' as int))
  }

  /** The decimal digits of a natural number, most significant first, no leading zero. */
  function Digits(n: nat): (s: string)
    ensures |s| >= 1 && AllDigits(s)
    ensures |s| > 1 ==> s[0] != '0'
  {
    if n < 10 then [DigitChar(n)] else Digits(n / 10) + [DigitChar(n % 10)]
  }

  lemma {:induction false} ParseDigitsOfDigits(n: nat)
    ensures ParseDigits(Digits(n)) == n
  {
    if n >= 10 {
      var s := Digits(n);
      assert s[..|s| - 1] == Digits(n / 10);
      ParseDigitsOfDigits(n / 10);
    }
  }

  /** `String(n)` for an integer. */
  function NumberToString(n: int): (s: string)
    ensures s != "" && !IsSpace(s[0]) && !IsSpace(s[|s| - 1])
  {
    if n < 0 then "-" + Digits(-n) else Digits(n)
  }

  /** `Number(s)` for a string: surrounding white space is ignored, a blank string is 0,
      an optional sign followed by decimal digits is that integer. `None` is NaN (and
      stands in for the numeric spellings this model does not read, such as `1.5`). */
  function StringToNumber(s: string): (r: Option<int>)
    ensures (forall i :: 0 <= i < |s| ==> IsSpace(s[i])) ==> r == Some(0)
  {
    TrimBlank(s);
    var t := Trim(s);
    if t == "" then Some(0)
    else if (t[0] == '-' || t[0] == '+') && |t| > 1 && AllDigits(t[1..]) then
      var m: int := ParseDigits(t[1..]);
      Some(if t[0] == '-' then -m else m)
    else if AllDigits(t) then Some(ParseDigits(t))
    else None
  }

  /** `Number(String(n)) === n`: reading back the decimal text of an integer gives the integer. */
  lemma {:induction false} NumberRoundTrip(n: int)
    ensures StringToNumber(NumberToString(n)) == Some(n)
  {
    var s := NumberToString(n);
    TrimUnpadded(s);
    if n < 0 {
      assert s[1..] == Digits(-n);
      ParseDigitsOfDigits(-n);
    } else {
      ParseDigitsOfDigits(n);
    }
  }

  /** `Number(v)`: undefined is NaN, a number is itself, a string is read as above. */
  function ToNumber(v: Option<Scalar>): (r: Option<int>)
    ensures v.None? ==> r.None?
    ensures v.Some? && v.value.Num? ==> r == Some(v.value.n)
  {
    match v
    case None => None
    case Some(Num(n)) => Some(n)
    case Some(Str(s)) => StringToNumber(s)
  }

  /** `String(v)` for a number or a string. */
  function ScalarToString(v: Scalar): (s: string)
    ensures v.Str? ==> s == v.s
    ensures v.Num? ==> ToNumber(Some(Str(s))) == Some(v.n)
  {
    match v
    case Num(n) => (NumberRoundTrip(n); NumberToString(n))
    case Str(s) => s
  }
}
