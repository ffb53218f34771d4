/** The pieces of java.lang that the framework's decisions rest on, with Java's
    own semantics: String case mapping, equalsIgnoreCase, Boolean.parseBoolean,
    Integer.parseInt / String.valueOf(int), lastIndexOf, substring and split,
    and the System property table. */
module JavaLang {
  import opened Wrappers

  /** The range of Java's 32-bit `int`. */
  const IntMin: int := -0x8000_0000
  const IntMax: int := 0x7FFF_FFFF

  predicate IsInt(n: int) {
    IntMin <= n <= IntMax
  }

  /** Thread.currentThread().getId(): the thread a test runs on, which keys
      every per-thread table. */
  type WorkerId = nat

  /** String conversion of a possibly-null string, as `"..." + s` does: null
      becomes the text "null". */
  function NullableText(s: Option<string>): (r: string)
    ensures s.None? ==> r == "null"
    ensures s.Some? ==> r == s.value
  {
    if s.Some? then s.value else "null"
  }

  // ---------------------------------------------------------------------------
  // Case mapping (ASCII letters; Java maps the whole of Unicode)

  function LowerChar(c: char): char {
    if 'A' <= c <= 'Z' then (c as int + 32) as char else c
  }

  function UpperChar(c: char): char {
    if 'a' <= c <= 'z' then (c as int - 32) as char else c
  }

  /** String.toLowerCase(): every character lower-cased, nothing else changed. */
  function ToLowerCase(s: string): (r: string)
    ensures |r| == |s|
    ensures forall i :: 0 <= i < |s| ==> r[i] == LowerChar(s[i])
  {
    if s == [] then [] else [LowerChar(s[0])] + ToLowerCase(s[1..])
  }

  lemma ToLowerCaseIdempotent(s: string)
    ensures ToLowerCase(ToLowerCase(s)) == ToLowerCase(s)
  {
  }

  /** The per-character test of String.regionMatches(ignoreCase = true, ...):
      equal, equal once upper-cased, or equal once lower-cased again. */
  predicate CharEqualsIgnoreCase(a: char, b: char) {
    a == b || UpperChar(a) == UpperChar(b) || LowerChar(UpperChar(a)) == LowerChar(UpperChar(b))
  }

  /** String.equalsIgnoreCase on a non-null argument. */
  predicate EqualsIgnoreCase(a: string, b: string) {
    |a| == |b| && forall i :: 0 <= i < |a| ==> CharEqualsIgnoreCase(a[i], b[i])
  }

  lemma CharEqualsIgnoreCaseIsLowerEqual(a: char, b: char)
    ensures CharEqualsIgnoreCase(a, b) <==> LowerChar(a) == LowerChar(b)
  {
  }

  /** equalsIgnoreCase holds exactly when both strings lower-case to the same text. */
  lemma EqualsIgnoreCaseIsLowerEqual(a: string, b: string)
    ensures EqualsIgnoreCase(a, b) <==> ToLowerCase(a) == ToLowerCase(b)
  {
    if EqualsIgnoreCase(a, b) {
      forall i | 0 <= i < |a| ensures ToLowerCase(a)[i] == ToLowerCase(b)[i] {
        CharEqualsIgnoreCaseIsLowerEqual(a[i], b[i]);
      }
    }
    if ToLowerCase(a) == ToLowerCase(b) {
      forall i | 0 <= i < |a| ensures CharEqualsIgnoreCase(a[i], b[i]) {
        assert ToLowerCase(a)[i] == ToLowerCase(b)[i];
        CharEqualsIgnoreCaseIsLowerEqual(a[i], b[i]);
      }
    }
  }

  /** Boolean.parseBoolean: true exactly for a non-null string that is "true"
      in any mix of cases; null and every other text give false. */
  function ParseBoolean(s: Option<string>): bool {
    s.Some? && EqualsIgnoreCase(s.value, "true")
  }

  /** Boolean.parseBoolean: true exactly for "true" in any capitalisation. */
  lemma ParseBooleanIsLowerTrue(s: Option<string>)
    ensures ParseBoolean(s) <==> s.Some? && ToLowerCase(s.value) == "true"
  {
    if s.Some? {
      EqualsIgnoreCaseIsLowerEqual(s.value, "true");
      assert ToLowerCase("true") == "true";
    }
  }


  // ---------------------------------------------------------------------------
  // Decimal integers

  predicate IsDigit(c: char) {
    '0' <= c <= '9'
  }

  predicate AllDigits(s: string) {
    forall i :: 0 <= i < |s| ==> IsDigit(s[i])
  }

  function DigitChar(d: nat): (c: char)
    requires d < 10
    ensures IsDigit(c)
  {
    ('0' as int + d) as char
  }

  function DigitValue(c: char): nat
    requires IsDigit(c)
  {
    c as int - '0' as int
  }

  /** The decimal digits of a natural number, most significant first. */
  function DigitsValue(s: string): nat
    requires AllDigits(s)
  {
    if s == [] then 0 else DigitsValue(s[..|s| - 1]) * 10 + DigitValue(s[|s| - 1])
  }

  function NatToString(n: nat): string
    decreases n
  {
    if n < 10 then [DigitChar(n)] else NatToString(n / 10) + [DigitChar(n % 10)]
  }

  /** String.valueOf(int): an optional minus sign and the decimal digits. */
  function IntToString(n: int): string {
    if n < 0 then "-" + NatToString(-n) else NatToString(n)
  }

  /** The text after Integer.parseInt's optional leading '-' or '+'. */
  function Unsigned(t: string): string {
    if t != [] && (t[0] == '-' || t[0] == '+') then t[1..] else t
  }

  /** The value a sign and decimal digits denote. */
  function SignedValue(t: string): int
    requires AllDigits(Unsigned(t))
  {
    if t != [] && t[0] == '-' then -(DigitsValue(Unsigned(t)) as int) else DigitsValue(Unsigned(t))
  }

  /** An optional sign followed by at least one decimal digit, denoting an int. */
  predicate DecimalInt(t: string) {
    Unsigned(t) != [] && AllDigits(Unsigned(t)) && IsInt(SignedValue(t))
  }

  /** Integer.parseInt: accepts exactly an optional sign followed by at
      least one decimal digit whose value is an int, and returns that value;
      None stands for the NumberFormatException thrown otherwise. */
  function ParseInt(s: Option<string>): (r: Option<int>)
    ensures r.Some? <==> s.Some? && DecimalInt(s.value)
    ensures r.Some? ==> r.value == SignedValue(s.value) && IsInt(r.value)
  {
    if s.None? || s.value == [] then None
    else
      var t := s.value;
      var digits := if t[0] == '-' || t[0] == '+' then t[1..] else t;
      if digits == [] || !AllDigits(digits) then None
      else
        var v: int := if t[0] == '-' then -(DigitsValue(digits) as int) else DigitsValue(digits);
        if IsInt(v) then Some(v) else None
  }

  /** The texts Integer.parseInt rejects with NumberFormatException: null, a
      text with nothing after its sign (the empty text, "-", "+"), a
      non-digit after the sign, and a value outside int. */
  lemma ParseIntRejects(t: string)
    ensures ParseInt(None) == None
    ensures Unsigned(t) == [] ==> ParseInt(Some(t)) == None
    ensures (exists i :: 0 <= i < |Unsigned(t)| && !IsDigit(Unsigned(t)[i])) ==> ParseInt(Some(t)) == None
    ensures AllDigits(Unsigned(t)) && !IsInt(SignedValue(t)) ==> ParseInt(Some(t)) == None
  {
  }

  /** Texts a configuration value might hold. */
  lemma ParseIntExamples()
    ensures ParseInt(Some("abc")) == None && ParseInt(Some("1.5")) == None
    ensures ParseInt(Some("-")) == None && ParseInt(Some("")) == None && ParseInt(Some(" 7")) == None
    ensures ParseInt(Some("+42")) == Some(42) && ParseInt(Some("-7")) == Some(-7)
  {
    assert !IsDigit("1.5"[1]);
    assert !IsDigit(" 7"[0]);
    assert Unsigned("+42") == "42" && DigitsValue("42") == 42 by {
      assert "42"[..1] == "4";
    }
    assert Unsigned("-7") == "7" && DigitsValue("7") == 7 by {
      assert "7"[..0] == "";
    }
  }

  /** One more than the largest int does not parse. */
  lemma ParseIntOverflowExample()
    ensures ParseInt(Some("2147483648")) == None
  {
    var big := "2147483648";
    assert AllDigits(big);
    assert DigitsValue(big) == 2147483648 by {
      assert "2"[..0] == "";
      assert DigitsValue("2") == 2;
      assert "21"[..1] == "2";
      assert DigitsValue("21") == 21;
      assert "214"[..2] == "21";
      assert DigitsValue("214") == 214;
      assert "2147"[..3] == "214";
      assert DigitsValue("2147") == 2147;
      assert "21474"[..4] == "2147";
      assert DigitsValue("21474") == 21474;
      assert "214748"[..5] == "21474";
      assert DigitsValue("214748") == 214748;
      assert "2147483"[..6] == "214748";
      assert DigitsValue("2147483") == 2147483;
      assert "21474836"[..7] == "2147483";
      assert DigitsValue("21474836") == 21474836;
      assert "214748364"[..8] == "21474836";
      assert DigitsValue("214748364") == 214748364;
      assert "2147483648"[..9] == "214748364";
      assert DigitsValue("2147483648") == 2147483648;
    }
  }

  lemma {:induction false} NatToStringDigits(n: nat)
    ensures NatToString(n) != [] && AllDigits(NatToString(n))
    ensures DigitsValue(NatToString(n)) == n
    decreases n
  {
    if n >= 10 {
      NatToStringDigits(n / 10);
      var s := NatToString(n);
      assert s[..|s| - 1] == NatToString(n / 10);
    }
  }

  /** Integer.parseInt reads back every int that String.valueOf writes. */
  lemma ParseIntRoundTrip(n: int)
    requires IsInt(n)
    ensures ParseInt(Some(IntToString(n))) == Some(n)
  {
    if n < 0 {
      NatToStringDigits(-n);
      var t := IntToString(n);
      assert t[0] == '-' && t[1..] == NatToString(-n);
    } else {
      NatToStringDigits(n);
      assert IsDigit(NatToString(n)[0]);
    }
  }

  // ---------------------------------------------------------------------------
  // Searching and cutting strings

  /** String.lastIndexOf(c): the last position holding c, or -1. */
  function LastIndexOf(s: string, c: char): (r: int)
    ensures -1 <= r < |s|
    ensures r == -1 <==> c !in s
    ensures 0 <= r ==> s[r] == c && c !in s[r + 1..]
  {
    if s == [] then -1
    else if s[|s| - 1] == c then |s| - 1
    else
      var r := LastIndexOf(s[..|s| - 1], c);
      assert s == s[..|s| - 1] + [s[|s| - 1]];
      assert 0 <= r ==> s[r + 1..] == s[..|s| - 1][r + 1..] + [s[|s| - 1]];
      r
  }

  /** `s.substring(s.lastIndexOf(c) + 1)`: the longest suffix of s without c,
      which is the whole of s when c does not occur. */
  function SubstringAfterLast(s: string, c: char): (r: string)
    ensures |r| <= |s| && r == s[|s| - |r|..]
    ensures c !in r
    ensures c in s ==> s[|s| - |r| - 1] == c
    ensures c !in s ==> r == s
  {
    s[LastIndexOf(s, c) + 1..]
  }

  /** The pieces between separators, empty pieces included. */
  function SplitAll(s: string, sep: char): (r: seq<string>)
    ensures |r| >= 1
    ensures forall i :: 0 <= i < |r| ==> sep !in r[i]
  {
    if s == [] then [[]]
    else
      var rest := SplitAll(s[1..], sep);
      if s[0] == sep then [[]] + rest
      else [[s[0]] + rest[0]] + rest[1..]
  }

  /** The pieces put back together with one separator between neighbours. */
  function Join(parts: seq<string>, sep: char): string {
    if parts == [] then []
    else if |parts| == 1 then parts[0]
    else parts[0] + [sep] + Join(parts[1..], sep)
  }

  lemma {:induction false} JoinSplitAll(s: string, sep: char)
    ensures Join(SplitAll(s, sep), sep) == s
  {
    if s != [] {
      var rest := SplitAll(s[1..], sep);
      JoinSplitAll(s[1..], sep);
      if s[0] == sep {
        assert SplitAll(s, sep)[1..] == rest;
      } else {
        var parts := SplitAll(s, sep);
        assert parts[1..] == rest[1..];
        if |rest| > 1 {
          assert Join(rest, sep) == rest[0] + [sep] + Join(rest[1..], sep);
        }
      }
    }
  }

  /** Drops the empty pieces at the end, as String.split does. */
  function StripTrailingEmpty(parts: seq<string>): (r: seq<string>)
    ensures |r| <= |parts| && r == parts[..|r|]
    ensures r == [] || r[|r| - 1] != []
    ensures forall i :: |r| <= i < |parts| ==> parts[i] == []
  {
    if parts == [] || parts[|parts| - 1] != [] then parts
    else StripTrailingEmpty(parts[..|parts| - 1])
  }

  /** String.split(sep) for a one-character separator that is not a regular
      expression operator: without a match the input comes back whole (so ""
      gives [""]); otherwise the pieces, keeping a leading empty piece and
      dropping the trailing empty ones. */
  function Split(s: string, sep: char): (r: seq<string>)
    ensures forall i :: 0 <= i < |r| ==> sep !in r[i]
    ensures sep !in s ==> r == [s]
    ensures sep in s ==> r == [] || r[|r| - 1] != []
  {
    if sep !in s then [s] else StripTrailingEmpty(SplitAll(s, sep))
  }

  /** Joining the pieces gives back the input up to the separators that
      closed it. */
  lemma SplitJoin(s: string, sep: char)
    ensures var j := Join(Split(s, sep), sep);
      |j| <= |s| && j == s[..|j|] && forall i :: |j| <= i < |s| ==> s[i] == sep
  {
    if sep in s {
      JoinSplitAll(s, sep);
      JoinStripTrailing(SplitAll(s, sep), sep);
    }
  }

  /** Dropping trailing empty pieces only drops trailing separators from the join. */
  lemma JoinStripTrailing(parts: seq<string>, sep: char)
    ensures var j := Join(StripTrailingEmpty(parts), sep);
            var full := Join(parts, sep);
      |j| <= |full| && j == full[..|j|] && forall i :: |j| <= i < |full| ==> full[i] == sep
  {
    var r := StripTrailingEmpty(parts);
    if r == [] {
      JoinEmptyPieces(parts, sep);
    } else if |r| < |parts| {
      JoinSplitAt(parts, |r|, sep);
      JoinEmptyPieces(parts[|r|..], sep);
      assert parts[..|r|] == r;
    }
  }

  lemma {:induction false} JoinSplitAt(parts: seq<string>, k: nat, sep: char)
    requires 0 < k < |parts|
    ensures Join(parts, sep) == Join(parts[..k], sep) + [sep] + Join(parts[k..], sep)
    decreases k
  {
    if k > 1 {
      JoinSplitAt(parts[1..], k - 1, sep);
      assert parts[1..][..k - 1] == parts[..k][1..];
      assert parts[1..][k - 1..] == parts[k..];
    }
  }

  lemma {:induction false} JoinEmptyPieces(parts: seq<string>, sep: char)
    requires forall i :: 0 <= i < |parts| ==> parts[i] == []
    ensures forall i :: 0 <= i < |Join(parts, sep)| ==> Join(parts, sep)[i] == sep
  {
    if |parts| > 1 {
      JoinEmptyPieces(parts[1..], sep);
    }
  }

  // ---------------------------------------------------------------------------
  // java.lang.System's property table

  class SystemProperties {
    var props: map<string, string>

    constructor (initial: map<string, string>)
      ensures props == initial
    {
      props := initial;
    }

    /** System.getProperty(key): the value, or null when the key is unset. */
    function GetProperty(key: string): (r: Option<string>)
      reads this
      ensures r.Some? <==> key in props
      ensures r.Some? ==> r.value == props[key]
    {
      if key in props then Some(props[key]) else None
    }

    method SetProperty(key: string, value: string)
      modifies this
      ensures props == old(props)[key := value]
    {
      props := props[key := value];
    }

    method ClearProperty(key: string)
      modifies this
      ensures props == old(props) - {key}
    {
      props := props - {key};
    }
  }
}
