/**
 * The caller formatter logger.go installs as zerolog.CallerMarshalFunc:
 * "file:line", followed by " name()" when the program counter resolves to a
 * function, the name cut to what follows its last '/' when that '/' is not
 * its first character.
 */
module Logger {
  import opened Wrappers

  /** strings.LastIndex for a one-character separator: the last index holding c, or -1. */
  function LastIndex(s: string, c: char): (r: int)
    ensures -1 <= r < |s|
    ensures r >= 0 ==> s[r] == c
    ensures forall j :: r < j < |s| ==> s[j] != c
  {
    if s == [] then -1
    else if s[|s| - 1] == c then |s| - 1
    else LastIndex(s[..|s| - 1], c)
  }

  /** The character of one decimal digit. */
  function DigitChar(d: nat): (ch: char)
    requires d < 10
    ensures '0' <= ch <= '9'
  {
    ('0' as int + d) as char
  }

  /** The decimal digits of a natural number, most significant first, without leading zeros. */
  function NatToDecimal(n: nat): (s: string)
    ensures |s| >= 1
    ensures forall i :: 0 <= i < |s| ==> '0' <= s[i] <= '9'
    ensures s[0] == '0' ==> n == 0
    decreases n
  {
    if n < 10 then [DigitChar(n)]
    else NatToDecimal(n / 10) + [DigitChar(n % 10)]
  }

  /** strconv.Itoa: the decimal form of an integer, with a leading '-' when negative. */
  function Itoa(n: int): (s: string)
  {
    if n < 0 then "-" + NatToDecimal(-n) else NatToDecimal(n)
  }

  /** The value of a string of decimal digits. */
  function ParseDigits(s: string): int
  {
    if s == [] then 0
    else ParseDigits(s[..|s| - 1]) * 10 + (s[|s| - 1] as int - '0' as int)
  }

  /** The value of an optionally signed decimal string (the inverse of Itoa). */
  function ParseInt(s: string): int
  {
    if |s| > 0 && s[0] == '-' then -ParseDigits(s[1..]) else ParseDigits(s)
  }

  lemma {:induction false} ParseNatToDecimal(n: nat)
    ensures ParseDigits(NatToDecimal(n)) == n
    decreases n
  {
    if n >= 10 {
      ParseNatToDecimal(n / 10);
      var s := NatToDecimal(n / 10) + [DigitChar(n % 10)];
      assert s[..|s| - 1] == NatToDecimal(n / 10);
    }
  }

  /** Itoa loses nothing: the line number can be read back from its decimal form. */
  lemma ItoaRoundTrip(n: int)
    ensures ParseInt(Itoa(n)) == n
  {
    if n < 0 {
      ParseNatToDecimal(-n);
      assert ("-" + NatToDecimal(-n))[1..] == NatToDecimal(-n);
    } else {
      ParseNatToDecimal(n);
    }
  }

  /** Itoa writes only a sign and digits: no space and no '/'. */
  lemma ItoaCharacters(n: int)
    ensures |Itoa(n)| >= 1
    ensures forall i :: 0 <= i < |Itoa(n)| ==> Itoa(n)[i] == '-' || '0' <= Itoa(n)[i] <= '9'
  {
  }

  /**
   * The function name as printed: when some '/' occurs past its first character,
   * the part after the last '/'; otherwise the whole name.
   */
  function TrimFunctionName(name: string): (r: string)
    ensures |r| <= |name| && r == name[|name| - |r|..]
    ensures (exists i :: 0 < i < |name| && name[i] == '/') ==>
      && '/' !in r
      && |r| < |name| && name[|name| - |r| - 1] == '/'
    ensures !(exists i :: 0 < i < |name| && name[i] == '/') ==> r == name
  {
    var slash := LastIndex(name, '/');
    if slash > 0 then name[slash + 1..] else name
  }

  /** zerolog.CallerMarshalFunc: "file:line", plus " name()" when a function was found. */
  function CallerMarshal(file: string, line: int, funcName: Option<string>): (r: string)
    ensures funcName.None? ==> r == file + ":" + Itoa(line)
    ensures funcName.Some? ==> r == file + ":" + Itoa(line) + " " + TrimFunctionName(funcName.value) + "()"
  {
    var suffix := if funcName.Some? then " " + TrimFunctionName(funcName.value) + "()" else "";
    file + ":" + Itoa(line) + suffix
  }

  /** The first position at or after which s holds a space, or |s|. */
  function SpaceIndex(s: string): (r: nat)
    ensures r <= |s|
    ensures r < |s| ==> s[r] == ' '
    ensures forall j :: 0 <= j < r ==> s[j] != ' '
  {
    if s == [] then 0
    else if s[0] == ' ' then 0
    else 1 + SpaceIndex(s[1..])
  }

  /**
   * The caller string can be taken apart again: it starts with the file and a
   * colon, and the digits up to the first space after them give back the line.
   */
  lemma CallerLineRecoverable(file: string, line: int, funcName: Option<string>)
    ensures var r := CallerMarshal(file, line, funcName);
      && |r| > |file| && r[..|file| + 1] == file + ":"
      && ParseInt(r[|file| + 1..][..SpaceIndex(r[|file| + 1..])]) == line
  {
    var r := CallerMarshal(file, line, funcName);
    var digits := Itoa(line);
    var tail := if funcName.Some? then " " + TrimFunctionName(funcName.value) + "()" else "";
    assert r == (file + ":") + (digits + tail);
    var rest := r[|file| + 1..];
    assert rest == digits + tail;
    ItoaCharacters(line);
    SpaceAfterDigits(digits, tail);
    assert rest[..SpaceIndex(rest)] == digits;
    ItoaRoundTrip(line);
  }

  /** A space-free prefix followed by a string that is empty or starts with a space ends at that space. */
  lemma {:induction false} SpaceAfterDigits(digits: string, tail: string)
    requires forall i :: 0 <= i < |digits| ==> digits[i] != ' '
    requires tail == [] || tail[0] == ' '
    ensures SpaceIndex(digits + tail) == |digits|
  {
    if digits != [] {
      assert (digits + tail)[1..] == digits[1..] + tail;
      SpaceAfterDigits(digits[1..], tail);
    }
  }
}
