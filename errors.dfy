/** The `error` values the package produces or inspects. */
module Errors {

  /** Go errors that the package distinguishes. `EOF` is the `io.EOF`
      sentinel compared with `==` in requests.go; `Codec` is any other error
      coming out of the JSON decoder or encoder (syntax errors, type
      mismatches, `io.ErrUnexpectedEOF`, unsupported values); `SessionTooShort`
      is the `fmt.Errorf` error of `SessionInfo.ExtractSession`, carrying the
      number of parts it saw. */
  datatype Error =
    | EOF
    | Codec(description: string)
    | SessionTooShort(parts: nat)

  /** The message prefix used by `ExtractSession`'s error. */
  const TooShortPrefix: string := "the provided session string was too short: "

  /** `err.Error()`. */
  function Message(e: Error): string
  {
    match e
    case EOF => "EOF"
    case Codec(d) => d
    case SessionTooShort(n) => TooShortPrefix + Decimal(n)
  }

  predicate IsDigit(c: char)
  {
    '0' <= c <= '9'
  }

  predicate IsDigits(s: string)
  {
    forall i :: 0 <= i < |s| ==> IsDigit(s[i])
  }

  function Digit(d: nat): (c: char)
    requires d < 10
    ensures IsDigit(c)
  {
    ('0' as int + d) as char
  }

  /** `%d` of a non-negative integer: decimal digits without leading zeros. */
  function Decimal(n: nat): (s: string)
    ensures |s| >= 1 && IsDigits(s)
    ensures s[0] == '0' <==> n == 0
    ensures n == 0 ==> s == "0"
    decreases n
  {
    if n < 10 then [Digit(n)] else Decimal(n / 10) + [Digit(n % 10)]
  }

  /** The value of a string of decimal digits, an independent reading of `%d`. */
  function ParseDecimal(s: string): nat
    requires IsDigits(s)
  {
    if s == [] then 0
    else 10 * ParseDecimal(s[..|s| - 1]) + (s[|s| - 1] as int - '0' as int)
  }

  /** Reading back what `%d` printed gives the integer again. */
  lemma {:induction false} ParseDecimalOfDecimal(n: nat)
    ensures ParseDecimal(Decimal(n)) == n
    decreases n
  {
    var s := Decimal(n);
    if n >= 10 {
      ParseDecimalOfDecimal(n / 10);
      assert s[..|s| - 1] == Decimal(n / 10);
    }
  }

  /** The part count reported by `ExtractSession`'s error message can be read
      back from the message text. */
  lemma TooShortCountRecoverable(n: nat)
    ensures |Message(SessionTooShort(n))| > |TooShortPrefix|
    ensures Message(SessionTooShort(n))[..|TooShortPrefix|] == TooShortPrefix
    ensures var digits := Message(SessionTooShort(n))[|TooShortPrefix|..];
            IsDigits(digits) && ParseDecimal(digits) == n
  {
    var m := Message(SessionTooShort(n));
    assert m[|TooShortPrefix|..] == Decimal(n);
    ParseDecimalOfDecimal(n);
  }
}
