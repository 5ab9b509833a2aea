/** The single error kind of the application: a lookup by id that found
    nothing (an ApiRequestException in the Java code), together with the
    decimal rendering of ids that its messages use. */
module Errors {

  /** Which store a failed lookup was made against. */
  datatype Entity = QuestionKind | AnswerKind

  /** A "not found" error. The message is what `getMessage()` returns; the
      answer store builds it with Render, while errors raised by the
      question store keep whatever message that store gave them. */
  datatype ApiError = NotFound(kind: Entity, id: int, message: string)

  /** Outcome of an operation that returns nothing on success. */
  datatype Outcome = Pass | Fail(error: ApiError)

  /** Outcome of an operation that returns a value on success. */
  datatype Result<T> = Success(value: T) | Failure(error: ApiError)

  predicate IsDigit(c: char) {
    '0' <= c <= '9'
  }

  function DigitChar(d: nat): (c: char)
    requires d < 10
    ensures IsDigit(c) && c as int - '0' as int == d
  {
    ('0' as int + d) as char
  }

  function DigitValue(c: char): nat {
    if IsDigit(c) then c as int - '0' as int else 0
  }

  /** Decimal digits of n, most significant first, without leading zeros. */
  function NatDigits(n: nat): (s: string)
    ensures |s| >= 1
    ensures forall i :: 0 <= i < |s| ==> IsDigit(s[i])
    ensures s[0] == '0' ==> s == "0"
  {
    if n < 10 then [DigitChar(n)] else NatDigits(n / 10) + [DigitChar(n % 10)]
  }

  /** Java's decimal rendering of an int, as string concatenation produces it. */
  function Decimal(i: int): string {
    if i < 0 then "-" + NatDigits(-i) else NatDigits(i)
  }

  /** Reference reading of a string of decimal digits. */
  function ParseNat(s: string): nat {
    if s == [] then 0 else ParseNat(s[..|s| - 1]) * 10 + DigitValue(s[|s| - 1])
  }

  /** Reference reading of an optionally signed decimal number. */
  function ParseInt(s: string): int {
    if |s| > 0 && s[0] == '-' then -(ParseNat(s[1..]) as int) else ParseNat(s)
  }

  lemma {:induction false} ParseNatDigits(n: nat)
    ensures ParseNat(NatDigits(n)) == n
  {
    if n >= 10 {
      var s := NatDigits(n);
      assert s[..|s| - 1] == NatDigits(n / 10);
      ParseNatDigits(n / 10);
    }
  }

  /** Rendering an id and reading it back gives the id. */
  lemma ParseIntDecimal(i: int)
    ensures ParseInt(Decimal(i)) == i
  {
    if i < 0 {
      assert Decimal(i)[1..] == NatDigits(-i);
      ParseNatDigits(-i);
    } else {
      ParseNatDigits(i);
    }
  }

  /** The fixed text in front of the id: the answer store writes no space
      before the parenthesis, the question store one space. */
  function Prefix(kind: Entity): string {
    match kind
    case AnswerKind => "Answer id not found("
    case QuestionKind => "Question id not found ("
  }

  /** The message of a "not found" error for the given entity and id. */
  function Render(kind: Entity, id: int): string {
    Prefix(kind) + Decimal(id) + ")"
  }

  /** The error the answer store raises for an absent answer id. */
  function AnswerNotFound(id: int): ApiError {
    NotFound(AnswerKind, id, Render(AnswerKind, id))
  }

  /** Reads the id back out of a message rendered for `kind`. */
  function IdInMessage(kind: Entity, m: string): int {
    if |m| <= |Prefix(kind)| then 0 else ParseInt(m[|Prefix(kind)|..|m| - 1])
  }

  /** A rendered message carries its id: it can be read back. */
  lemma RenderCarriesId(kind: Entity, id: int)
    ensures IdInMessage(kind, Render(kind, id)) == id
  {
    var m := Render(kind, id);
    assert m[|Prefix(kind)|..|m| - 1] == Decimal(id);
    ParseIntDecimal(id);
  }

  /** Two equal messages name the same entity kind and the same id. */
  lemma RenderInjective(k1: Entity, i1: int, k2: Entity, i2: int)
    requires Render(k1, i1) == Render(k2, i2)
    ensures k1 == k2 && i1 == i2
  {
    assert Render(k1, i1)[0] == Prefix(k1)[0];
    assert Render(k2, i2)[0] == Prefix(k2)[0];
    RenderCarriesId(k1, i1);
    RenderCarriesId(k2, i2);
  }
}
