/** Shared vocabulary of the Execution Service model: optional values, the
    abstract clock, identifiers, and the JSON shapes that payloads take. */
module Common {

  /** A nullable value (`DateTime?`, `string?`, `FirstOrDefault` results). */
  datatype Option<T> = None | Some(value: T) {
    function GetOr(default: T): T {
      match this
      case Some(v) => v
      case None => default
    }
  }

  /** The clock is abstract: `DateTime.UtcNow` becomes a natural number passed in. */
  type Instant = nat

  /** `Guid.NewGuid()` becomes a draw from a counter, so a Guid is a natural number. */
  type Guid = nat

  /** Decimal digits of `n` (used as the text of a Guid or an instant). */
  function NatText(n: nat): (r: string)
    ensures |r| >= 1 && (n >= 10 ==> |r| >= 2)
    decreases n
  {
    if n < 10 then [Digit(n)] else NatText(n / 10) + [Digit(n % 10)]
  }

  function Digit(d: nat): (c: char)
    requires d < 10
    ensures '0' <= c <= '9'
  {
    (48 + d) as char
  }

  /** The text is made of decimal digits only. */
  lemma {:induction false} NatTextDigits(n: nat)
    ensures forall k :: 0 <= k < |NatText(n)| ==> '0' <= NatText(n)[k] <= '9'
    decreases n
  {
    if n >= 10 {
      NatTextDigits(n / 10);
    }
  }

  /** Different numbers have different texts, so a Guid's text names it. */
  lemma {:induction false} NatTextInjective(a: nat, b: nat)
    requires NatText(a) == NatText(b)
    ensures a == b
    decreases a
  {
    var t := NatText(a);
    if a >= 10 && b >= 10 {
      assert t[|t| - 1] == Digit(a % 10) && t[|t| - 1] == Digit(b % 10);
      assert t[..|t| - 1] == NatText(a / 10) && t[..|t| - 1] == NatText(b / 10);
      NatTextInjective(a / 10, b / 10);
    } else if a < 10 && b < 10 {
      assert t[0] == Digit(a) && t[0] == Digit(b);
    }
  }

  /** `Guid.ToString()`: the text under which an id travels in payloads and attributes. */
  function GuidText(g: Guid): string {
    NatText(g)
  }

  /** A JSON value as the payload readers see it: `GetString()` succeeds on a
      string (and yields null on `Null`), `GetDecimal()` on a number, written
      `Num` when it has a fraction and `Int` when it is whole; anything else
      (objects, arrays, booleans) is `Other`. */
  datatype JsonValue = Str(s: string) | Num(x: real) | Int(n: int) | Null | Other

  /** The properties of a JSON object payload that the service writes or
      reads, each absent (`None`) or holding a value; each field stands for
      the JSON property of the same name in PascalCase. Properties that no
      reader consults are not represented. */
  datatype Props = Props(
    osId: Option<JsonValue>,
    correlationId: Option<JsonValue>,
    jobId: Option<JsonValue>,
    status: Option<JsonValue>,
    createdAt: Option<JsonValue>,
    updatedAt: Option<JsonValue>,
    finishedAt: Option<JsonValue>,
    durationSeconds: Option<JsonValue>,
    reason: Option<JsonValue>,
    canceledAt: Option<JsonValue>,
    paymentId: Option<JsonValue>,
    amount: Option<JsonValue>)

  /** The empty object `{}`. */
  const NoProps := Props(None, None, None, None, None, None, None, None, None, None, None, None)

  /** A payload body: a JSON object, or text that does not parse as one. */
  datatype Payload = Object(props: Props) | Unparseable(text: string)

  /** Outcome of `GetString()` on a JSON value: the (possibly null) string, or an exception. */
  datatype StringRead = Got(s: Option<string>) | Threw

  function GetString(v: JsonValue): (r: StringRead)
    ensures r.Got? <==> v.Str? || v.Null?
    ensures v.Str? ==> r == Got(Some(v.s))
    ensures v.Null? ==> r == Got(None)
  {
    match v
    case Str(s) => Got(Some(s))
    case Null => Got(None)
    case _ => Threw
  }
}
