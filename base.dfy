/** Values shared by every part of the model: optional values, results, the
    errors the PHP code raises, PHP scalar values and PHP string truthiness. */
module Base {

  datatype Option<T> = None | Some(value: T)

  /** The exceptions and errors the modelled PHP code can raise. */
  datatype Failure =
    /** `forEntity` on a class the ORM has no repository for: the PHP listener
        constructor receives null and raises a TypeError. */
    | UnknownEntity(entityClass: string)
    /** `config()` found a DBAL connection whose platform is not MySQL
        (InvalidArgumentException). */
    | NotMySqlConnection(connection: string)
    /** A row event for a table no entity is bound to: the listener looked up
        is null and the first row's dispatch calls a method on null. */
    | UnboundTable(table: string)
    /** A registered listener's entity has no repository (LogicException). */
    | ListenerEntityNotFound(entityClass: string, listener: string)
    /** No registered listener's entity lives on the requested connection
        (InvalidArgumentException). */
    | NoListeners(connection: string)

  datatype Result<T> = Ok(value: T) | Err(error: Failure)

  datatype Outcome = Pass | Fail(error: Failure)

  /** A PHP scalar as it can appear in a configuration array or a row. */
  datatype Value = Null | Text(text: string) | Number(number: int)

  /** PHP's truthiness of a nullable string: null, "" and "0" are false. */
  predicate Truthy(s: Option<string>) {
    s.Some? && s.value != "" && s.value != "0"
  }

  /** PHP's `a ?? b`: the first operand unless it is null. */
  function Coalesce<T>(a: Option<T>, b: Option<T>): (r: Option<T>)
    ensures a.Some? ==> r == a
    ensures a.None? ==> r == b
  {
    if a.Some? then a else b
  }

  function LowerChar(c: char): char {
    if 'A' <= c <= 'Z' then (c as int + 32) as char else c
  }

  /** ASCII lower-casing, as PHP uses to look up method names. */
  function Lower(s: string): (r: string)
    ensures |r| == |s|
  {
    seq(|s|, i requires 0 <= i < |s| => LowerChar(s[i]))
  }

  function DigitChar(d: nat): char
    requires d < 10
  {
    "0123456789"[d]
  }

  function Digits(n: nat): (r: string)
    ensures |r| > 0
    ensures forall i :: 0 <= i < |r| ==> '0' <= r[i] <= '9'
    decreases n
  {
    if n < 10 then [DigitChar(n)] else Digits(n / 10) + [DigitChar(n % 10)]
  }

  /** The decimal text PHP produces when it converts an integer to a string. */
  function DecimalText(n: int): (r: string)
    ensures |r| > 0
    ensures r[0] == '-' <==> n < 0
  {
    if n < 0 then "-" + Digits(-n) else Digits(n)
  }

  // Sequence identities, each stated once. A proof calls one at the step
  // that needs it, which hands the solver the equality outright instead of
  // leaving it to find the extensional argument inside a large context.

  lemma TakeSnoc<T>(s: seq<T>, i: nat)
    requires i < |s|
    ensures s[..i + 1] == s[..i] + [s[i]]
  {
  }

  lemma SplitLast<T>(s: seq<T>)
    requires s != []
    ensures s == s[..|s| - 1] + [s[|s| - 1]]
  {
  }

  lemma TakeAppended<T>(s: seq<T>, x: T)
    ensures (s + [x])[..|s|] == s
  {
  }

  lemma ConcatAssoc<T>(a: seq<T>, b: seq<T>, c: seq<T>)
    ensures (a + b) + c == a + (b + c)
  {
  }
}
