/**
 * The JavaScript values the stores pass around: response records, the login
 * record, the parsed session user. JSON numbers are kept as integers.
 */
module JsonValue {
  import opened Wrappers

  datatype Json =
    | JNull
    | JBool(b: bool)
    | JNum(n: int)
    | JStr(s: string)
    | JArr(elems: seq<Json>)
    | JObj(fields: map<string, Json>)

  /** JavaScript truthiness: what `if (x)`, `!x` and `x || y` test. */
  predicate Truthy(j: Json) {
    match j
    case JNull => false
    case JBool(b) => b
    case JNum(n) => n != 0
    case JStr(s) => s != ""
    case _ => true
  }

  /** The decimal digits of a natural number, most significant first. */
  function Digits(n: nat): (r: string)
    ensures |r| >= 1 && forall i :: 0 <= i < |r| ==> '0' <= r[i] <= '9'
    ensures n >= 10 ==> r[0] != '0'
  {
    var d := ('0' as int + n % 10) as char;
    if n < 10 then [d] else Digits(n / 10) + [d]
  }

  /** The value a decimal string denotes; the partner of Digits. */
  function DigitsValue(r: string): int
  {
    if r == [] then 0 else 10 * DigitsValue(r[..|r| - 1]) + (r[|r| - 1] as int - '0' as int)
  }

  lemma {:induction false} DigitsRoundTrip(n: nat)
    ensures DigitsValue(Digits(n)) == n
  {
    var r := Digits(n);
    if n >= 10 {
      DigitsRoundTrip(n / 10);
      assert r[..|r| - 1] == Digits(n / 10);
      assert r[|r| - 1] as int - '0' as int == n % 10;
    }
  }

  /**
   * `String(v)`: the text that `Storage.setItem` stores for a value it is
   * given. A missing property (`undefined`) is `None`.
   */
  function StorageText(v: Option<Json>): string {
    match v
    case None => "undefined"
    case Some(j) => ToText(j)
  }

  function ToText(j: Json): string
    decreases j, 1
  {
    match j
    case JNull => "null"
    case JBool(b) => if b then "true" else "false"
    case JNum(n) => if n < 0 then "-" + Digits(-n) else Digits(n)
    case JStr(s) => s
    case JArr(es) => JoinText(es)
    case JObj(_) => "[object Object]"
  }

  /** `Array.prototype.join(",")`, where a null element contributes nothing. */
  function JoinText(es: seq<Json>): string
    decreases es, 0
  {
    if es == [] then ""
    else
      var head := if es[0] == JNull then "" else ToText(es[0]);
      if |es| == 1 then head else head + "," + JoinText(es[1..])
  }

  /**
   * `JSON.stringify` and `JSON.parse`, left abstract: the model only relies
   * on the laws in Lawful.
   */
  datatype Codec = Codec(stringify: Json -> string, parse: string -> Option<Json>)

  /** The empty string is not JSON, and parsing undoes serialising. */
  ghost predicate Lawful(c: Codec) {
    && c.parse("") == None
    && forall j :: c.parse(c.stringify(j)) == Some(j)
  }

  /** Under a lawful codec a serialised value is never the empty string. */
  lemma StringifyNonEmpty(c: Codec, j: Json)
    requires Lawful(c)
    ensures c.stringify(j) != ""
  {
    assert c.parse(c.stringify(j)) == Some(j);
  }
}
