/**
 * The few JavaScript values that reach the notification text: primitives, and
 * arrays of `{ msg }` objects. Rendering follows template-literal coercion.
 */
module Js {

  /** A primitive value. Numbers are not modelled. */
  datatype Scalar = Undefined | Null | Bool(b: bool) | Str(s: string)

  /** One `{ msg }` object of a message array; a missing `msg` is `Undefined`. */
  datatype Item = Item(msg: Scalar)

  /** A `text` argument: a primitive, or an array of `{ msg }` objects. */
  datatype Text = Plain(value: Scalar) | List(items: seq<Item>)

  /** JavaScript truthiness of a primitive. */
  predicate Truthy(v: Scalar)
  {
    match v
    case Undefined => false
    case Null => false
    case Bool(b) => b
    case Str(s) => s != ""
  }

  /** Arrays are objects, hence always truthy, even when empty. */
  predicate TextTruthy(t: Text)
  {
    match t
    case Plain(v) => Truthy(v)
    case List(_) => true
  }

  /** `${v}` for a primitive. */
  function Render(v: Scalar): string
  {
    match v
    case Undefined => "undefined"
    case Null => "null"
    case Bool(b) => if b then "true" else "false"
    case Str(s) => s
  }

  /** `String(o)` for a plain object. */
  const ObjectTag: string := "[object Object]"

  /**
   * `${a}` for an array of `n` plain objects: their tags joined by commas, so every
   * sixteenth character is a comma and the others spell out the tag.
   */
  function ObjectsJoined(n: nat): (r: string)
    ensures |r| == if n == 0 then 0 else (|ObjectTag| + 1) * n - 1
    ensures forall i :: 0 <= i < |r| ==> r[i] == if i % 16 == 15 then ',' else ObjectTag[i % 16]
  {
    if n == 0 then ""
    else if n == 1 then ObjectTag
    else
      var previous := ObjectsJoined(n - 1);
      PositionsAfter(n - 1);
      previous + "," + ObjectTag
  }

  /** Where the `k`-th comma and the `k`-th tag after it fall, modulo 16. */
  lemma PositionsAfter(k: nat)
    requires k > 0
    ensures (16 * k - 1) % 16 == 15
    ensures forall j {:trigger ObjectTag[j]} :: 0 <= j < |ObjectTag| ==> (16 * k + j) % 16 == j
  {
  }

  /** `${t}` for a `text` argument. */
  function RenderText(t: Text): string
  {
    match t
    case Plain(v) => Render(v)
    case List(items) => ObjectsJoined(|items|)
  }
}
