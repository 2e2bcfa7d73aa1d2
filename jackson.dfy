/**
 * The part of Jackson's tree model (`JsonNode`) the back end reads: `path`, `isArray`,
 * iteration over an array node, and the coercing reads `asText`, `asInt` and `asDouble`
 * with and without a default. Parsing itself is not modelled: the controller receives a tree.
 */
module Jackson {
  import opened Wrappers
  import opened Text

  /** Java's `int`. */
  type Int32 = x: int | -0x8000_0000 <= x < 0x8000_0000

  /** Java's `double`, with its two special kinds of value. */
  datatype DoubleVal = NaN | Infinity(negative: bool) | Finite(value: real)

  /**
   * A node of Jackson's tree. IntNode stands for every integral node (int, long and
   * BigInteger) and DoubleNode for every floating one; MissingNode is what `path`
   * returns for an absent member.
   */
  datatype JsonNode =
    | MissingNode
    | NullNode
    | BooleanNode(b: bool)
    | IntNode(i: int)
    | DoubleNode(d: real)
    | TextNode(text: string)
    | ArrayNode(elements: seq<JsonNode>)
    | ObjectNode(fields: map<string, JsonNode>)

  /**
   * The number conversions Jackson delegates to the JDK: printing a double
   * (`Double.toString`) and reading numbers out of text (None where the JDK throws
   * NumberFormatException and Jackson falls back to the default).
   */
  datatype Coercions = Coercions(
    formatDouble: real -> string,
    parseInt: string -> Option<Int32>,
    parseDouble: string -> Option<DoubleVal>)

  /** `node.path(name)`: the member of an object node, MissingNode for anything else. */
  function Path(node: JsonNode, name: string): (r: JsonNode)
    ensures node.ObjectNode? && name in node.fields ==> r == node.fields[name]
    ensures !(node.ObjectNode? && name in node.fields) ==> r.MissingNode?
  {
    if node.ObjectNode? && name in node.fields then node.fields[name] else MissingNode
  }

  predicate IsArray(node: JsonNode) {
    node.ArrayNode?
  }

  /** `node.asText()`: the text of a scalar, "null" for NullNode, "" for MissingNode and containers. */
  function AsText(node: JsonNode, c: Coercions): (r: string)
    ensures node.TextNode? ==> r == node.text
    ensures node.NullNode? ==> r == "null"
    ensures node.MissingNode? || node.ArrayNode? || node.ObjectNode? ==> r == ""
    ensures node.IntNode? ==> r == IntToString(node.i)
  {
    match node
    case MissingNode => ""
    case NullNode => "null"
    case BooleanNode(b) => if b then "true" else "false"
    case IntNode(i) => IntToString(i)
    case DoubleNode(d) => c.formatDouble(d)
    case TextNode(t) => t
    case ArrayNode(_) => ""
    case ObjectNode(_) => ""
  }

  /** `node.asText(default)`: the default for MissingNode and NullNode, otherwise `asText()`. */
  function AsTextOr(node: JsonNode, default: string, c: Coercions): (r: string)
    ensures node.MissingNode? || node.NullNode? ==> r == default
    ensures node.TextNode? ==> r == node.text
  {
    if node.MissingNode? || node.NullNode? then default else AsText(node, c)
  }

  /** `(int) v` for a long or BigInteger: the low 32 bits, read as two's complement. */
  function WrapInt32(v: int): Int32 {
    (v + 0x8000_0000) % 0x1_0000_0000 - 0x8000_0000
  }

  /** Narrowing keeps a value that fits and otherwise agrees with it modulo 2^32. */
  lemma WrapInt32Narrows(v: int)
    ensures -0x8000_0000 <= v < 0x8000_0000 ==> WrapInt32(v) == v
    ensures (v - WrapInt32(v)) % 0x1_0000_0000 == 0
  {
  }

  /** `(int) d` for a finite double: truncation toward zero, saturating at the int range. */
  function DoubleToInt32(d: real): Int32 {
    var t := if d >= 0.0 then d.Floor else -((-d).Floor);
    if t < -0x8000_0000 then -0x8000_0000
    else if t >= 0x8000_0000 then 0x7fff_ffff
    else t
  }

  /** The cast truncates toward zero and saturates at both ends of the int range. */
  lemma DoubleToInt32Truncates(d: real)
    ensures d >= 2147483647.0 ==> DoubleToInt32(d) == 0x7fff_ffff
    ensures d <= -2147483648.0 ==> DoubleToInt32(d) == -0x8000_0000
    ensures 0.0 <= d < 2147483647.0 ==> DoubleToInt32(d) as real <= d < DoubleToInt32(d) as real + 1.0
    ensures -2147483648.0 < d < 0.0 ==> DoubleToInt32(d) as real - 1.0 < d <= DoubleToInt32(d) as real
  {
  }

  /**
   * `node.asInt(default)`: numbers are narrowed to int, booleans read as 1 and 0, text is
   * parsed, and MissingNode, NullNode and containers give the default.
   */
  function AsIntOr(node: JsonNode, default: Int32, c: Coercions): (r: Int32)
    ensures node.MissingNode? || node.NullNode? || node.ArrayNode? || node.ObjectNode? ==> r == default
    ensures node.IntNode? ==> r == WrapInt32(node.i)
    ensures node.IntNode? && -0x8000_0000 <= node.i < 0x8000_0000 ==> r == node.i
    ensures node.DoubleNode? ==> r == DoubleToInt32(node.d)
    ensures node.BooleanNode? ==> r == if node.b then 1 else 0
  {
    match node
    case BooleanNode(b) => if b then 1 else 0
    case IntNode(i) => WrapInt32(i)
    case DoubleNode(d) => DoubleToInt32(d)
    case TextNode(t) => (match c.parseInt(t) case Some(v) => v case None => default)
    case _ => default
  }

  /**
   * `node.asDouble(default)`: numbers are widened (exactly, in this model), booleans read
   * as 1.0 and 0.0, text is parsed, and MissingNode, NullNode and containers give the default.
   */
  function AsDoubleOr(node: JsonNode, default: DoubleVal, c: Coercions): (r: DoubleVal)
    ensures node.MissingNode? || node.NullNode? || node.ArrayNode? || node.ObjectNode? ==> r == default
    ensures node.DoubleNode? ==> r == Finite(node.d)
    ensures node.IntNode? ==> r == Finite(node.i as real)
    ensures node.BooleanNode? ==> r == Finite(if node.b then 1.0 else 0.0)
  {
    match node
    case BooleanNode(b) => Finite(if b then 1.0 else 0.0)
    case IntNode(i) => Finite(i as real)
    case DoubleNode(d) => Finite(d)
    case TextNode(t) => (match c.parseDouble(t) case Some(v) => v case None => default)
    case _ => default
  }
}
