/**
 * The part of Jackson's tree model that the reply adapter uses: the values
 * `ObjectMapper.readTree` produces, the `path` navigation over them and
 * `asText`.
 */
module Json {

  /**
   * A parsed JSON value. Numbers, booleans and `null` are `Scalar`s that
   * carry the text Jackson renders for them with `asText`; how Jackson
   * formats them is not part of this model.
   */
  datatype Json =
    | Text(value: string)
    | Scalar(rendered: string)
    | Array(items: seq<Json>)
    | Object(fields: map<string, Json>)

  /** What `path` returns: a node of the tree, or Jackson's MissingNode. */
  datatype Node = Missing | Present(json: Json)

  /** One `path` call: by field name, or by array index. */
  datatype Step = Key(name: string) | At(index: int)

  /**
   * `JsonNode.path`: an object gives the named field, an array the element
   * at the index; a missing key, an index out of range, a step of the wrong
   * kind, a scalar or a missing node all give the missing node.
   */
  function Path(n: Node, step: Step): Node
  {
    match n
    case Missing => Missing
    case Present(j) =>
      match step
      case Key(name) =>
        if j.Object? && name in j.fields then Present(j.fields[name]) else Missing
      case At(i) =>
        if j.Array? && 0 <= i < |j.items| then Present(j.items[i]) else Missing
  }

  /** A chain of `path` calls, applied left to right. */
  function Navigate(n: Node, steps: seq<Step>): Node
    decreases |steps|
  {
    if steps == [] then n else Navigate(Path(n, steps[0]), steps[1..])
  }

  /** `JsonNode.isArray`. */
  predicate IsArray(n: Node)
  {
    n.Present? && n.json.Array?
  }

  /** `JsonNode.size` of an array node. */
  function Size(n: Node): nat
    requires IsArray(n)
  {
    |n.json.items|
  }

  /**
   * `JsonNode.asText`: a string node gives its value, a scalar its rendering;
   * the missing node and the containers (objects and arrays) give "".
   */
  function AsText(n: Node): string
  {
    match n
    case Missing => ""
    case Present(Text(s)) => s
    case Present(Scalar(r)) => r
    case Present(_) => ""
  }

  /** Once a chain reaches the missing node it stays there, however long it goes on. */
  lemma {:induction false} MissingAbsorbs(steps: seq<Step>)
    ensures Navigate(Missing, steps) == Missing
    decreases |steps|
  {
    if steps != [] {
      MissingAbsorbs(steps[1..]);
    }
  }

  /** Navigating along `a + b` is navigating along `a`, then along `b`. */
  lemma {:induction false} NavigateAppend(n: Node, a: seq<Step>, b: seq<Step>)
    ensures Navigate(n, a + b) == Navigate(Navigate(n, a), b)
    decreases |a|
  {
    if a == [] {
      assert a + b == b;
    } else {
      assert (a + b)[0] == a[0];
      assert (a + b)[1..] == a[1..] + b;
      NavigateAppend(Path(n, a[0]), a[1..], b);
    }
  }
}
