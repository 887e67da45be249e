/** A reduced DOM: the content of an element is a list of child nodes.
    Markup text, attributes other than those the widget loader writes, and
    styling other than the pixel height are not represented. */
module Dom {

  datatype Option<+T> = None | Some(value: T)

  /** A `<script>` element as the loader configures it: its fetch target
      (`src`), its `async` flag and its inline text (`innerHTML`). */
  datatype Script = Script(src: string, async: bool, body: string)

  /** A child node of an element.
      - Region: a sized `<div>` (`height: <height>px`, full width) with children
      - ScriptElement: a `<script>` element
      - Markup: any other content, opaque to the loader */
  datatype Node =
    | Region(height: int, inner: seq<Node>)
    | ScriptElement(script: Script)
    | Markup(text: string)

  /** Every script element under `nodes`, in document order. */
  function ScriptsIn(nodes: seq<Node>): seq<Script>
  {
    if nodes == [] then []
    else
      var first := match nodes[0]
        case Region(_, inner) => ScriptsIn(inner)
        case ScriptElement(s) => [s]
        case Markup(_) => [];
      first + ScriptsIn(nodes[1..])
  }

  /** Some region under `nodes` is exactly `h` pixels high: what the tests
      look for as the substring `height: <h>px` of the container's markup. */
  predicate HasRegionOfHeight(nodes: seq<Node>, h: int)
  {
    if nodes == [] then false
    else
      var here := match nodes[0]
        case Region(height, inner) => height == h || HasRegionOfHeight(inner, h)
        case _ => false;
      here || HasRegionOfHeight(nodes[1..], h)
  }
}
