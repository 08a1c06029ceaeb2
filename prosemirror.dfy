/**
 * What `convert_prosemirror_to_markdown` computes (granola_client/utils.py),
 * stated as functions over ProseMirror node values.
 *
 * `process_node` has a side effect besides its output: the `orderedList`
 * branch writes `attrs["order"] = i` into each of its items before rendering
 * it. `Process` therefore returns both the Markdown and the tree as the walk
 * leaves it. When the walk raises (Python's TypeError from `"#" * level`),
 * the tree is returned as far as it had been written when the error occurred.
 */
module ProseMirror {
  import opened Values
  import opened PyText

  /** An attribute value from the parsed JSON: the scalars the renderer formats. */
  datatype Scalar = Null | Bool(b: bool) | Int(i: int) | Str(s: string)

  type Attrs = map<string, Scalar>

  /** A mark: `{"type": kind, "attrs": attrs}`; a missing key reads as "" or {}. */
  datatype Mark = Mark(kind: string, attrs: Attrs)

  /**
   * A node: `{"type", "content", "text", "marks", "attrs"}`. A missing key
   * reads as the default `process_node` gives it: "", [], "", [], {}.
   */
  datatype Node = Node(kind: string, content: seq<Node>, text: string, marks: seq<Mark>, attrs: Attrs)

  /** Python truthiness of a scalar. */
  predicate ScalarTruthy(v: Scalar) {
    match v
    case Null => false
    case Bool(b) => b
    case Int(i) => i != 0
    case Str(s) => s != ""
  }

  /** Python's `str(v)`, as an f-string interpolates a scalar. */
  function Show(v: Scalar): string {
    match v
    case Null => "None"
    case Bool(b) => if b then "True" else "False"
    case Int(i) => Decimal(i)
    case Str(s) => s
  }

  /** `attrs.get(key, default)`. */
  function Get(attrs: Attrs, key: string, default: Scalar): Scalar {
    if key in attrs then attrs[key] else default
  }

  /** One step of the marks loop: the Markdown wrapper for one mark. */
  function Wrap(s: string, m: Mark): string {
    if m.kind == "bold" then "**" + s + "**"
    else if m.kind == "italic" then "*" + s + "*"
    else if m.kind == "code" then "`" + s + "`"
    else if m.kind == "strike" then "~~" + s + "~~"
    else if m.kind == "link" then "[" + s + "](" + Show(Get(m.attrs, "href", Str(""))) + ")"
    else s
  }

  /** The text after the marks loop: each mark in list order wraps what the earlier ones produced. */
  function ApplyMarks(text: string, marks: seq<Mark>): (r: string)
    ensures marks == [] ==> r == text
    ensures |r| >= |text|
    decreases |marks|
  {
    if marks == [] then text
    else Wrap(ApplyMarks(text, marks[..|marks| - 1]), marks[|marks| - 1])
  }

  /** Number of nodes in a tree; the walk's termination measure (writing attrs does not change it). */
  function Size(n: Node): (k: nat)
    ensures k >= 1
  {
    1 + SizeAll(n.content)
  }

  function SizeAll(ns: seq<Node>): nat {
    if ns == [] then 0 else Size(ns[0]) + SizeAll(ns[1..])
  }

  /** The outcome of rendering: Markdown, or the TypeError Python raises. */
  datatype Rendering = Ok(md: string) | TypeError

  /** A rendering together with the node as the walk left it. */
  datatype Step = Step(out: Rendering, tree: Node)

  /** A rendering of a list of children together with the children as the walk left them. */
  datatype Steps = Steps(out: Rendering, trees: seq<Node>)

  /** The first test of `process_node`: a node of type "text", or any node with non-empty text. */
  predicate IsTextNode(n: Node) {
    n.kind == "text" || n.text != ""
  }

  /** Kinds whose rendering is a constant: their children are never visited. */
  predicate IsLeafBlock(n: Node) {
    n.kind == "horizontalRule" || n.kind == "hardBreak"
  }

  /** Two spaces per level of list nesting. */
  function Indent(depth: nat): string {
    Repeat(' ', 2 * depth)
  }

  /** `"#" * attrs.get("level", 1)`; None where Python raises TypeError (a null or string level). */
  function Hashes(attrs: Attrs): Option<string> {
    match Get(attrs, "level", Int(1))
    case Int(i) => Some(Repeat('#', i))
    case Bool(b) => Some(if b then "#" else "")
    case Null => None
    case Str(_) => None
  }

  /** The list marker: `f"{order}. "` for a truthy `attrs.get("order")`, else "- ". */
  function ItemPrefix(attrs: Attrs): string {
    var order := Get(attrs, "order", Null);
    if ScalarTruthy(order) then Show(order) + ". " else "- "
  }

  /** The code fence language: `attrs.get("language", "")` as an f-string shows it. */
  function Language(attrs: Attrs): string {
    Show(Get(attrs, "language", Str("")))
  }

  /** `["> " + line for line in lines]`. */
  function Quoted(lines: seq<string>): (r: seq<string>)
    ensures |r| == |lines|
    ensures forall k :: 0 <= k < |lines| ==> r[k] == "> " + lines[k]
  {
    if lines == [] then [] else ["> " + lines[0]] + Quoted(lines[1..])
  }

  /** A blockquote body: every line of `s` prefixed with "> ", rejoined with newlines. */
  function QuoteLines(s: string): string {
    Join(Quoted(Split(s)))
  }

  /** The depth `process_node` passes to the children of `n`. */
  function ChildDepth(n: Node, depth: nat): nat {
    if n.kind == "listItem" then depth + 1 else depth
  }

  /**
   * The per-kind decoration of the joined children `body` of a non-text node:
   * the branches of `process_node` after their children have been rendered.
   * `doc`, `bulletList`, `orderedList` and every unknown kind pass the body through.
   */
  function Finish(n: Node, depth: nat, body: string): (r: Rendering)
    ensures r.TypeError? <==> n.kind == "heading" && Hashes(n.attrs).None?
  {
    if n.kind == "paragraph" then Ok(if body == "" then "" else body + "\n")
    else if n.kind == "heading" then
      match Hashes(n.attrs)
      case None => TypeError
      case Some(h) => Ok(h + " " + body + "\n")
    else if n.kind == "listItem" then Ok(Indent(depth) + ItemPrefix(n.attrs) + Strip(body) + "\n")
    else if n.kind == "codeBlock" then Ok("```" + Language(n.attrs) + "\n" + body + "\n```\n")
    else if n.kind == "blockquote" then Ok(QuoteLines(Strip(body)) + "\n")
    else Ok(body)
  }

  /** `item_attrs["order"] = i; item["attrs"] = item_attrs`. */
  function Stamp(n: Node, i: int): Node {
    n.(attrs := n.attrs["order" := Int(i)])
  }

  /** `process_node(n, depth)`: its output and the node as it leaves it. */
  function Process(n: Node, depth: nat): Step
    decreases Size(n), 1
  {
    if IsTextNode(n) then Step(Ok(ApplyMarks(n.text, n.marks)), n)
    else if n.kind == "horizontalRule" then Step(Ok("---\n"), n)
    else if n.kind == "hardBreak" then Step(Ok("  \n"), n)
    else
      var kids := ProcessAll(n.content, ChildDepth(n, depth), n.kind == "orderedList", 1);
      var out := match kids.out
        case TypeError => TypeError
        case Ok(body) => Finish(n, depth, body);
      Step(out, n.(content := kids.trees))
  }

  /**
   * The children loop: render `ns` left to right and join the results; in an
   * ordered list each item is first stamped with its 1-based position `index`.
   * An error stops the loop: later children are neither rendered nor stamped.
   */
  function ProcessAll(ns: seq<Node>, depth: nat, ordered: bool, index: nat): Steps
    decreases SizeAll(ns), 2
  {
    if ns == [] then Steps(Ok(""), [])
    else
      var item := if ordered then Stamp(ns[0], index) else ns[0];
      assert Size(item) == 1 + SizeAll(ns[0].content) == Size(ns[0]);
      var first := Process(item, depth);
      if first.out.TypeError? then Steps(TypeError, [first.tree] + ns[1..])
      else
        var rest := ProcessAll(ns[1..], depth, ordered, index + 1);
        var out := match rest.out
          case TypeError => TypeError
          case Ok(more) => Ok(first.out.md + more);
        Steps(out, [first.tree] + rest.trees)
  }

  /** `convert_prosemirror_to_markdown`: the root rendered at depth 0, then stripped. */
  function Convert(doc: Node): Step {
    var s := Process(doc, 0);
    Step(if s.out.Ok? then Ok(Strip(s.out.md)) else TypeError, s.tree)
  }
}
