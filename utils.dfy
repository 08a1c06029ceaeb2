/**
 * granola_client/utils.py as the source runs it: `process_node` walks a tree
 * of mutable dicts, builds each node's output in loops, and writes
 * `attrs["order"]` into the items of every ordered list it visits.
 *
 * The dict tree is a tree of `NodeDict` objects. Its shape (type, text, marks,
 * children) never changes; only `attrs` is written. Each method is proved
 * against the functions of module ProseMirror: it returns what `Process` says
 * and leaves the tree as `Process` says.
 */
module Utils {
  import opened Values
  import opened PyText
  import opened ProseMirror

  /** The marks loop of `process_node`: `formatted_text` wrapped once per mark, in list order. */
  method FormatText(text: string, marks: seq<Mark>) returns (formatted: string)
    ensures formatted == ApplyMarks(text, marks)
  {
    formatted := text;
    for i := 0 to |marks|
      invariant formatted == ApplyMarks(text, marks[..i])
    {
      var mark := marks[i];
      if mark.kind == "bold" {
        formatted := "**" + formatted + "**";
      } else if mark.kind == "italic" {
        formatted := "*" + formatted + "*";
      } else if mark.kind == "code" {
        formatted := "`" + formatted + "`";
      } else if mark.kind == "strike" {
        formatted := "~~" + formatted + "~~";
      } else if mark.kind == "link" {
        var href := Get(mark.attrs, "href", Str(""));
        formatted := "[" + formatted + "](" + Show(href) + ")";
      }
      assert marks[..i + 1][..i] == marks[..i];
    }
    assert marks[..|marks|] == marks;
  }

  /** The children's results glued behind what the loop has produced so far. */
  function Behind(acc: string, done: seq<Node>, rest: Steps): Steps {
    Steps(if rest.out.Ok? then Ok(acc + rest.out.md) else TypeError, done + rest.trees)
  }

  /** One node of the parsed ProseMirror JSON, as the dict `process_node` reads and writes. */
  class NodeDict {
    const kind: string
    const text: string
    const marks: seq<Mark>
    const content: seq<NodeDict>
    var attrs: Attrs
    ghost const Repr: set<object>

    /** The objects below form a tree: every child owns a disjoint part of `Repr`. */
    ghost predicate Valid()
      decreases Repr
    {
      && this in Repr
      && (forall i :: 0 <= i < |content| ==>
            && content[i] in Repr
            && content[i].Repr <= Repr
            && this !in content[i].Repr
            && content[i].Valid())
      && (forall i, j :: 0 <= i < j < |content| ==> content[i].Repr !! content[j].Repr)
    }

    /** The children as values. */
    ghost function Children(): (r: seq<Node>)
      requires Valid()
      reads Repr - {this}
      decreases Repr, 0
      ensures |r| == |content|
    {
      seq(|content|, i requires 0 <= i < |content| reads Repr - {this} => content[i].Value())
    }

    /** This node and everything below it as a value. */
    ghost function Value(): Node
      requires Valid()
      reads Repr
      decreases Repr, 1
    {
      Node(kind, Children(), text, marks, attrs)
    }

    /** A node built from parsed JSON, over children that own disjoint objects. */
    constructor (kind: string, text: string, marks: seq<Mark>, attrs: Attrs, content: seq<NodeDict>)
      requires forall i :: 0 <= i < |content| ==> content[i].Valid()
      requires forall i, j :: 0 <= i < j < |content| ==> content[i].Repr !! content[j].Repr
      ensures Valid() && fresh(this)
      ensures this.kind == kind && this.text == text && this.marks == marks
      ensures this.attrs == attrs && this.content == content
    {
      this.kind := kind;
      this.text := text;
      this.marks := marks;
      this.attrs := attrs;
      this.content := content;
      this.Repr := {this} + Owned(content);
      new;
    }

    /** `process_node(self, depth)`. */
    method ProcessNode(depth: nat) returns (out: Rendering)
      requires Valid()
      modifies Repr - {this}
      decreases Repr, 2
      ensures Process(old(Value()), depth) == Step(out, Value())
    {
      if kind == "text" || text != "" {
        var formatted := FormatText(text, marks);
        return Ok(formatted);
      }
      if kind == "doc" {
        out := ProcessContent(depth, false);
      } else if kind == "paragraph" {
        var para := ProcessContent(depth, false);
        if para.Ok? && para.md != "" {
          out := Ok(para.md + "\n");
        } else {
          out := para;
        }
      } else if kind == "heading" {
        var level := Hashes(attrs);
        var heading := ProcessContent(depth, false);
        if heading.TypeError? || level.None? {
          out := TypeError;
        } else {
          out := Ok(level.value + " " + heading.md + "\n");
        }
      } else if kind == "bulletList" {
        out := ProcessContent(depth, false);
      } else if kind == "orderedList" {
        out := ProcessContent(depth, true);
      } else if kind == "listItem" {
        var item := ProcessContent(depth + 1, false);
        if item.Ok? {
          out := Ok(Indent(depth) + ItemPrefix(attrs) + Strip(item.md) + "\n");
        } else {
          out := TypeError;
        }
      } else if kind == "codeBlock" {
        var language := Language(attrs);
        var code := ProcessContent(depth, false);
        if code.Ok? {
          out := Ok("```" + language + "\n" + code.md + "\n```\n");
        } else {
          out := TypeError;
        }
      } else if kind == "blockquote" {
        var quote := ProcessContent(depth, false);
        if quote.Ok? {
          out := Ok(QuoteLines(Strip(quote.md)) + "\n");
        } else {
          out := TypeError;
        }
      } else if kind == "horizontalRule" {
        out := Ok("---\n");
      } else if kind == "hardBreak" {
        out := Ok("  \n");
      } else {
        out := ProcessContent(depth, false);
      }
    }

    /**
     * The loop over `content` shared by the branches of `process_node`:
     * render each child and join the results; in an ordered list, first
     * write the child's 1-based position into its `attrs["order"]`.
     */
    method ProcessContent(depth: nat, ordered: bool) returns (out: Rendering)
      requires Valid()
      modifies Repr - {this}
      decreases Repr, 1
      ensures ProcessAll(old(Children()), depth, ordered, 1) == Steps(out, Children())
    {
      ghost var before := Children();
      ghost var done: seq<Node> := [];
      var acc := "";
      var i := 0;
      while i < |content|
        invariant 0 <= i <= |content| && |done| == i
        invariant Children() == done + before[i..]
        invariant ProcessAll(before, depth, ordered, 1)
                  == Behind(acc, done, ProcessAll(before[i..], depth, ordered, i + 1))
      {
        var r := ProcessChild(i, depth, ordered);
        ghost var tree := Children()[i];
        LoopStep(before, i, depth, ordered, acc, done, r, tree);
        Replaced(done, before, i, tree);
        if r.TypeError? {
          return TypeError;
        }
        acc := acc + r.md;
        done := done + [tree];
        i := i + 1;
      }
      out := Ok(acc);
    }

    /** One turn of the children loop: stamp child `i` if the list is ordered, then render it. */
    method ProcessChild(i: nat, depth: nat, ordered: bool) returns (r: Rendering)
      requires Valid() && i < |content|
      modifies content[i].Repr
      decreases Repr, 0
      ensures Process(ChildItem(old(Children())[i], i, ordered), depth) == Step(r, Children()[i])
      ensures Children() == old(Children())[i := Children()[i]]
    {
      var item := content[i];
      if ordered {
        item.attrs := item.attrs["order" := Int(i + 1)];
      }
      r := item.ProcessNode(depth);
    }
  }

  /** Every object owned by some node of `ns`. */
  ghost function Owned(ns: seq<NodeDict>): (r: set<object>)
    ensures forall i :: 0 <= i < |ns| ==> ns[i].Repr <= r
  {
    if ns == [] then {} else ns[0].Repr + Owned(ns[1..])
  }

  /** The node the loop renders in place of child `i`: stamped with `i + 1` in an ordered list. */
  function ChildItem(n: Node, i: nat, ordered: bool): Node {
    if ordered then Stamp(n, i + 1) else n
  }

  /** Replacing child `i` moves it from the children still ahead to the children done. */
  lemma Replaced(done: seq<Node>, ns: seq<Node>, i: nat, tree: Node)
    requires |done| == i < |ns|
    ensures (done + ns[i..])[i := tree] == done + [tree] + ns[i + 1..]
  {
  }

  /** A rendered first child in front of the rendering of the rest. */
  function Glue(first: Step, rest: Steps): Steps
    requires first.out.Ok?
  {
    Steps(if rest.out.Ok? then Ok(first.out.md + rest.out.md) else TypeError, [first.tree] + rest.trees)
  }

  /** What one turn of the children loop adds to the joined output and to the children left behind. */
  lemma LoopStep(ns: seq<Node>, i: nat, depth: nat, ordered: bool, acc: string, done: seq<Node>, r: Rendering, tree: Node)
    requires i < |ns|
    requires Process(ChildItem(ns[i], i, ordered), depth) == Step(r, tree)
    ensures r.TypeError? ==>
      Behind(acc, done, ProcessAll(ns[i..], depth, ordered, i + 1)) == Steps(TypeError, done + [tree] + ns[i + 1..])
    ensures r.Ok? ==>
      Behind(acc, done, ProcessAll(ns[i..], depth, ordered, i + 1))
      == Behind(acc + r.md, done + [tree], ProcessAll(ns[i + 1..], depth, ordered, i + 2))
  {
    assert ns[i..][0] == ns[i] && ns[i..][1..] == ns[i + 1..];
    var rest := ProcessAll(ns[i + 1..], depth, ordered, i + 2);
    if r.TypeError? {
      assert done + ([tree] + ns[i + 1..]) == done + [tree] + ns[i + 1..];
    } else {
      assert ProcessAll(ns[i..], depth, ordered, i + 1) == Glue(Step(r, tree), rest);
      assert done + ([tree] + rest.trees) == done + [tree] + rest.trees;
      if rest.out.Ok? {
        assert acc + (r.md + rest.out.md) == acc + r.md + rest.out.md;
      }
    }
  }

  /** `convert_prosemirror_to_markdown(root)`: render from depth 0, then strip. */
  method ConvertProseMirrorToMarkdown(root: NodeDict) returns (out: Rendering)
    requires root.Valid()
    modifies root.Repr - {root}
    ensures Convert(old(root.Value())) == Step(out, root.Value())
  {
    var raw := root.ProcessNode(0);
    if raw.Ok? {
      out := Ok(Strip(raw.md));
    } else {
      out := TypeError;
    }
  }
}
