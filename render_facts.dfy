/**
 * What the ProseMirror renderer of granola_client/utils.py promises, proved
 * about the functions of module ProseMirror: how marks wrap text, that the
 * children of a node are rendered in order and concatenated, that the only
 * failure is a heading whose level cannot multiply a string, that the walk
 * writes nothing but `attrs["order"]` and numbers the items of every ordered
 * list 1, 2, 3, ..., that rendering again the tree a walk leaves behind gives
 * the same Markdown and the same tree, and the line shapes of list items,
 * blockquotes and the final strip.
 */
module RenderFacts {
  import Values
  import opened PyText
  import opened ProseMirror

  // ---------------------------------------------------------------- marks

  /** What a mark puts in front of the text it wraps. */
  function Open(m: Mark): string {
    if m.kind == "bold" then "**"
    else if m.kind == "italic" then "*"
    else if m.kind == "code" then "`"
    else if m.kind == "strike" then "~~"
    else if m.kind == "link" then "["
    else ""
  }

  /** What a mark puts after the text it wraps. */
  function Close(m: Mark): string {
    if m.kind == "bold" then "**"
    else if m.kind == "italic" then "*"
    else if m.kind == "code" then "`"
    else if m.kind == "strike" then "~~"
    else if m.kind == "link" then "](" + Show(Get(m.attrs, "href", Str(""))) + ")"
    else ""
  }

  /** The openings of all marks: the last mark's outermost. */
  function Opens(ms: seq<Mark>): string
    decreases |ms|
  {
    if ms == [] then "" else Open(ms[|ms| - 1]) + Opens(ms[..|ms| - 1])
  }

  /** The closings of all marks: the last mark's outermost. */
  function Closes(ms: seq<Mark>): string
    decreases |ms|
  {
    if ms == [] then "" else Closes(ms[..|ms| - 1]) + Close(ms[|ms| - 1])
  }

  /** The marks the renderer knows; every other mark type leaves the text alone. */
  predicate KnownMark(m: Mark) {
    m.kind in {"bold", "italic", "code", "strike", "link"}
  }

  /** `ms` without the marks of unknown types, in the same order. */
  function KnownMarks(ms: seq<Mark>): (r: seq<Mark>)
    ensures |r| <= |ms|
    ensures forall k :: 0 <= k < |r| ==> KnownMark(r[k])
    decreases |ms|
  {
    if ms == [] then []
    else if KnownMark(ms[|ms| - 1]) then KnownMarks(ms[..|ms| - 1]) + [ms[|ms| - 1]]
    else KnownMarks(ms[..|ms| - 1])
  }

  /** One mark: its opening, the text, its closing. */
  lemma WrapSurround(s: string, m: Mark)
    ensures Wrap(s, m) == Open(m) + s + Close(m)
  {
  }

  /** The text of a marked text node appears unchanged between the marks' openings and closings. */
  lemma {:induction false} MarksSurround(text: string, ms: seq<Mark>)
    ensures ApplyMarks(text, ms) == Opens(ms) + text + Closes(ms)
    decreases |ms|
  {
    if ms != [] {
      var init, m := ms[..|ms| - 1], ms[|ms| - 1];
      var inner := ApplyMarks(text, init);
      MarksSurround(text, init);
      WrapSurround(inner, m);
      Regroup(Open(m), Opens(init), text, Closes(init), Close(m));
    }
  }

  lemma Regroup(a: string, b: string, c: string, d: string, e: string)
    ensures a + (b + c + d) + e == (a + b) + c + (d + e)
  {
  }

  /** Marks are applied in list order: the later marks wrap what the earlier ones produced. */
  lemma {:induction false} MarksInOrder(text: string, xs: seq<Mark>, ys: seq<Mark>)
    ensures ApplyMarks(text, xs + ys) == ApplyMarks(ApplyMarks(text, xs), ys)
    decreases |ys|
  {
    if ys == [] {
      assert xs + ys == xs;
    } else {
      var init := ys[..|ys| - 1];
      assert (xs + ys)[..|xs + ys| - 1] == xs + init;
      assert (xs + ys)[|xs + ys| - 1] == ys[|ys| - 1];
      MarksInOrder(text, xs, init);
    }
  }

  /** A mark of an unknown type has no effect on the rendering. */
  lemma {:induction false} UnknownMarksIgnored(text: string, ms: seq<Mark>)
    ensures ApplyMarks(text, ms) == ApplyMarks(text, KnownMarks(ms))
    decreases |ms|
  {
    if ms != [] {
      var init, m := ms[..|ms| - 1], ms[|ms| - 1];
      UnknownMarksIgnored(text, init);
      if KnownMark(m) {
        var k := KnownMarks(init) + [m];
        assert k[..|k| - 1] == KnownMarks(init);
      }
    }
  }

  // ------------------------------------------------------ children in order

  /** The joined rendering of two lists of children: an error in either is an error. */
  function Then(a: Rendering, b: Rendering): (r: Rendering)
    ensures r.Ok? <==> a.Ok? && b.Ok?
  {
    if a.Ok? && b.Ok? then Ok(a.md + b.md) else TypeError
  }

  /**
   * Children are rendered left to right without reordering: rendering `xs + ys`
   * is rendering `xs`, then (only if that succeeded) rendering `ys` numbered on
   * from where `xs` stopped.
   */
  lemma {:induction false} ChildrenInOrder(xs: seq<Node>, ys: seq<Node>, depth: nat, ordered: bool, index: nat)
    ensures ProcessAll(xs + ys, depth, ordered, index).out
            == Then(ProcessAll(xs, depth, ordered, index).out, ProcessAll(ys, depth, ordered, index + |xs|).out)
    decreases |xs|
  {
    if xs == [] {
      assert xs + ys == ys;
    } else {
      var all := xs + ys;
      assert all[0] == xs[0] && all[1..] == xs[1..] + ys;
      ChildrenInOrder(xs[1..], ys, depth, ordered, index + 1);
      var item := if ordered then Stamp(xs[0], index) else xs[0];
      var first := Process(item, depth);
      if first.out.Ok? {
        var rest := ProcessAll(xs[1..], depth, ordered, index + 1);
        var tail := ProcessAll(ys, depth, ordered, index + |xs|);
        if rest.out.Ok? && tail.out.Ok? {
          assert first.out.md + (rest.out.md + tail.out.md) == first.out.md + rest.out.md + tail.out.md;
        }
      }
    }
  }

  /** The children after a split are left in order too; after an error the later ones are not touched. */
  lemma {:induction false} ChildTreesInOrder(xs: seq<Node>, ys: seq<Node>, depth: nat, ordered: bool, index: nat)
    ensures ProcessAll(xs + ys, depth, ordered, index).trees
            == ProcessAll(xs, depth, ordered, index).trees
               + (if ProcessAll(xs, depth, ordered, index).out.Ok? then ProcessAll(ys, depth, ordered, index + |xs|).trees else ys)
    decreases |xs|
  {
    if xs == [] {
      assert xs + ys == ys;
    } else {
      var all := xs + ys;
      assert all[0] == xs[0] && all[1..] == xs[1..] + ys;
      ChildTreesInOrder(xs[1..], ys, depth, ordered, index + 1);
      TreesCons(all, depth, ordered, index);
      TreesCons(xs, depth, ordered, index);
      var first := Process(if ordered then Stamp(xs[0], index) else xs[0], depth);
      var tail := ProcessAll(xs[1..], depth, ordered, index + 1);
      assert index + 1 + |xs[1..]| == index + |xs|;
      Assemble(first.tree, first.out.TypeError?, ProcessAll(xs, depth, ordered, index).out.Ok?, tail.out.Ok?,
               ProcessAll(all, depth, ordered, index).trees, ProcessAll(xs, depth, ordered, index).trees,
               ProcessAll(xs[1..] + ys, depth, ordered, index + 1).trees, tail.trees,
               ProcessAll(ys, depth, ordered, index + |xs|).trees, xs[1..], ys);
    }
  }

  /** The children a non-empty loop leaves: the first as rendered, then the rest as rendered or untouched. */
  lemma TreesCons(ns: seq<Node>, depth: nat, ordered: bool, index: nat)
    requires ns != []
    ensures var first := Process(if ordered then Stamp(ns[0], index) else ns[0], depth);
      && ProcessAll(ns, depth, ordered, index).trees
         == [first.tree] + (if first.out.TypeError? then ns[1..] else ProcessAll(ns[1..], depth, ordered, index + 1).trees)
      && (first.out.Ok? ==> ProcessAll(ns, depth, ordered, index).out.Ok? == ProcessAll(ns[1..], depth, ordered, index + 1).out.Ok?)
      && (first.out.TypeError? ==> ProcessAll(ns, depth, ordered, index).out.TypeError?)
  {
  }

  /** The step of `ChildTreesInOrder` as sequence algebra: a first child put in front of both sides. */
  lemma Assemble(t: Node, failed: bool, okXs: bool, okTail: bool, allTrees: seq<Node>, xsTrees: seq<Node>,
                 tailAll: seq<Node>, tail: seq<Node>, ysTrees: seq<Node>, rest: seq<Node>, ys: seq<Node>)
    requires allTrees == [t] + (if failed then rest + ys else tailAll)
    requires xsTrees == [t] + (if failed then rest else tail)
    requires failed ==> !okXs
    requires !failed ==> okXs == okTail
    requires tailAll == tail + (if okTail then ysTrees else ys)
    ensures allTrees == xsTrees + (if okXs then ysTrees else ys)
  {
  }

  // ------------------------------------------------------------- failure

  /**
   * A node whose rendering reaches a heading with a null or string `level`:
   * the only node for which `"#" * level` raises. Children of text nodes and
   * of rules and breaks are never visited and cannot fail.
   */
  predicate Faulty(n: Node)
    decreases Size(n), 1
  {
    && !IsTextNode(n) && !IsLeafBlock(n)
    && ((n.kind == "heading" && Hashes(n.attrs).None?) || AnyFaulty(n.content))
  }

  predicate AnyFaulty(ns: seq<Node>)
    decreases SizeAll(ns), 2
  {
    ns != [] && (Faulty(ns[0]) || AnyFaulty(ns[1..]))
  }

  /** Writing `attrs["order"]` cannot make a node fail or stop it failing. */
  lemma StampKeepsFault(n: Node, i: int)
    ensures Faulty(Stamp(n, i)) == Faulty(n)
  {
    assert Get(Stamp(n, i).attrs, "level", Int(1)) == Get(n.attrs, "level", Int(1));
  }

  /** Rendering fails exactly when some visited heading has a null or string level. */
  lemma {:induction false} FailsIffFaulty(n: Node, depth: nat)
    ensures Process(n, depth).out.TypeError? <==> Faulty(n)
    decreases Size(n), 1
  {
    if !IsTextNode(n) && !IsLeafBlock(n) {
      AllFailIffAnyFaulty(n.content, ChildDepth(n, depth), n.kind == "orderedList", 1);
    }
  }

  lemma {:induction false} AllFailIffAnyFaulty(ns: seq<Node>, depth: nat, ordered: bool, index: nat)
    ensures ProcessAll(ns, depth, ordered, index).out.TypeError? <==> AnyFaulty(ns)
    decreases SizeAll(ns), 2
  {
    if ns != [] {
      var item := if ordered then Stamp(ns[0], index) else ns[0];
      assert Size(item) == Size(ns[0]);
      StampKeepsFault(ns[0], index);
      FailsIffFaulty(item, depth);
      AllFailIffAnyFaulty(ns[1..], depth, ordered, index + 1);
    }
  }

  // -------------------------------------------------------- the write-back

  /** A tree with every `attrs["order"]` removed: what the walk may not change. */
  function Unnumbered(n: Node): Node
    decreases Size(n), 1
  {
    Node(n.kind, UnnumberedAll(n.content), n.text, n.marks, n.attrs - {"order"})
  }

  function UnnumberedAll(ns: seq<Node>): (r: seq<Node>)
    ensures |r| == |ns|
    decreases SizeAll(ns), 2
  {
    if ns == [] then [] else [Unnumbered(ns[0])] + UnnumberedAll(ns[1..])
  }

  lemma UnnumberedCons(n: Node, ns: seq<Node>)
    ensures UnnumberedAll([n] + ns) == [Unnumbered(n)] + UnnumberedAll(ns)
  {
    assert ([n] + ns)[0] == n && ([n] + ns)[1..] == ns;
  }

  lemma UnnumberedStamp(n: Node, i: int)
    ensures Unnumbered(Stamp(n, i)) == Unnumbered(n)
  {
    assert Stamp(n, i).attrs - {"order"} == n.attrs - {"order"};
  }

  /** Whether it succeeds or fails, the walk writes nothing but `attrs["order"]` keys. */
  lemma {:induction false} WritesOnlyOrder(n: Node, depth: nat)
    ensures Unnumbered(Process(n, depth).tree) == Unnumbered(n)
    decreases Size(n), 1
  {
    if !IsTextNode(n) && !IsLeafBlock(n) {
      AllWriteOnlyOrder(n.content, ChildDepth(n, depth), n.kind == "orderedList", 1);
    }
  }

  lemma {:induction false} AllWriteOnlyOrder(ns: seq<Node>, depth: nat, ordered: bool, index: nat)
    ensures UnnumberedAll(ProcessAll(ns, depth, ordered, index).trees) == UnnumberedAll(ns)
    decreases SizeAll(ns), 2
  {
    if ns != [] {
      var item := if ordered then Stamp(ns[0], index) else ns[0];
      assert Size(item) == Size(ns[0]);
      var first := Process(item, depth);
      WritesOnlyOrder(item, depth);
      UnnumberedStamp(ns[0], index);
      assert ns == [ns[0]] + ns[1..];
      UnnumberedCons(ns[0], ns[1..]);
      UnnumberedCons(first.tree, ns[1..]);
      if first.out.Ok? {
        var rest := ProcessAll(ns[1..], depth, ordered, index + 1);
        AllWriteOnlyOrder(ns[1..], depth, ordered, index + 1);
        UnnumberedCons(first.tree, rest.trees);
      }
    }
  }

  /**
   * The tree a successful walk leaves behind, defined without rendering: the
   * items of every ordered list that the walk visits carry their 1-based
   * position in `attrs["order"]`.
   */
  function Numbered(n: Node): Node
    decreases Size(n), 1
  {
    if IsTextNode(n) || IsLeafBlock(n) then n
    else n.(content := NumberedAll(n.content, n.kind == "orderedList", 1))
  }

  function NumberedAll(ns: seq<Node>, ordered: bool, index: nat): (r: seq<Node>)
    ensures |r| == |ns|
    decreases SizeAll(ns), 2
  {
    if ns == [] then []
    else
      var item := if ordered then Stamp(ns[0], index) else ns[0];
      assert Size(item) == Size(ns[0]);
      [Numbered(item)] + NumberedAll(ns[1..], ordered, index + 1)
  }

  /** A successful walk leaves exactly the `Numbered` tree. */
  lemma {:induction false} SuccessNumbers(n: Node, depth: nat)
    ensures Process(n, depth).out.Ok? ==> Process(n, depth).tree == Numbered(n)
    decreases Size(n), 1
  {
    if !IsTextNode(n) && !IsLeafBlock(n) {
      AllSuccessNumber(n.content, ChildDepth(n, depth), n.kind == "orderedList", 1);
    }
  }

  lemma {:induction false} AllSuccessNumber(ns: seq<Node>, depth: nat, ordered: bool, index: nat)
    ensures ProcessAll(ns, depth, ordered, index).out.Ok? ==>
            ProcessAll(ns, depth, ordered, index).trees == NumberedAll(ns, ordered, index)
    decreases SizeAll(ns), 2
  {
    if ns != [] {
      var item := if ordered then Stamp(ns[0], index) else ns[0];
      assert Size(item) == Size(ns[0]);
      SuccessNumbers(item, depth);
      AllSuccessNumber(ns[1..], depth, ordered, index + 1);
    }
  }

  /** `Numbered` keeps a node's own attributes; only its descendants are numbered. */
  lemma NumberedKeepsAttrs(n: Node)
    ensures Numbered(n).attrs == n.attrs && Numbered(n).kind == n.kind
  {
  }

  /** Item `k` of a numbered list carries `order = index + k`; in any other list its attributes stay. */
  lemma {:induction false} NumberedAllAttrs(ns: seq<Node>, ordered: bool, index: nat)
    ensures forall k :: 0 <= k < |ns| ==>
      NumberedAll(ns, ordered, index)[k].attrs
      == (if ordered then ns[k].attrs["order" := Int(index + k)] else ns[k].attrs)
    decreases |ns|
  {
    if ns != [] {
      NumberedAllAttrs(ns[1..], ordered, index + 1);
      var item := if ordered then Stamp(ns[0], index) else ns[0];
      NumberedKeepsAttrs(item);
      var r := NumberedAll(ns, ordered, index);
      forall k | 0 <= k < |ns|
        ensures r[k].attrs == (if ordered then ns[k].attrs["order" := Int(index + k)] else ns[k].attrs)
      {
        if k > 0 {
          assert r[k] == NumberedAll(ns[1..], ordered, index + 1)[k - 1];
          assert ns[k] == ns[1..][k - 1];
        }
      }
    }
  }

  /**
   * After an ordered list renders, its i-th item (1-based) holds `order = i`
   * in the caller's tree, and so renders with the marker `"i. "`.
   */
  lemma OrderedListNumbering(n: Node, depth: nat)
    requires n.kind == "orderedList" && n.text == ""
    requires Process(n, depth).out.Ok?
    ensures |Process(n, depth).tree.content| == |n.content|
    ensures forall i :: 1 <= i <= |n.content| ==>
      && Process(n, depth).tree.content[i - 1].attrs == n.content[i - 1].attrs["order" := Int(i)]
      && ItemPrefix(Process(n, depth).tree.content[i - 1].attrs) == Decimal(i) + ". "
  {
    SuccessNumbers(n, depth);
    NumberedAllAttrs(n.content, true, 1);
  }

  /** A list item with no truthy `order` is a bullet. */
  lemma BulletMarker(attrs: Attrs)
    requires "order" !in attrs || !ScalarTruthy(attrs["order"])
    ensures ItemPrefix(attrs) == "- "
  {
  }

  /** The ordered marker holds the item's position, which reads back as the same number. */
  lemma OrderedMarkerReadsBack(i: int)
    requires i >= 1
    ensures ItemPrefix(map["order" := Int(i)]) == Decimal(i) + ". "
    ensures ParseDecimal(Decimal(i)) == i
  {
    DecimalRoundTrip(i);
  }

  // ------------------------------------------------------------ stability

  /** The walk does not change a node's own type, text, marks or attributes, nor its number of children. */
  lemma ProcessKeepsNode(n: Node, depth: nat)
    ensures Process(n, depth).tree.(content := n.content) == n
    ensures |Process(n, depth).tree.content| == |n.content|
  {
    WritesOnlyOrder(n, depth);
  }

  /**
   * Rendering again the tree a walk left behind gives the same Markdown and
   * leaves the same tree, whether the first walk succeeded or failed: the
   * numbers it wrote are the numbers the second walk writes.
   */
  lemma {:induction false} RenderAgain(n: Node, depth: nat)
    ensures Process(Process(n, depth).tree, depth) == Process(n, depth)
    decreases Size(n), 1
  {
    if !IsTextNode(n) && !IsLeafBlock(n) {
      RenderAllAgain(n.content, ChildDepth(n, depth), n.kind == "orderedList", 1);
    }
  }

  lemma {:induction false} RenderAllAgain(ns: seq<Node>, depth: nat, ordered: bool, index: nat)
    ensures ProcessAll(ProcessAll(ns, depth, ordered, index).trees, depth, ordered, index)
            == ProcessAll(ns, depth, ordered, index)
    decreases SizeAll(ns), 2
  {
    if ns != [] {
      var item := if ordered then Stamp(ns[0], index) else ns[0];
      assert Size(item) == Size(ns[0]);
      var first := Process(item, depth);
      RenderAgain(item, depth);
      ProcessKeepsNode(item, depth);
      var again := if ordered then Stamp(first.tree, index) else first.tree;
      assert again == first.tree by {
        if ordered {
          assert first.tree.attrs == item.attrs;
          assert item.attrs["order" := Int(index)] == item.attrs;
        }
      }
      var trees := ProcessAll(ns, depth, ordered, index).trees;
      if first.out.TypeError? {
        assert trees == [first.tree] + ns[1..];
        assert trees[0] == first.tree && trees[1..] == ns[1..];
      } else {
        var rest := ProcessAll(ns[1..], depth, ordered, index + 1);
        RenderAllAgain(ns[1..], depth, ordered, index + 1);
        assert trees == [first.tree] + rest.trees;
        assert trees[0] == first.tree && trees[1..] == rest.trees;
      }
    }
  }

  // ------------------------------------------------------------- line shapes

  /** Every line of a rendered blockquote starts with "> ", one per line of its stripped body. */
  lemma QuoteEveryLine(s: string)
    ensures Split(QuoteLines(s)) == Quoted(Split(s))
    ensures forall k :: 0 <= k < |Split(QuoteLines(s))| ==> Split(QuoteLines(s))[k][..2] == "> "
  {
    var q := Quoted(Split(s));
    forall k | 0 <= k < |q| ensures '\n' !in q[k] {
      assert q[k] == "> " + Split(s)[k];
    }
    SplitJoin(q);
  }

  /** A list item at depth `d` starts with 2·d spaces; one nested a level deeper with two more. */
  lemma ItemIndent(depth: nat)
    ensures |Indent(depth)| == 2 * depth
    ensures forall k :: 0 <= k < |Indent(depth)| ==> Indent(depth)[k] == ' '
    ensures Indent(depth + 1) == Indent(depth) + "  "
  {
    var a := Indent(depth + 1);
    var b := Indent(depth) + "  ";
    assert |a| == |b|;
    forall k | 0 <= k < |a| ensures a[k] == b[k] {
    }
  }

  /** The children of a list item are rendered one level deeper; every other node passes its depth on. */
  lemma ListItemChildrenDeeper(n: Node, depth: nat)
    requires n.kind == "listItem"
    ensures ChildDepth(n, depth) == depth + 1
  {
  }

  /** A rendered list item is one line: indent, marker, stripped body, newline. */
  lemma ListItemLine(n: Node, depth: nat, body: string)
    requires n.kind == "listItem"
    ensures Finish(n, depth, body).Ok?
    ensures var s := Finish(n, depth, body).md;
      && s[..2 * depth] == Indent(depth)
      && s[|s| - 1] == '\n'
      && s[2 * depth..|s| - 1] == ItemPrefix(n.attrs) + Strip(body)
  {
    var s := Finish(n, depth, body).md;
    assert s == Indent(depth) + (ItemPrefix(n.attrs) + Strip(body)) + "\n";
  }

  /** `s` is empty or ends a line. */
  predicate EndsLine(s: string) {
    s == "" || s[|s| - 1] == '\n'
  }

  lemma LineEnd(a: string)
    ensures EndsLine(a + "\n")
  {
  }

  /** The Markdown of a block (paragraph, heading, list item, code, quote, rule, break) is empty or ends a line. */
  lemma BlocksEndLines(n: Node, depth: nat)
    requires !IsTextNode(n)
    requires n.kind in {"paragraph", "heading", "listItem", "codeBlock", "blockquote", "horizontalRule", "hardBreak"}
    requires Process(n, depth).out.Ok?
    ensures EndsLine(Process(n, depth).out.md)
  {
    if !IsLeafBlock(n) {
      var kids := ProcessAll(n.content, ChildDepth(n, depth), n.kind == "orderedList", 1);
      var body := kids.out.md;
      if n.kind == "paragraph" {
        LineEnd(body);
      } else if n.kind == "heading" {
        LineEnd(Hashes(n.attrs).value + " " + body);
      } else if n.kind == "listItem" {
        LineEnd(Indent(depth) + ItemPrefix(n.attrs) + Strip(body));
      } else if n.kind == "codeBlock" {
        LineEnd("```" + Language(n.attrs) + "\n" + body + "\n```");
      } else {
        LineEnd(QuoteLines(Strip(body)));
      }
    }
  }

  /**
   * A node of type "text", or any node with text, renders as its text inside
   * its marks whatever its type and children; its children are not visited.
   */
  lemma TextNodeIgnoresChildren(n: Node, depth: nat, children: seq<Node>)
    requires IsTextNode(n)
    ensures Process(n.(content := children), depth) == Step(Ok(Opens(n.marks) + n.text + Closes(n.marks)), n.(content := children))
  {
    MarksSurround(n.text, n.marks);
  }

  /** Rules and hard breaks render as constants and leave their children alone. */
  lemma RuleAndBreak(n: Node, depth: nat)
    requires !IsTextNode(n)
    ensures n.kind == "horizontalRule" ==> Process(n, depth) == Step(Ok("---\n"), n)
    ensures n.kind == "hardBreak" ==> Process(n, depth) == Step(Ok("  \n"), n)
  {
  }

  /**
   * A heading is `level` hashes (1 by default, none for a level of zero or
   * less, a boolean counting as 0 or 1), a space, its text and a newline; a
   * null or string level raises.
   */
  lemma HeadingLine(n: Node, depth: nat, body: string)
    requires n.kind == "heading"
    ensures "level" !in n.attrs ==> Finish(n, depth, body) == Ok("# " + body + "\n")
    ensures "level" in n.attrs && n.attrs["level"].Int? ==>
      var k := n.attrs["level"].i;
      && Finish(n, depth, body).Ok?
      && Finish(n, depth, body).md == Repeat('#', k) + " " + body + "\n"
      && |Finish(n, depth, body).md| == (if k <= 0 then 0 else k) + |body| + 2
    ensures "level" in n.attrs && n.attrs["level"].Bool? ==>
      Finish(n, depth, body) == Ok((if n.attrs["level"].b then "#" else "") + " " + body + "\n")
    ensures "level" in n.attrs && (n.attrs["level"].Null? || n.attrs["level"].Str?) ==> Finish(n, depth, body) == TypeError
  {
  }

  /**
   * A code block's lines are the opening fence with the language, the lines
   * of the code, and the closing fence, after which the block ends its line.
   */
  lemma CodeBlockLines(n: Node, depth: nat, body: string)
    requires n.kind == "codeBlock"
    requires '\n' !in Language(n.attrs)
    ensures "language" !in n.attrs ==> Language(n.attrs) == ""
    ensures Finish(n, depth, body).Ok?
    ensures Split(Finish(n, depth, body).md) == ["```" + Language(n.attrs)] + Split(body) + ["```", ""]
  {
    var fence := "```" + Language(n.attrs);
    var md := Finish(n, depth, body).md;
    assert '\n' !in fence by {
      forall k | 0 <= k < |fence| ensures fence[k] != '\n' {
        if k >= 3 {
          assert fence[k] == Language(n.attrs)[k - 3];
        }
      }
    }
    assert md == fence + "\n" + (body + "\n" + ("```" + "\n" + ""));
    SplitAround(fence, body + "\n" + ("```" + "\n" + ""));
    SplitAround(body, "```" + "\n" + "");
    SplitAround("```", "");
    SplitNoNewline(fence);
    SplitNoNewline("```");
  }

  /** An empty paragraph contributes nothing; any other gets exactly one newline after its text. */
  lemma ParagraphLine(n: Node, body: string, depth: nat)
    requires n.kind == "paragraph"
    ensures Finish(n, depth, body) == Ok("") <==> body == ""
    ensures body != "" ==> Finish(n, depth, body).md[..|body|] == body
    ensures body != "" ==> |Finish(n, depth, body).md| == |body| + 1 && Finish(n, depth, body).md[|body|] == '\n'
  {
  }

  /** The converted document has no leading or trailing whitespace, and stripping it again changes nothing. */
  lemma ConvertTrimmed(doc: Node)
    requires Convert(doc).out.Ok?
    ensures var md := Convert(doc).out.md;
      Strip(md) == md && (md == [] || (!IsSpace(md[0]) && !IsSpace(md[|md| - 1])))
  {
    StripIdempotent(Process(doc, 0).out.md);
  }
}
