/**
 * The parts of granola_client/types.py with behaviour: the defaults of the
 * `HttpOpts` and `DocumentsResponse` fields, and the `Document.notes`
 * computed field, which guards the panel content and hands it to the
 * ProseMirror converter.
 *
 * A field of the incoming JSON is `Missing`, `Null` or `Given`: pydantic
 * uses a field's default only when the key is missing; an explicit null of
 * an `Optional` field stays None.
 */
module Types {
  import opened Values
  import opened PyText
  import opened ProseMirror
  import RenderFacts

  /** A field as the JSON object carries it. */
  datatype Field<T> = Missing | Null | Given(value: T)

  /** An `Optional[T]` field with a default: the default for a missing key, None for null. */
  function Defaulted<T>(f: Field<T>, default: T): (r: Option<T>)
    ensures r == None <==> f.Null?
    ensures f.Given? ==> r == Some(f.value)
    ensures f.Missing? ==> r == Some(default)
  {
    match f
    case Missing => Some(default)
    case Null => None
    case Given(v) => Some(v)
  }

  /** An `Optional[T]` field defaulting to None. */
  function Optional<T>(f: Field<T>): (r: Option<T>)
    ensures r.Some? <==> f.Given?
    ensures f.Given? ==> r == Some(f.value)
  {
    match f
    case Given(v) => Some(v)
    case _ => None
  }

  // ------------------------------------------------------------- options

  const DefaultTimeout: int := 10000
  const DefaultRetries: int := 3

  /** The transport options this model keeps: the request timeout (milliseconds) and the retry count. */
  datatype HttpOpts = HttpOpts(timeout: Option<int>, retries: Option<int>)

  /** `HttpOpts` validated from a dict holding (or not) `timeout` and `retries`. */
  function HttpOptsOf(timeout: Field<int>, retries: Field<int>): (o: HttpOpts)
    ensures timeout.Missing? ==> o.timeout == Some(10000)
    ensures retries.Missing? ==> o.retries == Some(3)
    ensures timeout.Given? ==> o.timeout == Some(timeout.value)
    ensures retries.Given? ==> o.retries == Some(retries.value)
    ensures timeout.Null? ==> o.timeout == None
    ensures retries.Null? ==> o.retries == None
  {
    HttpOpts(Defaulted(timeout, DefaultTimeout), Defaulted(retries, DefaultRetries))
  }

  // ----------------------------------------------------------- documents

  /**
   * The value of a panel's key, as far as `notes` looks at it: null or absent,
   * a string, a non-empty dict in ProseMirror node shape, or anything else
   * (a number, a boolean, a list, an empty dict), of which only its Python
   * truthiness matters.
   */
  datatype Content = NoContent | Text(s: string) | Tree(node: Node) | Other(truthy: bool)

  /** `bool(content)`; a node-shaped dict has keys, so it is always truthy. */
  predicate ContentTruthy(c: Content) {
    match c
    case NoContent => false
    case Text(s) => s != ""
    case Tree(_) => true
    case Other(t) => t
  }

  /** A document as the API returns it. */
  datatype Document = Document(
    documentId: string,
    title: Option<string>,
    workspaceId: Option<string>,
    createdAt: string,
    updatedAt: string,
    userId: Option<string>,
    notesMarkdown: Option<string>,
    notesPlain: Option<string>,
    overview: Option<string>,
    lastViewedPanel: Option<map<string, Content>>)

  /** `last_viewed_panel.get("content")`, with no panel read as no content. */
  function PanelContent(doc: Document): Content {
    match doc.lastViewedPanel
    case None => NoContent
    case Some(panel) => if "content" in panel then panel["content"] else NoContent
  }

  /** Reading `notes`: the Markdown, and the document as the read leaves it. */
  datatype NotesRead = NotesRead(notes: string, after: Document)

  /**
   * The `notes` property. The converter numbers ordered lists inside the
   * panel's content dict, so a read that reaches the converter also changes
   * the document; a conversion that raises is reported as "".
   */
  function ReadNotes(doc: Document): (r: NotesRead)
    ensures r.after.(lastViewedPanel := doc.lastViewedPanel) == doc
    ensures r.after.lastViewedPanel.Some? <==> doc.lastViewedPanel.Some?
    ensures r.after.lastViewedPanel.Some? ==> r.after.lastViewedPanel.value.Keys == doc.lastViewedPanel.value.Keys
    ensures r.after != doc ==> PanelContent(doc).Tree? && PanelContent(r.after).Tree?
  {
    match doc.lastViewedPanel
    case None => NotesRead("", doc)
    case Some(panel) =>
      if panel == map[] then NotesRead("", doc)
      else
        var content := PanelContent(doc);
        if !ContentTruthy(content) then NotesRead("", doc)
        else if content.Text? then NotesRead("", doc)
        else if content.Other? then NotesRead("", doc)
        else
          var c := Convert(content.node);
          var after := doc.(lastViewedPanel := Some(panel["content" := Tree(c.tree)]));
          NotesRead(if c.out.Ok? then c.out.md else "", after)
  }

  function Notes(doc: Document): string {
    ReadNotes(doc).notes
  }

  /** Without a panel, or with an empty one, the notes are "" and nothing is written. */
  lemma NotesWithoutPanel(doc: Document)
    requires doc.lastViewedPanel == None || doc.lastViewedPanel == Some(map[])
    ensures ReadNotes(doc) == NotesRead("", doc)
  {
  }

  /** Content that is missing, null or empty gives "", and so does a string. */
  lemma NotesWithoutTree(doc: Document)
    requires !ContentTruthy(PanelContent(doc)) || PanelContent(doc).Text?
    ensures ReadNotes(doc) == NotesRead("", doc)
  {
  }

  /**
   * The notes are never made up: they are non-empty only when the content is a
   * node tree that converts successfully, and then they are its Markdown. A
   * tree whose conversion raises gives "".
   */
  lemma NotesFromConverter(doc: Document)
    ensures Notes(doc) != "" ==>
      PanelContent(doc).Tree? && Convert(PanelContent(doc).node).out == Ok(Notes(doc))
    ensures PanelContent(doc).Tree? ==>
      Notes(doc) == (if Convert(PanelContent(doc).node).out.Ok? then Convert(PanelContent(doc).node).out.md else "")
  {
  }

  /** The notes carry no leading or trailing whitespace. */
  lemma NotesTrimmed(doc: Document)
    ensures Strip(Notes(doc)) == Notes(doc)
  {
    var notes := Notes(doc);
    if notes == "" {
      assert StripLeft(notes) == notes;
    } else {
      NotesFromConverter(doc);
      RenderFacts.ConvertTrimmed(PanelContent(doc).node);
    }
  }

  /**
   * Reading `notes` twice gives the same notes, and the second read writes
   * nothing the first had not: the numbering the converter leaves in the panel
   * is the numbering it writes again.
   */
  lemma NotesStable(doc: Document)
    ensures ReadNotes(ReadNotes(doc).after) == ReadNotes(doc)
  {
    if doc.lastViewedPanel.Some? && doc.lastViewedPanel.value != map[] && PanelContent(doc).Tree? {
      var panel := doc.lastViewedPanel.value;
      var n := PanelContent(doc).node;
      var c := Convert(n);
      ReadsTree(doc, panel, n);
      RenderFacts.RenderAgain(n, 0);
      assert Convert(c.tree) == c;
      var after := ReadNotes(doc).after;
      var panel2 := panel["content" := Tree(c.tree)];
      ReadsTree(after, panel2, c.tree);
      assert panel2["content" := Tree(c.tree)] == panel2;
    }
  }

  /** A panel whose content is a node tree: the notes and the write-back are the converter's. */
  lemma ReadsTree(doc: Document, panel: map<string, Content>, n: Node)
    requires doc.lastViewedPanel == Some(panel) && "content" in panel && panel["content"] == Tree(n)
    ensures ReadNotes(doc) == NotesRead(if Convert(n).out.Ok? then Convert(n).out.md else "",
                                        doc.(lastViewedPanel := Some(panel["content" := Tree(Convert(n).tree)])))
  {
  }

  /** The page of documents `/v2/get-documents` answers with. */
  datatype DocumentsResponse = DocumentsResponse(docs: seq<Document>, nextCursor: Option<string>)

  /** `DocumentsResponse` validated: `next_cursor` is None unless the server sends a string. */
  function DocumentsResponseOf(docs: seq<Document>, nextCursor: Field<string>): (r: DocumentsResponse)
    ensures r.docs == docs
    ensures r.nextCursor.Some? <==> nextCursor.Given?
    ensures nextCursor.Given? ==> r.nextCursor == Some(nextCursor.value)
  {
    DocumentsResponse(docs, Optional(nextCursor))
  }

  /** A shared folder (`DocumentList`), with the fields the folder lookups read. */
  datatype DocumentList = DocumentList(id: string, title: string, documentIds: seq<string>)
}
