# granola-py-client in Dafny

A model of the logic of the Python Granola API client (`granola_client`), with
proofs of what that logic promises:

- **The ProseMirror → Markdown converter** (`convert_prosemirror_to_markdown`
  and its recursive `process_node`, utils.py). Module `ProseMirror` defines
  what a walk of a node tree computes. `Process` returns the Markdown and also
  the tree as the walk leaves it, because the `orderedList` branch writes
  `attrs["order"]` into the caller's dicts. Module `Utils` is the walk itself,
  over a heap tree of `NodeDict` objects whose `attrs` the methods update in
  place. Each method is proved to produce what `Process` says and to leave the
  tree `Process` says. Module `RenderFacts` proves the converter's properties:
  - how marks wrap text;
  - that children render in order;
  - when it raises;
  - that it writes only `order` keys, and numbers ordered lists 1, 2, 3, …;
  - that rendering the written-back tree again changes nothing;
  - the line shapes of each block kind.
- **`Document.notes` and the field defaults** (types.py), in module `Types`.
  Notes come from the guard chain and the converter, including the write-back
  a read of `notes` makes. The defaults of `HttpOpts.timeout`,
  `HttpOpts.retries` and `DocumentsResponse.next_cursor` are modelled there
  too.
- **The decisions of `GranolaClient`** (client.py), in module `Client`:
  - the constructor's token-provider choice;
  - `get_auth_tokens` and the token provider;
  - the page payload and page of `list_all_documents`;
  - folder lookup by id and by name;
  - the update feed file;
  - the error wrapping of bare-list replies.

  The server is a parameter: a function from request payload to validated
  reply. The requests a folder lookup makes are returned in order. The two
  folder-lists requests of a lookup by name are separate parameters. The
  platform name, the token file's existence and contents, and `json.loads`
  are parameters as well.
- **Python semantics the code relies on**, in module `PyText`:
  - `str.strip()`, with Python's own whitespace set;
  - `split("\n")` and `"\n".join`;
  - `"#" * n`;
  - `str(int)`;
  - `str.lower()`, limited to ASCII.

## Model

| member | source | states |
|---|---|---|
| `ProseMirror.ApplyMarks` | granola_client/utils.py:29-43 | The marks loop's result: no marks leave the text as it is, and marks only add characters around it. Its shape is stated by `MarksSurround`, `MarksInOrder` and `UnknownMarksIgnored`. |
| `ProseMirror.Finish` | granola_client/utils.py:53-103 | The per-kind decoration of the joined children raises exactly for a heading whose `level` is null or a string. The line shapes of each kind are stated by the lemmas below. |
| `ProseMirror.Process` | granola_client/utils.py:20-116 | The value-level definition of `process_node`: the Markdown of a node and the node as the walk leaves it. Its properties are stated by the RenderFacts lemmas and by `ProcessKeepsNode`. |
| `ProseMirror.ProcessAll` | granola_client/utils.py:48-114 | The children loop of every branch: children rendered left to right and joined; in an ordered list each is first stamped with its 1-based position; the first error stops the loop. Stated by `ChildrenInOrder`, `ChildTreesInOrder` and `AllFailIffAnyFaulty`. |
| `ProseMirror.Convert` | granola_client/utils.py:118-119 | `convert_prosemirror_to_markdown`: the root rendered at depth 0 and stripped. Stated by `ConvertTrimmed` and `Utils.ConvertProseMirrorToMarkdown`. |
| `Utils.FormatText` | granola_client/utils.py:29-43 | The marks loop yields the text wrapped once per mark, in list order (`ApplyMarks`). |
| `Utils.NodeDict.constructor` | granola_client/utils.py:21-25 | A node dict over children that own disjoint objects is a well-formed tree with the given type, text, marks, attrs and children. |
| `Utils.NodeDict.ProcessNode` | granola_client/utils.py:20-116 | `process_node` returns the Markdown `Process` gives for the node and leaves the tree exactly as `Process` says, ordered-list numbering included. |
| `Utils.NodeDict.ProcessContent` | granola_client/utils.py:65-74 | The children loop renders every child in order and joins the results. In an ordered list it first writes the child's 1-based position into `attrs["order"]`. The first error stops it, leaving later children untouched. |
| `Utils.NodeDict.ProcessChild` | granola_client/utils.py:69-74 | One turn of the loop stamps and renders child `i`. It changes no other child. |
| `Utils.ConvertProseMirrorToMarkdown` | granola_client/utils.py:118-119 | The root is rendered at depth 0 and the result stripped; the input tree is left as `Convert` says. |
| `RenderFacts.MarksSurround` | granola_client/utils.py:30-42 | A marked text is the marks' openings, then the text unchanged, then the closings. The last mark is the outermost. |
| `RenderFacts.WrapSurround` | granola_client/utils.py:32-42 | Each known mark has its own opening and closing: `**`, `*`, backtick, `~~`, and `[`…`](href)`. |
| `RenderFacts.MarksInOrder` | granola_client/utils.py:30 | Marks apply in list order: the later marks wrap the result of the earlier ones. |
| `RenderFacts.UnknownMarksIgnored` | granola_client/utils.py:31-42 | Marks of any other type have no effect. |
| `RenderFacts.TextNodeIgnoresChildren` | granola_client/utils.py:28-43 | A node of type "text", or any node with text, renders as its marked text whatever its children. It stays unchanged and its children are not visited. |
| `RenderFacts.ChildrenInOrder` | granola_client/utils.py:48-51 | Rendering `xs + ys` is the rendering of `xs` followed by that of `ys`, numbered on from where `xs` ended. It is an error iff either part is. |
| `RenderFacts.ChildTreesInOrder` | granola_client/utils.py:111-114 | The children of `xs + ys` are left as `xs` leaves them, followed by `ys` as its own walk leaves it. After an error in `xs`, `ys` is left untouched. |
| `RenderFacts.FailsIffFaulty` | granola_client/utils.py:59-62 | Rendering raises exactly when a visited heading has a null or string `level`. |
| `RenderFacts.WritesOnlyOrder` | granola_client/utils.py:71-73 | Whether it succeeds or raises, the walk changes nothing in the tree but `attrs["order"]` keys. |
| `RenderFacts.SuccessNumbers` | granola_client/utils.py:68-74 | A successful walk leaves exactly the `Numbered` tree: each item of each visited ordered list is stamped with its position. |
| `RenderFacts.NumberedAllAttrs` | granola_client/utils.py:69-73 | Item `k` of a numbered list gets `order = index + k` added to its attrs. Items of other lists keep theirs. |
| `RenderFacts.OrderedListNumbering` | granola_client/utils.py:68-74 | After an ordered list renders, its i-th item holds `order = i`, so its marker is `"i. "`. |
| `RenderFacts.BulletMarker` | granola_client/utils.py:83-87 | A list item with no truthy `order` gets the marker `"- "`. |
| `RenderFacts.OrderedMarkerReadsBack` | granola_client/utils.py:84-85 | The marker for position `i` is `str(i) + ". "`, and `int` reads it back as `i`. |
| `RenderFacts.ProcessKeepsNode` | granola_client/utils.py:20-25 | The walk keeps a node's type, text, marks, own attributes and number of children. |
| `RenderFacts.RenderAgain` | granola_client/utils.py:68-74 | Rendering the tree a walk left behind gives the same Markdown and the same tree, after success and after an error alike. |
| `RenderFacts.ItemIndent` | granola_client/utils.py:90 | A list item at depth d is indented by 2·d spaces; one level deeper adds two more. |
| `RenderFacts.ListItemChildrenDeeper` | granola_client/utils.py:79-80 | A list item's children are rendered at depth + 1. |
| `RenderFacts.ListItemLine` | granola_client/utils.py:76-92 | A list item renders as indent, marker, stripped body, one newline. |
| `RenderFacts.ParagraphLine` | granola_client/utils.py:53-57 | An empty paragraph contributes nothing. Any other is its children's text followed by exactly one newline: the output is one character longer than the text, and that character is `\n`. |
| `RenderFacts.HeadingLine` | granola_client/utils.py:59-62 | A heading is `level` hashes, a space, its text and a newline. `level` defaults to 1 and is none for `level <= 0`; a boolean counts as 1 or 0; a null or string level raises. |
| `RenderFacts.CodeBlockLines` | granola_client/utils.py:94-97 | A code block's lines are the fence with the language (default ""), the code's lines, and the closing fence. |
| `RenderFacts.QuoteEveryLine` | granola_client/utils.py:99-103 | Each line of the stripped blockquote body becomes one line starting with "> ". |
| `RenderFacts.RuleAndBreak` | granola_client/utils.py:105-109 | horizontalRule renders as `"---\n"` and hardBreak as `"  \n"`; neither visits its children. |
| `RenderFacts.BlocksEndLines` | granola_client/utils.py:53-109 | The Markdown of every block kind is empty or ends with a newline. |
| `RenderFacts.ConvertTrimmed` | granola_client/utils.py:119 | The converted document has no leading or trailing whitespace, and stripping it again changes nothing. |
| `ProseMirror.Quoted` | granola_client/utils.py:102 | Each line gets the prefix "> ", and the number of lines is kept. |
| `PyText.Strip` | granola_client/utils.py:119 | `strip()` leaves no whitespace at either end and never lengthens the string. |
| `PyText.StripIsInfix` | granola_client/utils.py:91 | `strip()` removes only whitespace: the input is whitespace, then the stripped text, then whitespace. |
| `PyText.StripUnique` | granola_client/utils.py:102 | Whitespace around a trimmed middle strips to exactly that middle. |
| `PyText.StripIdempotent` | granola_client/utils.py:119 | Stripping twice is stripping once. |
| `PyText.Split` | granola_client/utils.py:102 | `split("\n")` gives at least one piece, and no piece holds a newline. |
| `PyText.JoinSplit` | granola_client/utils.py:102-103 | Joining the pieces of a split with newlines gives the string back. |
| `PyText.SplitAround` | granola_client/utils.py:102 | Splitting at a newline splits the two sides independently. |
| `PyText.SplitJoin` | granola_client/utils.py:102-103 | Splitting a join of newline-free lines gives the lines back. |
| `PyText.Repeat` | granola_client/utils.py:62 | `c * n` is n copies of c, and empty for n <= 0. |
| `PyText.DecimalRoundTrip` | granola_client/utils.py:85 | `int(str(i)) == i`. |
| `PyText.Lower` | granola_client/client.py:350 | `lower()` maps each character on its own and keeps the length. |
| `Types.Defaulted` | granola_client/types.py:8-9 | A field's default applies only when the key is missing. An explicit null is None; a given value is kept. |
| `Types.Optional` | granola_client/types.py:90 | A field that defaults to None is Some exactly when a value is given. |
| `Types.HttpOptsOf` | granola_client/types.py:8-9 | `timeout` defaults to 10000 and `retries` to 3. Null gives None; given values are kept. |
| `Types.DocumentsResponseOf` | granola_client/types.py:88-90 | `next_cursor` is None unless the response carries a string; `docs` is kept. |
| `Types.ReadNotes` | granola_client/types.py:62-83 | A read of `notes` changes nothing in the document but the panel's values: the panel stays present or absent and keeps its keys. It changes anything only when the panel content is a node tree, which then stays one. |
| `Types.NotesWithoutPanel` | granola_client/types.py:66-67 | With no panel, or an empty one, notes are "" and nothing is written. |
| `Types.NotesWithoutTree` | granola_client/types.py:69-75 | With content missing, null, empty or a string, notes are "" and nothing is written. |
| `Types.NotesFromConverter` | granola_client/types.py:77-83 | Notes are non-empty only for node-tree content that converts, and then they are the converter's output. A conversion that raises gives "". |
| `Types.NotesTrimmed` | granola_client/types.py:80 | Notes never have leading or trailing whitespace. |
| `Types.NotesStable` | granola_client/types.py:62-83 | Reading `notes` twice gives the same notes, and the second read writes nothing new into the panel. |
| `Client.NewClient` | granola_client/client.py:34-53 | A token provider is installed iff no (or an empty) token is given and the platform is Darwin. Options come from `HttpOptsOf`. |
| `Client.DefaultClientOptions` | granola_client/client.py:37 | A client built without options uses timeout 10000 and 3 retries. |
| `Client.GetAuthTokens` | granola_client/client.py:59-81 | A non-Darwin platform raises NotMacOS and a missing file raises TokenFileMissing. Any returned tokens are both truthy. |
| `Client.FalsyTokenIsMissing` | granola_client/client.py:71-77 | "Access or refresh token missing" is raised exactly when the file has the stored shape, both keys are present, and one of the two tokens is falsy. |
| `Client.ExtractFailure` | granola_client/client.py:70-81 | "Failed to extract auth tokens" is raised exactly when the file or its `cognito_tokens` string is not valid JSON, or one of the three keys is missing. |
| `Client.WrongTypeEscapes` | granola_client/client.py:70-81 | A value of the wrong JSON type raises TypeError, which the except clause does not catch. That is the file or token JSON not being a dict, or `cognito_tokens` not being a string. |
| `Client.ReadsStoredTokens` | granola_client/client.py:70-78 | Given a file whose `cognito_tokens` JSON string holds non-empty access and refresh tokens, it returns them as (access, refresh). |
| `Client.TokensOnlyFromFile` | granola_client/client.py:63-78 | Tokens are returned only on Darwin, from an existing file shaped like that, and are exactly the two stored values in that order. |
| `Client.ProvideAuthToken` | granola_client/client.py:55-57 | The provider returns the first (access) token, or the error `get_auth_tokens` raised. |
| `Client.InitialFilters` | granola_client/client.py:99-103 | The dumped filters never hold a cursor. They hold `workspaceId` and `limit` iff set, plus exactly the non-null undeclared extra keys with their values; no filters give {}. |
| `Client.PagePayload` | granola_client/client.py:108-110 | A page request is the initial payload with at most the `cursor` key changed. The cursor is set to the given one when it is non-empty, and the payload is the initial one otherwise. |
| `Client.PayloadKeepsFilters` | granola_client/client.py:108-110 | Every page request carries all of the caller's filters unchanged. It asks for exactly the given cursor, and for none when the cursor is empty. |
| `Client.FetchPage` | granola_client/client.py:105-124 | The request carries the payload above, and the page is the response's documents and next cursor unchanged. |
| `Client.MissingCursorIsLastPage` | granola_client/client.py:122-124 | A response without `next_cursor` yields a page with no next cursor. |
| `Client.Lookup` | granola_client/client.py:314 | `lists.get(id)` returns a folder stored under `id`, or None when no key equals `id`. |
| `Client.LookupFinds` | granola_client/client.py:314 | In a dict, `get` finds the folder stored under the id. |
| `Client.FolderFiltersIds` | granola_client/client.py:324-331 | The folder fetch payload asks for exactly the folder's document ids, in order. |
| `Client.GetDocumentsByFolderId` | granola_client/client.py:306-334 | An unknown id raises ValueError. A folder with no documents returns [] after the lists request only. Otherwise it makes one documents request for that folder's ids and returns its docs. |
| `Client.TitleMatches` | granola_client/client.py:346-351 | A title matches when it equals the name, or, unless case-sensitive, when both are equal after lowercasing. |
| `Client.Matching` | granola_client/client.py:344-351 | Defined as an order-preserving filter of the listed folders by `TitleMatches`. Its contract states only that the matches are never more than the folders listed. `MatchingExactly` states which folders they are. |
| `Client.MatchingExactly` | granola_client/client.py:344-351 | A folder is among the matches iff it is in the lists and its title matches. |
| `Client.MatchingFolders` | granola_client/client.py:344-351 | The loop collects exactly the folders whose title matches the name (exactly, or after lowercasing both), in order. |
| `Client.Titles` | granola_client/client.py:356 | The listed titles are those of the matches, in order. |
| `Client.GetDocumentsByFolderName` | granola_client/client.py:336-364 | No match raises ValueError, and so do two or more (with their titles). One match delegates to the by-id lookup, after the name lookup's own lists request. The by-id lookup works on the reply to its own, second lists request. `case_sensitive` defaults to false. |
| `Client.SingleMatchIsFound` | granola_client/client.py:362-364 | With one match, and a second lists reply equal to the first, the by-id lookup finds that same folder. The fetch then succeeds and asks for exactly that folder's document ids. |
| `Client.UpdateFile` | granola_client/client.py:259-265 | The feed is `latest.yml` on Windows, `latest-linux.yml` on Linux, and `latest-mac.yml` on every other system. |
| `Client.UpdatePath` | granola_client/client.py:267 | The fetched path ends with the feed file name. |
| `Client.EncodingOf` | granola_client/client.py:167-169 | The response's encoding is used when set and non-empty, otherwise "utf-8". |
| `Client.DecodeBareList` | granola_client/client.py:164-172 | A list the validator accepts is returned whole. A rejected body raises ValidationError carrying the body decoded as text, and no partial list is returned. |

## Left out

- The transport (`HttpClient`), retries and backoff, 401 refresh, rate limits, the error classes and the `paginate` generator. They live in http_client.py, pagination.py and errors.py, which are not part of this model. Server replies are parameters.
- Async I/O, `close` and the context-manager methods. The per-endpoint wrappers that only pick a path are also left out.
- Pydantic validation. A reply is taken as already validated, and a bare-list validator is a parameter that accepts or rejects. `HttpOpts` keeps only `timeout` and `retries`; the other options are plain strings with defaults and no logic.
- Logging, and the text of error messages. Errors are modelled by kind; the ambiguous-folder error keeps the titles it lists.
- `Path.home()`, `exists`, `read_text` and `platform.system()` become parameters. A token file that is not valid UTF-8 raises UnicodeDecodeError, which nothing catches; that case is not modelled. JSON numbers are integers only.
- Client.GetAuthTokens: its own contract states only the platform and file guards and that the tokens are truthy. The other outcomes are stated beside it: `FalsyTokenIsMissing`, `ExtractFailure` and `WrongTypeEscapes` for the errors, and `ReadsStoredTokens` and `TokensOnlyFromFile` for the successful read.
- Client.SingleMatchIsFound: it assumes the by-id lookup's lists request returns the same reply as the name lookup's. `GetDocumentsByFolderName` itself takes the two replies separately.
- ProseMirror attribute values are null, booleans, integers and strings. Floats, lists and dicts as attribute values are not modelled; a float heading level, which Python rejects too, is one of them.
- Input dicts that do not have the node shape are not modelled. Examples are a `content` that is not a list of dicts, and `attrs`, `marks` or `text` set to null or to the wrong type. Python fails on some of these, but only when the walk reaches them.
- Types.Notes: panel content that is a non-empty dict without the node shape is taken as a conversion that raises, so notes are "". Python would render such a dict when the malformed part is never visited.
- PyText.Lower: only ASCII letters are lowercased; Python's full Unicode case mapping is not modelled. PyText.Strip uses Python's exact whitespace set.
- Shared sub-dicts are not modelled. A dict reached twice in one input, such as one item object listed twice in an ordered list, would have its first `order` stamp overwritten by the second. Parsed JSON never shares objects, and `NodeDict.Valid` requires a tree of distinct dicts.
- Deep recursion (Python's RecursionError on very deep trees) is not modelled.
- The DocumentsResponse `docs` items and the `DocumentList` fields other than id, title and document ids are carried without logic.
