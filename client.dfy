/**
 * The decisions `GranolaClient` (granola_client/client.py) takes around its
 * requests. The requests themselves are not modelled: what the server answers
 * is a parameter (a function from the request payload to the validated
 * reply), and the requests a call makes are returned as a list of `Call`s.
 * What the operating system, the file system and the JSON parser report are
 * parameters too.
 */
module Client {
  import opened Values
  import opened PyText
  import opened Types

  /** Why `get_auth_tokens` raises GranolaAuthError. */
  datatype AuthFailure =
    | NotMacOS          // the platform is not Darwin
    | TokenFileMissing  // supabase.json does not exist
    | TokenMissing      // the access or the refresh token is falsy
    | ExtractFailed     // a missing key or malformed JSON, wrapped by the except clause

  /** Why a folder lookup raises ValueError. */
  datatype FolderFailure =
    | NoFolderWithId(id: string)
    | NoFolderNamed(name: string)
    | SeveralFoldersNamed(name: string, titles: seq<string>)

  /** The exceptions the modelled operations raise. */
  datatype Error =
    | AuthError(auth: AuthFailure)
    | ValueError(folder: FolderFailure)
    | ValidationError(responseText: string)
    | TypeError  // raised by subscripting or parsing a JSON value of the wrong type; nothing catches it

  datatype Result<T> = Ok(value: T) | Err(error: Error)

  // ------------------------------------------------------------ constructor

  /** What the constructor sets up: the transport options, the token, and whether a token provider is installed. */
  datatype GranolaClient = GranolaClient(opts: HttpOpts, token: Option<string>, tokenProvider: bool)

  /**
   * `GranolaClient(token, opts)` on the platform `system`: the macOS token
   * provider is installed only when no token is given and the platform is
   * Darwin. Options not given keep their defaults.
   */
  function NewClient(token: Option<string>, timeout: Field<int>, retries: Field<int>, system: string): (c: GranolaClient)
    ensures c.tokenProvider <==> (token == None || token == Some("")) && system == "Darwin"
    ensures c.token == token
    ensures c.opts == HttpOptsOf(timeout, retries)
  {
    var noToken := token.None? || token.value == "";
    GranolaClient(HttpOptsOf(timeout, retries), token, noToken && system == "Darwin")
  }

  /** A client built without options times requests out after 10000 ms and retries 3 times. */
  lemma DefaultClientOptions(token: Option<string>, system: string)
    ensures NewClient(token, Missing, Missing, system).opts == HttpOpts(Some(10000), Some(3))
  {
  }

  // ---------------------------------------------------------- auth tokens

  /** `d[key]` on a parsed JSON value: KeyError (None) for a missing key, TypeError for a non-dict. */
  function Subscript(d: Json, key: string): Result<Option<Json>> {
    match d
    case JObj(fields) => Ok(if key in fields then Some(fields[key]) else None)
    case _ => Err(TypeError)
  }

  /**
   * `get_auth_tokens()`. `fileExists` is whether supabase.json exists, `text` its
   * contents, and `parse` is `json.loads` (None for a JSONDecodeError). The
   * file holds a `cognito_tokens` string which is itself JSON.
   */
  function GetAuthTokens(system: string, fileExists: bool, text: string, parse: string -> Option<Json>): (r: Result<(Json, Json)>)
    ensures system != "Darwin" ==> r == Err(AuthError(NotMacOS))
    ensures system == "Darwin" && !fileExists ==> r == Err(AuthError(TokenFileMissing))
    ensures r.Ok? ==> Truthy(r.value.0) && Truthy(r.value.1)
  {
    if system != "Darwin" then Err(AuthError(NotMacOS))
    else if !fileExists then Err(AuthError(TokenFileMissing))
    else match parse(text)
      case None => Err(AuthError(ExtractFailed))
      case Some(data) =>
        match Subscript(data, "cognito_tokens")
        case Err(e) => Err(e)
        case Ok(None) => Err(AuthError(ExtractFailed))
        case Ok(Some(inner)) =>
          if !inner.JStr? then Err(TypeError)
          else match parse(inner.s)
            case None => Err(AuthError(ExtractFailed))
            case Some(cognito) =>
              match Subscript(cognito, "access_token")
              case Err(e) => Err(e)
              case Ok(None) => Err(AuthError(ExtractFailed))
              case Ok(Some(access)) =>
                match Subscript(cognito, "refresh_token")
                case Err(e) => Err(e)
                case Ok(None) => Err(AuthError(ExtractFailed))
                case Ok(Some(refresh)) =>
                  if !Truthy(access) || !Truthy(refresh) then Err(AuthError(TokenMissing))
                  else Ok((access, refresh))
  }

  /**
   * The tokens the Granola app writes are the tokens read back, access first:
   * a `cognito_tokens` string whose JSON holds non-empty `access_token` and
   * `refresh_token` strings.
   */
  lemma ReadsStoredTokens(
    fileExists: bool, text: string, parse: string -> Option<Json>,
    file: map<string, Json>, inner: string, cognito: map<string, Json>, access: string, refresh: string)
    requires fileExists
    requires parse(text) == Some(JObj(file)) && "cognito_tokens" in file && file["cognito_tokens"] == JStr(inner)
    requires parse(inner) == Some(JObj(cognito))
    requires "access_token" in cognito && cognito["access_token"] == JStr(access)
    requires "refresh_token" in cognito && cognito["refresh_token"] == JStr(refresh)
    requires access != "" && refresh != ""
    ensures GetAuthTokens("Darwin", fileExists, text, parse) == Ok((JStr(access), JStr(refresh)))
  {
  }

  /** Conversely, tokens are returned only from such a file, and only on macOS. */
  lemma TokensOnlyFromFile(system: string, fileExists: bool, text: string, parse: string -> Option<Json>)
    requires GetAuthTokens(system, fileExists, text, parse).Ok?
    ensures system == "Darwin" && fileExists
    ensures parse(text).Some? && parse(text).value.JObj?
    ensures var file := parse(text).value.fields;
      && "cognito_tokens" in file && file["cognito_tokens"].JStr?
      && var cognito := parse(file["cognito_tokens"].s);
      && cognito.Some? && cognito.value.JObj?
      && "access_token" in cognito.value.fields && "refresh_token" in cognito.value.fields
      && GetAuthTokens(system, fileExists, text, parse).value
         == (cognito.value.fields["access_token"], cognito.value.fields["refresh_token"])
  {
  }

  /** The dict parsed from the file's `cognito_tokens` string, when the file has that shape. */
  function StoredCognito(text: string, parse: string -> Option<Json>): Option<map<string, Json>> {
    match parse(text)
    case Some(JObj(file)) =>
      if "cognito_tokens" in file && file["cognito_tokens"].JStr? then
        match parse(file["cognito_tokens"].s)
        case Some(JObj(cognito)) => Some(cognito)
        case _ => None
      else None
    case _ => None
  }

  /**
   * A file of the stored shape whose access or refresh token is falsy (empty,
   * null, 0, ...) raises "token missing", and nothing else does.
   */
  lemma FalsyTokenIsMissing(system: string, fileExists: bool, text: string, parse: string -> Option<Json>)
    ensures GetAuthTokens(system, fileExists, text, parse) == Err(AuthError(TokenMissing)) <==>
      && system == "Darwin" && fileExists && StoredCognito(text, parse).Some?
      && var cognito := StoredCognito(text, parse).value;
      && "access_token" in cognito && "refresh_token" in cognito
      && (!Truthy(cognito["access_token"]) || !Truthy(cognito["refresh_token"]))
  {
  }

  /**
   * The except clause: malformed JSON in the file or in its `cognito_tokens`
   * string, or a missing key, raises "failed to extract", and nothing else does.
   */
  lemma ExtractFailure(system: string, fileExists: bool, text: string, parse: string -> Option<Json>)
    ensures GetAuthTokens(system, fileExists, text, parse) == Err(AuthError(ExtractFailed)) <==>
      && system == "Darwin" && fileExists
      && (|| parse(text).None?
          || (parse(text).value.JObj? && "cognito_tokens" !in parse(text).value.fields)
          || (&& parse(text).value.JObj? && "cognito_tokens" in parse(text).value.fields
              && parse(text).value.fields["cognito_tokens"].JStr?
              && parse(parse(text).value.fields["cognito_tokens"].s).None?)
          || (&& StoredCognito(text, parse).Some?
              && ("access_token" !in StoredCognito(text, parse).value
                  || "refresh_token" !in StoredCognito(text, parse).value)))
  {
  }

  /**
   * A value of the wrong JSON type (a file or token string that is not a
   * dict, a `cognito_tokens` that is not a string) raises TypeError, which the
   * except clause does not catch.
   */
  lemma WrongTypeEscapes(system: string, fileExists: bool, text: string, parse: string -> Option<Json>)
    ensures GetAuthTokens(system, fileExists, text, parse) == Err(TypeError) <==>
      && system == "Darwin" && fileExists && parse(text).Some?
      && (|| !parse(text).value.JObj?
          || (&& "cognito_tokens" in parse(text).value.fields
              && (|| !parse(text).value.fields["cognito_tokens"].JStr?
                  || (&& parse(parse(text).value.fields["cognito_tokens"].s).Some?
                      && !parse(parse(text).value.fields["cognito_tokens"].s).value.JObj?))))
  {
  }

  /** `_provide_auth_token_macos`: the access token of `get_auth_tokens`, or its error. */
  function ProvideAuthToken(system: string, fileExists: bool, text: string, parse: string -> Option<Json>): (r: Result<Json>)
    ensures r.Ok? <==> GetAuthTokens(system, fileExists, text, parse).Ok?
    ensures r.Ok? ==> r.value == GetAuthTokens(system, fileExists, text, parse).value.0 && Truthy(r.value)
    ensures r.Err? ==> r.error == GetAuthTokens(system, fileExists, text, parse).error
  {
    match GetAuthTokens(system, fileExists, text, parse)
    case Ok(tokens) => Ok(tokens.0)
    case Err(e) => Err(e)
  }

  // ------------------------------------------------------ paging documents

  /** The fields of `GetDocumentsFilters`; `extra` holds the undeclared keys it allows. */
  datatype GetDocumentsFilters = GetDocumentsFilters(
    workspaceId: Option<string>, cursor: Option<string>, limit: Option<int>, extra: map<string, Json>)

  /** Names a declared field can arrive under; an undeclared key never has one of them. */
  const Declared: set<string> := {"workspace_id", "workspaceId", "cursor", "limit"}

  /**
   * `filters.model_dump(by_alias=True, exclude_none=True, exclude={"cursor"})`,
   * or {} without filters: `workspaceId` and `limit` when set, and the non-null
   * extra keys.
   */
  function InitialFilters(filters: Option<GetDocumentsFilters>): (d: map<string, Json>)
    ensures "cursor" !in d
    ensures filters.None? ==> d == map[]
    ensures filters.Some? ==> ("workspaceId" in d <==> filters.value.workspaceId.Some?)
    ensures filters.Some? ==> ("limit" in d <==> filters.value.limit.Some?)
    ensures filters.Some? && filters.value.workspaceId.Some? ==> d["workspaceId"] == JStr(filters.value.workspaceId.value)
    ensures filters.Some? && filters.value.limit.Some? ==> d["limit"] == JNum(filters.value.limit.value)
    ensures forall k :: k in d && k !in {"workspaceId", "limit"} ==>
      filters.Some? && k in filters.value.extra && filters.value.extra[k] == d[k] && d[k] != JNull
    ensures filters.Some? ==> forall k :: k in filters.value.extra && filters.value.extra[k] != JNull && k !in Declared ==>
      k in d && d[k] == filters.value.extra[k]
  {
    match filters
    case None => map[]
    case Some(f) =>
      var extras := map k | k in f.extra && f.extra[k] != JNull && k !in Declared :: f.extra[k];
      var withWorkspace := if f.workspaceId.Some? then extras["workspaceId" := JStr(f.workspaceId.value)] else extras;
      if f.limit.Some? then withWorkspace["limit" := JNum(f.limit.value)] else withWorkspace
  }

  /** The payload of one page request: the initial filters, and the cursor only when it is non-empty. */
  function PagePayload(initial: map<string, Json>, cursor: Option<string>): (r: map<string, Json>)
    ensures r - {"cursor"} == initial - {"cursor"}
    ensures cursor.Some? && cursor.value != "" ==> "cursor" in r && r["cursor"] == JStr(cursor.value)
    ensures cursor.None? || cursor.value == "" ==> r == initial
  {
    if cursor.Some? && cursor.value != "" then initial["cursor" := JStr(cursor.value)] else initial
  }

  /** The cursor a payload asks for. */
  function CursorOf(payload: map<string, Json>): Option<string> {
    if "cursor" in payload && payload["cursor"].JStr? then Some(payload["cursor"].s) else None
  }

  /**
   * Every page request carries all the caller's filters unchanged, and asks for
   * exactly the cursor it was given; an empty cursor asks for the first page.
   */
  lemma PayloadKeepsFilters(filters: Option<GetDocumentsFilters>, cursor: Option<string>)
    ensures PagePayload(InitialFilters(filters), cursor) - {"cursor"} == InitialFilters(filters)
    ensures CursorOf(PagePayload(InitialFilters(filters), cursor))
            == (if cursor.Some? && cursor.value != "" then cursor else None)
  {
    var d := InitialFilters(filters);
    assert d - {"cursor"} == d;
  }

  /** One page of `paginate`: its documents and the cursor of the next page, None on the last. */
  datatype Page = Page(items: seq<Document>, nextCursor: Option<string>)

  /**
   * `fetch_page_func(cursor)`: copy the initial filters, add the cursor when
   * it is non-empty, post them to `/v2/get-documents` (answered by `server`),
   * and return the response's documents and next cursor as a page.
   */
  method FetchPage(initial: map<string, Json>, cursor: Option<string>, server: map<string, Json> -> DocumentsResponse)
    returns (payload: map<string, Json>, page: Page)
    ensures payload == PagePayload(initial, cursor)
    ensures page.items == server(payload).docs && page.nextCursor == server(payload).nextCursor
  {
    payload := initial;
    if cursor.Some? && cursor.value != "" {
      payload := payload["cursor" := JStr(cursor.value)];
    }
    var response := server(payload);
    page := Page(response.docs, response.nextCursor);
  }

  /** A response without `next_cursor` yields a page that ends the listing. */
  lemma MissingCursorIsLastPage(docs: seq<Document>)
    ensures DocumentsResponseOf(docs, Missing).nextCursor == None
    ensures DocumentsResponseOf(docs, Null).nextCursor == None
  {
  }

  // ---------------------------------------------------------------- folders

  /** The `lists` dict of `get_document_lists()`: folder ids and folders, in the server's order. */
  type Lists = seq<(string, DocumentList)>

  /** A dict never holds a key twice. */
  predicate DistinctKeys(lists: Lists) {
    forall i, j :: 0 <= i < j < |lists| ==> lists[i].0 != lists[j].0
  }

  /** `lists.get(id)`. */
  function Lookup(lists: Lists, id: string): (r: Option<DocumentList>)
    ensures r.Some? ==> (id, r.value) in lists
    ensures r.None? ==> forall k :: 0 <= k < |lists| ==> lists[k].0 != id
  {
    if lists == [] then None
    else if lists[0].0 == id then Some(lists[0].1)
    else Lookup(lists[1..], id)
  }

  /** In a dict, the folder stored under an id is the one `get` finds. */
  lemma {:induction false} LookupFinds(lists: Lists, id: string, folder: DocumentList)
    requires DistinctKeys(lists) && (id, folder) in lists
    ensures Lookup(lists, id) == Some(folder)
  {
    if lists[0] != (id, folder) {
      assert lists[0].0 != id by {
        var k :| 0 <= k < |lists| && lists[k] == (id, folder);
        assert k != 0;
      }
      assert (id, folder) in lists[1..] by {
        var k :| 0 <= k < |lists| && lists[k] == (id, folder);
        assert lists[1..][k - 1] == lists[k];
      }
      LookupFinds(lists[1..], id, folder);
    }
  }

  /** A request the folder operations make. */
  datatype Call = GetDocumentLists | GetDocuments(payload: map<string, Json>)

  /** What a call returns (or raises), with the requests it made in order. */
  datatype Outcome = Outcome(result: Result<seq<Document>>, calls: seq<Call>)

  /** The document ids as a JSON list. */
  function IdsJson(ids: seq<string>): (r: seq<Json>)
    ensures |r| == |ids|
    ensures forall k :: 0 <= k < |ids| ==> r[k] == JStr(ids[k])
  {
    if ids == [] then [] else [JStr(ids[0])] + IdsJson(ids[1..])
  }

  /** The dumped `EnhancedGetDocumentsFilters` of a folder fetch. */
  function FolderFilters(ids: seq<string>): map<string, Json> {
    map[
      "document_ids" := JArr(IdsJson(ids)),
      "include_last_viewed_panel" := JBool(true),
      "include_shared" := JBool(true),
      "include_folders" := JBool(true),
      "expand_folders" := JBool(true),
      "show_organization" := JBool(true)]
  }

  /** The document ids a request payload asks for, if it lists only strings. */
  function RequestedIds(payload: map<string, Json>): Option<seq<string>> {
    if "document_ids" in payload && payload["document_ids"].JArr?
       && forall k :: 0 <= k < |payload["document_ids"].items| ==> payload["document_ids"].items[k].JStr?
    then Some(seq(|payload["document_ids"].items|, k requires 0 <= k < |payload["document_ids"].items|
                                                   && payload["document_ids"].items[k].JStr?
                                                 => payload["document_ids"].items[k].s))
    else None
  }

  /** A folder fetch asks for exactly the folder's document ids, in order. */
  lemma FolderFiltersIds(ids: seq<string>)
    ensures RequestedIds(FolderFilters(ids)) == Some(ids)
  {
    var payload := FolderFilters(ids);
    var items := IdsJson(ids);
    assert payload["document_ids"] == JArr(items);
    assert forall k :: 0 <= k < |items| ==> items[k].JStr?;
    var r := RequestedIds(payload);
    assert r.Some?;
    assert r.value == ids;
  }

  /**
   * `get_documents_by_folder_id(folder_id)` with the server's folder `lists`
   * and `server` answering `/v2/get-documents`.
   */
  function GetDocumentsByFolderId(folderId: string, lists: Lists, server: map<string, Json> -> DocumentsResponse): (o: Outcome)
    ensures o.result.Err? <==> Lookup(lists, folderId).None?
    ensures o.result.Err? ==> o.result.error == ValueError(NoFolderWithId(folderId))
    ensures |o.calls| >= 1 && o.calls[0] == GetDocumentLists
    ensures |o.calls| == 2 <==> Lookup(lists, folderId).Some? && Lookup(lists, folderId).value.documentIds != []
    ensures |o.calls| == 2 ==>
      && o.calls[1].GetDocuments?
      && RequestedIds(o.calls[1].payload) == Some(Lookup(lists, folderId).value.documentIds)
      && o.result == Ok(server(o.calls[1].payload).docs)
    ensures |o.calls| != 2 ==> |o.calls| == 1 && (o.result.Ok? ==> o.result.value == [])
  {
    match Lookup(lists, folderId)
    case None => Outcome(Err(ValueError(NoFolderWithId(folderId))), [GetDocumentLists])
    case Some(folder) =>
      if folder.documentIds == [] then Outcome(Ok([]), [GetDocumentLists])
      else
        var payload := FolderFilters(folder.documentIds);
        FolderFiltersIds(folder.documentIds);
        Outcome(Ok(server(payload).docs), [GetDocumentLists, GetDocuments(payload)])
  }

  /** Whether a folder title matches the requested name: exactly, or after lowercasing both. */
  predicate TitleMatches(title: string, name: string, caseSensitive: bool) {
    if caseSensitive then title == name else Lower(title) == Lower(name)
  }

  /** The folders of `lists` whose title matches, in the server's order. */
  function Matching(lists: Lists, name: string, caseSensitive: bool): (r: Lists)
    ensures |r| <= |lists|
    decreases |lists|
  {
    if lists == [] then []
    else
      var last := lists[|lists| - 1];
      Matching(lists[..|lists| - 1], name, caseSensitive)
      + (if TitleMatches(last.1.title, name, caseSensitive) then [last] else [])
  }

  /** A folder is among the matches exactly when it is in `lists` and its title matches. */
  lemma {:induction false} MatchingExactly(lists: Lists, name: string, caseSensitive: bool, p: (string, DocumentList))
    ensures p in Matching(lists, name, caseSensitive) <==> p in lists && TitleMatches(p.1.title, name, caseSensitive)
    decreases |lists|
  {
    if lists != [] {
      var init := lists[..|lists| - 1];
      MatchingExactly(init, name, caseSensitive, p);
      assert lists == init + [lists[|lists| - 1]];
    }
  }

  /** The loop of `get_documents_by_folder_name` collecting the matching folders. */
  method MatchingFolders(lists: Lists, name: string, caseSensitive: bool) returns (matches: Lists)
    ensures matches == Matching(lists, name, caseSensitive)
  {
    matches := [];
    for i := 0 to |lists|
      invariant matches == Matching(lists[..i], name, caseSensitive)
    {
      var (folderId, folder) := lists[i];
      if caseSensitive {
        if folder.title == name {
          matches := matches + [(folderId, folder)];
        }
      } else {
        if Lower(folder.title) == Lower(name) {
          matches := matches + [(folderId, folder)];
        }
      }
      assert lists[..i + 1][..i] == lists[..i];
    }
    assert lists[..|lists|] == lists;
  }

  /** The titles the several-folders error lists. */
  function Titles(matches: Lists): (r: seq<string>)
    ensures |r| == |matches|
    ensures forall k :: 0 <= k < |matches| ==> r[k] == matches[k].1.title
  {
    if matches == [] then [] else [matches[0].1.title] + Titles(matches[1..])
  }

  /**
   * `get_documents_by_folder_name(name, case_sensitive=False)`: no match and
   * several matches raise ValueError; one match is fetched by id, which asks
   * the server for the folder lists a second time. `lists` is the first reply
   * and `listsById` the second, which the server may answer differently.
   */
  method GetDocumentsByFolderName(name: string, lists: Lists, listsById: Lists, server: map<string, Json> -> DocumentsResponse,
                                  caseSensitive: bool := false)
    returns (o: Outcome)
    ensures var m := Matching(lists, name, caseSensitive);
      && (|m| == 0 ==> o == Outcome(Err(ValueError(NoFolderNamed(name))), [GetDocumentLists]))
      && (|m| > 1 ==> o == Outcome(Err(ValueError(SeveralFoldersNamed(name, Titles(m)))), [GetDocumentLists]))
      && (|m| == 1 ==>
            var byId := GetDocumentsByFolderId(m[0].0, listsById, server);
            o == Outcome(byId.result, [GetDocumentLists] + byId.calls))
  {
    var matches := MatchingFolders(lists, name, caseSensitive);
    if |matches| == 0 {
      return Outcome(Err(ValueError(NoFolderNamed(name))), [GetDocumentLists]);
    } else if |matches| > 1 {
      var titles := [];
      for i := 0 to |matches|
        invariant titles == Titles(matches[..i])
      {
        titles := titles + [matches[i].1.title];
        assert Titles(matches[..i + 1]) == Titles(matches[..i]) + [matches[i].1.title] by {
          TitlesSnoc(matches[..i], matches[i]);
          assert matches[..i + 1] == matches[..i] + [matches[i]];
        }
      }
      assert matches[..|matches|] == matches;
      return Outcome(Err(ValueError(SeveralFoldersNamed(name, titles))), [GetDocumentLists]);
    }
    var (folderId, _) := matches[0];
    var byId := GetDocumentsByFolderId(folderId, listsById, server);
    o := Outcome(byId.result, [GetDocumentLists] + byId.calls);
  }

  lemma TitlesSnoc(ms: Lists, p: (string, DocumentList))
    ensures Titles(ms + [p]) == Titles(ms) + [p.1.title]
  {
  }

  /**
   * With a single matching folder, and a second lists reply equal to the
   * first, the lookup by id finds that very folder: the fetch by name does not
   * fail for a missing id, and asks for exactly that folder's documents.
   * (If the second reply lacks the folder, the fetch raises the by-id lookup's
   * ValueError, as `GetDocumentsByFolderId` states.)
   */
  lemma SingleMatchIsFound(lists: Lists, name: string, caseSensitive: bool, server: map<string, Json> -> DocumentsResponse)
    requires DistinctKeys(lists)
    requires |Matching(lists, name, caseSensitive)| == 1
    ensures var m := Matching(lists, name, caseSensitive)[0];
      var byId := GetDocumentsByFolderId(m.0, lists, server);
      && Lookup(lists, m.0) == Some(m.1)
      && TitleMatches(m.1.title, name, caseSensitive)
      && byId.result.Ok?
      && (m.1.documentIds != [] ==> RequestedIds(byId.calls[1].payload) == Some(m.1.documentIds))
  {
    var m := Matching(lists, name, caseSensitive)[0];
    MatchingExactly(lists, name, caseSensitive, m);
    LookupFinds(lists, m.0, m.1);
  }

  // -------------------------------------------------------------- updates

  /** `check_for_update`: the update feed file for the platform `system`. */
  method UpdateFile(system: string) returns (platformPath: string)
    ensures system == "Windows" ==> platformPath == "latest.yml"
    ensures system == "Linux" ==> platformPath == "latest-linux.yml"
    ensures system != "Windows" && system != "Linux" ==> platformPath == "latest-mac.yml"
  {
    platformPath := "latest-mac.yml";
    if system == "Windows" {
      platformPath := "latest.yml";
    } else if system == "Linux" {
      platformPath := "latest-linux.yml";
    }
  }

  /** The path `check_for_update` fetches for a feed file. */
  function UpdatePath(platformPath: string): (p: string)
    ensures |p| > |platformPath| && p[|p| - |platformPath|..] == platformPath
  {
    "/v1/check-for-update/" + platformPath
  }

  // ------------------------------------------------------ bare-list replies

  /** `response.encoding or "utf-8"`. */
  function EncodingOf(encoding: Option<string>): (e: string)
    ensures e != ""
    ensures encoding.Some? && encoding.value != "" ==> e == encoding.value
    ensures encoding.None? || encoding.value == "" ==> e == "utf-8"
  {
    if encoding.Some? && encoding.value != "" then encoding.value else "utf-8"
  }

  /**
   * The endpoints that answer with a bare JSON list (transcripts, panel
   * templates, people, feature flags): `validate` is the list validator (None
   * when it rejects the body) and `decode` decodes the raw body in an encoding,
   * replacing what it cannot decode. A rejected body is reported with its text,
   * and no part of the list is returned.
   */
  function DecodeBareList<T>(body: seq<bv8>, encoding: Option<string>,
                             validate: seq<bv8> -> Option<seq<T>>, decode: (seq<bv8>, string) -> string): (r: Result<seq<T>>)
    ensures r.Ok? <==> validate(body).Some?
    ensures r.Ok? ==> r.value == validate(body).value
    ensures r.Err? ==> r.error == ValidationError(decode(body, EncodingOf(encoding)))
  {
    match validate(body)
    case Some(items) => Ok(items)
    case None => Err(ValidationError(decode(body, EncodingOf(encoding))))
  }
}
