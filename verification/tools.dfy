/**
 * The tool protocol served on an open event stream: the static `tools/list` answer and the
 * `tools/call` handler, which builds the tracker request for a tool, turns the tracker's reply into
 * one text block, and turns every failure (unknown tool, tracker error, the missing `spaces` of a
 * pending entry) into an in-band `Error: ...` text instead of letting it escape.
 *
 * The stream hands the handler the registry entry its token named.  That entry may be a pending
 * authorization, whose missing fields JavaScript renders as `undefined`; the model keeps that.
 */
module Tools {
  import opened Wrappers
  import opened Text
  import opened Registry

  const SEARCH_TOOL := "search_issues_across_spaces"
  const CREATE_TOOL := "create_issue"
  const LIST_TOOL := "list_spaces"

  const DEFAULT_MAX_RESULTS := 20
  const DEFAULT_ISSUE_TYPE := "Task"

  /** How a template string shows a missing field. */
  const UNDEFINED := "undefined"

  const API_BASE := "https://api.atlassian.com/ex/jira/"
  const API_PATH := "/rest/api/3"
  const JSON := "application/json"

  const JQL_PREFIX := "text ~ \""
  const JQL_SUFFIX := "\" ORDER BY created DESC"
  const NO_ISSUES := "No issues found matching your search."
  const SPACES_PREFIX := "Accessible spaces: "

  /** The message of the TypeError thrown by `session.spaces.join` when `spaces` is missing. */
  const JOIN_OF_UNDEFINED := "Cannot read properties of undefined (reading 'join')"

  // ---------------------------------------------------------------------------------------------
  // tools/list

  datatype Default = NoDefault | NumberDefault(number: int) | TextDefault(text: string)
  datatype Property = Property(name: string, kind: string, description: Option<string>, default: Default)
  datatype Schema = Schema(kind: string, properties: seq<Property>, required: Option<seq<string>>)
  datatype Tool = Tool(name: string, description: string, inputSchema: Schema)

  /** The answer to every `tools/list` request, in this order. */
  function ToolList(): seq<Tool>
  {
    [ Tool(SEARCH_TOOL, "Search issues in all accessible Jira spaces",
           Schema("object",
                  [ Property("query", "string", Some("Search text"), NoDefault),
                    Property("maxResults", "number", None, NumberDefault(DEFAULT_MAX_RESULTS)) ],
                  Some(["query"]))),
      Tool(CREATE_TOOL, "Create a new issue",
           Schema("object",
                  [ Property("projectKey", "string", None, NoDefault),
                    Property("summary", "string", None, NoDefault),
                    Property("description", "string", None, NoDefault),
                    Property("issueType", "string", None, TextDefault(DEFAULT_ISSUE_TYPE)) ],
                  Some(["projectKey", "summary"]))),
      Tool(LIST_TOOL, "List all accessible spaces", Schema("object", [], None)) ]
  }

  predicate Listed(name: string)
  {
    exists i | 0 <= i < |ToolList()| :: ToolList()[i].name == name
  }

  predicate Declares(s: Schema, name: string)
  {
    exists j | 0 <= j < |s.properties| :: s.properties[j].name == name
  }

  /** Three tools, named once each, and every required argument is a declared property. */
  lemma ToolListWellFormed()
    ensures |ToolList()| == 3
    ensures forall i, j :: 0 <= i < j < |ToolList()| ==> ToolList()[i].name != ToolList()[j].name
    ensures forall i, r ::
              (0 <= i < |ToolList()| && ToolList()[i].inputSchema.required.Some? && r in ToolList()[i].inputSchema.required.value)
              ==> Declares(ToolList()[i].inputSchema, r)
  {
    var tools := ToolList();
    assert Declares(tools[0].inputSchema, "query") by { assert tools[0].inputSchema.properties[0].name == "query"; }
    assert Declares(tools[1].inputSchema, "projectKey") by { assert tools[1].inputSchema.properties[0].name == "projectKey"; }
    assert Declares(tools[1].inputSchema, "summary") by { assert tools[1].inputSchema.properties[1].name == "summary"; }
  }

  // ---------------------------------------------------------------------------------------------
  // Requests to the tracker

  /** The arguments of a call; a missing one is None. */
  datatype Args = Args(query: Option<string>, maxResults: Option<int>, projectKey: Option<string>,
                       summary: Option<string>, description: Option<string>, issueType: Option<string>)

  datatype Headers = Headers(authorization: string, accept: string, contentType: string)

  /** The tracker's rich-text document: a `doc` of paragraphs of text nodes. */
  datatype TextNode = TextNode(kind: string, text: string)
  datatype Paragraph = Paragraph(kind: string, content: seq<TextNode>)
  datatype Doc = Doc(kind: string, version: int, content: seq<Paragraph>)

  /** A missing project key or summary is left out of the JSON body: None. */
  datatype IssueFields = IssueFields(projectKey: Option<string>, summary: Option<string>, description: Doc, issueTypeName: string)

  datatype Payload = SearchParams(jql: string, maxResults: int) | CreateBody(fields: IssueFields)
  datatype ApiRequest = ApiRequest(verb: string, url: string, headers: Headers, payload: Payload)

  /** The fields of the entry as the handlers read them. */
  function CloudIdOf(e: Entry): string { if e.Session? then e.cloudId else UNDEFINED }
  function AccessTokenOf(e: Entry): string { if e.Session? then e.token else UNDEFINED }
  function SiteUrlOf(e: Entry): string { if e.Session? then e.url else UNDEFINED }

  /** The tracker's REST URL of `endpoint` on site `cloudId`: the site id sits between the fixed
      base and the API path. */
  function ApiUrl(cloudId: string, endpoint: string): (u: string)
    ensures |u| == |API_BASE| + |cloudId| + |API_PATH| + |endpoint|
    ensures u[..|API_BASE|] == API_BASE
    ensures u[|API_BASE|..|API_BASE| + |cloudId|] == cloudId
    ensures u[|API_BASE| + |cloudId|..|u| - |endpoint|] == API_PATH
    ensures u[|u| - |endpoint|..] == endpoint
  {
    API_BASE + cloudId + API_PATH + endpoint
  }

  /** `jiraApi(endpoint, options)`: the site's URL and the session's bearer credential. */
  function JiraRequest(e: Entry, verb: string, endpoint: string, payload: Payload): ApiRequest
  {
    ApiRequest(verb, ApiUrl(CloudIdOf(e), endpoint), Headers("Bearer " + AccessTokenOf(e), JSON, JSON), payload)
  }

  /** Every tracker request goes to the entry's site under the REST API path, carries the entry's
      access token as a bearer credential, and asks for and sends JSON. */
  lemma JiraRequestTargetsSite(e: Entry, verb: string, endpoint: string, payload: Payload)
    ensures var r := JiraRequest(e, verb, endpoint, payload);
            && r.verb == verb && r.payload == payload
            && r.url == API_BASE + CloudIdOf(e) + API_PATH + endpoint
            && |r.headers.authorization| == 7 + |AccessTokenOf(e)|
            && r.headers.authorization[..7] == "Bearer "
            && r.headers.authorization[7..] == AccessTokenOf(e)
            && r.headers.accept == JSON && r.headers.contentType == JSON
  {
  }

  /** The search query, with the user's text placed between double quotes as it is. */
  function Jql(query: Option<string>): string
  {
    JQL_PREFIX + query.GetOr(UNDEFINED) + JQL_SUFFIX
  }

  /** `args.maxResults || 20`. */
  function MaxResults(requested: Option<int>): (n: int)
    ensures n != 0
    ensures requested.Some? && requested.value != 0 ==> n == requested.value
  {
    if requested.Some? && requested.value != 0 then requested.value else DEFAULT_MAX_RESULTS
  }

  /** Passing on the limit the handler chose changes nothing: the default is applied only once. */
  lemma MaxResultsIdempotent(requested: Option<int>)
    ensures MaxResults(Some(MaxResults(requested))) == MaxResults(requested)
  {
  }

  /** `args.issueType || 'Task'`. */
  function IssueTypeName(requested: Option<string>): string
  {
    if requested.Some? && requested.value != "" then requested.value else DEFAULT_ISSUE_TYPE
  }

  /** A description as a document of one paragraph holding one text node. */
  function PlainDoc(text: string): Doc
  {
    Doc("doc", 1, [Paragraph("paragraph", [TextNode("text", text)])])
  }

  // ---------------------------------------------------------------------------------------------
  // Replies and results

  datatype Issue = Issue(key: string, summary: string, status: string, project: string)
  datatype IssueSummary = IssueSummary(key: string, summary: string, status: string, project: string, url: string)

  /** What the catch block can receive: the error thrown for an unknown tool, a JavaScript type
      error, or a tracker error with the optional `errorMessages` of its body. */
  datatype Thrown =
    | UnknownTool(name: string)
    | TypeError(message: string)
    | ApiError(errorMessages: Option<seq<string>>, message: string)

  /** A tracker reply: the awaited value, or the error axios threw, with the `errorMessages` of the
      response body when there was one. */
  datatype Reply<T> = Answered(value: T) | Failed(errorMessages: Option<seq<string>>, message: string)

  /** The tracker's replies to a search and to a create; only the one the tool asks for is read. */
  datatype Replies = Replies(search: Reply<seq<Issue>>, create: Reply<string>)

  datatype Outcome = Answer(text: string) | Threw(error: Thrown)

  /** What the `try` block did: the request it sent, if any, and how it ended. */
  datatype Handled = Handled(sent: Option<ApiRequest>, outcome: Outcome)

  datatype TextBlock = TextBlock(kind: string, text: string)
  datatype ToolResult = ToolResult(content: seq<TextBlock>)
  datatype Call = Call(sent: Option<ApiRequest>, result: ToolResult)

  function BrowseUrl(siteUrl: string, key: string): string
  {
    siteUrl + "/browse/" + key
  }

  /** The issues as the search tool reports them, in reply order, each with its browse URL. */
  function Summarize(issues: seq<Issue>, siteUrl: string): (r: seq<IssueSummary>)
    ensures |r| == |issues|
    ensures forall i :: 0 <= i < |issues| ==>
              r[i] == IssueSummary(issues[i].key, issues[i].summary, issues[i].status, issues[i].project,
                                   BrowseUrl(siteUrl, issues[i].key))
  {
    if issues == [] then []
    else
      var issue := issues[0];
      [IssueSummary(issue.key, issue.summary, issue.status, issue.project, BrowseUrl(siteUrl, issue.key))]
        + Summarize(issues[1..], siteUrl)
  }

  function FoundHeader(n: nat): string
  {
    "Found " + NatToString(n) + " issues:\n\n"
  }

  /** `serialize` stands for `JSON.stringify(issues, null, 2)`. */
  function SearchText(found: seq<IssueSummary>, serialize: seq<IssueSummary> -> string): string
  {
    if |found| > 0 then FoundHeader(|found|) + serialize(found) else NO_ISSUES
  }

  function CreatedText(siteUrl: string, key: string): string
  {
    "Created issue: " + key + "\nURL: " + BrowseUrl(siteUrl, key)
  }

  /** The message the catch block shows: `errorMessages` joined with ", " when that is not empty,
      else the error's own message. */
  function ErrorText(e: Thrown): string
  {
    "Error: " +
    match e
    case UnknownTool(name) => "Unknown tool: " + name
    case TypeError(message) => message
    case ApiError(errorMessages, message) =>
      if errorMessages.Some? && Join(errorMessages.value, LIST_SEP) != "" then Join(errorMessages.value, LIST_SEP)
      else message
  }

  // ---------------------------------------------------------------------------------------------
  // tools/call

  /** The `try` block: the switch on the tool name. */
  function Handle(name: string, args: Args, e: Entry, replies: Replies,
                  serialize: seq<IssueSummary> -> string): (h: Handled)
    ensures h.sent.Some? <==> name == SEARCH_TOOL || name == CREATE_TOOL
  {
    if name == SEARCH_TOOL then
      var request := JiraRequest(e, "GET", "/search", SearchParams(Jql(args.query), MaxResults(args.maxResults)));
      match replies.search
      case Failed(errorMessages, message) => Handled(Some(request), Threw(ApiError(errorMessages, message)))
      case Answered(issues) => Handled(Some(request), Answer(SearchText(Summarize(issues, SiteUrlOf(e)), serialize)))
    else if name == CREATE_TOOL then
      var fields := IssueFields(args.projectKey, args.summary, PlainDoc(args.description.GetOr("")),
                                IssueTypeName(args.issueType));
      var request := JiraRequest(e, "POST", "/issue", CreateBody(fields));
      match replies.create
      case Failed(errorMessages, message) => Handled(Some(request), Threw(ApiError(errorMessages, message)))
      case Answered(key) => Handled(Some(request), Answer(CreatedText(SiteUrlOf(e), key)))
    else if name == LIST_TOOL then
      if e.Session? then Handled(None, Answer(SPACES_PREFIX + Join(e.spaces, LIST_SEP)))
      else Handled(None, Threw(TypeError(JOIN_OF_UNDEFINED)))
    else
      Handled(None, Threw(UnknownTool(name)))
  }

  /** The `tools/call` handler: whatever happens, one text block; a failure becomes `Error: ...`. */
  function CallTool(name: string, args: Args, e: Entry, replies: Replies,
                    serialize: seq<IssueSummary> -> string): (c: Call)
    ensures |c.result.content| == 1 && c.result.content[0].kind == "text"
    ensures c.sent == Handle(name, args, e, replies, serialize).sent
    ensures Handle(name, args, e, replies, serialize).outcome.Threw? ==>
              |c.result.content[0].text| >= 7 && c.result.content[0].text[..7] == "Error: "
  {
    var h := Handle(name, args, e, replies, serialize);
    var text := match h.outcome
      case Answer(text) => text
      case Threw(error) => ErrorText(error);
    Call(h.sent, ToolResult([TextBlock("text", text)]))
  }

  function TextOf(c: Call): string
    requires |c.result.content| == 1
  {
    c.result.content[0].text
  }

  // ---------------------------------------------------------------------------------------------
  // Properties of the handler

  /** A name is rejected as unknown exactly when `tools/list` does not offer it; nothing is sent
      and the caller gets `Error: Unknown tool: <name>` back as an ordinary result. */
  lemma UnknownIffUnlisted(name: string, args: Args, e: Entry, replies: Replies, serialize: seq<IssueSummary> -> string)
    ensures Handle(name, args, e, replies, serialize).outcome == Threw(UnknownTool(name)) <==> !Listed(name)
    ensures !Listed(name) ==>
              CallTool(name, args, e, replies, serialize) == Call(None, ToolResult([TextBlock("text", "Error: Unknown tool: " + name)]))
  {
    var tools := ToolList();
    assert tools[0].name == SEARCH_TOOL && tools[1].name == CREATE_TOOL && tools[2].name == LIST_TOOL;
    assert "Error: " + ("Unknown tool: " + name) == "Error: Unknown tool: " + name by {
      assert "Error: " + "Unknown tool: " == "Error: Unknown tool: ";
    }
  }

  /** The defaults `tools/list` advertises are the ones the handler applies to a missing argument. */
  lemma AdvertisedDefaultsApplied()
    ensures ToolList()[0].inputSchema.properties[1] == Property("maxResults", "number", None, NumberDefault(MaxResults(None)))
    ensures ToolList()[1].inputSchema.properties[3] == Property("issueType", "string", None, TextDefault(IssueTypeName(None)))
  {
  }

  /** `list_spaces` sends nothing and answers with the session's space keys, in order, joined with
      ", "; from that text the keys can be read back when none of them contains ", ". */
  lemma ListSpacesAnswer(args: Args, e: Entry, replies: Replies, serialize: seq<IssueSummary> -> string)
    requires e.Session?
    ensures var c := CallTool(LIST_TOOL, args, e, replies, serialize);
            && c.sent.None?
            && TextOf(c) == SPACES_PREFIX + Join(e.spaces, LIST_SEP)
            && (|e.spaces| > 0 && (forall k :: 0 <= k < |e.spaces| ==> !HasSep(e.spaces[k])) ==>
                 Split(TextOf(c)[|SPACES_PREFIX|..]) == e.spaces)
  {
    var text := TextOf(CallTool(LIST_TOOL, args, e, replies, serialize));
    assert text[|SPACES_PREFIX|..] == Join(e.spaces, LIST_SEP);
    if |e.spaces| > 0 && (forall k :: 0 <= k < |e.spaces| ==> !HasSep(e.spaces[k])) {
      SplitJoin(e.spaces);
    }
  }

  /** On a pending entry (its state passed the stream check) `list_spaces` fails in-band. */
  lemma ListSpacesOnPendingEntry(args: Args, created: int, replies: Replies, serialize: seq<IssueSummary> -> string)
    ensures TextOf(CallTool(LIST_TOOL, args, Pending(created), replies, serialize))
            == "Error: " + JOIN_OF_UNDEFINED
  {
  }

  lemma ListSpacesExample(args: Args, token: string, cloudId: string, url: string, created: int,
                          replies: Replies, serialize: seq<IssueSummary> -> string)
    ensures TextOf(CallTool(LIST_TOOL, args, Session(token, cloudId, url, ["ENG", "OPS"], created), replies, serialize))
            == "Accessible spaces: ENG, OPS"
  {
  }

  /** The search request: GET `/search` on the session's site with its bearer credential, the
      query placed verbatim in the JQL text, and `maxResults` defaulting to 20 when missing or 0. */
  lemma SearchRequest(args: Args, e: Entry, replies: Replies, serialize: seq<IssueSummary> -> string)
    ensures var sent := CallTool(SEARCH_TOOL, args, e, replies, serialize).sent;
            && sent.Some?
            && sent.value.verb == "GET"
            && sent.value.url == API_BASE + CloudIdOf(e) + "/rest/api/3/search"
            && sent.value.headers == Headers("Bearer " + AccessTokenOf(e), JSON, JSON)
            && sent.value.payload.SearchParams?
            && sent.value.payload.maxResults == (if args.maxResults.None? || args.maxResults.value == 0 then 20 else args.maxResults.value)
            && var jql := sent.value.payload.jql;
               && |jql| == |JQL_PREFIX| + |args.query.GetOr(UNDEFINED)| + |JQL_SUFFIX|
               && jql[..|JQL_PREFIX|] == "text ~ \""
               && jql[|JQL_PREFIX|..|jql| - |JQL_SUFFIX|] == args.query.GetOr(UNDEFINED)
               && jql[|jql| - |JQL_SUFFIX|..] == "\" ORDER BY created DESC"
  {
    var jql := Jql(args.query);
    var q := args.query.GetOr(UNDEFINED);
    assert jql[..|JQL_PREFIX|] == JQL_PREFIX;
    assert jql[|JQL_PREFIX|..|jql| - |JQL_SUFFIX|] == q;
    assert jql[|jql| - |JQL_SUFFIX|..] == JQL_SUFFIX;
  }

  /** The query is not escaped: a double quote in it closes the string literal the prefix opened,
      and what follows it is read as more JQL. */
  lemma QuoteInQueryClosesLiteral(q: string, k: nat)
    requires k < |q| && q[k] == '"'
    ensures var jql := Jql(Some(q));
            && jql[..|JQL_PREFIX|] == "text ~ \""
            && jql[|JQL_PREFIX|..|JQL_PREFIX| + k] == q[..k]
            && jql[|JQL_PREFIX| + k] == '"'
  {
    var jql := Jql(Some(q));
    assert jql[..|JQL_PREFIX|] == JQL_PREFIX;
    assert jql[|JQL_PREFIX|..|JQL_PREFIX| + k] == q[..k];
  }

  /** No match: the fixed sentence.  N matches: `Found N issues:` and the serialized summaries, from
      whose header N can be read back. */
  lemma SearchAnswer(args: Args, e: Entry, issues: seq<Issue>, create: Reply<string>,
                     serialize: seq<IssueSummary> -> string)
    ensures var text := TextOf(CallTool(SEARCH_TOOL, args, e, Replies(Answered(issues), create), serialize));
            && (issues == [] ==> text == "No issues found matching your search.")
            && (issues != [] ==> text == FoundHeader(|issues|) + serialize(Summarize(issues, SiteUrlOf(e))))
  {
  }

  /** The header of a non-empty search answer names the number of issues in decimal. */
  lemma {:induction false} FoundHeaderCount(n: nat)
    ensures var h := FoundHeader(n);
            && |h| == 6 + |NatToString(n)| + 10
            && h[..6] == "Found "
            && h[|h| - 10..] == " issues:\n\n"
            && IsDigits(h[6..|h| - 10])
            && ParseNat(h[6..|h| - 10]) == n
  {
    var h := FoundHeader(n);
    assert h[6..|h| - 10] == NatToString(n);
    ParseNatToString(n);
  }

  /** `create_issue` POSTs to `/issue` a body whose description is a version-1 document with one
      paragraph holding one text node (`description || ''`) and whose issue type is
      `issueType || 'Task'`; on success it answers with the new key and its browse URL. */
  lemma CreateRequestAndAnswer(args: Args, e: Entry, replies: Replies, serialize: seq<IssueSummary> -> string)
    ensures var c := CallTool(CREATE_TOOL, args, e, replies, serialize);
            && c.sent.Some?
            && c.sent.value.verb == "POST"
            && c.sent.value.url == API_BASE + CloudIdOf(e) + "/rest/api/3/issue"
            && c.sent.value.headers == Headers("Bearer " + AccessTokenOf(e), JSON, JSON)
            && c.sent.value.payload.CreateBody?
            && var fields := c.sent.value.payload.fields;
               && fields.projectKey == args.projectKey
               && fields.summary == args.summary
               && fields.description.kind == "doc" && fields.description.version == 1
               && |fields.description.content| == 1
               && fields.description.content[0].kind == "paragraph"
               && fields.description.content[0].content == [TextNode("text", if args.description.Some? then args.description.value else "")]
               && fields.issueTypeName == (if args.issueType.None? || args.issueType.value == "" then "Task" else args.issueType.value)
               && (replies.create.Answered? ==>
                     TextOf(c) == "Created issue: " + replies.create.value + "\nURL: " + SiteUrlOf(e) + "/browse/" + replies.create.value)
  {
  }

  lemma CreateExample(token: string, cloudId: string, url: string, spaces: seq<string>, created: int,
                      search: Reply<seq<Issue>>, serialize: seq<IssueSummary> -> string)
    ensures var args := Args(None, None, Some("ENG"), Some("Fix X"), None, None);
            var c := CallTool(CREATE_TOOL, args, Session(token, cloudId, url, spaces, created),
                              Replies(search, Answered("ENG-42")), serialize);
            TextOf(c) == "Created issue: ENG-42\nURL: " + url + "/browse/ENG-42"
  {
  }

  /** A tracker failure in either downstream tool comes back as an ordinary result whose text is
      `Error: ` and the error's summary, after the request was sent. */
  lemma DownstreamFailureInBand(name: string, args: Args, e: Entry, replies: Replies, serialize: seq<IssueSummary> -> string)
    requires (name == SEARCH_TOOL && replies.search.Failed?) || (name == CREATE_TOOL && replies.create.Failed?)
    ensures var c := CallTool(name, args, e, replies, serialize);
            && c.sent.Some?
            && TextOf(c) == if name == SEARCH_TOOL then ErrorText(ApiError(replies.search.errorMessages, replies.search.message))
                            else ErrorText(ApiError(replies.create.errorMessages, replies.create.message))
  {
  }

  /** `errorMessages` is used when its joined text is not empty, that is, unless it is missing, empty
      or a single empty string; otherwise the error's own message is shown. */
  lemma ErrorTextChoice(errorMessages: Option<seq<string>>, message: string)
    ensures ErrorText(ApiError(errorMessages, message)) ==
            "Error: " + (if errorMessages.None? || errorMessages.value == [] || errorMessages.value == [""] then message
                         else Join(errorMessages.value, LIST_SEP))
  {
    if errorMessages.Some? {
      JoinEmptyIff(errorMessages.value);
    }
  }
}
