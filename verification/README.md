# Multi-space Jira MCP server: credential registry and tool dispatch

This project models the core of a small Node.js server, `main.js`. The server lets an agent use
several Jira spaces through the Model Context Protocol (MCP), over a server-sent-events stream. Two
parts of it are modelled and proved.

**The credential registry.** This is the process-wide `sessions` map and the handlers that change it.
- `GET /auth/start` stores a pending authorization under a fresh OAuth `state`. It is the
  authorization-code grant of section 4.1 of RFC 6749.
- `GET /auth/callback` checks the state and consumes it before any downstream call. The state is
  random and single-use. It is not tied to the browser that started the flow, as section 10.12 of
  RFC 6749 asks. The callback then picks the first accessible site and stores a session holding
  the site's project keys.
- `GET /v1/sse` refuses a token that is not in the map, with 401.
- An hourly sweep deletes every entry older than 24 hours.

Both kinds of entry live in one map, so the stream's entry check, which tests only presence, also
admits a pending `state`. The model keeps this. A state is 16 random bytes in hexadecimal (32
characters) and a session token is 32 bytes (64 characters). So the key's length tells the two
kinds apart, and `WellKeyed` states this as the registry's invariant.

**The tool protocol.** This is the static `tools/list` answer and the `tools/call` handler. For each
tool the model states:
- the request sent to the tracker: URL, bearer header, JQL and `maxResults`, or the create body in
  the tracker's rich-text document form;
- the single text block returned.

An unknown tool, a tracker failure or the missing `spaces` of a pending entry becomes an in-band
`Error: ...` text.

Modules:
- `Wrappers` (wrappers.dfy): `Option`.
- `Text` (text.dfy): `Array.prototype.join` and its inverse for `", "`, the decimal rendering of a
  count, and the hexadecimal rendering of random bytes with its inverse.
- `Registry` (registry.dfy): the `Entry` datatype and the spec functions `CallbackStep` and
  `Swept`. The class `CredentialRegistry` has a `map<string, Entry>` field, and its methods change
  that field in place.
- `Tools` (tools.dfy): `ToolList`, `Handle` (the `try` block), `CallTool` (the handler with its
  `catch`), and lemmas for each tool.

Inputs the model takes as parameters:
- `crypto.randomBytes` is a byte-sequence parameter.
- `Date.now()` is an integer parameter `now`.
- The OAuth client id is an optional parameter.
- The request origin (`protocol://host`) is a parameter.
- The identity provider's and the tracker's replies are datatype values (`AuthExchange`,
  `Replies`). Each holds a value or a thrown error.
- `JSON.stringify(issues, null, 2)` is a function parameter `serialize`.

Behaviour of the code worth knowing:
- The search is a plain text match. It is not restricted to the session's spaces.
- The error text uses `errorMessages` when the joined string is non-empty. So `[]` and `[""]` fall
  back to the error's message (`ErrorTextChoice`).
- Every failure in the callback after the state check is a 500 `Authentication failed: <message>`,
  except an empty site list, which is a 400.
- The state is random and single-use, but it is not tied to the browser that started the flow.
  The session middleware is set up but never read or written. So any state this server issued is
  accepted from any client: a callback link carrying another person's `code` and `state` connects
  whoever opens it to that person's Jira account.
- An open stream keeps the entry it read when it opened (main.js:303). Its tools go on using that
  credential after the sweep has deleted the entry. The model shows this: the tools take an
  `Entry` value and never look it up in the registry.

## Model

| member | source | states |
|---|---|---|
| Text.JoinEmptyIff | main.js:447 | A list joined with ", " is empty exactly when the list is empty or is one empty string. |
| Text.SplitJoin | main.js:435 | For a list of at least one part, where no part contains ", ", splitting the joined text gives back the parts, in order. An empty list is not recoverable: it joins to "", which splits to `[""]`. |
| Text.NatToString | main.js:397 | A count renders as a non-empty string of decimal digits with no leading zero. |
| Text.ParseNatToString | main.js:397 | Reading the rendered digits back gives the count. |
| Text.Hex | main.js:146 | A random token has two characters per byte, each a lower-case hexadecimal digit: 32 characters for a state, 64 for a session token. |
| Text.UnhexHex | main.js:203 | Hex encoding is injective: decoding gives back the bytes. |
| Registry.McpUrl | main.js:212 | The connection URL is the request's origin, then the stream endpoint `/v1/sse?token=`, then the session token, so the token arrives as the `token` query parameter the stream reads (main.js:302). |
| Registry.SpaceKeys | main.js:208 | The space list has the project keys, one per project, in reply order. |
| Registry.CallbackStep | main.js:163-212 | The callback changes the registry only at the presented state and the new session token. |
| Registry.InvalidStateRejected | main.js:166-168 | A missing or unknown state gets 400 "Invalid state" and leaves the registry unchanged. |
| Registry.StateConsumed | main.js:166-170 | A pending state is gone after its callback, whatever the downstream replies were. |
| Registry.ReplayRejected | main.js:166-170 | Presenting a state a second time always gets 400 "Invalid state" and changes nothing. |
| Registry.DownstreamFailureRejected | main.js:294-296 | When the token exchange, the resource list or (after a site was found) the project list throws, the reply is 500 "Authentication failed: " followed by the first thrown error's message. The state is consumed and no session is stored. |
| Registry.NoSitesNoSession | main.js:189-191 | An empty site list gets 400 "No Jira sites found". The state is consumed and no session is stored. |
| Registry.SuccessMintsOneSession | main.js:193-210 | On success exactly one session is added. It holds the access token, the first site's id and URL, the project keys in order and `created == now`. The reply carries the connection URL. |
| Registry.ConnectedIff | main.js:172-297 | A session is minted iff the state is known and every downstream reply succeeds with a non-empty site list. Any rejection only removes the state. |
| Registry.SessionTokenAcceptedAsState | main.js:166-170 | A session token presented as `state` passes the check, and that session is deleted. |
| Registry.CallbackKeepsWellKeyed | main.js:203-210 | The callback keeps the invariant that a key's length tells its entry kind. |
| Registry.SweepDeletesExactlyStale | main.js:469-476 | The sweep deletes exactly the entries, pending or session, with `now - created > 24h`. The others stay unchanged. |
| Registry.SweepBoundaryKeeps | main.js:472 | An entry exactly 24 hours old survives, because the comparison is strict. |
| Registry.SweepIdempotent | main.js:471-475 | Sweeping twice at the same time equals sweeping once. |
| Registry.LaterSweepRemovesMore | main.js:472 | A sweep at a later time keeps only a subset of what an earlier sweep keeps. |
| Registry.SweepKeepsWellKeyed | main.js:471-475 | The sweep keeps the key-length invariant. |
| Registry.CredentialRegistry.constructor | main.js:14 | The registry starts empty. |
| Registry.CredentialRegistry.BeginAuthorization | main.js:120-160 | Without a client id: instructions and no change. Otherwise exactly one pending entry is added under the new state, and the redirect carries that state, the scopes, `response_type=code` and `prompt=consent`. |
| Registry.CredentialRegistry.Callback | main.js:163-212 | The imperative handler leaves the registry and response that `CallbackStep` gives. |
| Registry.CredentialRegistry.OpenStream | main.js:301-307 | 401 "Invalid token" iff the token is missing or absent. Otherwise the stored entry, pending or session. The map is only read. |
| Registry.CredentialRegistry.Sweep | main.js:469-476 | The loop over the entries leaves exactly `Swept(old entries, now)`. |
| Registry.PendingStateOpensStream | main.js:303-307 | Right after `/auth/start`, presenting the new state to the stream's entry check returns `Opened(Pending(now))`: the check admits it. |
| Tools.ToolListWellFormed | main.js:336-370 | `tools/list` offers three distinct tools, and each required argument is a declared property. |
| Tools.AdvertisedDefaultsApplied | main.js:336-418 | The advertised defaults (`maxResults` 20, `issueType` "Task") are what the handler uses when the argument is missing. |
| Tools.JiraRequestTargetsSite | main.js:323-333 | `jiraApi` sends to the entry's site: the fixed base, the site id, `/rest/api/3` and the endpoint. It carries `Bearer <access token>` and JSON `Accept` and `Content-Type` headers, with the given verb and body. |
| Tools.ApiUrl | main.js:325 | The tracker URL is the fixed base, then the site id, then `/rest/api/3`, then the endpoint. The site id can be read back from it. |
| Tools.MaxResults | main.js:382 | The limit sent to the tracker is never 0, and a non-zero requested limit is passed on unchanged. |
| Tools.MaxResultsIdempotent | main.js:382 | Applying the `\|\| 20` default to a limit the handler already chose changes nothing. |
| Tools.Summarize | main.js:385-391 | Each issue maps, in order, to key, summary, status, project and `<site>/browse/<key>`. |
| Tools.Handle | main.js:376-442 | A request goes to the tracker iff the tool is search or create. |
| Tools.CallTool | main.js:373-451 | Every call returns exactly one text block. A failure inside the `try` yields text that starts with "Error: ". |
| Tools.UnknownIffUnlisted | main.js:440-441 | A name is rejected as unknown iff `tools/list` does not offer it. The result is then "Error: Unknown tool: <name>" and nothing is sent. |
| Tools.ListSpacesAnswer | main.js:431-437 | `list_spaces` sends nothing and answers "Accessible spaces: " with the keys joined by ", ". When there is at least one key and no key contains ", ", the keys can be recovered from the text. |
| Tools.ListSpacesOnPendingEntry | main.js:435 | On a pending entry, `list_spaces` returns an in-band TypeError text. |
| Tools.ListSpacesExample | main.js:435 | Spaces ENG and OPS give "Accessible spaces: ENG, OPS". |
| Tools.SearchRequest | main.js:379-383 | The search sends GET `/search` with the session's bearer token. The JQL is `text ~ "<query>" ORDER BY created DESC`, with the query verbatim. `maxResults` defaults to 20. |
| Tools.QuoteInQueryClosesLiteral | main.js:379 | A double quote in the query is not escaped, so it closes the JQL string literal. |
| Tools.SearchAnswer | main.js:385-399 | No match gives "No issues found matching your search.". N matches give "Found N issues:\n\n" followed by the serialized summaries. |
| Tools.FoundHeaderCount | main.js:397 | The count can be read back from the "Found N issues:" header. |
| Tools.CreateRequestAndAnswer | main.js:403-428 | The create sends POST `/issue` with the bearer token and JSON `Accept` and `Content-Type` headers. The description is a version-1 `doc` with one paragraph holding one text node (`description \|\| ''`). The issue type is `issueType \|\| 'Task'`. The answer is "Created issue: <key>\nURL: <site>/browse/<key>". |
| Tools.CreateExample | main.js:426 | A reply of key ENG-42 gives "Created issue: ENG-42\nURL: <site>/browse/ENG-42". |
| Tools.DownstreamFailureInBand | main.js:443-449 | A failed tracker call is sent and then reported as an ordinary result holding its error text. |
| Tools.ErrorTextChoice | main.js:447 | The error text is "Error: " and then either the joined `errorMessages`, when present and not `[]` or `[""]`, or the error's message. |

## Left out

- The HTML pages (home page, missing-configuration instructions, success page): presentation only. The model returns the callback URL, the connection URL, the space keys and the project count instead.
- Express setup, CORS headers, cookie and session middleware, and `app.listen`: framework plumbing.
- The HTTP calls themselves: the token exchange, the accessible resources, the project list, the search and the create. Their replies are inputs. The request body of the token exchange and the bearer headers of the callback's calls are not modelled.
- The `URLSearchParams` encoding of the authorize redirect: the redirect is a structured `AuthorizeQuery`.
- The response headers of the event stream, the MCP SDK server and transport, the 30-second keep-alive and the close handler: third-party transport and timer concurrency.
- The `setInterval` scheduling of the sweep: only one run of its body is modelled.
- Interleaving of other requests during the callback's awaits: each callback is one atomic step. The state is deleted before the first await, as in the source.
- `JSON.stringify` of the mapped issues: an opaque function parameter.
- Arguments of other JSON types than the schema declares (a non-string query, a fractional `maxResults`) and a call without an `arguments` object. These are not modelled.
- Tracker replies missing expected fields (`issues`, `fields.status`): replies are assumed well-formed.
- Logging through `console.error`.
- The identity of the requesting browser (cookies, the session middleware's session): the source never reads it, and the model has no notion of who sends a request. So it cannot express the binding of a state to a browser that section 10.12 of RFC 6749 asks for.
