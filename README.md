# WordPress MCP server — a Dafny model of its client, dispatcher and configuration check

The wordpress-mcp-server publishes blog posts to a WordPress site for an MCP
(Model Context Protocol) client. This project models three parts of it:

- **The REST client `WordPressClient`.**
  - Its base URL and the request bodies it builds.
  - How it turns each platform answer into a uniform success/failure result.
  - The find-or-create resolution of category and tag names into term ids, inside `create_post`.
- **The tool dispatcher `handle_call_tool` and the prompt handler `handle_get_prompt`.**
  - How a tool name and its arguments are routed, and which defaults are filled in.
  - How the client's result is rendered as text with an error flag.
  - Which calls raise an exception.
- **The command-line configuration check `validate_configuration`.**
  - Errors that stop the program.
  - Port warnings that do not.

The WordPress platform is not part of the model. It is an oracle (`Remote.Oracle`):

- Each request gets a status code with a decoded payload and the raw text, or a fault that stands for any exception.
- The platform's state, as far as the client can change it, is the category store, the tag store and a log of the requests received (`Remote.State`).
- `Remote.Site` is the object that holds that state, and its methods are the HTTP exchanges.

The modules are:

- `Results`: `Option` and `Result`.
- `Text`: the Python string behaviour the code relies on. This is `str.lower`, `rstrip`, `split(...)[i]`, integer rendering in f-strings and `int()` on a string.
- `Remote`: the platform.
- `Taxonomy`: `_get_or_create_categories` and `_get_or_create_tags`, as the specification functions `Step` and `ResolveAll`.
- `Client`: bodies, result shaping, `create_post` as a specification, and the class `WordPressClient` whose methods issue the requests.
- `Dispatch`: routing, rendering, and the prompt handler.
- `Config`: `validate_configuration`, as the specification `Validate` and the method `ValidateConfiguration`.

The two term-resolution functions differ only in the endpoint, so one definition parameterised by `Kind` models both. The `async with` block is a ghost flag `sessionOpen`: every request-issuing method requires it.

## Model

| member | source | states |
|---|---|---|
| Text.Lower | src/wordpress-mcp-server/server.py:228 | `lower()` keeps the length and lower-cases each character on its own (ASCII letters). |
| Text.LowerIdempotent | src/wordpress-mcp-server/server.py:228 | Lower-casing a lower-cased name changes nothing. |
| Text.SameNameEquivalence | src/wordpress-mcp-server/server.py:228 | Comparing names with `.lower() == .lower()` is reflexive, symmetric and transitive. |
| Text.SameName | src/wordpress-mcp-server/server.py:228 | `term["name"].lower() == name.lower()`. No contract of its own; Text.SameNameEquivalence states that it is an equivalence, and Taxonomy.FirstMatch uses it as the match condition. |
| Text.RStrip | src/wordpress-mcp-server/server.py:36 | `rstrip("/")` gives a prefix of the URL that does not end in '/', and everything cut off was '/'. |
| Text.AfterLast | src/wordpress-mcp-server/cli.py:132 | `split(":")[-1]` contains no ':' and is no longer than the URL. |
| Text.AfterLastSuffix | src/wordpress-mcp-server/cli.py:132 | `split(":")[-1]` is a suffix of the URL, and it comes right after a ':' when it is shorter than the URL. |
| Text.AfterLastAt | src/wordpress-mcp-server/cli.py:132 | When position k holds the last ':', `split(":")[-1]` is the text after position k. |
| Text.Before | src/wordpress-mcp-server/cli.py:132 | `split("/")[0]` contains no '/' and is no longer than its input. |
| Text.BeforePrefix | src/wordpress-mcp-server/cli.py:132 | `split("/")[0]` is a prefix of its input, and a '/' follows it when it is shorter. |
| Text.BeforeAt | src/wordpress-mcp-server/cli.py:132 | When the first '/' is at position k (or there is none and k is the length), `split("/")[0]` is the first k characters. |
| Text.Join | src/wordpress-mcp-server/server.py:535 | `", ".join(roles)`. No contract of its own; Text.JoinAppend states it. |
| Text.JoinAppend | src/wordpress-mcp-server/server.py:535 | Joining nothing gives "", joining one item gives the item, and joining one more item appends the separator and then that item. |
| Text.ConcatSplit | src/wordpress-mcp-server/server.py:487-496 | Concatenating the blocks of a listing equals the blocks before k, then block k, then the blocks after it. |
| Text.ConcatThree | src/wordpress-mcp-server/cli.py:134-141 | Proof helper: a three-part message is the plain concatenation of its parts. |
| Text.NatText | src/wordpress-mcp-server/server.py:63 | The rendering of a non-negative integer is a non-empty run of digits with no leading zero. |
| Text.TrimStart | src/wordpress-mcp-server/cli.py:132 | `int()` strips leading white space: the result is no longer than the input and does not start with white space (what it keeps: TrimStartSuffix). |
| Text.TrimEnd | src/wordpress-mcp-server/cli.py:132 | `int()` strips trailing white space: the result is no longer than the input and does not end with white space (what it keeps: TrimEndPrefix). |
| Text.TrimStartSuffix | src/wordpress-mcp-server/cli.py:132 | The result of stripping is exactly the suffix of the input after its leading white space: everything removed was white space. |
| Text.TrimEndPrefix | src/wordpress-mcp-server/cli.py:132 | The result of stripping is exactly the prefix of the input before its trailing white space: everything removed was white space. |
| Text.SeparatorRejected | src/wordpress-mcp-server/cli.py:132 | Worked example: `int()` does not skip the control separator '\x1c' (only the space and tab through carriage return count as white space), so "\x1c80" is rejected. |
| Text.ParseInt | src/wordpress-mcp-server/cli.py:132 | `int()` on a string (`None` where Python raises ValueError). No contract of its own; its properties are Text.DecimalRoundTrip, Text.TrimStartSuffix, Text.TrimEndPrefix and the examples Config.NoPortNoWarning, Config.ReadsEighty and Config.ReadsEightyEightyEight. |
| Text.Decimal | src/wordpress-mcp-server/server.py:63 | `f"{n}"` for an integer. No contract of its own; Text.DecimalRoundTrip and Text.DecimalInjective state that it reads back as `n` and that different integers render differently. |
| Text.NatTextValue | src/wordpress-mcp-server/server.py:63 | The digits an integer is rendered with have that integer as their value. |
| Text.DecimalRoundTrip | src/wordpress-mcp-server/cli.py:132-135 | `int(f"{n}") == n` for every integer n: a rendered status code or port reads back as itself. |
| Text.DecimalInjective | src/wordpress-mcp-server/cli.py:135-141 | Different integers render differently. |
| Remote.State.Logged | src/wordpress-mcp-server/server.py:219-221 | A request that changes no term leaves both stores alone and appends itself to the log. |
| Remote.State.AfterCreate | src/wordpress-mcp-server/server.py:237-244 | A term creation is logged. The term the platform reports as created (201) is appended to its own taxonomy, and the other taxonomy is unchanged. |
| Remote.Site.SearchTerms | src/wordpress-mcp-server/server.py:219-221 | The term search answers from the current store of its taxonomy and is logged. |
| Remote.Site.CreateTerm | src/wordpress-mcp-server/server.py:237-241 | The new state is exactly `AfterCreate` of the old state. |
| Remote.Site.CreatePost | src/wordpress-mcp-server/server.py:101-106 | POST /posts with the body: the answer is the platform's, and only the log grows. |
| Remote.Site.UpdatePost | src/wordpress-mcp-server/server.py:144-149 | POST /posts/{id} with the body: the answer is the platform's, and only the log grows. |
| Remote.Site.ListPosts | src/wordpress-mcp-server/server.py:184-186 | GET /posts with the parameters: the answer is the platform's, and only the log grows. |
| Remote.Site.CurrentUser | src/wordpress-mcp-server/server.py:54-56 | GET /users/me: the answer is the platform's, and only the log grows. |
| Taxonomy.FirstMatch | src/wordpress-mcp-server/server.py:224-231 | `next(...)` finds the first returned term whose name equals the requested one up to case. If there is none, no returned term matches. |
| Taxonomy.Step | src/wordpress-mcp-server/server.py:217-244 | One iteration of the loop over the names. No contract of its own; Taxonomy.StepCases states every branch, and Client.WordPressClient.ResolveName is proved to compute it. |
| Taxonomy.ResolveAll | src/wordpress-mcp-server/server.py:212-246 | The whole loop, ids in name order or the first exception's text, with the platform state afterwards. No contract of its own; its properties are Taxonomy.ResolveFrame, Taxonomy.ResolveAppend, Taxonomy.RaiseFailsResolution, Taxonomy.FailureComesFromRaise and Taxonomy.ResolveKeepsNamesDistinct, and Client.WordPressClient.GetOrCreateTerms is proved to compute it. |
| Taxonomy.StepCases | src/wordpress-mcp-server/server.py:217-244 | For one name: an exception from the search or the create raises. A non-200 search drops the name without a create. A match is reused without a create. Otherwise exactly one create follows, and its id is kept only on 201. |
| Taxonomy.ResolveFrame | src/wordpress-mcp-server/server.py:212-246 | Resolution only appends term requests of its own taxonomy to the log, one or two per name. It only grows its own store and leaves the other alone. On success it returns at most one id per name. |
| Taxonomy.ResolveAppend | src/wordpress-mcp-server/server.py:217-244 | Names are resolved one after the other: resolving a + b is resolving a, then b against the state a left behind. |
| Taxonomy.RaiseFailsResolution | src/wordpress-mcp-server/server.py:217-244 | An exception during one name's search or create ends the loop: when the names before it resolved, the whole call fails with that exception's text in the state right after it, and no later name is requested. |
| Taxonomy.FailureComesFromRaise | src/wordpress-mcp-server/server.py:212-246 | Conversely, the loop fails only when some name's search or create raised after every earlier name resolved. |
| Taxonomy.StepKeepsNamesDistinct | src/wordpress-mcp-server/server.py:222-244 | If the search reports every stored match and creation keeps the name, one name never creates a term whose name is already stored up to case. |
| Taxonomy.ResolveKeepsNamesDistinct | src/wordpress-mcp-server/server.py:212-246 | Under the same platform assumptions, a whole call keeps the store free of case-insensitive duplicates, even when a name is repeated. |
| Taxonomy.ExistingTermReused | src/wordpress-mcp-server/server.py:222-234 | An existing "research" category is reused for "Research": one search, no create, its id returned. |
| Taxonomy.MissingTermCreated | src/wordpress-mcp-server/server.py:235-244 | A missing category costs one search and one create, and the new term's id is returned and stored. |
| Client.ApiBaseNormalised | src/wordpress-mcp-server/server.py:36-37 | `api_base` is the URL without trailing slashes followed by "/wp-json/wp/v2". A trailing slash on the configured URL makes no difference. |
| Client.ApiBase | src/wordpress-mcp-server/server.py:36-37 | `api_base`. No contract of its own; Client.ApiBaseNormalised states it, and Client.WordPressClient.constructor stores it. |
| Client.WordPressClient.constructor | src/wordpress-mcp-server/server.py:35-40 | The base URL is stripped of trailing slashes, `api_base` is derived from it, the credentials are kept, and no session is open. |
| Client.CreateBody | src/wordpress-mcp-server/server.py:82-99 | The create body has exactly title, content, status, excerpt and format "standard". It has categories and tags exactly when their id lists are given. |
| Client.UpdateBody | src/wordpress-mcp-server/server.py:136-142 | The update body has a key exactly when that argument was supplied and is non-empty, and nothing else. |
| Client.UpdateBodyOnlySupplied | src/wordpress-mcp-server/server.py:136-142 | A title-only update sends only the title. Empty strings send nothing. |
| Client.Truthy | src/wordpress-mcp-server/server.py:137-142 | The `if title:` / `if content:` / `if status:` guards: supplied and not empty. No contract of its own; Client.UpdateBody states a key is sent exactly when its argument is truthy. |
| Client.ListParams | src/wordpress-mcp-server/server.py:177-182 | The listing asks for the given status and page size, ordered by date descending. |
| Client.AuthenticationResult | src/wordpress-mcp-server/server.py:57-66 | Success exactly on 200, with the user record. Otherwise "Authentication failed: {status}", or the exception's text. |
| Client.CreatedResult | src/wordpress-mcp-server/server.py:107-127 | Success exactly on 201, with id, rendered title, link, status and date. Otherwise "Failed to create post: {status} - {text}", or the exception's text. |
| Client.UpdatedResult | src/wordpress-mcp-server/server.py:150-169 | Success exactly on 200, with id, title, link and status (no date). Otherwise the status and the response text, or the exception's text. |
| Client.ListedResult | src/wordpress-mcp-server/server.py:187-210 | Success exactly on 200, with one listing per returned post in order. Otherwise "Failed to list posts: {status}", or the exception's text. |
| Client.Listing | src/wordpress-mcp-server/server.py:192-199 | The dict built for each listed post. No contract of its own; Client.ListedResult states that the i-th listing is built from the i-th post. |
| Client.StatusAfterPrefix | src/wordpress-mcp-server/server.py:63 | A status rendered after a fixed prefix reads back with `int()` from the characters after the prefix. |
| Client.AuthenticationFailureCarriesStatus | src/wordpress-mcp-server/server.py:63 | The status of a failed authentication can be read back from the error message. |
| Client.ListFailureCarriesStatus | src/wordpress-mcp-server/server.py:206 | The status of a failed listing can be read back from the error message. |
| Client.CreateFailureCarriesStatus | src/wordpress-mcp-server/server.py:123 | A rejected create's message gives back the status, and after " - " the platform's text. |
| Client.UpdateFailureCarriesStatus | src/wordpress-mcp-server/server.py:165 | A rejected update's message gives back the status, and after " - " the platform's text. |
| Client.ResolveIfAny | src/wordpress-mcp-server/server.py:91-99 | `if categories:` / `if tags:` around the resolution. No contract of its own; Client.ResolveIfAnyFrame states it. |
| Client.CreatePostSpec | src/wordpress-mcp-server/server.py:68-127 | `create_post`: categories, then tags, then the post. No contract of its own; its properties are Client.CreatePostRequests, Client.CreatePostBody and Client.ResolutionFaultFailsCreate, and Client.WordPressClient.CreatePost is proved to compute it. |
| Client.ResolveIfAnyFrame | src/wordpress-mcp-server/server.py:91-99 | Resolving the names, or skipping them when there are none, only appends term requests and yields at most one id per name. |
| Client.CreatePostRequests | src/wordpress-mcp-server/server.py:68-127 | `create_post` sends only term requests and then at most one post request, last. If no post is sent, the call failed. |
| Client.CreatePostBody | src/wordpress-mcp-server/server.py:82-127 | A post that is sent carries categories and tags exactly when names were given (even if all were dropped), with no more ids than names, and the given status and format. The result is that request's answer. |
| Client.ResolutionFaultFailsCreate | src/wordpress-mcp-server/server.py:78-127 | An exception while resolving categories (or, after them, tags) is caught by the `try`: the call fails with that exception's text, in the state the resolution left. A post is sent exactly when both resolutions succeed. |
| Client.WordPressClient.Enter | src/wordpress-mcp-server/server.py:42-44 | Entering the `async with` block opens the session. |
| Client.WordPressClient.Exit | src/wordpress-mcp-server/server.py:46-48 | Leaving the block closes the session. |
| Client.WordPressClient.Authenticate | src/wordpress-mcp-server/server.py:50-66 | One GET /users/me, and the result is `AuthenticationResult` of its answer. |
| Client.WordPressClient.ResolveName | src/wordpress-mcp-server/server.py:217-244 | One loop iteration produces exactly the outcome and state of `Step`. |
| Client.WordPressClient.GetOrCreateTerms | src/wordpress-mcp-server/server.py:212-276 | The loop over the names produces exactly the ids and platform state of `ResolveAll`. The first exception ends it with that exception's text. |
| Client.WordPressClient.CreatePost | src/wordpress-mcp-server/server.py:68-127 | Result and new platform state are those of `CreatePostSpec`: categories, then tags, then the post. An exception during resolution fails the call and no post is sent. |
| Client.WordPressClient.UpdatePost | src/wordpress-mcp-server/server.py:129-169 | One POST /posts/{id} with `UpdateBody`, and the result is `UpdatedResult` of its answer. |
| Client.WordPressClient.ListPosts | src/wordpress-mcp-server/server.py:171-210 | One GET /posts with `ListParams`, and the result is `ListedResult` of its answer. |
| Dispatch.Cut | src/wordpress-mcp-server/server.py:495 | `excerpt[:100]` is a prefix of the excerpt, at most 100 characters long. |
| Dispatch.Entry | src/wordpress-mcp-server/server.py:490-495 | The f-string of one listed post. No contract of its own; Dispatch.Blocks and Dispatch.ListingPositions place it. |
| Dispatch.ListingText | src/wordpress-mcp-server/server.py:487-505 | The text of a successful listing. No contract of its own; Dispatch.RenderListing is proved to compute it, and Dispatch.EmptyListing and Dispatch.ListingPositions state its shape. |
| Dispatch.Blocks | src/wordpress-mcp-server/server.py:488-496 | One text block per post, in the posts' order. |
| Dispatch.RenderListing | src/wordpress-mcp-server/server.py:487-505 | The loop builds the header and then one block per post. With no posts the text is "No posts found.". |
| Dispatch.ListingPositions | src/wordpress-mcp-server/server.py:487-496 | Each post's block stands at the post's position, after the header and the earlier blocks, with the excerpt cut to 100 characters. |
| Dispatch.EmptyListing | src/wordpress-mcp-server/server.py:498-507 | A successful empty listing renders "No posts found." and is not an error. |
| Dispatch.RouteCall | src/wordpress-mcp-server/server.py:404-484 | The `if`/`elif` chain with argument extraction. No contract of its own; its properties are Dispatch.OnlyMissingArgumentsRaise, Dispatch.DefaultsApplied and Dispatch.UnknownToolIsErrorResult. |
| Dispatch.RenderCreated | src/wordpress-mcp-server/server.py:417-440 | The create result's text. No contract of its own; Dispatch.ErrorFlagMeansClientFailure states its error flag and failure text. |
| Dispatch.RenderUpdated | src/wordpress-mcp-server/server.py:453-475 | The update result's text. No contract of its own; Dispatch.ErrorFlagMeansClientFailure states its error flag and failure text. |
| Dispatch.RenderListed | src/wordpress-mcp-server/server.py:486-517 | The listing result's text. No contract of its own; Dispatch.ErrorFlagMeansClientFailure and Dispatch.EmptyListing state it. |
| Dispatch.RenderConnection | src/wordpress-mcp-server/server.py:525-549 | The connection test's text. No contract of its own; Dispatch.ErrorFlagMeansClientFailure states its error flag and failure text. |
| Dispatch.CallTool | src/wordpress-mcp-server/server.py:400-555 | `handle_call_tool`. No contract of its own; its properties are Dispatch.UnknownToolIsErrorResult, Dispatch.OnlyMissingArgumentsRaise and Dispatch.ErrorFlagMeansClientFailure. |
| Dispatch.UnknownToolIsErrorResult | src/wordpress-mcp-server/server.py:551-555 | There are four distinct tool names. Any other name gives the error result "Unknown tool: {name}" and does not raise. |
| Dispatch.OnlyMissingArgumentsRaise | src/wordpress-mcp-server/server.py:404-451 | A tool call raises exactly when create lacks title or content, or update lacks post_id, and then it raises KeyError. |
| Dispatch.ErrorFlagMeansClientFailure | src/wordpress-mcp-server/server.py:417-549 | For a call that reaches the client, `isError` is set exactly when the client failed. The text is then the tool's failure prefix followed by the client's error. |
| Dispatch.DefaultsApplied | src/wordpress-mcp-server/server.py:411-483 | The defaults are: status draft, empty excerpt, no categories and no tags for create; status any and 10 per page for list. |
| Dispatch.DraftByDefault | src/wordpress-mcp-server/server.py:411 | A post created without a status is sent to the platform with status "draft". |
| Dispatch.PromptOutcomes | src/wordpress-mcp-server/server.py:605-679 | An unknown prompt raises ValueError("Unknown prompt: {name}"), unlike an unknown tool. A known prompt yields one user message of its own template, whose three slots hold the template's arguments in order (`topic`, `findings`, `challenges` or `algorithm`, `complexity`, `applications`), and a description naming the topic or the algorithm. |
| Dispatch.Argument | src/wordpress-mcp-server/server.py:610-612 | `arguments.get(key, "")`: the supplied value, or "" when the key is absent. |
| Dispatch.GetPrompt | src/wordpress-mcp-server/server.py:605-679 | `handle_get_prompt`. No contract of its own; Dispatch.PromptOutcomes states it. |
| Config.PortCandidate | src/wordpress-mcp-server/cli.py:132 | The text taken as the port contains no '/' and is no longer than the URL. |
| Config.PortCandidateShape | src/wordpress-mcp-server/cli.py:132 | The port candidate holds neither ':' nor '/', and stands in the URL right after a ':' when the URL has one. |
| Config.PortCandidateAt | src/wordpress-mcp-server/cli.py:132 | When the URL's last ':' is at k and the first '/' after it is at j (or j is the URL's length), the port candidate is exactly the text between them. |
| Config.HasScheme | src/wordpress-mcp-server/cli.py:126 | `startswith(("http://", "https://"))`. No contract of its own; Config.StopsExactlyOnErrors and Config.ErrorsFound use it as the scheme condition. |
| Config.WordPressPortWarning | src/wordpress-mcp-server/cli.py:130-138 | The WordPress port check. No contract of its own; Config.WarningsCharacterised states it in both directions. |
| Config.McpPortWarning | src/wordpress-mcp-server/cli.py:140-141 | The MCP port check. No contract of its own; Config.WarningsCharacterised states it in both directions. |
| Config.Errors | src/wordpress-mcp-server/cli.py:123-145 | The errors collected, in order. No contract of its own; Config.ErrorsFound states it. |
| Config.ConfigError.Message | src/wordpress-mcp-server/cli.py:127-145 | The two error texts. No contract of its own; Config.ErrorMessagesDistinct states that they tell the errors apart. |
| Config.ErrorMessagesDistinct | src/wordpress-mcp-server/cli.py:127-145 | Different errors have different texts. |
| Config.PortWarning.Message | src/wordpress-mcp-server/cli.py:134-141 | The two warning f-strings. No contract of its own; Config.WarningMessagesDistinct states that the text determines the warning and its port. |
| Config.Validate | src/wordpress-mcp-server/cli.py:121-150 | The log and exit status of the check. No contract of its own; its properties are Config.StopsExactlyOnErrors, Config.ErrorsCharacterised, Config.WarningsCharacterised, Config.WarningsFirst and Config.PortsNeverStop, and Config.ValidateConfiguration is proved to compute it. |
| Config.ErrorEntries | src/wordpress-mcp-server/cli.py:148-149 | One log line per error. |
| Config.ErrorEntriesAt | src/wordpress-mcp-server/cli.py:148-149 | The i-th error line logs the i-th error. |
| Config.ValidateConfiguration | src/wordpress-mcp-server/cli.py:121-150 | The log written and the exit status are exactly those of `Validate`. |
| Config.LogErrors | src/wordpress-mcp-server/cli.py:148-149 | The loop appends one error line per error, in order, to the log. |
| Config.StopsExactlyOnErrors | src/wordpress-mcp-server/cli.py:147-150 | The program exits, with status 1, exactly when the URL lacks an http(s) scheme or a credential is empty. |
| Config.ErrorsAfterWarnings | src/wordpress-mcp-server/cli.py:134-149 | In a log of warnings followed by error lines, the error lines are exactly the errors, in order, after every warning. |
| Config.ListedWarnings | src/wordpress-mcp-server/cli.py:130-141 | The port checks log only warnings. |
| Config.ErrorsFound | src/wordpress-mcp-server/cli.py:126-145 | Each of the two errors is found exactly when its condition holds, the scheme error before the credentials error. |
| Config.ErrorsCharacterised | src/wordpress-mcp-server/cli.py:123-149 | The log holds each error exactly when its condition holds, the scheme error first. |
| Config.WarningsCharacterised | src/wordpress-mcp-server/cli.py:130-141 | An MCP port warning is logged exactly for a port below 9000. A WordPress port warning is logged exactly when the URL has a ':' and the text after the last ':' up to '/' reads as an integer outside 8000-8999. |
| Config.WarningsFirst | src/wordpress-mcp-server/cli.py:130-149 | Every warning is logged before every error. |
| Config.WarningMessagesDistinct | src/wordpress-mcp-server/cli.py:134-141 | Different warnings have different texts. |
| Config.PortsNeverStop | src/wordpress-mcp-server/cli.py:130-150 | The URL's port and the MCP port never change the exit status. |
| Config.NoPortNoWarning | src/wordpress-mcp-server/cli.py:130-138 | Worked example: "http://localhost" yields the candidate "", which `int()` rejects, so there is no warning. |
| Config.DefaultUrlAccepted | src/wordpress-mcp-server/cli.py:38 | Worked example: the default URL "http://192.168.0.10:8888" yields port 8888 and no warning. |
| Config.ReadsEightyEightyEight | src/wordpress-mcp-server/cli.py:132 | Worked-example helper: `int("8888") == 8888`. |
| Config.LowPortWarned | src/wordpress-mcp-server/cli.py:130-150 | Worked example: "http://localhost:80" is warned about as port 80 and, with credentials, does not stop the program. |
| Config.LowPortCandidate | src/wordpress-mcp-server/cli.py:132 | Worked-example helper: the port candidate of "http://localhost:80" is "80". |
| Config.ReadsEighty | src/wordpress-mcp-server/cli.py:132 | Worked-example helper: `int("80") == 80`. |

## Left out

- HTTP itself is not modelled: aiohttp sessions, basic authentication, headers, JSON encoding and the endpoint URL strings. Credentials are kept on the client but not passed to the platform oracle, because the platform's answer to them is part of the oracle.
- The `async` scheduling of the client is not modelled. The session's lifetime is only the ghost flag `sessionOpen`, and `__aexit__` is modelled as unconditional.
- Missing or wrongly typed fields in the platform's JSON answers are not modelled; a payload always has the fields the client reads. In the source a missing field raises KeyError inside the `try`, which turns it into a failure.
- Tool arguments are taken as already checked against the tool schema: each key is absent or has its declared type. Wrongly typed or null values are not modelled, and neither are user fields that are present with a null value, which the source would print as "None".
- Text.Lower: only ASCII letters are lower-cased; Python's Unicode case mapping (including length-changing mappings) is not modelled.
- Text.ParseInt: only ASCII white space and ASCII digits are accepted; Python's `int()` also accepts other Unicode digits and spaces. The limit on the number of digits that newer Python versions impose (4300 by default, enforced by raising ValueError) is not modelled. A URL whose text after the last ':' has more digits than that gets a port warning in the model, but none from such a Python, which swallows the ValueError.
- Remote.State.AfterCreate: a term creation that faults stores nothing. On the platform, a 201 whose body then fails to decode has still created the term; no proved property depends on this.
- The MCP transport is left out: `run_stdio`, `run_http`, the server's registration decorators, `handle_list_tools` (whose four names are only the constant `Dispatch.ToolNames`) and `handle_list_prompts`.
- The prose of the two prompt templates is not modelled; each template is an opaque constant with three slots.
- Logging is modelled as structured entries (`Config.LogEntry`), not formatted log lines. `sys.exit(1)` is the returned exit status.
- The rest of cli.py (argument parsing, logging setup, the main entry points), `__init__.py` and the tests are not part of this model.
- Dispatch.CallTool and Dispatch.GetPrompt have no contract of their own. What they promise is stated by the lemmas about them: Dispatch.UnknownToolIsErrorResult, Dispatch.OnlyMissingArgumentsRaise, Dispatch.ErrorFlagMeansClientFailure and Dispatch.PromptOutcomes. The client is a free parameter `ClientApi` standing for the client's answers; the Dispatch lemmas hold for every client, and no lemma composes them with the `Client` specifications except Dispatch.DraftByDefault.
- Client.CreatePostBody: the ids in the body are bounded by the number of names, not tied to the platform's term ids. That link is `Taxonomy.ResolveAll` itself, which `Client.WordPressClient.GetOrCreateTerms` is proved to compute.
