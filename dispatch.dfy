/** The tool dispatcher of the MCP server (`handle_call_tool`,
    `handle_get_prompt`): a tool name and its arguments are routed to one
    client operation, defaults are filled in, and the client's result is
    rendered as text with an error flag. The client is a free parameter
    (`ClientApi`, one answer per operation): the lemmas here hold for every
    client. */
module Dispatch {
  import opened Results
  import opened Text
  import opened Remote
  import opened Client

  /** The names of the four tools in the static catalogue. */
  const ToolNames: seq<string> :=
    ["create_blog_post", "update_blog_post", "list_blog_posts", "test_wordpress_connection"]

  /** The names of the two prompt templates. */
  const PromptNames: seq<string> := ["thesis_blog_post", "algorithm_analysis_post"]

  /** A tool call's arguments once the calling layer has checked them against
      the tool's schema: every key is absent or holds a value of its declared
      type. */
  datatype Arguments = Arguments(
    title: Option<string>, content: Option<string>, status: Option<string>,
    excerpt: Option<string>, categories: Option<seq<string>>, tags: Option<seq<string>>,
    postId: Option<int>, perPage: Option<int>)

  /** What each client operation answers. */
  datatype ClientApi = ClientApi(
    createPost: CreateRequest -> Result<CreatedPost>,
    updatePost: UpdateRequest -> Result<UpdatedPost>,
    listPosts: ListRequest -> Result<seq<PostListing>>,
    authenticate: Result<UserRecord>)

  /** Where a tool call goes: one client operation with its arguments, a
      required key the arguments lack, or nowhere. */
  datatype Route =
    | ToCreate(create: CreateRequest)
    | ToUpdate(update: UpdateRequest)
    | ToList(list: ListRequest)
    | ToAuthenticate
    | MissingKey(key: string)
    | UnknownTool

  /** Python exceptions that escape a handler. */
  datatype Exception = KeyError(key: string) | ValueError(message: string)

  /** A `CallToolResult` (one text item and the error flag), or an exception
      that escapes the handler. */
  datatype ToolOutcome = Rendered(text: string, isError: bool) | Raised(exception: Exception)

  /** The `if`/`elif` chain of `handle_call_tool` with its argument extraction:
      `arguments[key]` for required keys, `arguments.get(key, default)` for
      the others. */
  function RouteCall(name: string, args: Arguments): Route {
    if name == "create_blog_post" then
      if args.title.None? then MissingKey("title")
      else if args.content.None? then MissingKey("content")
      else ToCreate(CreateRequest(args.title.value, args.content.value, args.status.GetOr("draft"),
                                  args.excerpt.GetOr(""), args.categories.GetOr([]), args.tags.GetOr([])))
    else if name == "update_blog_post" then
      if args.postId.None? then MissingKey("post_id")
      else ToUpdate(UpdateRequest(args.postId.value, args.title, args.content, args.status))
    else if name == "list_blog_posts" then
      ToList(ListRequest(args.status.GetOr("any"), args.perPage.GetOr(10)))
    else if name == "test_wordpress_connection" then
      ToAuthenticate
    else
      UnknownTool
  }

  // ---------------------------------------------------------------------
  // Rendering

  /** `s[:n]`. */
  function Cut(s: string, n: nat): (r: string)
    ensures r <= s
    ensures |r| == if |s| <= n then |s| else n
  {
    if |s| <= n then s else s[..n]
  }

  /** The block one post contributes to a listing; the excerpt is cut to its
      first 100 characters. */
  function Entry(p: PostListing): string {
    Concat(["ID: ", Decimal(p.id), "\nTitle: ", p.title, "\nStatus: ", p.status,
            "\nDate: ", p.date, "\nURL: ", p.url,
            "\nExcerpt: ", Cut(p.excerpt, 100), "...\n\n"])
  }

  /** The blocks of `posts`, in order. */
  function Blocks(posts: seq<PostListing>): (r: seq<string>)
    ensures |r| == |posts|
    ensures forall i :: 0 <= i < |posts| ==> r[i] == Entry(posts[i])
  {
    seq(|posts|, i requires 0 <= i < |posts| => Entry(posts[i]))
  }

  const ListHeader := "Blog Posts:\n\n"
  const NoPosts := "No posts found."

  /** The text of a successful listing. */
  function ListingText(posts: seq<PostListing>): string {
    if posts == [] then NoPosts else ListHeader + Concat(Blocks(posts))
  }

  /** The listing's loop: `posts_text` grows by one block per post, and the
      text falls back to "No posts found." when there are none. */
  method RenderListing(posts: seq<PostListing>) returns (text: string)
    ensures text == ListingText(posts)
  {
    ghost var blocks := Blocks(posts);
    var postsText := ListHeader;
    var i := 0;
    while i < |posts|
      invariant 0 <= i <= |posts|
      invariant postsText == ListHeader + Concat(blocks[..i])
    {
      assert blocks[..i + 1][..i] == blocks[..i];
      postsText := postsText + Entry(posts[i]);
      i := i + 1;
    }
    assert blocks[..i] == blocks;
    text := if posts != [] then postsText else NoPosts;
  }

  function RenderCreated(r: Result<CreatedPost>): ToolOutcome {
    match r
    case Success(p) =>
      Rendered("Successfully created blog post!\n\nTitle: " + p.title + "\nID: " + Decimal(p.id)
               + "\nStatus: " + p.status + "\nURL: " + p.url + "\nDate: " + p.date, false)
    case Failure(e) => Rendered("Failed to create blog post: " + e, true)
  }

  function RenderUpdated(r: Result<UpdatedPost>): ToolOutcome {
    match r
    case Success(p) =>
      Rendered("Successfully updated blog post!\n\nTitle: " + p.title + "\nID: " + Decimal(p.id)
               + "\nStatus: " + p.status + "\nURL: " + p.url, false)
    case Failure(e) => Rendered("Failed to update blog post: " + e, true)
  }

  function RenderListed(r: Result<seq<PostListing>>): ToolOutcome {
    match r
    case Success(posts) => Rendered(ListingText(posts), false)
    case Failure(e) => Rendered("Failed to list posts: " + e, true)
  }

  /** A missing user field reads as "Unknown", missing roles as none. */
  function RenderConnection(siteUrl: string, r: Result<UserRecord>): ToolOutcome {
    match r
    case Success(u) =>
      Rendered("WordPress connection successful!\n\nConnected as: " + u.name.GetOr("Unknown")
               + "\nUsername: " + u.username.GetOr("Unknown") + "\nEmail: " + u.email.GetOr("Unknown")
               + "\nRole: " + Join(u.roles.GetOr([]), ", ") + "\nSite URL: " + siteUrl, false)
    case Failure(e) => Rendered("WordPress connection failed: " + e, true)
  }

  /** `handle_call_tool`. `siteUrl` is the server's configured WordPress URL. */
  function CallTool(siteUrl: string, name: string, args: Arguments, client: ClientApi): ToolOutcome {
    match RouteCall(name, args)
    case UnknownTool => Rendered("Unknown tool: " + name, true)
    case MissingKey(key) => Raised(KeyError(key))
    case ToCreate(req) => RenderCreated(client.createPost(req))
    case ToUpdate(req) => RenderUpdated(client.updatePost(req))
    case ToList(req) => RenderListed(client.listPosts(req))
    case ToAuthenticate => RenderConnection(siteUrl, client.authenticate)
  }

  // ---------------------------------------------------------------------
  // What the dispatcher promises

  /** The catalogue has four distinct names; a name outside it is answered
      with an error result naming it, and never raises. */
  lemma UnknownToolIsErrorResult(siteUrl: string, name: string, args: Arguments, client: ClientApi)
    ensures |ToolNames| == 4
    ensures forall i, j :: 0 <= i < j < |ToolNames| ==> ToolNames[i] != ToolNames[j]
    ensures RouteCall(name, args).UnknownTool? <==> name !in ToolNames
    ensures name !in ToolNames ==> CallTool(siteUrl, name, args, client) == Rendered("Unknown tool: " + name, true)
  {
  }

  /** The only exception that escapes a tool call is the `KeyError` of a
      required argument that is absent. */
  lemma OnlyMissingArgumentsRaise(siteUrl: string, name: string, args: Arguments, client: ClientApi)
    ensures CallTool(siteUrl, name, args, client).Raised? <==>
            (name == "create_blog_post" && (args.title.None? || args.content.None?))
            || (name == "update_blog_post" && args.postId.None?)
    ensures CallTool(siteUrl, name, args, client).Raised? ==>
            CallTool(siteUrl, name, args, client).exception.KeyError?
  {
  }

  /** The action a tool's failure message names. */
  function FailurePrefix(name: string): string {
    if name == "create_blog_post" then "Failed to create blog post: "
    else if name == "update_blog_post" then "Failed to update blog post: "
    else if name == "list_blog_posts" then "Failed to list posts: "
    else "WordPress connection failed: "
  }

  /** The error of a failed answer. */
  function ErrorOf<T>(r: Result<T>): Option<string> {
    match r
    case Success(_) => None
    case Failure(e) => Some(e)
  }

  /** The error the client answered for a routed call, if it answered one. */
  function ClientError(route: Route, client: ClientApi): Option<string> {
    match route
    case ToCreate(req) => ErrorOf(client.createPost(req))
    case ToUpdate(req) => ErrorOf(client.updatePost(req))
    case ToList(req) => ErrorOf(client.listPosts(req))
    case ToAuthenticate => ErrorOf(client.authenticate)
    case _ => None
  }

  /** For a call that reaches the client, the error flag is set exactly when
      the client failed, and then the text is the action's prefix followed by
      the client's error. */
  lemma ErrorFlagMeansClientFailure(siteUrl: string, name: string, args: Arguments, client: ClientApi)
    requires name in ToolNames
    requires !RouteCall(name, args).MissingKey?
    ensures CallTool(siteUrl, name, args, client).Rendered?
    ensures CallTool(siteUrl, name, args, client).isError <==> ClientError(RouteCall(name, args), client).Some?
    ensures ClientError(RouteCall(name, args), client).Some? ==>
            CallTool(siteUrl, name, args, client).text
              == FailurePrefix(name) + ClientError(RouteCall(name, args), client).value
  {
  }

  /** Defaults for optional arguments: a post is a draft with an empty excerpt
      and no categories or tags; a listing asks for any status, ten per page. */
  lemma DefaultsApplied(args: Arguments)
    ensures args.title.Some? && args.content.Some? && args.status.None? ==>
              RouteCall("create_blog_post", args).create.status == "draft"
    ensures args.title.Some? && args.content.Some? && args.excerpt.None? ==>
              RouteCall("create_blog_post", args).create.excerpt == ""
    ensures args.title.Some? && args.content.Some? && args.categories.None? ==>
              RouteCall("create_blog_post", args).create.categories == []
    ensures args.title.Some? && args.content.Some? && args.tags.None? ==>
              RouteCall("create_blog_post", args).create.tags == []
    ensures args.status.None? ==> RouteCall("list_blog_posts", args).list.status == "any"
    ensures args.perPage.None? ==> RouteCall("list_blog_posts", args).list.perPage == 10
  {
  }

  /** A post created without a status is sent to the platform as a draft. */
  lemma DraftByDefault(o: Oracle, st: State, args: Arguments)
    requires args.title.Some? && args.content.Some? && args.status.None?
    ensures var st' := CreatePostSpec(o, st, RouteCall("create_blog_post", args).create).1;
      |st'.log| > |st.log| && st'.log[|st'.log| - 1].CreatePost? ==>
        var body := st'.log[|st'.log| - 1].body;
        "status" in body && body["status"] == JStr("draft")
  {
    CreatePostBody(o, st, RouteCall("create_blog_post", args).create);
  }

  /** A successful listing with no posts is rendered as "No posts found.",
      not as an error. */
  lemma EmptyListing()
    ensures RenderListed(Success([])) == Rendered("No posts found.", false)
  {
  }

  /** In a non-empty listing each post's block stands in the post's position,
      after the header and the blocks of the posts before it, and its excerpt
      is cut to at most 100 characters. */
  lemma ListingPositions(posts: seq<PostListing>, k: nat)
    requires k < |posts|
    ensures ListingText(posts) == ListHeader + Concat(Blocks(posts))
    ensures Concat(Blocks(posts)) == Concat(Blocks(posts)[..k]) + Entry(posts[k]) + Concat(Blocks(posts)[k + 1..])
    ensures |Cut(posts[k].excerpt, 100)| <= 100
  {
    var blocks := Blocks(posts);
    ConcatSplit(blocks, k);
  }

  // ---------------------------------------------------------------------
  // Prompts

  /** The two fixed templates; their prose is not part of the model. */
  datatype Template = ThesisProgress | AlgorithmAnalysis

  /** A prompt message: the template with the argument values filled into its
      slots, in slot order. */
  datatype PromptMessage = PromptMessage(role: string, template: Template, values: seq<string>)

  /** A `GetPromptResult`, or the exception that escapes the handler. */
  datatype PromptOutcome =
    | Prompt(description: string, messages: seq<PromptMessage>)
    | PromptRaised(exception: Exception)

  /** `arguments.get(key, "")`. */
  function Argument(args: map<string, string>, key: string): (v: string)
    ensures key in args ==> v == args[key]
    ensures key !in args ==> v == ""
  {
    if key in args then args[key] else ""
  }

  /** `handle_get_prompt`. */
  function GetPrompt(name: string, args: map<string, string>): PromptOutcome {
    if name == "thesis_blog_post" then
      var topic := Argument(args, "topic");
      Prompt("Blog post template for thesis research on: " + topic,
             [PromptMessage("user", ThesisProgress,
                            [topic, Argument(args, "findings"), Argument(args, "challenges")])])
    else if name == "algorithm_analysis_post" then
      var algorithm := Argument(args, "algorithm");
      Prompt("Blog post template for algorithm analysis: " + algorithm,
             [PromptMessage("user", AlgorithmAnalysis,
                            [algorithm, Argument(args, "complexity"), Argument(args, "applications")])])
    else
      PromptRaised(ValueError("Unknown prompt: " + name))
  }

  /** Unlike an unknown tool, an unknown prompt raises. A known one yields a
      single user message whose slots hold the template's three arguments in
      order (absent ones empty), and a description naming the first. */
  lemma PromptOutcomes(name: string, args: map<string, string>, siteUrl: string, toolArgs: Arguments, client: ClientApi)
    ensures GetPrompt(name, args).PromptRaised? <==> name !in PromptNames
    ensures name !in PromptNames ==>
              GetPrompt(name, args) == PromptRaised(ValueError("Unknown prompt: " + name))
    ensures name in PromptNames ==>
              && |GetPrompt(name, args).messages| == 1
              && GetPrompt(name, args).messages[0].role == "user"
    ensures name == "thesis_blog_post" ==>
              && GetPrompt(name, args).description
                   == "Blog post template for thesis research on: " + Argument(args, "topic")
              && GetPrompt(name, args).messages[0].template == ThesisProgress
              && GetPrompt(name, args).messages[0].values
                   == [Argument(args, "topic"), Argument(args, "findings"), Argument(args, "challenges")]
    ensures name == "algorithm_analysis_post" ==>
              && GetPrompt(name, args).description
                   == "Blog post template for algorithm analysis: " + Argument(args, "algorithm")
              && GetPrompt(name, args).messages[0].template == AlgorithmAnalysis
              && GetPrompt(name, args).messages[0].values
                   == [Argument(args, "algorithm"), Argument(args, "complexity"), Argument(args, "applications")]
    ensures name !in PromptNames && name !in ToolNames ==>
              GetPrompt(name, args).PromptRaised? && !CallTool(siteUrl, name, toolArgs, client).Raised?
  {
  }
}
