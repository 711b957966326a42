/** The WordPress REST client (`WordPressClient`): request bodies, the
    translation of platform answers into the uniform success/failure result,
    `create_post` with its taxonomy resolution, and the client object whose
    methods issue the requests against a `Remote.Site`. */
module Client {
  import opened Results
  import opened Text
  import opened Remote
  import opened Taxonomy

  // ---------------------------------------------------------------------
  // Base URL

  const ApiSuffix := "/wp-json/wp/v2"

  /** `self.api_base`: the base URL without trailing slashes, then the REST prefix. */
  function ApiBase(baseUrl: string): string {
    RStrip(baseUrl, '/') + ApiSuffix
  }

  /** The REST prefix is appended exactly once, after a base that no longer
      ends in '/', and trailing slashes on the configured URL make no
      difference. */
  lemma ApiBaseNormalised(baseUrl: string)
    ensures var root := ApiBase(baseUrl)[..|ApiBase(baseUrl)| - |ApiSuffix|];
      && ApiSuffix <= ApiBase(baseUrl)[|root|..]
      && root <= baseUrl
      && (root == [] || root[|root| - 1] != '/')
    ensures ApiBase(baseUrl + "/") == ApiBase(baseUrl)
  {
    var root := RStrip(baseUrl, '/');
    assert ApiBase(baseUrl)[..|ApiBase(baseUrl)| - |ApiSuffix|] == root;
    assert (baseUrl + "/")[..|baseUrl|] == baseUrl;
  }

  // ---------------------------------------------------------------------
  // What the client hands back

  /** The summary of a created post. */
  datatype CreatedPost = CreatedPost(id: int, title: string, url: string, status: string, date: string)

  /** The summary of an updated post (no date). */
  datatype UpdatedPost = UpdatedPost(id: int, title: string, url: string, status: string)

  /** One entry of a post listing. */
  datatype PostListing = PostListing(id: int, title: string, url: string, status: string,
                                     date: string, excerpt: string)

  /** The arguments of `create_post`, `update_post` and `list_posts`. */
  datatype CreateRequest = CreateRequest(title: string, content: string, status: string,
                                         excerpt: string, categories: seq<string>, tags: seq<string>)
  datatype UpdateRequest = UpdateRequest(postId: int, title: Option<string>,
                                         content: Option<string>, status: Option<string>)
  datatype ListRequest = ListRequest(status: string, perPage: int)

  // ---------------------------------------------------------------------
  // Request bodies

  /** `create_post`'s body: the five fixed keys, plus `categories` and `tags`
      when their id lists are given. */
  function CreateBody(title: string, content: string, status: string, excerpt: string,
                      categoryIds: Option<seq<int>>, tagIds: Option<seq<int>>): (body: map<string, Json>)
    ensures body.Keys == {"title", "content", "status", "excerpt", "format"}
                         + (if categoryIds.Some? then {"categories"} else {})
                         + (if tagIds.Some? then {"tags"} else {})
    ensures body["title"] == JStr(title) && body["content"] == JStr(content)
    ensures body["status"] == JStr(status) && body["excerpt"] == JStr(excerpt)
    ensures body["format"] == JStr("standard")
    ensures categoryIds.Some? ==> body["categories"] == JIds(categoryIds.value)
    ensures tagIds.Some? ==> body["tags"] == JIds(tagIds.value)
  {
    var fixed := map["title" := JStr(title), "content" := JStr(content), "status" := JStr(status),
                     "excerpt" := JStr(excerpt), "format" := JStr("standard")];
    var withCategories := if categoryIds.Some? then fixed["categories" := JIds(categoryIds.value)] else fixed;
    if tagIds.Some? then withCategories["tags" := JIds(tagIds.value)] else withCategories
  }

  /** Python truthiness of an optional string: present and not empty. */
  predicate Truthy(s: Option<string>) {
    s.Some? && s.value != ""
  }

  /** `update_post`'s body: only the fields that were supplied and truthy. */
  function UpdateBody(title: Option<string>, content: Option<string>, status: Option<string>): (body: map<string, Json>)
    ensures "title" in body <==> Truthy(title)
    ensures "content" in body <==> Truthy(content)
    ensures "status" in body <==> Truthy(status)
    ensures body.Keys <= {"title", "content", "status"}
    ensures "title" in body ==> body["title"] == JStr(title.value)
    ensures "content" in body ==> body["content"] == JStr(content.value)
    ensures "status" in body ==> body["status"] == JStr(status.value)
  {
    var withTitle := if Truthy(title) then map["title" := JStr(title.value)] else map[];
    var withContent := if Truthy(content) then withTitle["content" := JStr(content.value)] else withTitle;
    if Truthy(status) then withContent["status" := JStr(status.value)] else withContent
  }

  /** Supplying only a new title sends only the title: content and status are
      left as the platform has them. With nothing truthy the body is empty. */
  lemma UpdateBodyOnlySupplied(title: string)
    ensures title != "" ==> UpdateBody(Some(title), None, None) == map["title" := JStr(title)]
    ensures UpdateBody(Some(""), Some(""), None) == map[]
  {
    if title != "" {
      assert UpdateBody(Some(title), None, None).Keys == {"title"};
    }
  }

  /** `list_posts`'s query parameters, newest first. */
  function ListParams(status: string, perPage: int): (params: map<string, Json>)
    ensures params.Keys == {"status", "per_page", "orderby", "order"}
    ensures params["status"] == JStr(status) && params["per_page"] == JInt(perPage)
    ensures params["orderby"] == JStr("date") && params["order"] == JStr("desc")
  {
    map["status" := JStr(status), "per_page" := JInt(perPage),
        "orderby" := JStr("date"), "order" := JStr("desc")]
  }

  // ---------------------------------------------------------------------
  // Answers into results

  /** `authenticate`: 200 yields the user record; any other status a failure
      naming it; an exception its own text. */
  function AuthenticationResult(reply: Reply<UserRecord>): (r: Result<UserRecord>)
    ensures r.Success? <==> reply.Response? && reply.status == 200
    ensures r.Success? ==> r.value == reply.payload
    ensures reply.Fault? ==> r == Failure(reply.message)
    ensures reply.Response? && reply.status != 200 ==>
              r == Failure("Authentication failed: " + Decimal(reply.status))
  {
    match reply
    case Fault(m) => Failure(m)
    case Response(status, user, _) =>
      if status == 200 then Success(user) else Failure("Authentication failed: " + Decimal(status))
  }

  /** `create_post`'s answer: only 201 is a success. */
  function CreatedResult(reply: Reply<PostRecord>): (r: Result<CreatedPost>)
    ensures r.Success? <==> reply.Response? && reply.status == 201
    ensures r.Success? ==> var p := reply.payload;
              r.value == CreatedPost(p.id, p.title, p.link, p.status, p.date)
    ensures reply.Fault? ==> r == Failure(reply.message)
    ensures reply.Response? && reply.status != 201 ==>
              r == Failure("Failed to create post: " + Decimal(reply.status) + " - " + reply.text)
  {
    match reply
    case Fault(m) => Failure(m)
    case Response(status, p, text) =>
      if status == 201 then Success(CreatedPost(p.id, p.title, p.link, p.status, p.date))
      else Failure("Failed to create post: " + Decimal(status) + " - " + text)
  }

  /** `update_post`'s answer: only 200 is a success. */
  function UpdatedResult(reply: Reply<PostRecord>): (r: Result<UpdatedPost>)
    ensures r.Success? <==> reply.Response? && reply.status == 200
    ensures r.Success? ==> var p := reply.payload;
              r.value == UpdatedPost(p.id, p.title, p.link, p.status)
    ensures reply.Fault? ==> r == Failure(reply.message)
    ensures reply.Response? && reply.status != 200 ==>
              r == Failure("Failed to update post: " + Decimal(reply.status) + " - " + reply.text)
  {
    match reply
    case Fault(m) => Failure(m)
    case Response(status, p, text) =>
      if status == 200 then Success(UpdatedPost(p.id, p.title, p.link, p.status))
      else Failure("Failed to update post: " + Decimal(status) + " - " + text)
  }

  function Listing(p: PostRecord): PostListing {
    PostListing(p.id, p.title, p.link, p.status, p.date, p.excerpt)
  }

  /** `list_posts`'s answer: on 200 one listing per returned post, in the
      platform's order (so zero posts is a success with no listings). */
  function ListedResult(reply: Reply<seq<PostRecord>>): (r: Result<seq<PostListing>>)
    ensures r.Success? <==> reply.Response? && reply.status == 200
    ensures r.Success? ==> |r.value| == |reply.payload|
    ensures r.Success? ==> forall i :: 0 <= i < |r.value| ==> r.value[i] == Listing(reply.payload[i])
    ensures reply.Fault? ==> r == Failure(reply.message)
    ensures reply.Response? && reply.status != 200 ==>
              r == Failure("Failed to list posts: " + Decimal(reply.status))
  {
    match reply
    case Fault(m) => Failure(m)
    case Response(status, posts, _) =>
      if status == 200 then Success(seq(|posts|, i requires 0 <= i < |posts| => Listing(posts[i])))
      else Failure("Failed to list posts: " + Decimal(status))
  }

  /** A status rendered after a fixed prefix is read back by `int()` from the
      digits that follow the prefix; what comes after them is the tail. */
  lemma StatusAfterPrefix(prefix: string, status: int, tail: string)
    ensures var e := prefix + Decimal(status) + tail;
      var n := |prefix|;
      && ParseInt(e[n..n + |Decimal(status)|]) == Some(status)
      && e[n + |Decimal(status)|..] == tail
  {
    var d := Decimal(status);
    DecimalRoundTrip(status);
    assert (prefix + d + tail)[|prefix|..|prefix| + |d|] == d;
    assert (prefix + d + tail)[|prefix| + |d|..] == tail;
  }

  /** An unexpected status on the identity probe can be read back from the
      failure: the message is the fixed prefix followed by the status digits. */
  lemma AuthenticationFailureCarriesStatus(status: int, text: string, u: UserRecord)
    requires status != 200
    ensures var e := AuthenticationResult(Response(status, u, text)).error;
      var n := |"Authentication failed: "|;
      |e| >= n && ParseInt(e[n..]) == Some(status)
  {
    StatusAfterPrefix("Authentication failed: ", status, "");
    assert "Authentication failed: " + Decimal(status) + "" == "Authentication failed: " + Decimal(status);
  }

  /** The same for a listing. */
  lemma ListFailureCarriesStatus(status: int, text: string, ps: seq<PostRecord>)
    requires status != 200
    ensures var e := ListedResult(Response(status, ps, text)).error;
      var n := |"Failed to list posts: "|;
      |e| >= n && ParseInt(e[n..]) == Some(status)
  {
    StatusAfterPrefix("Failed to list posts: ", status, "");
    assert "Failed to list posts: " + Decimal(status) + "" == "Failed to list posts: " + Decimal(status);
  }

  /** A rejected create names the status and then, after " - ", carries the
      platform's response text. */
  lemma CreateFailureCarriesStatus(status: int, text: string, p: PostRecord)
    requires status != 201
    ensures var e := CreatedResult(Response(status, p, text)).error;
      var n := |"Failed to create post: "|;
      && |e| >= n + |Decimal(status)|
      && ParseInt(e[n..n + |Decimal(status)|]) == Some(status)
      && e[n + |Decimal(status)|..] == " - " + text
  {
    var prefix, d := "Failed to create post: ", Decimal(status);
    assert prefix + d + " - " + text == prefix + d + (" - " + text);
    StatusAfterPrefix(prefix, status, " - " + text);
  }

  /** The same for a rejected update. */
  lemma UpdateFailureCarriesStatus(status: int, text: string, p: PostRecord)
    requires status != 200
    ensures var e := UpdatedResult(Response(status, p, text)).error;
      var n := |"Failed to update post: "|;
      && |e| >= n + |Decimal(status)|
      && ParseInt(e[n..n + |Decimal(status)|]) == Some(status)
      && e[n + |Decimal(status)|..] == " - " + text
  {
    var prefix, d := "Failed to update post: ", Decimal(status);
    assert prefix + d + " - " + text == prefix + d + (" - " + text);
    StatusAfterPrefix(prefix, status, " - " + text);
  }

  // ---------------------------------------------------------------------
  // create_post as a specification

  /** `if categories:` / `if tags:` around the resolution: no names, no
      request and no ids. */
  function ResolveIfAny(o: Oracle, st: State, kind: Kind, names: seq<string>): (Result<seq<int>>, State) {
    if names == [] then (Success([]), st) else ResolveAll(o, st, kind, names)
  }

  /** `create_post`: resolve the category names (if any), then the tag names
      (if any), then send the post. An exception during resolution fails the
      whole call with its text and no post is sent. */
  function CreatePostSpec(o: Oracle, st: State, req: CreateRequest): (Result<CreatedPost>, State) {
    var (categories, st1) := ResolveIfAny(o, st, Category, req.categories);
    if categories.Failure? then (Failure(categories.error), st1)
    else
      var (tags, st2) := ResolveIfAny(o, st1, Tag, req.tags);
      if tags.Failure? then (Failure(tags.error), st2)
      else
        var body := CreateBody(req.title, req.content, req.status, req.excerpt,
                               if req.categories == [] then None else Some(categories.value),
                               if req.tags == [] then None else Some(tags.value));
        (CreatedResult(o.createPost(body)), st2.Logged(Request.CreatePost(body)))
  }

  /** Every request in `log` from position `n` on is a term search or a term
      creation. */
  ghost predicate TermRequestsFrom(log: seq<Request>, n: nat) {
    forall i :: n <= i < |log| ==> log[i].SearchTerms? || log[i].CreateTerm?
  }

  /** Resolving (or skipping) names only appends term requests, and yields at
      most one id per name. */
  lemma ResolveIfAnyFrame(o: Oracle, st: State, kind: Kind, names: seq<string>)
    ensures var (r, st') := ResolveIfAny(o, st, kind, names);
      && st.log <= st'.log
      && TermRequestsFrom(st'.log, |st.log|)
      && (r.Success? ==> |r.value| <= |names|)
  {
    if names != [] {
      ResolveFrame(o, st, kind, names);
    }
  }

  /** The requests `create_post` sends: term requests only, then at most one
      post request, last; if none is sent, the call failed. */
  lemma CreatePostRequests(o: Oracle, st: State, req: CreateRequest)
    ensures st.log <= CreatePostSpec(o, st, req).1.log
    ensures var (r, st') := CreatePostSpec(o, st, req);
      var sent := st'.log[|st.log|..];
      var posted := |sent| > 0 && sent[|sent| - 1].CreatePost?;
      && (forall i :: 0 <= i < |sent| - 1 ==> sent[i].SearchTerms? || sent[i].CreateTerm?)
      && (!posted ==> r.Failure? && forall i :: 0 <= i < |sent| ==> sent[i].SearchTerms? || sent[i].CreateTerm?)
  {
    var (r1, st1) := ResolveIfAny(o, st, Category, req.categories);
    ResolveIfAnyFrame(o, st, Category, req.categories);
    if r1.Success? {
      var (r2, st2) := ResolveIfAny(o, st1, Tag, req.tags);
      ResolveIfAnyFrame(o, st1, Tag, req.tags);
      assert TermRequestsFrom(st2.log, |st.log|) by {
        forall i | |st.log| <= i < |st2.log|
          ensures st2.log[i].SearchTerms? || st2.log[i].CreateTerm?
        {
          if i < |st1.log| {
            assert st2.log[i] == st1.log[i];
          }
        }
      }
    }
  }

  /** What a post request sent by `create_post` carries: `categories` / `tags`
      exactly when names were supplied (even if every name was dropped), with
      no more ids than names, the given status and the standard format; the
      result is that request's answer. */
  lemma CreatePostBody(o: Oracle, st: State, req: CreateRequest)
    ensures var (r, st') := CreatePostSpec(o, st, req);
      |st'.log| > |st.log| && st'.log[|st'.log| - 1].CreatePost? ==>
        var body := st'.log[|st'.log| - 1].body;
        && r == CreatedResult(o.createPost(body))
        && ("categories" in body <==> req.categories != [])
        && ("tags" in body <==> req.tags != [])
        && ("categories" in body ==> body["categories"].JIds? && |body["categories"].ids| <= |req.categories|)
        && ("tags" in body ==> body["tags"].JIds? && |body["tags"].ids| <= |req.tags|)
        && "status" in body && body["status"] == JStr(req.status)
        && "format" in body && body["format"] == JStr("standard")
  {
    var (r1, st1) := ResolveIfAny(o, st, Category, req.categories);
    ResolveIfAnyFrame(o, st, Category, req.categories);
    var (r2, st2) := ResolveIfAny(o, st1, Tag, req.tags);
    ResolveIfAnyFrame(o, st1, Tag, req.tags);
    if r1.Success? && r2.Success? {
    } else {
      assert TermRequestsFrom(CreatePostSpec(o, st, req).1.log, |st.log|) by {
        if r1.Success? {
          forall i | |st.log| <= i < |st2.log|
            ensures st2.log[i].SearchTerms? || st2.log[i].CreateTerm?
          {
            if i < |st1.log| {
              assert st2.log[i] == st1.log[i];
            }
          }
        }
      }
    }
  }

  /** A post request among the requests logged from position `n` on. */
  ghost predicate SendsPost(log: seq<Request>, n: nat) {
    exists i :: n <= i < |log| && log[i].CreatePost?
  }

  /** The `try` of `create_post` catches an exception raised while resolving
      categories or tags: the call then fails with the exception's text, in
      the state the resolution left, and no post is sent. A post is sent
      exactly when both resolutions succeed. */
  lemma ResolutionFaultFailsCreate(o: Oracle, st: State, req: CreateRequest)
    ensures var (r1, st1) := ResolveIfAny(o, st, Category, req.categories);
      var (r2, st2) := ResolveIfAny(o, st1, Tag, req.tags);
      var (r, st') := CreatePostSpec(o, st, req);
      && (r1.Failure? ==> r == Failure(r1.error) && st' == st1)
      && (r1.Success? && r2.Failure? ==> r == Failure(r2.error) && st' == st2)
      && (SendsPost(st'.log, |st.log|) <==> r1.Success? && r2.Success?)
  {
    var (r1, st1) := ResolveIfAny(o, st, Category, req.categories);
    ResolveIfAnyFrame(o, st, Category, req.categories);
    var (r2, st2) := ResolveIfAny(o, st1, Tag, req.tags);
    ResolveIfAnyFrame(o, st1, Tag, req.tags);
    var st' := CreatePostSpec(o, st, req).1;
    if r1.Failure? {
      assert !SendsPost(st1.log, |st.log|);
    } else if r2.Failure? {
      assert !SendsPost(st2.log, |st.log|) by {
        forall i | |st.log| <= i < |st2.log|
          ensures !st2.log[i].CreatePost?
        {
          if i < |st1.log| {
            assert st2.log[i] == st1.log[i];
          }
        }
      }
    } else {
      assert st'.log[|st'.log| - 1].CreatePost?;
    }
  }

  // ---------------------------------------------------------------------
  // The client object

  class WordPressClient {
    const baseUrl: string
    const apiBase: string
    const username: string
    const password: string
    /** The platform reached through the HTTP session. */
    const site: Site
    /** Whether the `async with` block has opened the HTTP session. */
    ghost var sessionOpen: bool

    constructor (site: Site, baseUrl: string, username: string := "admin", password: string := "admin")
      ensures this.site == site
      ensures this.baseUrl == RStrip(baseUrl, '/') && this.apiBase == ApiBase(baseUrl)
      ensures this.username == username && this.password == password
      ensures !sessionOpen
    {
      this.site := site;
      this.baseUrl := RStrip(baseUrl, '/');
      this.apiBase := RStrip(baseUrl, '/') + ApiSuffix;
      this.username := username;
      this.password := password;
      this.sessionOpen := false;
    }

    /** `__aenter__`: open the session. */
    method Enter()
      modifies this`sessionOpen
      ensures sessionOpen
    {
      sessionOpen := true;
    }

    /** `__aexit__`: close the session, whatever happened inside the block. */
    method Exit()
      modifies this`sessionOpen
      ensures !sessionOpen
    {
      sessionOpen := false;
    }

    method Authenticate() returns (r: Result<UserRecord>)
      requires sessionOpen
      modifies site
      ensures r == AuthenticationResult(site.oracle.currentUser)
      ensures site.Snapshot() == old(site.Snapshot()).Logged(Request.CurrentUser)
    {
      var reply := site.CurrentUser();
      r := AuthenticationResult(reply);
    }

    /** One iteration of the loop in `_get_or_create_categories` /
        `_get_or_create_tags`: search for `name`, reuse the first
        case-insensitive match or create the term. */
    method ResolveName(kind: Kind, name: string) returns (out: Outcome)
      requires sessionOpen
      modifies site
      ensures (out, site.Snapshot()) == Step(site.oracle, old(site.Snapshot()), kind, name)
    {
      var found := site.SearchTerms(kind, name);
      match found {
        case Fault(m) =>
          out := Raised(m);
        case Response(status, results, _) =>
          if status != 200 {
            out := Dropped;
          } else {
            var existing := FirstMatch(results, name);
            if existing.Some? {
              out := Found(results[existing.value].id);
            } else {
              var created := site.CreateTerm(kind, name);
              match created {
                case Fault(m) =>
                  out := Raised(m);
                case Response(s, term, _) =>
                  out := if s == 201 then Created(term.id) else Dropped;
              }
            }
          }
      }
    }

    /** `_get_or_create_categories` (kind `Category`) and `_get_or_create_tags`
        (kind `Tag`): the loop over the names. */
    method GetOrCreateTerms(kind: Kind, names: seq<string>) returns (r: Result<seq<int>>)
      requires sessionOpen
      modifies site
      ensures (r, site.Snapshot()) == ResolveAll(site.oracle, old(site.Snapshot()), kind, names)
    {
      ghost var start := site.Snapshot();
      var ids: seq<int> := [];
      var i := 0;
      assert names[i..] == names;
      PrependEmpty(ResolveAll(site.oracle, start, kind, names).0);
      while i < |names|
        invariant 0 <= i <= |names|
        invariant ResolveAll(site.oracle, start, kind, names) ==
                  (Prepend(ids, ResolveAll(site.oracle, site.Snapshot(), kind, names[i..]).0),
                   ResolveAll(site.oracle, site.Snapshot(), kind, names[i..]).1)
      {
        ghost var before := site.Snapshot();
        ResolveOneMore(site.oracle, before, kind, names, i);
        var out := ResolveName(kind, names[i]);
        if out.Raised? {
          return Failure(out.message);
        }
        PrependTwice(ids, Contribution(out), ResolveAll(site.oracle, site.Snapshot(), kind, names[i + 1..]).0);
        ids := ids + Contribution(out);
        i := i + 1;
      }
      assert names[i..] == [];
      assert ids + [] == ids;
      r := Success(ids);
    }

    method CreatePost(title: string, content: string, status: string := "draft", excerpt: string := "",
                      categories: seq<string> := [], tags: seq<string> := []) returns (r: Result<CreatedPost>)
      requires sessionOpen
      modifies site
      ensures (r, site.Snapshot()) ==
              CreatePostSpec(site.oracle, old(site.Snapshot()),
                             CreateRequest(title, content, status, excerpt, categories, tags))
    {
      var categoryIds: Option<seq<int>> := None;
      if categories != [] {
        var resolved := GetOrCreateTerms(Category, categories);
        if resolved.Failure? {
          return Failure(resolved.error);
        }
        categoryIds := Some(resolved.value);
      }
      var tagIds: Option<seq<int>> := None;
      if tags != [] {
        var resolved := GetOrCreateTerms(Tag, tags);
        if resolved.Failure? {
          return Failure(resolved.error);
        }
        tagIds := Some(resolved.value);
      }
      var body := CreateBody(title, content, status, excerpt, categoryIds, tagIds);
      var reply := site.CreatePost(body);
      r := CreatedResult(reply);
    }

    method UpdatePost(postId: int, title: Option<string> := None, content: Option<string> := None,
                      status: Option<string> := None) returns (r: Result<UpdatedPost>)
      requires sessionOpen
      modifies site
      ensures r == UpdatedResult(site.oracle.updatePost(postId, UpdateBody(title, content, status)))
      ensures site.Snapshot() == old(site.Snapshot()).Logged(Request.UpdatePost(postId, UpdateBody(title, content, status)))
    {
      var body := UpdateBody(title, content, status);
      var reply := site.UpdatePost(postId, body);
      r := UpdatedResult(reply);
    }

    method ListPosts(status: string := "any", perPage: int := 10) returns (r: Result<seq<PostListing>>)
      requires sessionOpen
      modifies site
      ensures r == ListedResult(site.oracle.listPosts(ListParams(status, perPage)))
      ensures site.Snapshot() == old(site.Snapshot()).Logged(Request.ListPosts(ListParams(status, perPage)))
    {
      var params := ListParams(status, perPage);
      var reply := site.ListPosts(params);
      r := ListedResult(reply);
    }
  }

  /** Resolving the names from position `i` on is one step for `names[i]`
      followed, unless it raised, by the names after it. */
  lemma ResolveOneMore(o: Oracle, st: State, kind: Kind, names: seq<string>, i: nat)
    requires i < |names|
    ensures var (out, st1) := Step(o, st, kind, names[i]);
      ResolveAll(o, st, kind, names[i..]) ==
        if out.Raised? then (Failure(out.message), st1)
        else (Prepend(Contribution(out), ResolveAll(o, st1, kind, names[i + 1..]).0),
              ResolveAll(o, st1, kind, names[i + 1..]).1)
  {
    assert names[i..][0] == names[i] && names[i..][1..] == names[i + 1..];
  }

  lemma PrependEmpty(rest: Result<seq<int>>)
    ensures Prepend([], rest) == rest
  {
    if rest.Success? {
      assert [] + rest.value == rest.value;
    }
  }

  lemma PrependTwice(ids: seq<int>, more: seq<int>, rest: Result<seq<int>>)
    ensures Prepend(ids, Prepend(more, rest)) == Prepend(ids + more, rest)
  {
    if rest.Success? {
      assert ids + (more + rest.value) == (ids + more) + rest.value;
    }
  }
}
