/** The WordPress REST API as the client sees it. The platform is not part of
    the model: it is an oracle that answers each request with a status code and
    a decoded JSON payload, or with a fault (an exception raised while the
    request was sent or its answer read). The only remote state the client's
    own logic depends on is the category and tag term stores, because a term
    created for one name may be found by the search for a later one. */
module Remote {
  import opened Results

  /** The two taxonomies, reached under `/categories` and `/tags`. */
  datatype Kind = Category | Tag

  /** A category or tag: platform-assigned id and display name. */
  datatype Term = Term(id: int, name: string)

  /** JSON values that occur in request bodies and query parameters. */
  datatype Json = JStr(s: string) | JInt(n: int) | JIds(ids: seq<int>)

  /** One exchange with the platform: the status code together with the
      decoded body (`response.json()`) and its raw text (`response.text()`),
      or the text of the exception (`str(e)`) that interrupted it. */
  datatype Reply<T> = Response(status: int, payload: T, text: string) | Fault(message: string)

  /** The fields of a post object the client reads (`title` and `excerpt` are
      their `rendered` forms, `link` its canonical URL). */
  datatype PostRecord = PostRecord(id: int, title: string, link: string, status: string,
                                   date: string, excerpt: string)

  /** The `/users/me` object; every field may be absent. */
  datatype UserRecord = UserRecord(name: Option<string>, username: Option<string>,
                                   email: Option<string>, roles: Option<seq<string>>)

  /** The requests the client issues, in the order the platform receives them. */
  datatype Request =
    | SearchTerms(kind: Kind, search: string)              // GET  {api}/categories|tags?search=
    | CreateTerm(kind: Kind, name: string)                 // POST {api}/categories|tags {"name": ...}
    | CreatePost(body: map<string, Json>)                  // POST {api}/posts
    | UpdatePost(postId: int, body: map<string, Json>)     // POST {api}/posts/{id}
    | ListPosts(params: map<string, Json>)                 // GET  {api}/posts?...
    | CurrentUser                                          // GET  {api}/users/me

  /** How the platform answers. A term search or a term creation may depend on
      the current term store of its taxonomy; the other answers are free. */
  datatype Oracle = Oracle(
    search: (Kind, seq<Term>, string) -> Reply<seq<Term>>,
    createTerm: (Kind, seq<Term>, string) -> Reply<Term>,
    createPost: map<string, Json> -> Reply<PostRecord>,
    updatePost: (int, map<string, Json>) -> Reply<PostRecord>,
    listPosts: map<string, Json> -> Reply<seq<PostRecord>>,
    currentUser: Reply<UserRecord>)

  /** The platform's state as far as the client can affect it: the two term
      stores and the log of requests received. */
  datatype State = State(categories: seq<Term>, tags: seq<Term>, log: seq<Request>) {

    function Terms(kind: Kind): seq<Term> {
      match kind
      case Category => categories
      case Tag => tags
    }

    /** The state after receiving `r`, which changes no term. */
    function Logged(r: Request): (s: State)
      ensures s.categories == categories && s.tags == tags && s.log == log + [r]
    {
      this.(log := log + [r])
    }

    /** The state after a term creation answered with `reply`: the request is
        logged, and a term the platform reports as created (201) is stored. */
    function AfterCreate(kind: Kind, name: string, reply: Reply<Term>): (s: State)
      ensures s.log == log + [CreateTerm(kind, name)]
      ensures s.Terms(kind) == if reply.Response? && reply.status == 201
                               then Terms(kind) + [reply.payload] else Terms(kind)
      ensures forall k :: k != kind ==> s.Terms(k) == Terms(k)
    {
      var added := if reply.Response? && reply.status == 201 then [reply.payload] else [];
      match kind
      case Category => State(categories + added, tags, log + [CreateTerm(kind, name)])
      case Tag => State(categories, tags + added, log + [CreateTerm(kind, name)])
    }
  }

  /** The remote site the client talks to. Each method is one HTTP exchange. */
  class Site {
    const oracle: Oracle
    var categories: seq<Term>
    var tags: seq<Term>
    var log: seq<Request>

    function Snapshot(): State
      reads this
    {
      State(categories, tags, log)
    }

    constructor (oracle: Oracle, categories: seq<Term>, tags: seq<Term>)
      ensures this.oracle == oracle
      ensures Snapshot() == State(categories, tags, [])
    {
      this.oracle := oracle;
      this.categories := categories;
      this.tags := tags;
      this.log := [];
    }

    method SearchTerms(kind: Kind, name: string) returns (reply: Reply<seq<Term>>)
      modifies this
      ensures reply == oracle.search(kind, old(Snapshot()).Terms(kind), name)
      ensures Snapshot() == old(Snapshot()).Logged(Request.SearchTerms(kind, name))
    {
      reply := oracle.search(kind, Snapshot().Terms(kind), name);
      log := log + [Request.SearchTerms(kind, name)];
    }

    method CreateTerm(kind: Kind, name: string) returns (reply: Reply<Term>)
      modifies this
      ensures reply == oracle.createTerm(kind, old(Snapshot()).Terms(kind), name)
      ensures Snapshot() == old(Snapshot()).AfterCreate(kind, name, reply)
    {
      reply := oracle.createTerm(kind, Snapshot().Terms(kind), name);
      var after := Snapshot().AfterCreate(kind, name, reply);
      categories, tags, log := after.categories, after.tags, after.log;
    }

    method CreatePost(body: map<string, Json>) returns (reply: Reply<PostRecord>)
      modifies this
      ensures reply == oracle.createPost(body)
      ensures Snapshot() == old(Snapshot()).Logged(Request.CreatePost(body))
    {
      reply := oracle.createPost(body);
      log := log + [Request.CreatePost(body)];
    }

    method UpdatePost(postId: int, body: map<string, Json>) returns (reply: Reply<PostRecord>)
      modifies this
      ensures reply == oracle.updatePost(postId, body)
      ensures Snapshot() == old(Snapshot()).Logged(Request.UpdatePost(postId, body))
    {
      reply := oracle.updatePost(postId, body);
      log := log + [Request.UpdatePost(postId, body)];
    }

    method ListPosts(params: map<string, Json>) returns (reply: Reply<seq<PostRecord>>)
      modifies this
      ensures reply == oracle.listPosts(params)
      ensures Snapshot() == old(Snapshot()).Logged(Request.ListPosts(params))
    {
      reply := oracle.listPosts(params);
      log := log + [Request.ListPosts(params)];
    }

    method CurrentUser() returns (reply: Reply<UserRecord>)
      modifies this
      ensures reply == oracle.currentUser
      ensures Snapshot() == old(Snapshot()).Logged(Request.CurrentUser)
    {
      reply := oracle.currentUser;
      log := log + [Request.CurrentUser];
    }
  }
}
