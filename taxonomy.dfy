/** Find-or-create resolution of category and tag names into term ids
    (`_get_or_create_categories` / `_get_or_create_tags`). The two source
    functions differ only in the endpoint, so one definition serves both,
    parameterised by the taxonomy `Kind`.

    `Step` is one iteration of the source loop, `ResolveAll` the whole loop as a
    specification; the loop itself is `Client.WordPressClient.GetOrCreateTerms`. */
module Taxonomy {
  import opened Results
  import opened Text
  import opened Remote

  /** `next((t for t in results if t["name"].lower() == name.lower()), None)`,
      as the index of that term. */
  function FirstMatch(results: seq<Term>, name: string): (r: Option<nat>)
    ensures r.Some? ==> r.value < |results| && SameName(results[r.value].name, name)
    ensures r.Some? ==> forall j :: 0 <= j < r.value ==> !SameName(results[j].name, name)
    ensures r.None? ==> forall j :: 0 <= j < |results| ==> !SameName(results[j].name, name)
  {
    if results == [] then None
    else if SameName(results[0].name, name) then Some(0)
    else
      match FirstMatch(results[1..], name)
      case None => None
      case Some(k) => Some(k + 1)
  }

  /** What became of one name. `Raised` is an exception that leaves the loop. */
  datatype Outcome = Found(id: int) | Created(id: int) | Dropped | Raised(message: string)

  /** The ids a non-raising outcome appends to the result list. */
  function Contribution(out: Outcome): seq<int> {
    match out
    case Found(id) => [id]
    case Created(id) => [id]
    case _ => []
  }

  /** One name: search; on 200 reuse the first case-insensitive match, else
      create the term and keep its id only on 201. A non-200 search drops the
      name without a create. */
  function Step(o: Oracle, st: State, kind: Kind, name: string): (Outcome, State) {
    var searched := st.Logged(SearchTerms(kind, name));
    match o.search(kind, st.Terms(kind), name)
    case Fault(m) => (Raised(m), searched)
    case Response(status, results, _) =>
      if status != 200 then (Dropped, searched)
      else
        match FirstMatch(results, name)
        case Some(i) => (Found(results[i].id), searched)
        case None =>
          var reply := o.createTerm(kind, searched.Terms(kind), name);
          var created := searched.AfterCreate(kind, name, reply);
          match reply
          case Fault(m) => (Raised(m), created)
          case Response(s, term, _) => (if s == 201 then Created(term.id) else Dropped, created)
  }

  /** The whole loop over `names`: the ids in name order, or the message of the
      first exception, together with the platform state afterwards. */
  function ResolveAll(o: Oracle, st: State, kind: Kind, names: seq<string>): (Result<seq<int>>, State)
    decreases |names|
  {
    if names == [] then (Success([]), st)
    else
      var (out, st1) := Step(o, st, kind, names[0]);
      if out.Raised? then (Failure(out.message), st1)
      else
        var (rest, st2) := ResolveAll(o, st1, kind, names[1..]);
        (Prepend(Contribution(out), rest), st2)
  }

  function Prepend(ids: seq<int>, rest: Result<seq<int>>): Result<seq<int>> {
    match rest
    case Success(more) => Success(ids + more)
    case Failure(m) => Failure(m)
  }

  /** Which requests one name costs and what it contributes, case by case. */
  lemma StepCases(o: Oracle, st: State, kind: Kind, name: string)
    ensures var (out, st') := Step(o, st, kind, name);
      var search := o.search(kind, st.Terms(kind), name);
      var matched := search.Response? && search.status == 200 && FirstMatch(search.payload, name).Some?;
      var creates := search.Response? && search.status == 200 && FirstMatch(search.payload, name).None?;
      var create := o.createTerm(kind, st.Terms(kind), name);
      && (creates ==> st'.log == st.log + [SearchTerms(kind, name), CreateTerm(kind, name)])
      && (!creates ==> st' == st.Logged(SearchTerms(kind, name)))
      && (out.Found? <==> matched)
      && (matched ==> out.id == search.payload[FirstMatch(search.payload, name).value].id)
      && (out.Created? <==> creates && create.Response? && create.status == 201)
      && (out.Created? ==> out.id == create.payload.id)
      && (out.Dropped? <==> ((search.Response? && search.status != 200)
                             || (creates && create.Response? && create.status != 201)))
      && (out.Raised? <==> search.Fault? || (creates && create.Fault?))
  {
  }

  /** Resolution only appends requests to the log, grows the store of its own
      taxonomy at the end and leaves the other one alone; on success it yields
      at most one id per name and costs one or two requests per name. */
  lemma {:induction false} ResolveFrame(o: Oracle, st: State, kind: Kind, names: seq<string>)
    decreases |names|
    ensures var (r, st') := ResolveAll(o, st, kind, names);
      && st.log <= st'.log
      && |st'.log| <= |st.log| + 2 * |names|
      && st.Terms(kind) <= st'.Terms(kind)
      && (forall k :: k != kind ==> st'.Terms(k) == st.Terms(k))
      && (forall i :: |st.log| <= i < |st'.log| ==>
            (st'.log[i].SearchTerms? || st'.log[i].CreateTerm?) && st'.log[i].kind == kind)
      && (r.Success? ==> |r.value| <= |names| && |st'.log| >= |st.log| + |names|)
  {
    if names != [] {
      var (out, st1) := Step(o, st, kind, names[0]);
      StepCases(o, st, kind, names[0]);
      if !out.Raised? {
        ResolveFrame(o, st1, kind, names[1..]);
      }
    }
  }

  /** Names are resolved one after the other, each on its own: resolving
      `a + b` is resolving `a` and then `b` against the state `a` left behind.
      A name given twice is therefore looked up twice. */
  lemma {:induction false} ResolveAppend(o: Oracle, st: State, kind: Kind, a: seq<string>, b: seq<string>)
    decreases |a|
    ensures ResolveAll(o, st, kind, a + b) ==
      var (ra, sa) := ResolveAll(o, st, kind, a);
      match ra
      case Failure(m) => (Failure(m), sa)
      case Success(ids) =>
        var (rb, sb) := ResolveAll(o, sa, kind, b);
        (Prepend(ids, rb), sb)
  {
    if a != [] {
      assert (a + b)[0] == a[0];
      assert (a + b)[1..] == a[1..] + b;
      var (out, st1) := Step(o, st, kind, a[0]);
      if !out.Raised? {
        ResolveAppend(o, st1, kind, a[1..], b);
        var (rb, sb) := ResolveAll(o, ResolveAll(o, st1, kind, a[1..]).1, kind, b);
        match ResolveAll(o, st1, kind, a[1..]).0
        case Failure(m) =>
        case Success(ids) =>
          match rb
          case Failure(m) =>
          case Success(more) =>
            assert Contribution(out) + (ids + more) == (Contribution(out) + ids) + more;
      }
    } else {
      assert a + b == b;
      match ResolveAll(o, st, kind, b).0
      case Failure(m) =>
      case Success(more) => assert [] + more == more;
    }
  }

  /** A name whose lookup raises ends the loop: when the names before it
      resolve, the whole list fails with that exception's text, in the state
      the raising step left behind (nothing after it is requested). */
  lemma RaiseFailsResolution(o: Oracle, st: State, kind: Kind, names: seq<string>, k: nat)
    requires k < |names|
    requires ResolveAll(o, st, kind, names[..k]).0.Success?
    requires Step(o, ResolveAll(o, st, kind, names[..k]).1, kind, names[k]).0.Raised?
    ensures var (out, st') := Step(o, ResolveAll(o, st, kind, names[..k]).1, kind, names[k]);
      ResolveAll(o, st, kind, names) == (Failure(out.message), st')
  {
    assert names[..k] + names[k..] == names;
    ResolveAppend(o, st, kind, names[..k], names[k..]);
    assert names[k..][0] == names[k];
  }

  /** Conversely, resolution fails only because some name's lookup raised
      after the names before it resolved. */
  lemma {:induction false} FailureComesFromRaise(o: Oracle, st: State, kind: Kind, names: seq<string>)
    requires ResolveAll(o, st, kind, names).0.Failure?
    ensures exists k :: 0 <= k < |names| && ResolveAll(o, st, kind, names[..k]).0.Success?
              && Step(o, ResolveAll(o, st, kind, names[..k]).1, kind, names[k]).0.Raised?
    decreases |names|
  {
    var (out, st1) := Step(o, st, kind, names[0]);
    if out.Raised? {
      assert names[..0] == [];
      assert ResolveAll(o, st, kind, names[..0]) == (Success([]), st);
    } else {
      FailureComesFromRaise(o, st1, kind, names[1..]);
      var k :| 0 <= k < |names[1..]| && ResolveAll(o, st1, kind, names[1..][..k]).0.Success?
               && Step(o, ResolveAll(o, st1, kind, names[1..][..k]).1, kind, names[1..][k]).0.Raised?;
      var p := names[..k + 1];
      assert p[0] == names[0] && p[1..] == names[1..][..k];
      assert ResolveAll(o, st, kind, p).1 == ResolveAll(o, st1, kind, names[1..][..k]).1;
      assert ResolveAll(o, st, kind, p).0.Success?;
      assert names[k + 1] == names[1..][k];
    }
  }

  // ---------------------------------------------------------------------
  // When can resolution create a duplicate term?

  /** The platform's search reports, whenever it answers 200, every stored term
      whose name is the searched one up to case. */
  ghost predicate SearchReportsMatches(o: Oracle, kind: Kind) {
    forall store: seq<Term>, name: string ::
      var reply := o.search(kind, store, name);
      reply.Response? && reply.status == 200 ==>
        forall t :: t in store && SameName(t.name, name) ==> t in reply.payload
  }

  /** A term the platform reports as created carries the requested name. */
  ghost predicate CreatesRequestedName(o: Oracle, kind: Kind) {
    forall store: seq<Term>, name: string ::
      var reply := o.createTerm(kind, store, name);
      reply.Response? && reply.status == 201 ==> SameName(reply.payload.name, name)
  }

  /** No two terms of a store share a name up to case. */
  predicate DistinctNames(terms: seq<Term>) {
    forall i, j :: 0 <= i < j < |terms| ==> !SameName(terms[i].name, terms[j].name)
  }

  lemma StepKeepsNamesDistinct(o: Oracle, st: State, kind: Kind, name: string)
    requires SearchReportsMatches(o, kind) && CreatesRequestedName(o, kind)
    requires DistinctNames(st.Terms(kind))
    ensures DistinctNames(Step(o, st, kind, name).1.Terms(kind))
  {
    var store := st.Terms(kind);
    var search := o.search(kind, store, name);
    if search.Response? && search.status == 200 && FirstMatch(search.payload, name).None? {
      var reply := o.createTerm(kind, store, name);
      if reply.Response? && reply.status == 201 {
        var after := store + [reply.payload];
        assert Step(o, st, kind, name).1.Terms(kind) == after;
        forall i | 0 <= i < |store|
          ensures !SameName(store[i].name, reply.payload.name)
        {
          if store[i] in search.payload {
            var k :| 0 <= k < |search.payload| && search.payload[k] == store[i];
            assert !SameName(search.payload[k].name, name);
          }
          assert !SameName(store[i].name, name);
        }
      }
    }
  }

  /** The question of duplicate terms: when the search reports existing terms,
      one call never creates a second term with a name already present, not
      even when the same name (or a differently-cased one) is given twice. A
      duplicate can therefore only come from a search that failed to return
      the term created first. */
  lemma {:induction false} ResolveKeepsNamesDistinct(o: Oracle, st: State, kind: Kind, names: seq<string>)
    requires SearchReportsMatches(o, kind) && CreatesRequestedName(o, kind)
    requires DistinctNames(st.Terms(kind))
    ensures DistinctNames(ResolveAll(o, st, kind, names).1.Terms(kind))
    decreases |names|
  {
    if names != [] {
      var (out, st1) := Step(o, st, kind, names[0]);
      StepKeepsNamesDistinct(o, st, kind, names[0]);
      if !out.Raised? {
        ResolveKeepsNamesDistinct(o, st1, kind, names[1..]);
      }
    }
  }

  // ---------------------------------------------------------------------
  // The "Research" scenarios

  /** An existing category spelled "research" is reused for "Research": no
      create request, its id is attached. */
  lemma ExistingTermReused(o: Oracle, st: State, id: int, text: string)
    requires o.search(Category, st.categories, "Research") == Response(200, [Term(id, "research")], text)
    ensures ResolveAll(o, st, Category, ["Research"]) ==
            (Success([id]), st.Logged(SearchTerms(Category, "Research")))
  {
    assert SameName("research", "Research");
    assert FirstMatch([Term(id, "research")], "Research") == Some(0);
    assert ["Research"][1..] == [];
    assert [id] + [] == [id];
  }

  /** A missing category costs exactly one create request, whose new id is
      attached. */
  lemma MissingTermCreated(o: Oracle, st: State, term: Term, text: string, others: seq<Term>)
    requires forall t :: t in others ==> !SameName(t.name, "Research")
    requires o.search(Category, st.categories, "Research") == Response(200, others, text)
    requires o.createTerm(Category, st.categories, "Research").Response?
    requires o.createTerm(Category, st.categories, "Research").status == 201
    requires o.createTerm(Category, st.categories, "Research").payload == term
    ensures var (r, st') := ResolveAll(o, st, Category, ["Research"]);
      && r == Success([term.id])
      && st'.log == st.log + [SearchTerms(Category, "Research"), CreateTerm(Category, "Research")]
      && st'.categories == st.categories + [term]
  {
    forall j | 0 <= j < |others|
      ensures !SameName(others[j].name, "Research")
    {
      assert others[j] in others;
    }
    assert ["Research"][1..] == [];
    assert [term.id] + [] == [term.id];
  }
}
