/** The analysis page of `src/pages/Companies.js`: the LINKIFY_EXTENSION_DATA
    workflow (analyze, then START_PEOPLE_SEARCH to the extension), the
    append-only list of LINKIFY_PEOPLE_RESULT fragments, their grouping by
    persona type and the persona cards that show each group's first match.

    The LINKIFY_EXTENSION_DATA handler is split at its `await`: the first
    step runs up to the analyze call, the second runs when the call settles,
    and fragments may be handled in between. */
module Companies {
  import opened Js
  import opened Protocol
  import opened Browser
  import opened Api

  // ---------------------------------------------------------------------
  // Grouping fragments by persona type

  /** A fragment belongs to the group of `p` when it is not null and its
      `personaType` is truthy and equal to `p`. */
  predicate InGroup(r: Option<PersonResult>, p: string)
  {
    r.Some? && Truthy(r.value.personaType) && r.value.personaType.value == p
  }

  /** A fragment that belongs to some group. */
  predicate Typed(r: Option<PersonResult>)
  {
    r.Some? && Truthy(r.value.personaType)
  }

  /** The reference definition of a group: the fragments of `p`, in list order. */
  function Group(results: seq<Option<PersonResult>>, p: string): seq<PersonResult>
    decreases |results|
  {
    if results == [] then []
    else
      var last := results[|results| - 1];
      Group(results[..|results| - 1], p) + (if InGroup(last, p) then [last.value] else [])
  }

  /** The number of fragments that belong to some group. */
  function TypedCount(results: seq<Option<PersonResult>>): nat
    decreases |results|
  {
    if results == [] then 0
    else TypedCount(results[..|results| - 1]) + (if Typed(results[|results| - 1]) then 1 else 0)
  }

  /** Appending a fragment extends its own group by it and leaves every other
      group as it was. */
  lemma GroupAppend(results: seq<Option<PersonResult>>, r: Option<PersonResult>, p: string)
    ensures Group(results + [r], p) == Group(results, p) + (if InGroup(r, p) then [r.value] else [])
    ensures TypedCount(results + [r]) == TypedCount(results) + (if Typed(r) then 1 else 0)
  {
    assert (results + [r])[..|results|] == results;
  }

  /** A group holds exactly the fragments of its type: every member is one of
      the results with that type, and every such result is a member. */
  lemma {:induction false} GroupMembers(results: seq<Option<PersonResult>>, p: string, x: PersonResult)
    ensures x in Group(results, p) <==> Some(x) in results && InGroup(Some(x), p)
    decreases |results|
  {
    if results != [] {
      var init := results[..|results| - 1];
      var last := results[|results| - 1];
      assert results == init + [last];
      GroupMembers(init, p, x);
    }
  }

  /** A group is empty exactly when no fragment has its type. */
  lemma {:induction false} GroupEmpty(results: seq<Option<PersonResult>>, p: string)
    ensures Group(results, p) == [] <==> forall i :: 0 <= i < |results| ==> !InGroup(results[i], p)
    decreases |results|
  {
    if results != [] {
      var init := results[..|results| - 1];
      GroupEmpty(init, p);
      assert forall i :: 0 <= i < |init| ==> init[i] == results[i];
    }
  }

  /** The head of a non-empty group is the earliest fragment of that type. */
  lemma {:induction false} GroupFirst(results: seq<Option<PersonResult>>, p: string)
    requires Group(results, p) != []
    ensures exists i :: (0 <= i < |results| && InGroup(results[i], p) && results[i].value == Group(results, p)[0] &&
      forall j :: 0 <= j < i ==> !InGroup(results[j], p))
    decreases |results|
  {
    var init := results[..|results| - 1];
    assert forall k :: 0 <= k < |init| ==> init[k] == results[k];
    if Group(init, p) != [] {
      GroupFirst(init, p);
      var i :| 0 <= i < |init| && InGroup(init[i], p) && init[i].value == Group(init, p)[0] &&
        forall j :: 0 <= j < i ==> !InGroup(init[j], p);
      assert InGroup(results[i], p) && results[i].value == Group(results, p)[0];
    } else {
      GroupEmpty(init, p);
      var i := |results| - 1;
      assert InGroup(results[i], p) && results[i].value == Group(results, p)[0];
    }
  }

  /** The number of keys among `keys` whose group `r` joins. */
  function Hits(r: Option<PersonResult>, keys: seq<string>): nat
    decreases |keys|
  {
    if keys == [] then 0 else (if InGroup(r, keys[0]) then 1 else 0) + Hits(r, keys[1..])
  }

  /** The total size of the groups of `keys`. */
  function SumSizes(results: seq<Option<PersonResult>>, keys: seq<string>): nat
    decreases |keys|
  {
    if keys == [] then 0 else |Group(results, keys[0])| + SumSizes(results, keys[1..])
  }

  predicate Distinct(keys: seq<string>)
  {
    forall i, j :: 0 <= i < j < |keys| ==> keys[i] != keys[j]
  }

  lemma {:induction false} HitsAbsent(r: Option<PersonResult>, keys: seq<string>)
    requires !Typed(r) || r.value.personaType.value !in keys
    ensures Hits(r, keys) == 0
    decreases |keys|
  {
    if keys != [] {
      HitsAbsent(r, keys[1..]);
    }
  }

  /** With distinct keys covering its type, a typed fragment joins exactly one group. */
  lemma {:induction false} HitsOnce(r: Option<PersonResult>, keys: seq<string>)
    requires Distinct(keys)
    requires Typed(r) && r.value.personaType.value in keys
    ensures Hits(r, keys) == 1
    decreases |keys|
  {
    var t := r.value.personaType.value;
    if keys[0] == t {
      assert t !in keys[1..] by {
        forall k | 0 <= k < |keys[1..]| ensures keys[1..][k] != t { assert keys[1..][k] == keys[k + 1]; }
      }
      HitsAbsent(r, keys[1..]);
    } else {
      HitsOnce(r, keys[1..]);
    }
  }

  lemma {:induction false} SumSizesAppend(results: seq<Option<PersonResult>>, r: Option<PersonResult>, keys: seq<string>)
    ensures SumSizes(results + [r], keys) == SumSizes(results, keys) + Hits(r, keys)
    decreases |keys|
  {
    if keys != [] {
      GroupAppend(results, r, keys[0]);
      SumSizesAppend(results, r, keys[1..]);
    }
  }

  /** The group sizes sum to the number of fragments with a truthy type:
      fragments that are null or untyped are in no group, and no fragment is
      in two. `keys` is any duplicate-free list of the types present. */
  lemma {:induction false} GroupSizesSum(results: seq<Option<PersonResult>>, keys: seq<string>)
    requires Distinct(keys)
    requires forall i :: 0 <= i < |results| && Typed(results[i]) ==> results[i].value.personaType.value in keys
    ensures SumSizes(results, keys) == TypedCount(results)
    decreases |results|
  {
    if results == [] {
      SumSizesEmpty(keys);
    } else {
      var init := results[..|results| - 1];
      var last := results[|results| - 1];
      assert results == init + [last];
      assert forall i :: 0 <= i < |init| ==> init[i] == results[i];
      GroupSizesSum(init, keys);
      SumSizesAppend(init, last, keys);
      GroupAppend(init, last, "");
      if Typed(last) {
        HitsOnce(last, keys);
      } else {
        HitsAbsent(last, keys);
      }
    }
  }

  lemma {:induction false} SumSizesEmpty(keys: seq<string>)
    ensures SumSizes([], keys) == 0
    decreases |keys|
  {
    if keys != [] {
      SumSizesEmpty(keys[1..]);
    }
  }

  /** Two `decision_maker` fragments and then one
      `champion` give groups of two and one, headed by the first of each. */
  lemma GroupScenario(a: Person, b: Person, c: Person)
    ensures var r1 := PersonResult(Some("decision_maker"), Some(a));
      var r2 := PersonResult(Some("decision_maker"), Some(b));
      var r3 := PersonResult(Some("champion"), Some(c));
      var results := [Some(r1), Some(r2), Some(r3)];
      Group(results, "decision_maker") == [r1, r2] && Group(results, "champion") == [r3]
  {
    var r1 := PersonResult(Some("decision_maker"), Some(a));
    var r2 := PersonResult(Some("decision_maker"), Some(b));
    var r3 := PersonResult(Some("champion"), Some(c));
    GroupAppend([], Some(r1), "decision_maker");
    GroupAppend([], Some(r1), "champion");
    GroupAppend([Some(r1)], Some(r2), "decision_maker");
    GroupAppend([Some(r1)], Some(r2), "champion");
    GroupAppend([Some(r1), Some(r2)], Some(r3), "decision_maker");
    GroupAppend([Some(r1), Some(r2)], Some(r3), "champion");
    assert [Some(r1)] + [Some(r2)] == [Some(r1), Some(r2)];
    assert [Some(r1), Some(r2)] + [Some(r3)] == [Some(r1), Some(r2), Some(r3)];
  }

  // ---------------------------------------------------------------------
  // The persona cards

  /** `peopleByPersonaType[persona.type] || []`; a missing type is looked up
      under the key "undefined". */
  function Matches(byType: map<string, seq<PersonResult>>, persona: Persona): seq<PersonResult>
  {
    var key := StringOf(persona.personaType);
    if key in byType then byType[key] else []
  }

  /** One rendered persona card: the persona and `matches[0]`. */
  datatype PersonaCard = PersonaCard(persona: Persona, firstMatch: PersonResult)

  function CardPersonas(cards: seq<PersonaCard>): seq<Persona>
    decreases |cards|
  {
    if cards == [] then [] else [cards[0].persona] + CardPersonas(cards[1..])
  }

  /** `xs` is `ys` with some elements left out. */
  predicate Subsequence<T(==)>(xs: seq<T>, ys: seq<T>)
    decreases |ys|
  {
    xs == [] || (ys != [] && ((xs[0] == ys[0] && Subsequence(xs[1..], ys[1..])) || Subsequence(xs, ys[1..])))
  }

  /** `personas.filter(p => matches(p).length > 0).map(p => card(p, matches(p)[0]))`:
      the personas with at least one match, in their order, each with its
      first match. */
  function PersonaCards(personas: seq<Persona>, byType: map<string, seq<PersonResult>>): (cards: seq<PersonaCard>)
    ensures |cards| <= |personas|
    ensures forall c :: c in cards ==>
      c.persona in personas && Matches(byType, c.persona) != [] && c.firstMatch == Matches(byType, c.persona)[0]
    ensures forall p :: p in personas && Matches(byType, p) != [] ==> exists c :: c in cards && c.persona == p
    ensures Subsequence(CardPersonas(cards), personas)
    decreases |personas|
  {
    if personas == [] then []
    else
      var rest := PersonaCards(personas[1..], byType);
      var m := Matches(byType, personas[0]);
      if m != [] then
        var cards := [PersonaCard(personas[0], m[0])] + rest;
        assert cards[1..] == rest;
        cards
      else
        assert Subsequence(CardPersonas(rest), personas);
        rest
  }

  /** Each persona with a match gets exactly as many cards as it occurs in
      the list; a persona without a match gets none. */
  lemma {:induction false} PersonaCardsMultiplicity(personas: seq<Persona>, byType: map<string, seq<PersonResult>>, p: Persona)
    ensures multiset(CardPersonas(PersonaCards(personas, byType)))[p]
      == if Matches(byType, p) != [] then multiset(personas)[p] else 0
    decreases |personas|
  {
    if personas != [] {
      PersonaCardsMultiplicity(personas[1..], byType, p);
      assert personas == [personas[0]] + personas[1..];
      assert multiset(personas) == multiset{personas[0]} + multiset(personas[1..]);
      var rest := PersonaCards(personas[1..], byType);
      var cards := PersonaCards(personas, byType);
      if Matches(byType, personas[0]) != [] {
        assert cards[1..] == rest;
        assert multiset(CardPersonas(cards)) == multiset{personas[0]} + multiset(CardPersonas(rest));
      } else {
        assert cards == rest;
      }
    }
  }

  // ---------------------------------------------------------------------
  // The analysis response

  /** `analysis?.company?.analysis_data`. */
  function AnalysisDataOf(analysis: Option<Analysis>): Option<AnalysisData>
  {
    if analysis.Some? && analysis.value.company.Some? then analysis.value.company.value.analysisData else None
  }

  /** `companyInfo`: `analysis?.company?.analysis_data?.company_information || null`. */
  function CompanyInfo(analysis: Option<Analysis>): (info: Option<CompanyInformation>)
    ensures AnalysisDataOf(analysis).None? ==> info == None
    ensures AnalysisDataOf(analysis).Some? ==> info == AnalysisDataOf(analysis).value.companyInformation
  {
    var data := AnalysisDataOf(analysis);
    if data.Some? then data.value.companyInformation else None
  }

  /** `personas`: `analysis?.company?.analysis_data?.personas || []`. */
  function PersonasOf(analysis: Option<Analysis>): (personas: seq<Persona>)
    ensures AnalysisDataOf(analysis).None? ==> personas == []
    ensures AnalysisDataOf(analysis).Some? && AnalysisDataOf(analysis).value.personas.Some? ==>
      personas == AnalysisDataOf(analysis).value.personas.value
    ensures AnalysisDataOf(analysis).Some? && AnalysisDataOf(analysis).value.personas.None? ==> personas == []
  {
    var data := AnalysisDataOf(analysis);
    if data.Some? && data.value.personas.Some? then data.value.personas.value else []
  }

  /** `personas.map(p => ({type: p.type, linkedin_search_title: p.linkedin_search_title}))`. */
  function SearchPersonas(personas: seq<Persona>): (r: seq<SearchPersona>)
    ensures |r| == |personas|
    ensures forall i :: 0 <= i < |r| ==>
      r[i] == SearchPersona(personas[i].personaType, personas[i].linkedinSearchTitle)
    decreases |personas|
  {
    if personas == [] then []
    else [SearchPersona(personas[0].personaType, personas[0].linkedinSearchTitle)] + SearchPersonas(personas[1..])
  }

  /** The START_PEOPLE_SEARCH message the completed analysis posts, if any:
      only when the response has `company.analysis_data` and the window has
      a parent. Reading `company_information.company_name` or mapping
      `personas` throws when either is missing, which is caught, so nothing
      is posted then either. */
  function StartSearchMessage(data: Option<Analysis>, hasParent: bool): (m: Option<HostMessage>)
    ensures m.Some? ==> hasParent && AnalysisDataOf(data).Some?
    ensures m.Some? <==> (hasParent && AnalysisDataOf(data).Some? &&
      AnalysisDataOf(data).value.companyInformation.Some? && AnalysisDataOf(data).value.personas.Some?)
    ensures m.Some? ==>
      m.value.StartPeopleSearch? &&
      m.value.companyName == CompanyInfo(data).value.companyName &&
      |m.value.personas| == |PersonasOf(data)| &&
      forall i :: 0 <= i < |m.value.personas| ==>
        m.value.personas[i].personaType == PersonasOf(data)[i].personaType &&
        m.value.personas[i].linkedinSearchTitle == PersonasOf(data)[i].linkedinSearchTitle
  {
    var ad := AnalysisDataOf(data);
    if ad.None? || !hasParent then None
    else if ad.value.companyInformation.None? || ad.value.personas.None? then None
    else Some(StartPeopleSearch(ad.value.companyInformation.value.companyName, SearchPersonas(ad.value.personas.value)))
  }

  // ---------------------------------------------------------------------
  // The page state and its transitions

  datatype PageState = PageState(
    env: Env,
    loading: bool,
    analysis: Option<Analysis>,
    linkedinUrl: Option<string>,
    domData: Option<Json>,
    peopleResults: seq<Option<PersonResult>>)

  /** What the analyze call returns: `response.data`, or a rejection. */
  datatype AnalyzeOutcome = Analyzed(data: Option<Analysis>) | AnalyzeFailed(error: HttpError)

  /** `user?.domain`. */
  function UserDomain(user: Option<User>): Option<string>
  {
    if user.Some? then user.value.domain else None
  }

  /** LINKIFY_EXTENSION_DATA up to the analyze call. A missing `data` throws
      on destructuring; a falsy `user.domain` returns early; either way the
      `finally` clears `loading`. Otherwise `loading` is set and the analyze
      request is sent. */
  function ExtensionDataReceived(s: PageState, payload: Option<ExtensionPayload>, user: Option<User>): PageState
  {
    if payload.None? then s.(loading := false)
    else
      var p := payload.value;
      var loaded := s.(linkedinUrl := p.url, domData := p.scrapedData);
      if !Truthy(UserDomain(user)) then loaded.(loading := false)
      else
        var body := AnalyzeCompanyBody(p.url, UserDomain(user), p.scrapedData);
        loaded.(loading := true, env := SendRequest(loaded.env, CompAnalysis(body)))
  }

  /** The rest of LINKIFY_EXTENSION_DATA, when the analyze call settles. */
  function AnalysisCompleted(s: PageState, outcome: AnalyzeOutcome): PageState
  {
    match outcome
    case Analyzed(data) =>
      var m := StartSearchMessage(data, s.env.hasParent);
      s.(analysis := data, loading := false,
         env := if m.Some? then s.env.(events := s.env.events + [Post(m.value)]) else s.env)
    case AnalyzeFailed(error) =>
      s.(env := RejectResponse(s.env, error), loading := false)
  }

  /** LINKIFY_PEOPLE_RESULT: `payload.data` is appended, whatever it is. */
  function PeopleResultReceived(s: PageState, result: Option<PersonResult>): PageState
  {
    s.(peopleResults := s.peopleResults + [result])
  }

  /** `handleWindowMessage(event)` up to its first `await`. */
  function WindowMessageHandled(s: PageState, message: InboundMessage, user: Option<User>): PageState
  {
    match message
    case ExtensionData(payload) => ExtensionDataReceived(s, payload, user)
    case PeopleResult(result) => PeopleResultReceived(s, result)
    case _ => s
  }

  /** A fragment is appended at the end; earlier fragments stay as they were
      and nothing else changes. */
  lemma PeopleResultAppends(s: PageState, result: Option<PersonResult>, user: Option<User>)
    ensures var r := WindowMessageHandled(s, PeopleResult(result), user);
      r.peopleResults == s.peopleResults + [result] &&
      r.peopleResults[..|s.peopleResults|] == s.peopleResults &&
      r.(peopleResults := s.peopleResults) == s
  {
  }

  /** A falsy `user.domain` stops the workflow before any request, and
      `loading` is never raised. */
  lemma ExtensionDataNeedsDomain(s: PageState, payload: Option<ExtensionPayload>, user: Option<User>)
    requires !Truthy(UserDomain(user))
    ensures var r := WindowMessageHandled(s, ExtensionData(payload), user);
      r.env == s.env && !r.loading && r.peopleResults == s.peopleResults && r.analysis == s.analysis
  {
  }

  /** With a domain, `loading` is raised and exactly one analyze request is
      sent, whose body carries the url, the domain and the scraped data. */
  lemma ExtensionDataStartsAnalysis(s: PageState, payload: ExtensionPayload, user: Option<User>)
    requires Truthy(UserDomain(user))
    ensures var r := WindowMessageHandled(s, ExtensionData(Some(payload)), user);
      r.loading && |r.env.sent| == |s.env.sent| + 1 && r.env.sent[..|s.env.sent|] == s.env.sent &&
      r.env.sent[|s.env.sent|].endpoint.CompAnalysis? &&
      AnalyzeArguments(r.env.sent[|s.env.sent|].endpoint.body) == (payload.url, UserDomain(user), payload.scrapedData) &&
      r.linkedinUrl == payload.url && r.domData == payload.scrapedData
  {
    AnalyzeBodyRoundTrip(payload.url, UserDomain(user), payload.scrapedData);
  }

  /** Neither step of the workflow touches the fragment list: a new analysis
      does not reset it. */
  lemma WorkflowKeepsResults(s: PageState, payload: Option<ExtensionPayload>, user: Option<User>, outcome: AnalyzeOutcome)
    ensures WindowMessageHandled(s, ExtensionData(payload), user).peopleResults == s.peopleResults
    ensures AnalysisCompleted(s, outcome).peopleResults == s.peopleResults
  {
  }

  /** When the call settles `loading` is cleared; on success the response is
      the analysis and START_PEOPLE_SEARCH is posted exactly when
      `StartSearchMessage` gives one; on failure the analysis is kept and
      only the response interceptor acts. */
  lemma AnalysisCompletes(s: PageState, outcome: AnalyzeOutcome)
    ensures var r := AnalysisCompleted(s, outcome);
      !r.loading && r.env.sent == s.env.sent &&
      (outcome.Analyzed? ==>
        r.analysis == outcome.data &&
        var m := StartSearchMessage(outcome.data, s.env.hasParent);
        Posted(r.env.events) == Posted(s.env.events) + (if m.Some? then [m.value] else [])) &&
      (outcome.AnalyzeFailed? ==> r.analysis == s.analysis && r.env == RejectResponse(s.env, outcome.error))
  {
    if outcome.Analyzed? {
      var m := StartSearchMessage(outcome.data, s.env.hasParent);
      if m.Some? {
        PostedAppend(s.env.events, Post(m.value));
      }
    }
  }

  /** A fragment that arrives while the analyze call is in flight is kept
      when the call settles, after the fragments already there. */
  lemma FragmentDuringWorkflow(s: PageState, payload: Option<ExtensionPayload>, user: Option<User>,
                               result: Option<PersonResult>, outcome: AnalyzeOutcome)
    ensures var started := WindowMessageHandled(s, ExtensionData(payload), user);
      var during := WindowMessageHandled(started, PeopleResult(result), user);
      AnalysisCompleted(during, outcome).peopleResults == s.peopleResults + [result]
  {
  }

  /** Other messages are ignored by the analysis listener. */
  lemma OtherMessagesIgnored(s: PageState, message: InboundMessage, user: Option<User>)
    requires !message.ExtensionData? && !message.PeopleResult?
    ensures WindowMessageHandled(s, message, user) == s
  {
  }

  /** The page component's state over the shared client and its window. */
  class CompaniesPage {
    const api: ApiService
    var loading: bool
    var analysis: Option<Analysis>
    var linkedinUrl: Option<string>
    var peopleResults: seq<Option<PersonResult>>
    var domData: Option<Json>

    function State(): PageState
      reads this, api, api.window
    {
      PageState(api.Snapshot(), loading, analysis, linkedinUrl, domData, peopleResults)
    }

    /** The initial `useState` values. */
    constructor (api: ApiService)
      ensures this.api == api
      ensures !loading && analysis == None && linkedinUrl == Some("") && peopleResults == [] && domData == None
    {
      this.api := api;
      loading := false;
      analysis := None;
      linkedinUrl := Some("");
      peopleResults := [];
      domData := None;
    }

    /** The `peopleByPersonaType` reduce: one pass over the fragments, pushing
        each typed fragment onto the list of its type. */
    method PeopleByPersonaType() returns (acc: map<string, seq<PersonResult>>)
      ensures forall p :: p in acc <==> Group(peopleResults, p) != []
      ensures forall p :: p in acc ==> acc[p] == Group(peopleResults, p)
    {
      acc := map[];
      var i := 0;
      while i < |peopleResults|
        invariant 0 <= i <= |peopleResults|
        invariant forall p :: p in acc <==> Group(peopleResults[..i], p) != []
        invariant forall p :: p in acc ==> acc[p] == Group(peopleResults[..i], p)
      {
        var r := peopleResults[i];
        assert peopleResults[..i + 1] == peopleResults[..i] + [r];
        forall p
          ensures Group(peopleResults[..i + 1], p) == Group(peopleResults[..i], p) + (if InGroup(r, p) then [r.value] else [])
        {
          GroupAppend(peopleResults[..i], r, p);
        }
        if r.Some? && Truthy(r.value.personaType) {
          var key := r.value.personaType.value;
          if key !in acc {
            acc := acc[key := []];
          }
          acc := acc[key := acc[key] + [r.value]];
        }
        i := i + 1;
      }
      assert peopleResults[..i] == peopleResults;
    }

    /** The rendered persona cards: the personas of the analysis that have at
        least one fragment of their type, in order, each showing the earliest
        fragment of that type. */
    method DisplayedPersonas() returns (cards: seq<PersonaCard>)
      ensures forall c :: c in cards ==>
        c.persona in PersonasOf(analysis) &&
        Group(peopleResults, StringOf(c.persona.personaType)) != [] &&
        c.firstMatch == Group(peopleResults, StringOf(c.persona.personaType))[0]
      ensures forall p :: p in PersonasOf(analysis) && Group(peopleResults, StringOf(p.personaType)) != [] ==>
        exists c :: c in cards && c.persona == p
      ensures Subsequence(CardPersonas(cards), PersonasOf(analysis))
      ensures forall p :: (multiset(CardPersonas(cards))[p] ==
        if Group(peopleResults, StringOf(p.personaType)) != [] then multiset(PersonasOf(analysis))[p] else 0)
    {
      var byType := PeopleByPersonaType();
      assert forall p :: Matches(byType, p) == Group(peopleResults, StringOf(p.personaType));
      cards := PersonaCards(PersonasOf(analysis), byType);
      forall p
        ensures multiset(CardPersonas(cards))[p] == if Matches(byType, p) != [] then multiset(PersonasOf(analysis))[p] else 0
      {
        PersonaCardsMultiplicity(PersonasOf(analysis), byType, p);
      }
    }

    /** The analysis listener, up to the analyze call; `user` is the user the
        listener closed over. */
    method HandleWindowMessage(message: InboundMessage, user: Option<User>)
      modifies this, api
      ensures State() == WindowMessageHandled(old(State()), message, user)
    {
      match message {
        case ExtensionData(payload) =>
          if payload.None? {
            loading := false;
            return;
          }
          var p := payload.value;
          linkedinUrl := p.url;
          domData := p.scrapedData;
          var domain := UserDomain(user);
          if !Truthy(domain) {
            loading := false;
            return;
          }
          loading := true;
          api.Send(CompAnalysis(AnalyzeCompanyBody(p.url, domain, p.scrapedData)));
        case PeopleResult(result) =>
          peopleResults := peopleResults + [result];
        case _ =>
      }
    }

    /** The continuation of LINKIFY_EXTENSION_DATA once the analyze call settles. */
    method CompleteAnalysis(outcome: AnalyzeOutcome)
      modifies this, api.window
      ensures State() == AnalysisCompleted(old(State()), outcome)
    {
      match outcome {
        case Analyzed(data) =>
          analysis := data;
          var m := StartSearchMessage(data, api.window.hasParent);
          if m.Some? {
            api.window.Log(Post(m.value));
          }
        case AnalyzeFailed(error) =>
          var _ := api.Reject(error);
      }
      loading := false;
    }

    /** The mount effect registers the analysis listener; its cleanup removes it. */
    method Mount()
      modifies api.window
      ensures State() == old(State()).(env := old(State()).env.(events := old(State()).env.events + [Listen(AnalysisListener)]))
    {
      api.window.Log(Listen(AnalysisListener));
    }

    method Unmount()
      modifies api.window
      ensures State() == old(State()).(env := old(State()).env.(events := old(State()).env.events + [Unlisten(AnalysisListener)]))
    {
      api.window.Log(Unlisten(AnalysisListener));
    }
  }
}
