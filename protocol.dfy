/** The messages exchanged with the embedding extension over
    `window.postMessage`, and the records the backend returns. Fields the
    sender may leave out are `Option`s; `None` stands for `undefined`/`null`. */
module Protocol {
  import opened Js

  // Inbound tags (extension -> app). The two session tags carry no prefix.
  const RestoreAuthTag := "RESTORE_AUTH"
  const ExtensionAuthTokenTag := "EXTENSION_AUTH_TOKEN"
  const ExtensionDataTag := "LINKIFY_EXTENSION_DATA"
  const PeopleResultTag := "LINKIFY_PEOPLE_RESULT"

  // Outbound tags (app -> extension).
  const ReadyTag := "LINKIFY_READY"
  const AuthSuccessTag := "LINKIFY_AUTH_SUCCESS"
  const StartPeopleSearchTag := "START_PEOPLE_SEARCH"

  /** The user record returned by the verify endpoint. */
  datatype User = User(
    id: Option<string>,
    email: Option<string>,
    accountDomain: Option<string>,
    domain: Option<string>)

  /** `auth` of a RESTORE_AUTH message. */
  datatype AuthInfo = AuthInfo(token: Option<string>, user: Option<User>)

  /** A matched person inside a LINKIFY_PEOPLE_RESULT fragment. */
  datatype Person = Person(name: Option<string>, profileUrl: Option<string>, title: Option<string>)

  /** One LINKIFY_PEOPLE_RESULT fragment, `{personaType, person}`. */
  datatype PersonResult = PersonResult(personaType: Option<string>, person: Option<Person>)

  /** `data` of a LINKIFY_EXTENSION_DATA message, `{url, scrapedData}`. */
  datatype ExtensionPayload = ExtensionPayload(url: Option<string>, scrapedData: Option<Json>)

  /** A persona of the company analysis: its type, its search-title hint and
      whatever other fields the backend sends. */
  datatype Persona = Persona(
    personaType: Option<string>,
    linkedinSearchTitle: Option<string>,
    otherFields: map<string, Json>)

  datatype CompanyInformation = CompanyInformation(
    companyName: Option<string>,
    industry: Option<string>,
    description: Option<string>)

  datatype AnalysisData = AnalysisData(
    companyInformation: Option<CompanyInformation>,
    personas: Option<seq<Persona>>)

  datatype Company = Company(analysisData: Option<AnalysisData>, linkedinUrl: Option<string>)

  /** The body of a company-analysis response, `{company: {analysis_data, linkedin_url}}`. */
  datatype Analysis = Analysis(company: Option<Company>)

  /** An inbound message, already told apart by its `type` field; `Other`
      is any message whose `type` neither listener recognises. */
  datatype InboundMessage =
    | RestoreAuth(auth: Option<AuthInfo>, accountDomain: Option<string>)
    | ExtensionAuthToken(token: Option<string>)
    | ExtensionData(payload: Option<ExtensionPayload>)
    | PeopleResult(result: Option<PersonResult>)
    | Other(tag: Option<string>)

  /** One entry of the `personas` list of START_PEOPLE_SEARCH. */
  datatype SearchPersona = SearchPersona(personaType: Option<string>, linkedinSearchTitle: Option<string>)

  /** An outbound message posted to `window.parent`. */
  datatype HostMessage =
    | Ready
    | AuthSuccess(token: Option<string>, user: User, accountDomain: Option<string>)
    | StartPeopleSearch(companyName: Option<string>, personas: seq<SearchPersona>)

  /** The `type` field an inbound message carries. */
  function InboundTag(m: InboundMessage): (tag: Option<string>)
    ensures !m.Other? ==> tag.Some?
  {
    match m
    case RestoreAuth(_, _) => Some(RestoreAuthTag)
    case ExtensionAuthToken(_) => Some(ExtensionAuthTokenTag)
    case ExtensionData(_) => Some(ExtensionDataTag)
    case PeopleResult(_) => Some(PeopleResultTag)
    case Other(t) => t
  }

  /** The `type` field an outbound message carries. */
  function OutboundTag(m: HostMessage): string
  {
    match m
    case Ready => ReadyTag
    case AuthSuccess(_, _, _) => AuthSuccessTag
    case StartPeopleSearch(_, _) => StartPeopleSearchTag
  }

  /** A message decoded into `Other` carries none of the recognised tags. */
  predicate WellTagged(m: InboundMessage)
  {
    m.Other? ==> m.tag !in {Some(RestoreAuthTag), Some(ExtensionAuthTokenTag), Some(ExtensionDataTag), Some(PeopleResultTag)}
  }

  /** The tag determines the kind of a well-tagged inbound message. */
  lemma InboundTagsDistinct(m: InboundMessage, n: InboundMessage)
    requires WellTagged(m) && WellTagged(n)
    requires InboundTag(m) == InboundTag(n)
    ensures m.RestoreAuth? == n.RestoreAuth?
    ensures m.ExtensionAuthToken? == n.ExtensionAuthToken?
    ensures m.ExtensionData? == n.ExtensionData?
    ensures m.PeopleResult? == n.PeopleResult?
    ensures m.Other? == n.Other?
  {
  }

  /** The tag determines the kind of an outbound message. */
  lemma OutboundTagsDistinct(m: HostMessage, n: HostMessage)
    requires OutboundTag(m) == OutboundTag(n)
    ensures m.Ready? == n.Ready? && m.AuthSuccess? == n.AuthSuccess?
    ensures m.StartPeopleSearch? == n.StartPeopleSearch?
  {
  }
}
