/** The branch choice at the top of `get_assistant_response`, in both script
    versions, as a pure function of the query (and, in the version with
    document sessions, of `current_document["is_active"]`).  Each branch is
    carried out by the assistant modules; here only the choice is made. */
module Router {
  import opened Detectors

  datatype Branch =
    | CloseDocument     // close the active document session
    | DocumentFollowUp  // answer from the active document
    | DocumentWorkflow  // load and analyse a new document
    | EmailWorkflow     // draft, confirm and send an email
    | WeatherTool       // tool round offering get_weather
    | SearchTool        // tool round offering search_file_or_folder
    | GenericChat       // one plain completion

  /** Branch order of the version with document sessions (AI-Agent_v5.1.py). */
  function Route(q: string, isActive: bool): Branch
  {
    if IsCloseDocumentQuery(q) then CloseDocument
    else if isActive && !IsDocumentQuery(q) && !IsEmailQuery(q) && !IsWeatherQuery(q) && !IsSearchQuery(q)
    then DocumentFollowUp
    else if IsDocumentQuery(q) then DocumentWorkflow
    else if IsEmailQuery(q) then EmailWorkflow
    else if IsWeatherQuery(q) then WeatherTool
    else if IsSearchQuery(q) then SearchTool
    else GenericChat
  }

  /** Branch order of the earlier version without documents (AI-Agent_v5.py). */
  function RouteV5(q: string): Branch
  {
    if IsEmailQuery(q) then EmailWorkflow
    else if IsWeatherQuery(q) then WeatherTool
    else if IsSearchQuery(q) then SearchTool
    else GenericChat
  }

  /** Position of a branch in the priority table (smaller wins). */
  function Rank(b: Branch): nat
  {
    match b
    case CloseDocument => 0
    case DocumentFollowUp => 1
    case DocumentWorkflow => 2
    case EmailWorkflow => 3
    case WeatherTool => 4
    case SearchTool => 5
    case GenericChat => 6
  }

  /** The condition under which each branch is a candidate for the query. */
  predicate Eligible(q: string, isActive: bool, b: Branch)
  {
    match b
    case CloseDocument => IsCloseDocumentQuery(q)
    case DocumentFollowUp =>
      isActive && !IsDocumentQuery(q) && !IsEmailQuery(q) && !IsWeatherQuery(q) && !IsSearchQuery(q)
    case DocumentWorkflow => IsDocumentQuery(q)
    case EmailWorkflow => IsEmailQuery(q)
    case WeatherTool => IsWeatherQuery(q)
    case SearchTool => IsSearchQuery(q)
    case GenericChat => true
  }

  /** The router picks the eligible branch of highest priority: first match
      wins, and exactly one branch is chosen. */
  lemma RouteIsFirstEligible(q: string, isActive: bool)
    ensures Eligible(q, isActive, Route(q, isActive))
    ensures forall b :: Eligible(q, isActive, b) ==> Rank(Route(q, isActive)) <= Rank(b)
  {
  }

  /** The same for the earlier version, whose candidates exclude the document branches. */
  lemma RouteV5IsFirstEligible(q: string)
    ensures Eligible(q, false, RouteV5(q)) && Rank(RouteV5(q)) >= Rank(EmailWorkflow)
    ensures forall b :: Rank(b) >= Rank(EmailWorkflow) && Eligible(q, false, b) ==> Rank(RouteV5(q)) <= Rank(b)
  {
  }

  /** A close request is recognised before anything else, whatever the session. */
  lemma CloseComesFirst(q: string, isActive: bool)
    requires IsCloseDocumentQuery(q)
    ensures Route(q, isActive) == CloseDocument
  {
  }

  /** An active session captures exactly the queries that no other detector
      claims; an inactive session never answers from a document. */
  lemma FollowUpExactly(q: string, isActive: bool)
    ensures Route(q, isActive) == DocumentFollowUp <==>
      isActive && !IsCloseDocumentQuery(q) && !IsDocumentQuery(q) && !IsEmailQuery(q)
      && !IsWeatherQuery(q) && !IsSearchQuery(q)
  {
  }

  /** A query matching both the weather and the search patterns, and neither a
      close, document nor email pattern, takes the weather tool, with or
      without an active session. */
  lemma WeatherBeforeSearch(q: string, isActive: bool)
    requires IsWeatherQuery(q) && IsSearchQuery(q)
    requires !IsCloseDocumentQuery(q) && !IsDocumentQuery(q) && !IsEmailQuery(q)
    ensures Route(q, isActive) == WeatherTool
  {
  }

  /** A document request outranks email, weather and search. */
  lemma DocumentBeforeTools(q: string, isActive: bool)
    requires IsDocumentQuery(q) && !IsCloseDocumentQuery(q)
    ensures Route(q, isActive) == DocumentWorkflow
  {
  }

  /** The session flag only matters for follow-ups: flipping it either changes
      nothing or turns generic chat into a document follow-up. */
  lemma SessionOnlyAddsFollowUp(q: string)
    ensures Route(q, true) == Route(q, false)
      || (Route(q, true) == DocumentFollowUp && Route(q, false) == GenericChat)
  {
  }

  /** Without a session and without close or document intent, the later
      version routes exactly as the earlier one. */
  lemma AgreesWithEarlierVersion(q: string)
    requires !IsCloseDocumentQuery(q) && !IsDocumentQuery(q)
    ensures Route(q, false) == RouteV5(q)
  {
  }

  /** In the earlier version an email query always enters the email workflow,
      even when it also matches weather or search. */
  lemma EmailFirstInEarlierVersion(q: string)
    requires IsEmailQuery(q)
    ensures RouteV5(q) == EmailWorkflow
  {
  }
}
