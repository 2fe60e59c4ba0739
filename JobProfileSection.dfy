/** The job-list controller: three filter fields, the list of jobs and the
    fetch status, with the handlers that change them and refetch. */
module JobProfileSection {
  import opened Http

  /** One job of the list body. The body is stored as it arrives, so these are
      the names the job cards read from it. */
  datatype Job = Job(
    id: string, title: string, companyLogoUrl: string, rating: real,
    employmentType: string, location: string, packagePerAnnum: string,
    jobDescription: string)

  /** `salaryRange`: the number 0 until a radio button passes a `salaryRangeId`. */
  datatype SalaryRange = NoSalaryRange | SalaryRangeId(id: string)

  /** The three filter fields the fetch destructures before it sends. */
  datatype Filters = Filters(searchInput: string, employmentType: seq<string>, salaryRange: SalaryRange)

  /** One job-list request: what was sent, the status the component held when
      it left, and the filters read just before it. */
  datatype JobsFetch = JobsFetch(request: Request, statusWhenSent: ApiStatus, filtersRead: Filters)

  /** The component's `this.state`, together with the requests it has sent. */
  datatype JobListState = JobListState(
    jobsList: seq<Job>, searchInput: string, employmentType: seq<string>,
    salaryRange: SalaryRange, apiStatus: ApiStatus, fetches: seq<JobsFetch>)
  {
    function CurrentFilters(): Filters {
      Filters(searchInput, employmentType, salaryRange)
    }
  }

  const JobsUrl: string := "http://localhost:5123/"
  const EnterKey: string := "Enter"

  /** The state a freshly constructed component holds. */
  const InitialJobListState: JobListState :=
    JobListState([], "", [], NoSalaryRange, Initial, [])

  /** The request of the fetch. It takes the filters because the code reads
      them, but they do not reach the request. */
  function JobsRequest(session: Session, filters: Filters): (r: Request)
    ensures r.Get? && r.url == JobsUrl && r.authorization == BearerHeader(session)
  {
    Get(JobsUrl, BearerHeader(session))
  }

  /** Every filter state yields the same GET of the same constant URL. */
  lemma JobsRequestIgnoresFilters(session: Session, f: Filters, g: Filters)
    ensures JobsRequest(session, f) == JobsRequest(session, g)
    ensures JobsRequest(session, f) == Get(JobsUrl, BearerHeader(session))
  {
  }

  // ---------------------------------------------------------------------
  // The handlers, as transformations of the state

  /** The fetch: status INPROGRESS, one request built from that state, then
      the list and SUCCESS on an ok response, or FAILURE alone otherwise. */
  function Fetched(s: JobListState, session: Session, response: Response<seq<Job>>): (r: JobListState)
    ensures r.CurrentFilters() == s.CurrentFilters()
    ensures r.fetches == s.fetches + [JobsFetch(JobsRequest(session, s.CurrentFilters()), InProgress, s.CurrentFilters())]
    ensures response.ok ==> r.apiStatus == Success && r.jobsList == response.body
    ensures !response.ok ==> r.apiStatus == Failure && r.jobsList == s.jobsList
  {
    var loading := s.(apiStatus := InProgress);
    var filters := loading.CurrentFilters();
    var sent := loading.(fetches := loading.fetches + [JobsFetch(JobsRequest(session, filters), loading.apiStatus, filters)]);
    if response.ok then sent.(jobsList := response.body, apiStatus := Success)
    else sent.(apiStatus := Failure)
  }

  /** Typing into the search box replaces the text and nothing else. */
  function SearchInputSet(s: JobListState, value: string): (r: JobListState)
    ensures r.searchInput == value
    ensures r.fetches == s.fetches && r.apiStatus == s.apiStatus && r.jobsList == s.jobsList
    ensures r.employmentType == s.employmentType && r.salaryRange == s.salaryRange
  {
    s.(searchInput := value)
  }

  /** A key press fetches exactly when the key is Enter. */
  function KeyHandled(s: JobListState, session: Session, key: string, response: Response<seq<Job>>): (r: JobListState)
    ensures |r.fetches| == |s.fetches| + (if key == EnterKey then 1 else 0)
    ensures key != EnterKey ==> r == s
    ensures key == EnterKey ==> r.fetches[|s.fetches|].filtersRead == s.CurrentFilters()
    ensures key == EnterKey ==> r.fetches[|s.fetches|].statusWhenSent == InProgress
    ensures key == EnterKey ==> r.apiStatus == (if response.ok then Success else Failure)
    ensures key == EnterKey ==> r.jobsList == (if response.ok then response.body else s.jobsList)
  {
    if key == EnterKey then Fetched(s, session, response) else s
  }

  /** Choosing a salary range replaces it, and then one fetch sees the new value. */
  function SalaryRangeSet(s: JobListState, session: Session, id: string, response: Response<seq<Job>>): (r: JobListState)
    ensures r.salaryRange == SalaryRangeId(id)
    ensures r.searchInput == s.searchInput && r.employmentType == s.employmentType
    ensures |r.fetches| == |s.fetches| + 1 && r.fetches[..|s.fetches|] == s.fetches
    ensures r.fetches[|s.fetches|].filtersRead == r.CurrentFilters()
    ensures r.fetches[|s.fetches|].statusWhenSent == InProgress
    ensures r.apiStatus == (if response.ok then Success else Failure)
    ensures r.jobsList == (if response.ok then response.body else s.jobsList)
  {
    Fetched(s.(salaryRange := SalaryRangeId(id)), session, response)
  }

  /** Ticking an employment type appends it (a repeat is kept), and then one
      fetch sees the longer list. */
  function EmploymentTypeAdded(s: JobListState, session: Session, t: string, response: Response<seq<Job>>): (r: JobListState)
    ensures |r.employmentType| == |s.employmentType| + 1
    ensures r.employmentType[..|s.employmentType|] == s.employmentType
    ensures r.employmentType[|s.employmentType|] == t
    ensures multiset(r.employmentType)[t] == multiset(s.employmentType)[t] + 1
    ensures r.searchInput == s.searchInput && r.salaryRange == s.salaryRange
    ensures |r.fetches| == |s.fetches| + 1 && r.fetches[..|s.fetches|] == s.fetches
    ensures r.fetches[|s.fetches|].filtersRead == r.CurrentFilters()
    ensures r.fetches[|s.fetches|].statusWhenSent == InProgress
    ensures r.apiStatus == (if response.ok then Success else Failure)
    ensures r.jobsList == (if response.ok then response.body else s.jobsList)
  {
    var added := s.employmentType + [t];
    assert multiset(added) == multiset(s.employmentType) + multiset{t};
    Fetched(s.(employmentType := added), session, response)
  }

  // ---------------------------------------------------------------------
  // Sequences of user actions

  /** What the user can do: type, press a key in the search box, click the
      search button or the failure view's Retry, pick a salary range, tick an
      employment type. Each fetching action brings the response it gets. */
  datatype Event =
    | SearchInputChange(value: string)
    | KeyDown(key: string, response: Response<seq<Job>>)
    | SearchClick(response: Response<seq<Job>>)
    | RetryClick(response: Response<seq<Job>>)
    | SalaryRangeChange(salaryRangeId: string, response: Response<seq<Job>>)
    | EmploymentTypeChange(employmentTypeId: string, response: Response<seq<Job>>)

  predicate IssuesFetch(e: Event) {
    match e
    case SearchInputChange(_) => false
    case KeyDown(key, _) => key == EnterKey
    case _ => true
  }

  function Step(s: JobListState, session: Session, e: Event): JobListState {
    match e
    case SearchInputChange(v) => SearchInputSet(s, v)
    case KeyDown(key, resp) => KeyHandled(s, session, key, resp)
    case SearchClick(resp) => Fetched(s, session, resp)
    case RetryClick(resp) => Fetched(s, session, resp)
    case SalaryRangeChange(id, resp) => SalaryRangeSet(s, session, id, resp)
    case EmploymentTypeChange(t, resp) => EmploymentTypeAdded(s, session, t, resp)
  }

  function Run(s: JobListState, session: Session, es: seq<Event>): JobListState
    decreases |es|
  {
    if es == [] then s else Run(Step(s, session, es[0]), session, es[1..])
  }

  /** The number of actions in `es` that fetch. */
  function FetchCount(es: seq<Event>): nat {
    if es == [] then 0 else (if IssuesFetch(es[0]) then 1 else 0) + FetchCount(es[1..])
  }

  /** The employment types ticked in `es`, in order. */
  function ChosenTypes(es: seq<Event>): seq<string> {
    if es == [] then []
    else (if es[0].EmploymentTypeChange? then [es[0].employmentTypeId] else []) + ChosenTypes(es[1..])
  }

  /** The body of the last ok response among the fetching actions of `es`, or
      `jobs` when there is none: the reference for what the list shows. */
  function LastOkBody(jobs: seq<Job>, es: seq<Event>): seq<Job>
    decreases |es|
  {
    if es == [] then jobs
    else LastOkBody(if IssuesFetch(es[0]) && es[0].response.ok then es[0].response.body else jobs, es[1..])
  }

  /** Exactly one request per fetching action, and none for typing alone or a
      key other than Enter. */
  lemma {:induction false} RunFetchCount(s: JobListState, session: Session, es: seq<Event>)
    ensures |Run(s, session, es).fetches| == |s.fetches| + FetchCount(es)
    decreases |es|
  {
    if es != [] {
      RunFetchCount(Step(s, session, es[0]), session, es[1..]);
    }
  }

  /** The employment-type list is the old list followed by every type ticked, duplicates included. */
  lemma {:induction false} RunAccumulatesTypes(s: JobListState, session: Session, es: seq<Event>)
    ensures Run(s, session, es).employmentType == s.employmentType + ChosenTypes(es)
    decreases |es|
  {
    if es != [] {
      var s' := Step(s, session, es[0]);
      RunAccumulatesTypes(s', session, es[1..]);
      if es[0].EmploymentTypeChange? {
        assert s'.employmentType == s.employmentType + [es[0].employmentTypeId];
      } else {
        assert s'.employmentType == s.employmentType;
      }
    }
  }

  /** The list holds the body of the last ok response; a failed fetch keeps
      the previous list. */
  lemma {:induction false} RunShowsLastOkBody(s: JobListState, session: Session, es: seq<Event>)
    ensures Run(s, session, es).jobsList == LastOkBody(s.jobsList, es)
    decreases |es|
  {
    if es != [] {
      RunShowsLastOkBody(Step(s, session, es[0]), session, es[1..]);
    }
  }

  /** Every request the component sends is the same GET, whatever the filters. */
  ghost predicate AllSentAs(fetches: seq<JobsFetch>, request: Request) {
    forall k :: 0 <= k < |fetches| ==> fetches[k].request == request
  }

  lemma {:induction false} RunSendsOneRequest(s: JobListState, session: Session, es: seq<Event>)
    requires AllSentAs(s.fetches, Get(JobsUrl, BearerHeader(session)))
    ensures AllSentAs(Run(s, session, es).fetches, Get(JobsUrl, BearerHeader(session)))
    decreases |es|
  {
    if es != [] {
      RunSendsOneRequest(Step(s, session, es[0]), session, es[1..]);
    }
  }

  /** The status is INITIAL exactly until the first request, and every request
      leaves while the status is INPROGRESS. */
  ghost predicate Consistent(s: JobListState) {
    && (s.apiStatus == Initial <==> s.fetches == [])
    && forall k :: 0 <= k < |s.fetches| ==> s.fetches[k].statusWhenSent == InProgress
  }

  lemma StepKeepsConsistent(s: JobListState, session: Session, e: Event)
    requires Consistent(s)
    ensures Consistent(Step(s, session, e))
  {
  }

  lemma {:induction false} RunKeepsConsistent(s: JobListState, session: Session, es: seq<Event>)
    requires Consistent(s)
    ensures Consistent(Run(s, session, es))
    decreases |es|
  {
    if es != [] {
      StepKeepsConsistent(s, session, es[0]);
      RunKeepsConsistent(Step(s, session, es[0]), session, es[1..]);
    }
  }

  // ---------------------------------------------------------------------
  // What is rendered

  datatype JobListView =
    | NoView
    | LoadingView
    | FailureView
    | NoJobsFound(searchValue: string)
    | JobCards(searchValue: string, cards: seq<Job>)

  /** The success view: "No Jobs Found" for an empty list, one card per job otherwise. */
  function RenderJobDetails(s: JobListState): (v: JobListView)
    ensures v.NoJobsFound? || v.JobCards?
    ensures v.NoJobsFound? <==> s.jobsList == []
    ensures v.JobCards? ==> v.cards == s.jobsList
    ensures v.searchValue == s.searchInput
  {
    if |s.jobsList| > 0 then JobCards(s.searchInput, s.jobsList) else NoJobsFound(s.searchInput)
  }

  /** The status switch: each status has its own view, INITIAL renders nothing. */
  function RenderJobProfileDetailsList(s: JobListState): (v: JobListView)
    ensures v.NoView? <==> s.apiStatus == Initial
    ensures v.LoadingView? <==> s.apiStatus == InProgress
    ensures v.FailureView? <==> s.apiStatus == Failure
    ensures (v.NoJobsFound? || v.JobCards?) <==> s.apiStatus == Success
    ensures s.apiStatus == Success ==> v == RenderJobDetails(s)
  {
    match s.apiStatus
    case Success => RenderJobDetails(s)
    case Failure => FailureView
    case InProgress => LoadingView
    case Initial => NoView
  }

  // ---------------------------------------------------------------------
  // The component

  class JobProfileSection {
    var jobsList: seq<Job>
    var searchInput: string
    var employmentType: seq<string>
    var salaryRange: SalaryRange
    var apiStatus: ApiStatus
    /** The requests sent so far, oldest first. */
    var fetches: seq<JobsFetch>

    function State(): JobListState
      reads this
    {
      JobListState(jobsList, searchInput, employmentType, salaryRange, apiStatus, fetches)
    }

    ghost predicate Valid()
      reads this
    {
      Consistent(State())
    }

    constructor ()
      ensures jobsList == [] && searchInput == "" && employmentType == []
      ensures salaryRange == NoSalaryRange && apiStatus == Initial && fetches == []
      ensures State() == InitialJobListState && Valid()
    {
      jobsList := [];
      searchInput := "";
      employmentType := [];
      salaryRange := NoSalaryRange;
      apiStatus := Initial;
      fetches := [];
    }

    method ComponentDidMount(session: Session, response: Response<seq<Job>>)
      requires Valid()
      modifies this
      ensures Valid() && State() == Fetched(old(State()), session, response)
    {
      GetJobDetails(session, response);
    }

    method GetJobDetails(session: Session, response: Response<seq<Job>>)
      requires Valid()
      modifies this
      ensures Valid() && State() == Fetched(old(State()), session, response)
    {
      apiStatus := InProgress;
      var filters := Filters(searchInput, employmentType, salaryRange);
      fetches := fetches + [JobsFetch(JobsRequest(session, filters), apiStatus, filters)];
      if response.ok {
        jobsList, apiStatus := response.body, Success;
      } else {
        apiStatus := Failure;
      }
    }

    method ChangeSearchInput(value: string)
      requires Valid()
      modifies this
      ensures Valid() && State() == SearchInputSet(old(State()), value)
    {
      searchInput := value;
    }

    method OnKeyDown(key: string, session: Session, response: Response<seq<Job>>)
      requires Valid()
      modifies this
      ensures Valid() && State() == KeyHandled(old(State()), session, key, response)
    {
      if key == EnterKey {
        GetJobDetails(session, response);
      }
    }

    method ChangeSalaryRange(id: string, session: Session, response: Response<seq<Job>>)
      requires Valid()
      modifies this
      ensures Valid() && State() == SalaryRangeSet(old(State()), session, id, response)
    {
      salaryRange := SalaryRangeId(id);
      GetJobDetails(session, response);
    }

    method ChangeEmploymentType(t: string, session: Session, response: Response<seq<Job>>)
      requires Valid()
      modifies this
      ensures Valid() && State() == EmploymentTypeAdded(old(State()), session, t, response)
    {
      employmentType := employmentType + [t];
      GetJobDetails(session, response);
    }
  }
}
