/** The job-detail controller: one request for the job named by the route, whose
    body holds the job in one wire shape and its similar jobs in another, both
    renamed from snake_case to the camelCase the views read. */
module JobItemDetails {
  import opened Http
  import Seqs

  // ---------------------------------------------------------------------
  // Wire shapes, as the server names them

  datatype SkillWire = SkillWire(image_url: string, name: string)
  datatype LifeAtCompanyWire = LifeAtCompanyWire(description: string, image_url: string)

  datatype JobDetailsWire = JobDetailsWire(
    company_logo_url: string, company_website_url: string, employment_type: string,
    id: string, job_description: string, life_at_company: LifeAtCompanyWire,
    location: string, rating: real, title: string, package_per_annum: string,
    skills: seq<SkillWire>)

  datatype SimilarJobWire = SimilarJobWire(
    company_logo_url: string, employment_type: string, id: string,
    job_description: string, location: string, rating: real, title: string)

  /** The body of `GET /jobs/{id}`. */
  datatype JobItemBody = JobItemBody(job_details: JobDetailsWire, similar_jobs: seq<SimilarJobWire>)

  // ---------------------------------------------------------------------
  // View shapes

  datatype Skill = Skill(imageUrl: string, name: string)
  datatype LifeAtCompany = LifeAtCompany(description: string, imageUrl: string)

  datatype JobDetail = JobDetail(
    companyLogoUrl: string, companyWebsiteUrl: string, employmentType: string,
    id: string, jobDescription: string, lifeAtCompany: LifeAtCompany,
    location: string, rating: real, title: string, packagePerAnnum: string,
    skills: seq<Skill>)

  /** The reduced shape of a similar job: seven fields, no package. */
  datatype SimilarJob = SimilarJob(
    companyLogoUrl: string, employmentType: string, jobDescription: string,
    id: string, rating: real, location: string, title: string)

  // ---------------------------------------------------------------------
  // Decoders

  /** One skill: `image_url` becomes `imageUrl`, `name` stays. */
  function FormatSkill(w: SkillWire): (k: Skill)
    ensures k.imageUrl == w.image_url && k.name == w.name
  {
    Skill(w.image_url, w.name)
  }

  /** The full job, with the nested life-at-company record and every skill renamed. */
  function GetFormattedData(w: JobDetailsWire): (d: JobDetail)
    ensures d.companyLogoUrl == w.company_logo_url && d.companyWebsiteUrl == w.company_website_url
    ensures d.employmentType == w.employment_type && d.id == w.id
    ensures d.jobDescription == w.job_description && d.location == w.location
    ensures d.rating == w.rating && d.title == w.title && d.packagePerAnnum == w.package_per_annum
    ensures d.lifeAtCompany.description == w.life_at_company.description
    ensures d.lifeAtCompany.imageUrl == w.life_at_company.image_url
    ensures |d.skills| == |w.skills|
    ensures forall i :: 0 <= i < |w.skills| ==>
      d.skills[i].imageUrl == w.skills[i].image_url && d.skills[i].name == w.skills[i].name
  {
    JobDetail(
      w.company_logo_url, w.company_website_url, w.employment_type, w.id,
      w.job_description,
      LifeAtCompany(w.life_at_company.description, w.life_at_company.image_url),
      w.location, w.rating, w.title, w.package_per_annum,
      Seqs.Map(FormatSkill, w.skills))
  }

  /** A similar job in its reduced shape. */
  function GetFormattedSkillData(w: SimilarJobWire): (j: SimilarJob)
    ensures j.companyLogoUrl == w.company_logo_url && j.employmentType == w.employment_type
    ensures j.jobDescription == w.job_description && j.id == w.id
    ensures j.rating == w.rating && j.location == w.location && j.title == w.title
  {
    SimilarJob(w.company_logo_url, w.employment_type, w.job_description, w.id,
               w.rating, w.location, w.title)
  }

  /** The similar-jobs list: same length and order, each element reduced. */
  function FormatSimilarJobs(ws: seq<SimilarJobWire>): (r: seq<SimilarJob>)
    ensures |r| == |ws|
    ensures forall i :: 0 <= i < |ws| ==> r[i] == GetFormattedSkillData(ws[i])
  {
    Seqs.Map(GetFormattedSkillData, ws)
  }

  // The inverse renamings. They are not in the component; they state that the
  // decoders change names only, never values, and drop nothing.

  function SkillToWire(k: Skill): SkillWire {
    SkillWire(k.imageUrl, k.name)
  }

  function DetailToWire(d: JobDetail): JobDetailsWire {
    JobDetailsWire(
      d.companyLogoUrl, d.companyWebsiteUrl, d.employmentType, d.id,
      d.jobDescription,
      LifeAtCompanyWire(d.lifeAtCompany.description, d.lifeAtCompany.imageUrl),
      d.location, d.rating, d.title, d.packagePerAnnum,
      Seqs.Map(SkillToWire, d.skills))
  }

  function SimilarToWire(j: SimilarJob): SimilarJobWire {
    SimilarJobWire(j.companyLogoUrl, j.employmentType, j.id, j.jobDescription,
                   j.location, j.rating, j.title)
  }

  /** Renaming the job and renaming it back gives the wire record again. */
  lemma FormattedDataRoundTrip(w: JobDetailsWire)
    ensures DetailToWire(GetFormattedData(w)) == w
  {
    Seqs.MapInverse(FormatSkill, SkillToWire, w.skills);
  }

  /** Every view record is the renaming of exactly one wire record. */
  lemma FormattedDataOnto(d: JobDetail)
    ensures GetFormattedData(DetailToWire(d)) == d
  {
    Seqs.MapInverse(SkillToWire, FormatSkill, d.skills);
  }

  lemma FormattedSkillDataRoundTrip(w: SimilarJobWire, j: SimilarJob)
    ensures SimilarToWire(GetFormattedSkillData(w)) == w
    ensures GetFormattedSkillData(SimilarToWire(j)) == j
  {
  }

  lemma SimilarJobsRoundTrip(ws: seq<SimilarJobWire>)
    ensures Seqs.Map(SimilarToWire, FormatSimilarJobs(ws)) == ws
  {
    Seqs.MapInverse(GetFormattedSkillData, SimilarToWire, ws);
  }

  /** The similar-job fields of a full job record, on the wire and in the view. */
  function SimilarPartOfWire(w: JobDetailsWire): SimilarJobWire {
    SimilarJobWire(w.company_logo_url, w.employment_type, w.id, w.job_description,
                   w.location, w.rating, w.title)
  }

  function SimilarPartOfDetail(d: JobDetail): SimilarJob {
    SimilarJob(d.companyLogoUrl, d.employmentType, d.jobDescription, d.id,
               d.rating, d.location, d.title)
  }

  /** The two decoders agree on the seven fields the shapes share. */
  lemma DecodersAgreeOnSharedFields(w: JobDetailsWire)
    ensures GetFormattedSkillData(SimilarPartOfWire(w)) == SimilarPartOfDetail(GetFormattedData(w))
  {
  }

  // ---------------------------------------------------------------------
  // The fetch

  const JobsApiPrefix: string := "https://apis.ccbp.in/jobs/"

  /** `GET https://apis.ccbp.in/jobs/${id}` with the bearer header. */
  function JobItemRequest(session: Session, id: string): (r: Request)
    ensures r.Get? && r.authorization == BearerHeader(session)
    ensures |r.url| == |JobsApiPrefix| + |id|
    ensures r.url[..|JobsApiPrefix|] == JobsApiPrefix && r.url[|JobsApiPrefix|..] == id
  {
    Get(JobsApiPrefix + id, BearerHeader(session))
  }

  /** Different routes request different URLs. */
  lemma JobItemUrlNamesTheJob(a: Session, b: Session, id1: string, id2: string)
    requires JobItemRequest(a, id1).url == JobItemRequest(b, id2).url
    ensures id1 == id2
  {
  }

  /** `jobItemList` is the empty object `{}` until the first success. */
  datatype JobItem = EmptyItem | Item(detail: JobDetail)

  /** The component's `this.state`, together with the requests it has sent. */
  datatype JobItemState = JobItemState(
    jobItemList: JobItem, similarJobItemList: seq<SimilarJob>,
    apiStatus: ApiStatus, fetches: seq<Sent>)

  const InitialJobItemState: JobItemState := JobItemState(EmptyItem, [], Initial, [])

  /** A success status always comes with the job it rendered; the single
      update on success keeps it so. */
  ghost predicate SuccessHasItem(s: JobItemState) {
    s.apiStatus == Success ==> s.jobItemList.Item?
  }

  /** The fetch: INPROGRESS, one request for the route's job, then both lists
      and SUCCESS together, or FAILURE alone. */
  function JobItemFetched(s: JobItemState, session: Session, id: string, response: Response<JobItemBody>): (r: JobItemState)
    ensures r.fetches == s.fetches + [Sent(JobItemRequest(session, id), InProgress)]
    ensures response.ok ==> && r.apiStatus == Success
                            && r.jobItemList == Item(GetFormattedData(response.body.job_details))
                            && r.similarJobItemList == FormatSimilarJobs(response.body.similar_jobs)
    ensures !response.ok ==> && r.apiStatus == Failure
                             && r.jobItemList == s.jobItemList
                             && r.similarJobItemList == s.similarJobItemList
    ensures SuccessHasItem(r)
  {
    var loading := s.(apiStatus := InProgress);
    var sent := loading.(fetches := loading.fetches + [Sent(JobItemRequest(session, id), loading.apiStatus)]);
    if response.ok then
      var data := response.body;
      sent.(jobItemList := Item(GetFormattedData(data.job_details)),
            similarJobItemList := FormatSimilarJobs(data.similar_jobs),
            apiStatus := Success)
    else
      sent.(apiStatus := Failure)
  }

  /** Retrying after a failure repeats the same request: the route id does not change. */
  lemma RetryRepeatsRequest(s: JobItemState, session: Session, id: string, first: Response<JobItemBody>, retry: Response<JobItemBody>)
    requires !first.ok
    ensures var failed := JobItemFetched(s, session, id, first);
            && failed.apiStatus == Failure
            && JobItemFetched(failed, session, id, retry).fetches[|failed.fetches|] == failed.fetches[|s.fetches|]
  {
  }

  // ---------------------------------------------------------------------
  // What is rendered

  datatype JobItemView =
    | NoView
    | LoadingView
    | FailureView
    | DetailsView(detail: JobDetail, similar: seq<SimilarJob>)

  function RenderJobViews(s: JobItemState): (v: JobItemView)
    requires SuccessHasItem(s)
    ensures v.NoView? <==> s.apiStatus == Initial
    ensures v.LoadingView? <==> s.apiStatus == InProgress
    ensures v.FailureView? <==> s.apiStatus == Failure
    ensures v.DetailsView? <==> s.apiStatus == Success
    ensures v.DetailsView? ==> Item(v.detail) == s.jobItemList && v.similar == s.similarJobItemList
  {
    match s.apiStatus
    case Success => DetailsView(s.jobItemList.detail, s.similarJobItemList)
    case InProgress => LoadingView
    case Failure => FailureView
    case Initial => NoView
  }

  // ---------------------------------------------------------------------
  // The component

  class JobItemDetails {
    /** The route parameter `match.params.id`. */
    const id: string
    var jobItemList: JobItem
    var similarJobItemList: seq<SimilarJob>
    var apiStatus: ApiStatus
    /** The requests sent so far, oldest first. */
    var fetches: seq<Sent>

    function State(): JobItemState
      reads this
    {
      JobItemState(jobItemList, similarJobItemList, apiStatus, fetches)
    }

    ghost predicate Valid()
      reads this
    {
      SuccessHasItem(State())
    }

    constructor (id: string)
      ensures this.id == id
      ensures jobItemList == EmptyItem && similarJobItemList == [] && apiStatus == Initial && fetches == []
      ensures State() == InitialJobItemState && Valid()
    {
      this.id := id;
      jobItemList := EmptyItem;
      similarJobItemList := [];
      apiStatus := Initial;
      fetches := [];
    }

    method ComponentDidMount(session: Session, response: Response<JobItemBody>)
      requires Valid()
      modifies this
      ensures Valid() && State() == JobItemFetched(old(State()), session, id, response)
    {
      GetJobItem(session, response);
    }

    /** Also what the failure view's Retry button runs. */
    method GetJobItem(session: Session, response: Response<JobItemBody>)
      requires Valid()
      modifies this
      ensures Valid() && State() == JobItemFetched(old(State()), session, id, response)
    {
      apiStatus := InProgress;
      fetches := fetches + [Sent(JobItemRequest(session, id), apiStatus)];
      if response.ok {
        var data := response.body;
        var updatedData := GetFormattedData(data.job_details);
        var updatedSkillData := FormatSimilarJobs(data.similar_jobs);
        jobItemList, similarJobItemList, apiStatus := Item(updatedData), updatedSkillData, Success;
      } else {
        apiStatus := Failure;
      }
    }
  }
}
