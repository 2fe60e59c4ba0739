/** The profile panel: one fetch of the signed-in user's profile, decoded into
    three fields. A response that is not ok changes nothing, so the status
    then stays INPROGRESS and the failure view is never shown. */
module ProfileDetails {
  import opened Http

  datatype ProfileWire = ProfileWire(name: string, profile_image_url: string, short_bio: string)

  /** The body of `GET /profile`. */
  datatype ProfileBody = ProfileBody(profile_details: ProfileWire)

  /** `profileList`: the empty array `[]` until the first success, then the profile. */
  datatype ProfileList = EmptyList | Profile(name: string, profileImageUrl: string, shortBio: string)

  /** The profile record built from the body. */
  function DecodeProfile(body: ProfileBody): (p: ProfileList)
    ensures p.Profile?
    ensures p.name == body.profile_details.name
    ensures p.profileImageUrl == body.profile_details.profile_image_url
    ensures p.shortBio == body.profile_details.short_bio
  {
    var d := body.profile_details;
    Profile(d.name, d.profile_image_url, d.short_bio)
  }

  /** The inverse renaming; not in the component. */
  function EncodeProfile(p: ProfileList): ProfileBody
    requires p.Profile?
  {
    ProfileBody(ProfileWire(p.name, p.profileImageUrl, p.shortBio))
  }

  /** The decoder renames the three fields and keeps their values. */
  lemma ProfileRoundTrip(body: ProfileBody, p: ProfileList)
    requires p.Profile?
    ensures EncodeProfile(DecodeProfile(body)) == body
    ensures DecodeProfile(EncodeProfile(p)) == p
  {
  }

  const ProfileUrl: string := "https://apis.ccbp.in/profile"

  /** The component's `this.state`, together with the requests it has sent. */
  datatype ProfileState = ProfileState(profileList: ProfileList, apiStatus: ApiStatus, fetches: seq<Sent>)

  const InitialProfileState: ProfileState := ProfileState(EmptyList, Initial, [])

  /** The fetch: INPROGRESS and one request; an ok response sets the profile
      and SUCCESS, any other response leaves the state as it was then. */
  function ProfileFetched(s: ProfileState, session: Session, response: Response<ProfileBody>): (r: ProfileState)
    ensures r.fetches == s.fetches + [Sent(Get(ProfileUrl, BearerHeader(session)), InProgress)]
    ensures response.ok ==> r.apiStatus == Success && r.profileList == DecodeProfile(response.body)
    ensures !response.ok ==> r.apiStatus == InProgress && r.profileList == s.profileList
    ensures r.apiStatus != Failure
  {
    var loading := s.(apiStatus := InProgress);
    var sent := loading.(fetches := loading.fetches + [Sent(Get(ProfileUrl, BearerHeader(session)), loading.apiStatus)]);
    if response.ok then sent.(profileList := DecodeProfile(response.body), apiStatus := Success)
    else sent
  }

  /** Mounting and then one fetch per Retry click, each with the response it gets. */
  function ProfileRun(s: ProfileState, session: Session, responses: seq<Response<ProfileBody>>): ProfileState
    decreases |responses|
  {
    if responses == [] then s
    else ProfileRun(ProfileFetched(s, session, responses[0]), session, responses[1..])
  }

  /** No sequence of responses, ok or not, ever leads to FAILURE. */
  lemma {:induction false} FailureUnreachable(s: ProfileState, session: Session, responses: seq<Response<ProfileBody>>)
    requires s.apiStatus != Failure
    ensures ProfileRun(s, session, responses).apiStatus != Failure
    decreases |responses|
  {
    if responses != [] {
      FailureUnreachable(ProfileFetched(s, session, responses[0]), session, responses[1..]);
    }
  }

  /** Once a fetch has been made, a last response that is not ok leaves the
      loader up for good: the status is INPROGRESS, not FAILURE. */
  lemma {:induction false} NonOkLeavesLoader(s: ProfileState, session: Session, responses: seq<Response<ProfileBody>>)
    requires responses != [] && !responses[|responses| - 1].ok
    ensures ProfileRun(s, session, responses).apiStatus == InProgress
    decreases |responses|
  {
    if |responses| > 1 {
      NonOkLeavesLoader(ProfileFetched(s, session, responses[0]), session, responses[1..]);
    }
  }

  /** From the initial state the status stays INITIAL exactly while no fetch has run. */
  lemma {:induction false} InitialUntilFirstFetch(s: ProfileState, session: Session, responses: seq<Response<ProfileBody>>)
    requires s.apiStatus == Initial <==> s.fetches == []
    ensures ProfileRun(s, session, responses).apiStatus == Initial <==> ProfileRun(s, session, responses).fetches == []
    ensures |ProfileRun(s, session, responses).fetches| == |s.fetches| + |responses|
    decreases |responses|
  {
    if responses != [] {
      InitialUntilFirstFetch(ProfileFetched(s, session, responses[0]), session, responses[1..]);
    }
  }

  // ---------------------------------------------------------------------
  // What is rendered

  datatype ProfileView = NoView | LoadingView | RetryView | ProfileCard(name: string, profileImageUrl: string, shortBio: string)

  /** The status switch. On SUCCESS the card shows the three profile fields. */
  function Render(s: ProfileState): (v: ProfileView)
    requires s.apiStatus == Success ==> s.profileList.Profile?
    ensures v.NoView? <==> s.apiStatus == Initial
    ensures v.LoadingView? <==> s.apiStatus == InProgress
    ensures v.RetryView? <==> s.apiStatus == Failure
    ensures v.ProfileCard? <==> s.apiStatus == Success
    ensures v.ProfileCard? ==> Profile(v.name, v.profileImageUrl, v.shortBio) == s.profileList
  {
    match s.apiStatus
    case Success => ProfileCard(s.profileList.name, s.profileList.profileImageUrl, s.profileList.shortBio)
    case InProgress => LoadingView
    case Failure => RetryView
    case Initial => NoView
  }

  /** The retry view is dead code: it is not shown after any run from the start. */
  lemma RetryViewUnreachable(session: Session, responses: seq<Response<ProfileBody>>)
    ensures ProfileRun(InitialProfileState, session, responses).apiStatus != Failure
  {
    FailureUnreachable(InitialProfileState, session, responses);
  }

  // ---------------------------------------------------------------------
  // The component

  class ProfileDetails {
    var profileList: ProfileList
    var apiStatus: ApiStatus
    /** The requests sent so far, oldest first. */
    var fetches: seq<Sent>

    function State(): ProfileState
      reads this
    {
      ProfileState(profileList, apiStatus, fetches)
    }

    /** SUCCESS always comes with a profile, and FAILURE is never held. */
    ghost predicate Valid()
      reads this
    {
      && (apiStatus == Success ==> profileList.Profile?)
      && apiStatus != Failure
    }

    constructor ()
      ensures profileList == EmptyList && apiStatus == Initial && fetches == []
      ensures State() == InitialProfileState && Valid()
    {
      profileList := EmptyList;
      apiStatus := Initial;
      fetches := [];
    }

    method ComponentDidMount(session: Session, response: Response<ProfileBody>)
      requires Valid()
      modifies this
      ensures Valid() && State() == ProfileFetched(old(State()), session, response)
    {
      GetProfileDetails(session, response);
    }

    /** Also what the retry view's button would run. */
    method GetProfileDetails(session: Session, response: Response<ProfileBody>)
      requires Valid()
      modifies this
      ensures Valid() && State() == ProfileFetched(old(State()), session, response)
    {
      apiStatus := InProgress;
      fetches := fetches + [Sent(Get(ProfileUrl, BearerHeader(session)), apiStatus)];
      if response.ok {
        var data := response.body;
        var profileData := Profile(data.profile_details.name, data.profile_details.profile_image_url,
                                   data.profile_details.short_bio);
        profileList, apiStatus := profileData, Success;
      }
    }
  }
}
