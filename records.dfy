/** The records the backend stores and the clients hold, as values. Dates are
    milliseconds since the epoch; parsing ISO date strings is outside the model. */
module Records {
  import opened Seqs

  /** A user document (UserSettings). */
  datatype User = User(
    id: string,
    firstName: Option<string>,
    nationality: Option<string>,
    nationalityCode: Option<string>,
    notificationsEnabled: bool,
    onboardingCompleted: bool,
    trialStart: Option<int>,
    subscriptionStatus: string,
    createdAt: int)

  /** A trip's status; the backend writes only Active (on creation) and Completed. */
  datatype TripStatus = Active | Completed | Expired

  /** A trip document (Trip). */
  datatype Trip = Trip(
    id: string,
    userId: string,
    country: string,
    countryCode: string,
    visaType: string,
    entryDate: int,
    exitDate: int,
    totalDays: int,
    extensionsAvailable: int,
    status: TripStatus,
    createdAt: int)

  /** The trip fields a client sends; the backend's TripCreate is this plus the user id.
      `extensionsAvailable` is None when the client leaves the field out. */
  datatype TripDraft = TripDraft(
    country: string,
    countryCode: string,
    visaType: string,
    entryDate: int,
    exitDate: int,
    extensionsAvailable: Option<int>)

  /** A JavaScript argument that the code treats as a boolean but may receive as a string. */
  datatype JsValue = JsBool(b: bool) | JsString(s: string)

  /** The PATCH body completeOnboarding sends right after creating the user. */
  datatype OnboardingPatch = OnboardingPatch(
    nationalityCode: string,
    nationality: string,
    notificationsEnabled: JsValue,
    onboardingCompleted: bool)

  /** What a notification permission request came back with: a status, or a failure. */
  datatype PermissionOutcome = Answered(status: string) | Failed

  /** The outcome of one backend call as a client sees it: a success with the decoded
      body, a response whose status is not 2xx, or a call that threw. */
  datatype Response<T> = Ok(body: T) | NotOk | Threw

  /** A stored user id counts only when present and non-empty (a JavaScript truthiness test). */
  predicate HasStoredId(stored: Option<string>) {
    stored.Some? && stored.value != ""
  }

  /** TrackerScreen's active trip: the first trip in the list whose status is active. */
  function ActiveTrip(trips: seq<Trip>): (r: Option<Trip>)
    ensures r.None? <==> forall i :: 0 <= i < |trips| ==> trips[i].status != Active
    ensures r.Some? ==> r.value.status == Active &&
                        exists i :: 0 <= i < |trips| && trips[i] == r.value &&
                                    forall j :: 0 <= j < i ==> trips[j].status != Active
  {
    Find(trips, (t: Trip) => t.status == Active)
  }

  /** A list holding exactly one active trip selects that trip. */
  lemma ActiveTripUnique(trips: seq<Trip>, k: nat)
    requires k < |trips| && trips[k].status == Active
    requires forall i :: 0 <= i < |trips| && i != k ==> trips[i].status != Active
    ensures ActiveTrip(trips) == Some(trips[k])
  {
  }

  /** The trips left after removing every trip with id `tripId`, in their original order. */
  function WithoutTrip(trips: seq<Trip>, tripId: string): (r: seq<Trip>)
    ensures forall i :: 0 <= i < |r| ==> r[i].id != tripId && r[i] in trips
    ensures forall i :: 0 <= i < |trips| && trips[i].id != tripId ==> trips[i] in r
  {
    Filter(trips, (t: Trip) => t.id != tripId)
  }

  /** Removing by id keeps the other trips in order, drops exactly as many trips as
      carry that id, and changes nothing when no trip carries it. */
  lemma WithoutTripKeepsOrder(trips: seq<Trip>, tripId: string)
    ensures IsSubsequence(WithoutTrip(trips, tripId), trips)
    ensures |WithoutTrip(trips, tripId)| == Count(trips, (t: Trip) => t.id != tripId)
    ensures (forall i :: 0 <= i < |trips| ==> trips[i].id != tripId) ==> WithoutTrip(trips, tripId) == trips
  {
    FilterIsSubsequence(trips, (t: Trip) => t.id != tripId);
    FilterLength(trips, (t: Trip) => t.id != tripId);
    if forall i :: 0 <= i < |trips| ==> trips[i].id != tripId {
      FilterKeepsAll(trips, (t: Trip) => t.id != tripId);
    }
  }
}
