/** The native client's session store (AppProvider in the native app's context):
    the signed-in user, their trips and the onboarding step, updated after each
    backend call. Every call's outcome, the stored user id, the notification
    permission and the clock are parameters; the alerts handed to the platform
    are recorded in `scheduled`. */
module NativeApp {
  import opened Seqs
  import opened Records
  import opened Alerts
  import Backend

  /** The PATCH body completeOnboarding sends: the three arguments in order, and a
      completed onboarding whatever the arguments are. */
  function OnboardingBody(nationalityCode: string, nationalityName: string, notificationsEnabled: JsValue): (b: OnboardingPatch)
    ensures b.onboardingCompleted
    ensures b.nationalityCode == nationalityCode && b.nationality == nationalityName
    ensures b.notificationsEnabled == notificationsEnabled
  {
    OnboardingPatch(nationalityCode, nationalityName, notificationsEnabled, true)
  }

  class Session {
    var user: Option<User>
    var trips: seq<Trip>
    var onboardingStep: int
    var loading: bool
    var showConfetti: bool
    /** The id kept in device storage under the key `visaflow_user_id`. */
    var storedUserId: Option<string>
    /** Every alert handed to the platform so far, in the order it was scheduled. */
    var scheduled: seq<Alert>

    /** No trips are held without a signed-in user. */
    predicate Valid()
      reads this
    {
      user.None? ==> trips == []
    }

    /** The state on mount, with whatever id the device had stored. */
    constructor (stored: Option<string>)
      ensures Valid()
      ensures user == None && trips == [] && onboardingStep == 0
      ensures loading && !showConfetti && storedUserId == stored && scheduled == []
    {
      user := None;
      trips := [];
      onboardingStep := 0;
      loading := true;
      showConfetti := false;
      storedUserId := stored;
      scheduled := [];
    }

    /** initializeUser: with a stored id, load the user; if that works, load the trips
        (a non-ok trips response keeps the old list) and jump to step 4 when the user
        finished onboarding. A call that throws abandons the rest. Loading always ends. */
    method InitializeUser(userResp: Response<User>, tripsResp: Response<seq<Trip>>)
      requires Valid()
      modifies this
      ensures Valid()
      ensures !loading
      ensures var loaded := HasStoredId(storedUserId) && userResp.Ok?;
              && user == (if loaded then Some(userResp.body) else old(user))
              && trips == (if loaded && tripsResp.Ok? then tripsResp.body else old(trips))
              && onboardingStep == (if loaded && !tripsResp.Threw? && userResp.body.onboardingCompleted
                                    then 4 else old(onboardingStep))
      ensures showConfetti == old(showConfetti) && storedUserId == old(storedUserId)
      ensures scheduled == old(scheduled)
    {
      if HasStoredId(storedUserId) {
        if userResp.Ok? {
          var userData := userResp.body;
          user := Some(userData);
          match tripsResp {
            case Threw =>
              loading := false;
              return;
            case NotOk =>
            case Ok(tripsData) =>
              trips := tripsData;
          }
          if userData.onboardingCompleted {
            onboardingStep := 4;
          }
        }
      }
      loading := false;
    }

    /** triggerConfetti; the three-second reset timer is outside the model. */
    method TriggerConfetti()
      modifies this
      ensures showConfetti
      ensures user == old(user) && trips == old(trips) && onboardingStep == old(onboardingStep)
      ensures loading == old(loading) && storedUserId == old(storedUserId) && scheduled == old(scheduled)
    {
      showConfetti := true;
    }

    /** completeOnboarding: create a user, then PATCH it with the arguments. Only when
        both calls succeed is the patched user kept, its id stored, step 4 reached and
        confetti shown. `sent` is the PATCH body, absent when the POST failed. */
    method CompleteOnboarding(nationalityCode: string, nationalityName: string, notificationsEnabled: JsValue,
                              postResp: Response<User>, patchResp: Response<User>)
      returns (sent: Option<OnboardingPatch>)
      requires Valid()
      modifies this
      ensures Valid()
      ensures sent.Some? <==> postResp.Ok?
      ensures sent.Some? ==> sent.value == OnboardingBody(nationalityCode, nationalityName, notificationsEnabled)
      ensures var done := postResp.Ok? && patchResp.Ok?;
              && user == (if done then Some(patchResp.body) else old(user))
              && storedUserId == (if done then Some(postResp.body.id) else old(storedUserId))
              && onboardingStep == (if done then 4 else old(onboardingStep))
              && showConfetti == (done || old(showConfetti))
      ensures trips == old(trips) && loading == old(loading) && scheduled == old(scheduled)
    {
      sent := None;
      if postResp.Ok? {
        var newUser := postResp.body;
        sent := Some(OnboardingBody(nationalityCode, nationalityName, notificationsEnabled));
        if patchResp.Ok? {
          user := Some(patchResp.body);
          storedUserId := Some(newUser.id);
          onboardingStep := 4;
          TriggerConfetti();
        }
      }
    }

    /** updateUser: nothing without a user; otherwise the server's answer replaces the
        user on success. `sent` is the PATCH request, absent when no call is made. */
    method UpdateUser(updates: Backend.UserUpdate, resp: Response<User>)
      returns (sent: Option<(string, Backend.UserUpdate)>)
      requires Valid()
      modifies this
      ensures Valid()
      ensures sent.Some? <==> old(user).Some?
      ensures sent.Some? ==> sent.value == (old(user).value.id, updates)
      ensures user == (if old(user).Some? && resp.Ok? then Some(resp.body) else old(user))
      ensures trips == old(trips) && onboardingStep == old(onboardingStep) && loading == old(loading)
      ensures showConfetti == old(showConfetti) && storedUserId == old(storedUserId) && scheduled == old(scheduled)
    {
      sent := None;
      if user.None? {
        return;
      }
      sent := Some((user.value.id, updates));
      if resp.Ok? {
        user := Some(resp.body);
      }
    }

    /** addTrip: undefined without a user and nothing changes. Otherwise on success the
        server's trip is appended, confetti marks the first trip, the native alert
        ladder is scheduled for it, and the result is true; on failure it is false and
        nothing changes. `permission` is the status getPermissionsAsync reports. */
    method AddTrip(resp: Response<Trip>, permission: string, now: int) returns (result: Option<bool>)
      requires Valid()
      modifies this
      ensures Valid()
      ensures result.None? <==> old(user).None?
      ensures result == Some(true) <==> old(user).Some? && resp.Ok?
      ensures trips == (if result == Some(true) then old(trips) + [resp.body] else old(trips))
      ensures showConfetti == (old(showConfetti) || (result == Some(true) && old(trips) == []))
      ensures scheduled == old(scheduled) +
                (if result == Some(true)
                 then (if permission == "granted"
                       then Pending(resp.body.exitDate, now, NativeLadder(resp.body.country)) else [])
                 else [])
      ensures user == old(user) && onboardingStep == old(onboardingStep)
      ensures loading == old(loading) && storedUserId == old(storedUserId)
    {
      if user.None? {
        return None;
      }
      var isFirstTrip := |trips| == 0;
      if resp.Ok? {
        var newTrip := resp.body;
        trips := trips + [newTrip];
        if isFirstTrip {
          TriggerConfetti();
        }
        var alerts := Schedule(newTrip.exitDate, now, permission == "granted", NativeLadder(newTrip.country));
        scheduled := scheduled + alerts;
        return Some(true);
      }
      return Some(false);
    }

    /** deleteTrip: on success drop every trip with that id; otherwise nothing changes. */
    method DeleteTrip(tripId: string, resp: Response<()>)
      requires Valid()
      modifies this
      ensures Valid()
      ensures trips == (if resp.Ok? then WithoutTrip(old(trips), tripId) else old(trips))
      ensures user == old(user) && onboardingStep == old(onboardingStep) && loading == old(loading)
      ensures showConfetti == old(showConfetti) && storedUserId == old(storedUserId) && scheduled == old(scheduled)
    {
      if resp.Ok? {
        trips := WithoutTrip(trips, tripId);
      }
    }

    /** logout: forget the stored id, the user and the trips, and return to step 0. */
    method Logout()
      modifies this
      ensures Valid()
      ensures storedUserId == None && user == None && trips == [] && onboardingStep == 0
      ensures loading == old(loading) && showConfetti == old(showConfetti) && scheduled == old(scheduled)
    {
      storedUserId := None;
      user := None;
      trips := [];
      onboardingStep := 0;
    }
  }

  /** A successful add followed by a successful delete of the new trip's id gives back
      the old list, provided no earlier trip carried that id. */
  lemma AddThenDeleteRestores(trips: seq<Trip>, t: Trip)
    requires forall i :: 0 <= i < |trips| ==> trips[i].id != t.id
    ensures WithoutTrip(trips + [t], t.id) == trips
  {
    FilterAppend(trips, [t], (x: Trip) => x.id != t.id);
    FilterKeepsAll(trips, (x: Trip) => x.id != t.id);
  }
}
