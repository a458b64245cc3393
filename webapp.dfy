/** The web client's session store (AppProvider) and the screen selection of its
    root component (MainApp), with MainApp's own notifications choice. Backend
    calls go through a client that throws on any non-2xx status, so a response
    that is not Ok abandons the handler. The alerts registered as timers are
    recorded in `timers`. */
module WebApp {
  import opened Seqs
  import opened Records
  import opened Alerts
  import Backend
  import TripForm

  datatype Tab = TrackerTab | RequirementsTab | SettingsTab

  datatype Screen = LoadingScreen | WelcomeScreen | NotificationScreen | NationalityScreen | MainScreen

  /** MainApp's choice of screen. */
  function ScreenFor(loading: bool, step: int): Screen {
    if loading then LoadingScreen
    else if step < 4 && step == 0 then WelcomeScreen
    else if step < 4 && step == 1 then NotificationScreen
    else if step < 4 && (step == 2 || step == 3) then NationalityScreen
    else MainScreen
  }

  /** Once loaded, steps 0 and 1 have a screen each, steps 2 and 3 share the
      nationality screen, and every other step (4 and up, and any negative step)
      shows the main app. */
  lemma ScreenForSteps(step: int)
    ensures ScreenFor(true, step) == LoadingScreen
    ensures ScreenFor(false, step) == MainScreen <==> step >= 4 || step < 0
    ensures ScreenFor(false, step) == NationalityScreen <==> step in {2, 3}
    ensures ScreenFor(false, step) == WelcomeScreen <==> step == 0
    ensures ScreenFor(false, step) == NotificationScreen <==> step == 1
  {
  }

  class Session {
    var user: Option<User>
    var trips: seq<Trip>
    var onboardingStep: int
    var loading: bool
    var activeTab: Tab
    var modalOpen: bool
    var prefill: Option<TripForm.Prefill>
    /** The id kept in local storage under the key `visaflow_user_id`. */
    var storedUserId: Option<string>
    /** Every alert registered as a timer so far, in the order it was registered. */
    var timers: seq<Alert>
    /** MainApp's notifications choice, made on the notification screen. */
    var notificationsEnabled: bool

    /** No trips are held without a signed-in user. */
    predicate Valid()
      reads this
    {
      user.None? ==> trips == []
    }

    constructor (stored: Option<string>)
      ensures Valid()
      ensures user == None && trips == [] && onboardingStep == 0 && loading
      ensures activeTab == TrackerTab && !modalOpen && prefill == None
      ensures storedUserId == stored && timers == [] && !notificationsEnabled
    {
      user := None;
      trips := [];
      onboardingStep := 0;
      loading := true;
      activeTab := TrackerTab;
      modalOpen := false;
      prefill := None;
      storedUserId := stored;
      timers := [];
      notificationsEnabled := false;
    }

    /** initUser: with a stored id, load the user, then the trips; only when both
        succeed is step 4 reached for a user who finished onboarding. A failed trips
        call leaves the loaded user in place. Loading always ends. */
    method InitUser(userResp: Response<User>, tripsResp: Response<seq<Trip>>)
      requires Valid()
      modifies this
      ensures Valid()
      ensures !loading
      ensures var loaded := HasStoredId(storedUserId) && userResp.Ok?;
              && user == (if loaded then Some(userResp.body) else old(user))
              && trips == (if loaded && tripsResp.Ok? then tripsResp.body else old(trips))
              && onboardingStep == (if loaded && tripsResp.Ok? && userResp.body.onboardingCompleted
                                    then 4 else old(onboardingStep))
      ensures activeTab == old(activeTab) && modalOpen == old(modalOpen) && prefill == old(prefill)
      ensures storedUserId == old(storedUserId) && timers == old(timers)
      ensures notificationsEnabled == old(notificationsEnabled)
    {
      if HasStoredId(storedUserId) && userResp.Ok? {
        user := Some(userResp.body);
        if tripsResp.Ok? {
          trips := tripsResp.body;
          if userResp.body.onboardingCompleted {
            onboardingStep := 4;
          }
        }
      }
      loading := false;
    }

    /** completeOnboarding: create a user, then PATCH it; only when both calls
        succeed is the patched user kept, its id stored and step 4 reached. */
    method CompleteOnboarding(nationalityCode: string, nationalityName: string, enabled: bool,
                              postResp: Response<User>, patchResp: Response<User>)
      returns (sent: Option<OnboardingPatch>)
      requires Valid()
      modifies this
      ensures Valid()
      ensures sent.Some? <==> postResp.Ok?
      ensures sent.Some? ==> sent.value == OnboardingPatch(nationalityCode, nationalityName, JsBool(enabled), true)
      ensures var done := postResp.Ok? && patchResp.Ok?;
              && user == (if done then Some(patchResp.body) else old(user))
              && storedUserId == (if done then Some(postResp.body.id) else old(storedUserId))
              && onboardingStep == (if done then 4 else old(onboardingStep))
      ensures trips == old(trips) && loading == old(loading) && activeTab == old(activeTab)
      ensures modalOpen == old(modalOpen) && prefill == old(prefill) && timers == old(timers)
      ensures notificationsEnabled == old(notificationsEnabled)
    {
      sent := None;
      if postResp.Ok? {
        sent := Some(OnboardingPatch(nationalityCode, nationalityName, JsBool(enabled), true));
        if patchResp.Ok? {
          user := Some(patchResp.body);
          storedUserId := Some(postResp.body.id);
          onboardingStep := 4;
        }
      }
    }

    /** updateUser: nothing without a user; otherwise the server's answer replaces the
        user on success. */
    method UpdateUser(updates: Backend.UserUpdate, resp: Response<User>)
      returns (sent: Option<(string, Backend.UserUpdate)>)
      requires Valid()
      modifies this
      ensures Valid()
      ensures sent.Some? <==> old(user).Some?
      ensures sent.Some? ==> sent.value == (old(user).value.id, updates)
      ensures user == (if old(user).Some? && resp.Ok? then Some(resp.body) else old(user))
      ensures trips == old(trips) && onboardingStep == old(onboardingStep) && loading == old(loading)
      ensures activeTab == old(activeTab) && modalOpen == old(modalOpen) && prefill == old(prefill)
      ensures storedUserId == old(storedUserId) && timers == old(timers)
      ensures notificationsEnabled == old(notificationsEnabled)
    {
      sent := None;
      if user.None? {
        return;
      }
      sent := Some((user.value.id, updates));
      if resp.Ok? {
        user := Some(resp.body);
      }
    }

    /** addTrip: nothing without a user or when the call fails. On success the
        server's trip is appended, the modal closes, the tracker tab opens, confetti
        marks the first trip (the result), and the web alert ladder is registered
        when the browser has notifications and permission is "granted". */
    method AddTrip(resp: Response<Trip>, notificationApi: bool, permission: string, now: int)
      returns (confetti: bool)
      requires Valid()
      modifies this
      ensures Valid()
      ensures var added := old(user).Some? && resp.Ok?;
              && trips == (if added then old(trips) + [resp.body] else old(trips))
              && confetti == (added && old(trips) == [])
              && modalOpen == (if added then false else old(modalOpen))
              && prefill == (if added then None else old(prefill))
              && activeTab == (if added then TrackerTab else old(activeTab))
              && timers == old(timers) +
                   (if added && notificationApi && permission == "granted"
                    then Pending(resp.body.exitDate, now, WebLadder(resp.body.country)) else [])
      ensures user == old(user) && onboardingStep == old(onboardingStep) && loading == old(loading)
      ensures storedUserId == old(storedUserId) && notificationsEnabled == old(notificationsEnabled)
    {
      confetti := false;
      if user.None? {
        return;
      }
      var isFirstTrip := |trips| == 0;
      if resp.Ok? {
        var newTrip := resp.body;
        trips := trips + [newTrip];
        modalOpen, prefill := false, None;
        activeTab := TrackerTab;
        confetti := isFirstTrip;
        var alerts := Schedule(newTrip.exitDate, now, notificationApi && permission == "granted",
                               WebLadder(newTrip.country));
        timers := timers + alerts;
      }
    }

    /** deleteTrip: on success drop every trip with that id; otherwise nothing changes. */
    method DeleteTrip(tripId: string, resp: Response<()>)
      requires Valid()
      modifies this
      ensures Valid()
      ensures trips == (if resp.Ok? then WithoutTrip(old(trips), tripId) else old(trips))
      ensures user == old(user) && onboardingStep == old(onboardingStep) && loading == old(loading)
      ensures activeTab == old(activeTab) && modalOpen == old(modalOpen) && prefill == old(prefill)
      ensures storedUserId == old(storedUserId) && timers == old(timers)
      ensures notificationsEnabled == old(notificationsEnabled)
    {
      if resp.Ok? {
        trips := WithoutTrip(trips, tripId);
      }
    }

    /** logout: forget the stored id, the user and the trips, and return to step 0. */
    method Logout()
      modifies this
      ensures Valid()
      ensures storedUserId == None && user == None && trips == [] && onboardingStep == 0
      ensures loading == old(loading) && activeTab == old(activeTab) && modalOpen == old(modalOpen)
      ensures prefill == old(prefill) && timers == old(timers) && notificationsEnabled == old(notificationsEnabled)
    {
      storedUserId := None;
      user := None;
      trips := [];
      onboardingStep := 0;
    }

    /** Opening the add-trip modal, empty from the tracker or prefilled from the
        requirements screen; closing it clears the prefill. */
    method SetAddTripModal(open: bool, data: Option<TripForm.Prefill>)
      requires Valid()
      modifies this
      ensures Valid()
      ensures modalOpen == open && prefill == data
      ensures user == old(user) && trips == old(trips) && onboardingStep == old(onboardingStep)
      ensures loading == old(loading) && activeTab == old(activeTab) && storedUserId == old(storedUserId)
      ensures timers == old(timers) && notificationsEnabled == old(notificationsEnabled)
    {
      modalOpen, prefill := open, data;
    }

    /** The welcome screen's "Get Started". */
    method WelcomeNext()
      requires Valid()
      modifies this
      ensures Valid()
      ensures onboardingStep == 1
      ensures user == old(user) && trips == old(trips) && loading == old(loading)
      ensures activeTab == old(activeTab) && modalOpen == old(modalOpen) && prefill == old(prefill)
      ensures storedUserId == old(storedUserId) && timers == old(timers)
      ensures notificationsEnabled == old(notificationsEnabled)
    {
      onboardingStep := 1;
    }

    /** The notification screen's "Skip for now". */
    method NotificationSkip()
      requires Valid()
      modifies this
      ensures Valid()
      ensures onboardingStep == 2
      ensures user == old(user) && trips == old(trips) && loading == old(loading)
      ensures activeTab == old(activeTab) && modalOpen == old(modalOpen) && prefill == old(prefill)
      ensures storedUserId == old(storedUserId) && timers == old(timers)
      ensures notificationsEnabled == old(notificationsEnabled)
    {
      onboardingStep := 2;
    }

    /** The notification screen's "Enable Notifications": without the browser API the
        flow just moves on; an answered request records whether it was granted and
        moves on; a request that fails escapes the handler and nothing changes. */
    method NotificationEnable(notificationApi: bool, outcome: PermissionOutcome)
      requires Valid()
      modifies this
      ensures Valid()
      ensures var moves := !notificationApi || outcome.Answered?;
              && onboardingStep == (if moves then 2 else old(onboardingStep))
              && notificationsEnabled == (if notificationApi && outcome.Answered?
                                          then outcome.status == "granted" else old(notificationsEnabled))
      ensures user == old(user) && trips == old(trips) && loading == old(loading)
      ensures activeTab == old(activeTab) && modalOpen == old(modalOpen) && prefill == old(prefill)
      ensures storedUserId == old(storedUserId) && timers == old(timers)
    {
      if notificationApi {
        if outcome.Failed? {
          return;
        }
        notificationsEnabled := outcome.status == "granted";
      }
      onboardingStep := 2;
    }

    /** The nationality screen's "Continue": with a nationality chosen, complete the
        onboarding with MainApp's notifications choice and fire the confetti (the
        result) whether or not the calls succeed; without one, nothing happens. */
    method NationalityComplete(nationality: string, nationalityName: string,
                               postResp: Response<User>, patchResp: Response<User>)
      returns (confetti: bool, sent: Option<OnboardingPatch>)
      requires Valid()
      modifies this
      ensures Valid()
      ensures confetti <==> nationality != ""
      ensures sent.Some? <==> nationality != "" && postResp.Ok?
      ensures sent.Some? ==> sent.value == OnboardingPatch(nationality, nationalityName, JsBool(old(notificationsEnabled)), true)
      ensures var done := nationality != "" && postResp.Ok? && patchResp.Ok?;
              && user == (if done then Some(patchResp.body) else old(user))
              && storedUserId == (if done then Some(postResp.body.id) else old(storedUserId))
              && onboardingStep == (if done then 4 else old(onboardingStep))
      ensures trips == old(trips) && loading == old(loading) && notificationsEnabled == old(notificationsEnabled)
      ensures activeTab == old(activeTab) && modalOpen == old(modalOpen) && prefill == old(prefill)
      ensures timers == old(timers)
    {
      confetti, sent := false, None;
      if nationality != "" {
        sent := CompleteOnboarding(nationality, nationalityName, notificationsEnabled, postResp, patchResp);
        confetti := true;
      }
    }
  }

  /** Both clients keep the trips they add in the order they were added, so the
      active trip they show is the earliest-added one still active. */
  lemma ActiveTripAfterAdd(trips: seq<Trip>, t: Trip)
    ensures ActiveTrip(trips).Some? ==> ActiveTrip(trips + [t]) == ActiveTrip(trips)
    ensures ActiveTrip(trips).None? ==> ActiveTrip(trips + [t]) == (if t.status == Active then Some(t) else None)
  {
    FirstIndexAppend(trips, [t], (x: Trip) => x.status == Active);
  }
}
