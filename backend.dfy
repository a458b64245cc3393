/** The FastAPI backend (backend/server.py) over its two collections: users, keyed
    by their id, and trips, in insertion order (the order a query returns them in).
    Fresh identifiers (uuid4) and the current instant are parameters. */
module Backend {
  import opened Seqs
  import opened Records
  import Countdown

  /** An HTTPException: status code and detail text. */
  datatype HttpError = HttpError(status: int, detail: string)

  datatype Result<T> = Success(value: T) | Failure(error: HttpError)

  /** UserSettingsUpdate: every field optional; None means "not sent". */
  datatype UserUpdate = UserUpdate(
    firstName: Option<string>,
    nationality: Option<string>,
    nationalityCode: Option<string>,
    notificationsEnabled: Option<bool>,
    onboardingCompleted: Option<bool>,
    subscriptionStatus: Option<string>)

  /** A new user document with the model's defaults (create_user). */
  function NewUser(id: string, now: int): (u: User)
    ensures u.id == id && u.firstName.None? && u.nationality.None? && u.nationalityCode.None?
    ensures u.notificationsEnabled && !u.onboardingCompleted
    ensures u.subscriptionStatus == "trial" && u.trialStart == Some(now) && u.createdAt == now
  {
    User(id, None, None, None, true, false, Some(now), "trial", now)
  }

  /** The update dict after dropping every None field is empty. */
  predicate NoUpdateData(upd: UserUpdate) {
    upd.firstName.None? && upd.nationality.None? && upd.nationalityCode.None? &&
    upd.notificationsEnabled.None? && upd.onboardingCompleted.None? && upd.subscriptionStatus.None?
  }

  function Pick<T>(sent: Option<T>, current: T): T {
    if sent.Some? then sent.value else current
  }

  /** The "$set" of the non-None fields of `upd` on the stored user `u`. */
  function ApplyUpdate(u: User, upd: UserUpdate): (v: User)
    ensures v.id == u.id && v.trialStart == u.trialStart && v.createdAt == u.createdAt
    ensures v.firstName == if upd.firstName.Some? then upd.firstName else u.firstName
    ensures v.nationality == if upd.nationality.Some? then upd.nationality else u.nationality
    ensures v.nationalityCode == if upd.nationalityCode.Some? then upd.nationalityCode else u.nationalityCode
    ensures upd.notificationsEnabled.Some? ==> v.notificationsEnabled == upd.notificationsEnabled.value
    ensures upd.notificationsEnabled.None? ==> v.notificationsEnabled == u.notificationsEnabled
    ensures upd.onboardingCompleted.Some? ==> v.onboardingCompleted == upd.onboardingCompleted.value
    ensures upd.onboardingCompleted.None? ==> v.onboardingCompleted == u.onboardingCompleted
    ensures upd.subscriptionStatus.Some? ==> v.subscriptionStatus == upd.subscriptionStatus.value
    ensures upd.subscriptionStatus.None? ==> v.subscriptionStatus == u.subscriptionStatus
  {
    u.(firstName := if upd.firstName.Some? then upd.firstName else u.firstName,
       nationality := if upd.nationality.Some? then upd.nationality else u.nationality,
       nationalityCode := if upd.nationalityCode.Some? then upd.nationalityCode else u.nationalityCode,
       notificationsEnabled := Pick(upd.notificationsEnabled, u.notificationsEnabled),
       onboardingCompleted := Pick(upd.onboardingCompleted, u.onboardingCompleted),
       subscriptionStatus := Pick(upd.subscriptionStatus, u.subscriptionStatus))
  }

  /** An empty update changes nothing, and applying the same update twice is applying it once. */
  lemma ApplyUpdateLaws(u: User, upd: UserUpdate)
    ensures NoUpdateData(upd) ==> ApplyUpdate(u, upd) == u
    ensures ApplyUpdate(ApplyUpdate(u, upd), upd) == ApplyUpdate(u, upd)
  {
  }

  /** (exit - entry).days: whole days of the window, rounded down. */
  function TotalDays(entry: int, exit: int): (d: int)
    ensures Countdown.DayMs * d <= exit - entry < Countdown.DayMs * (d + 1)
  {
    (exit - entry) / Countdown.DayMs
  }

  /** The server's day count (rounded down) and the form's duration (rounded up) agree
      on a whole number of days and otherwise differ by one. */
  lemma TotalDaysVersusCeiling(entry: int, exit: int)
    ensures (exit - entry) % Countdown.DayMs == 0 ==>
              TotalDays(entry, exit) == Countdown.CeilDiv(exit - entry, Countdown.DayMs)
    ensures (exit - entry) % Countdown.DayMs != 0 ==>
              TotalDays(entry, exit) + 1 == Countdown.CeilDiv(exit - entry, Countdown.DayMs)
  {
    var a, d := exit - entry, Countdown.DayMs;
    if a % d == 0 {
      Countdown.CeilDivUnique(a, d, a / d);
    } else {
      Countdown.CeilDivUnique(a, d, a / d + 1);
    }
  }

  /** The trip document create_trip builds from a TripCreate. */
  function NewTrip(id: string, userId: string, draft: TripDraft, now: int): (t: Trip)
    ensures t.id == id && t.userId == userId && t.status == Active && t.createdAt == now
    ensures t.country == draft.country && t.countryCode == draft.countryCode && t.visaType == draft.visaType
    ensures t.entryDate == draft.entryDate && t.exitDate == draft.exitDate
    ensures t.totalDays == TotalDays(draft.entryDate, draft.exitDate)
    ensures t.extensionsAvailable == if draft.extensionsAvailable.Some? then draft.extensionsAvailable.value else 0
  {
    Trip(id, userId, draft.country, draft.countryCode, draft.visaType, draft.entryDate, draft.exitDate,
         TotalDays(draft.entryDate, draft.exitDate), Pick(draft.extensionsAvailable, 0), Active, now)
  }

  /** No date check on the server: an exit before the entry is stored, with a negative day count. */
  lemma CreateTripAcceptsReversedDates(id: string, userId: string, draft: TripDraft, now: int)
    requires draft.exitDate < draft.entryDate
    ensures NewTrip(id, userId, draft, now).totalDays < 0
  {
  }

  /** The query of get_user_trips: the user's active trips. */
  predicate ListedFor(userId: string, t: Trip) {
    t.userId == userId && t.status == Active
  }

  /** One row of VISA_REQUIREMENTS. */
  datatype Requirement = Requirement(
    verdict: string,
    permittedDays: Option<int>,
    conditions: seq<string>,
    costUsd: Option<real>,
    processingDays: Option<string>,
    applicationLink: Option<string>,
    lastUpdated: string)

  /** check_visa_requirements' answer: a table row, or the default for an unknown pair. */
  datatype VisaCheck =
    | Known(nationalityCode: string, destinationCode: string, requirement: Requirement)
    | Unknown(nationalityCode: string, destinationCode: string, message: string, lastUpdated: string)
  {
    function Found(): bool { Known? }
    function Verdict(): string { if Known? then requirement.verdict else "unknown" }
  }

  const NotFoundMessage: string := "Visa requirements not found in our database. Please check with the embassy."

  /** The table key for a nationality and a destination. */
  function PairKey(nationalityCode: string, destinationCode: string): (k: string)
    ensures |k| == |nationalityCode| + 1 + |destinationCode| && k[|nationalityCode|] == '-'
    ensures k[..|nationalityCode|] == nationalityCode && k[|nationalityCode| + 1..] == destinationCode
  {
    nationalityCode + "-" + destinationCode
  }

  /** Codes without a dash give distinct keys to distinct pairs. */
  lemma PairKeyInjective(n1: string, d1: string, n2: string, d2: string)
    requires '-' !in n1 && '-' !in n2
    requires PairKey(n1, d1) == PairKey(n2, d2)
    ensures n1 == n2 && d1 == d2
  {
    if |n1| < |n2| {
      assert false;
    } else if |n2| < |n1| {
      assert false;
    }
  }

  /** check_visa_requirements: look the pair up; an unknown pair gets the verdict
      "unknown", the fixed message and today's date (a parameter). */
  function CheckVisaRequirements(table: map<string, Requirement>, nationalityCode: string,
                                 destinationCode: string, today: string): (r: VisaCheck)
    ensures r.nationalityCode == nationalityCode && r.destinationCode == destinationCode
    ensures r.Found() <==> PairKey(nationalityCode, destinationCode) in table
    ensures r.Found() ==> r.requirement == table[PairKey(nationalityCode, destinationCode)] &&
                          r.Verdict() == r.requirement.verdict
    ensures !r.Found() ==> r.Verdict() == "unknown" && r.message == NotFoundMessage && r.lastUpdated == today
  {
    var key := PairKey(nationalityCode, destinationCode);
    if key in table then Known(nationalityCode, destinationCode, table[key])
    else Unknown(nationalityCode, destinationCode, NotFoundMessage, today)
  }

  /** Three rows of the table, enough for examples. */
  function SampleTable(): map<string, Requirement> {
    map[
      "US-TH" := Requirement("visa_free", Some(30),
                   ["Passport valid 6+ months", "Proof of onward travel", "Proof of accommodation"],
                   None, None, None, "2025-01-15"),
      "US-CN" := Requirement("embassy_visa", Some(30),
                   ["Apply at Chinese embassy", "Invitation letter may be required"],
                   Some(140.0), Some("4-7"), None, "2025-01-15"),
      "AU-ID" := Requirement("visa_on_arrival", Some(30),
                   ["Passport valid 6+ months", "Payment at airport"],
                   Some(35.0), None, None, "2025-01-15")]
  }

  /** The lookup is directional: US to Thailand is listed, Thailand to US is not. */
  lemma CheckVisaExamples(today: string)
    ensures var r := CheckVisaRequirements(SampleTable(), "US", "TH", today);
            r.Found() && r.Verdict() == "visa_free" && r.requirement.permittedDays == Some(30)
    ensures var r := CheckVisaRequirements(SampleTable(), "TH", "US", today);
            !r.Found() && r.Verdict() == "unknown" && r.lastUpdated == today
  {
    assert PairKey("US", "TH") == "US-TH";
    assert PairKey("TH", "US") == "TH-US";
  }

  /** The two collections and the handlers that change them. */
  class Database {
    var users: map<string, User>
    var trips: seq<Trip>

    constructor ()
      ensures users == map[] && trips == []
    {
      users := map[];
      trips := [];
    }

    /** create_user: insert a user with the defaults under a fresh id. */
    method CreateUser(id: string, now: int) returns (u: User)
      requires id !in users
      modifies this
      ensures u == NewUser(id, now)
      ensures users == old(users)[id := u] && trips == old(trips)
    {
      u := NewUser(id, now);
      users := users[id := u];
    }

    /** get_user: the stored user, or 404. */
    method GetUser(id: string) returns (r: Result<User>)
      ensures id in users ==> r == Success(users[id])
      ensures id !in users ==> r == Failure(HttpError(404, "User not found"))
    {
      if id in users {
        r := Success(users[id]);
      } else {
        r := Failure(HttpError(404, "User not found"));
      }
    }

    /** update_user: 400 when no field is sent (checked first, whether or not the user
        exists), 404 for an unknown id, otherwise the sent fields are set and the
        updated user is returned. */
    method UpdateUser(id: string, upd: UserUpdate) returns (r: Result<User>)
      modifies this
      ensures NoUpdateData(upd) ==> r == Failure(HttpError(400, "No update data provided")) &&
                                    users == old(users)
      ensures !NoUpdateData(upd) && id !in old(users) ==>
                r == Failure(HttpError(404, "User not found")) && users == old(users)
      ensures !NoUpdateData(upd) && id in old(users) ==>
                r == Success(ApplyUpdate(old(users)[id], upd)) && users == old(users)[id := r.value]
      ensures trips == old(trips)
    {
      if NoUpdateData(upd) {
        return Failure(HttpError(400, "No update data provided"));
      }
      if id !in users {
        return Failure(HttpError(404, "User not found"));
      }
      var updated := ApplyUpdate(users[id], upd);
      users := users[id := updated];
      r := Success(updated);
    }

    /** create_trip: store a new active trip at the end of the collection. */
    method CreateTrip(id: string, userId: string, draft: TripDraft, now: int) returns (t: Trip)
      modifies this
      ensures t == NewTrip(id, userId, draft, now)
      ensures trips == old(trips) + [t] && users == old(users)
    {
      t := NewTrip(id, userId, draft, now);
      trips := trips + [t];
    }

    /** get_user_trips: the first 100 of the user's active trips, in stored order. */
    method GetUserTrips(userId: string) returns (r: seq<Trip>)
      ensures |r| <= 100
      ensures forall i :: 0 <= i < |r| ==> ListedFor(userId, r[i]) && r[i] in trips
      ensures IsSubsequence(r, trips)
      ensures Count(trips, (t: Trip) => ListedFor(userId, t)) <= 100 ==>
                forall i :: 0 <= i < |trips| && ListedFor(userId, trips[i]) ==> trips[i] in r
      ensures |r| == if Count(trips, (t: Trip) => ListedFor(userId, t)) <= 100
                     then Count(trips, (t: Trip) => ListedFor(userId, t)) else 100
      ensures |r| <= |Filter(trips, (t: Trip) => ListedFor(userId, t))| &&
              r == Filter(trips, (t: Trip) => ListedFor(userId, t))[..|r|]
    {
      var matching := Filter(trips, (t: Trip) => ListedFor(userId, t));
      FilterIsSubsequence(trips, (t: Trip) => ListedFor(userId, t));
      FilterLength(trips, (t: Trip) => ListedFor(userId, t));
      r := Take(matching, 100);
      PrefixIsSubsequence(r, matching);
      SubsequenceTransitive(r, matching, trips);
    }

    /** delete_trip: remove the first trip with that id, or 404 if there is none. */
    method DeleteTrip(tripId: string) returns (r: Result<()>)
      modifies this
      ensures (forall i :: 0 <= i < |old(trips)| ==> old(trips)[i].id != tripId) <==> r.Failure?
      ensures r.Failure? ==> r.error == HttpError(404, "Trip not found") && trips == old(trips)
      ensures r.Success? ==> exists k :: 0 <= k < |old(trips)| && old(trips)[k].id == tripId &&
                               (forall j :: 0 <= j < k ==> old(trips)[j].id != tripId) &&
                               trips == old(trips)[..k] + old(trips)[k + 1..]
      ensures users == old(users)
    {
      var found := FirstIndex(trips, (t: Trip) => t.id == tripId);
      if found.None? {
        return Failure(HttpError(404, "Trip not found"));
      }
      var k := found.value;
      trips := trips[..k] + trips[k + 1..];
      r := Success(());
    }

    /** complete_trip: mark the first trip with that id completed, or 404 if there is none. */
    method CompleteTrip(tripId: string) returns (r: Result<()>)
      modifies this
      ensures (forall i :: 0 <= i < |old(trips)| ==> old(trips)[i].id != tripId) <==> r.Failure?
      ensures r.Failure? ==> r.error == HttpError(404, "Trip not found") && trips == old(trips)
      ensures r.Success? ==> exists k :: 0 <= k < |old(trips)| && old(trips)[k].id == tripId &&
                               (forall j :: 0 <= j < k ==> old(trips)[j].id != tripId) &&
                               trips == old(trips)[k := old(trips)[k].(status := Completed)]
      ensures users == old(users)
    {
      var found := FirstIndex(trips, (t: Trip) => t.id == tripId);
      if found.None? {
        return Failure(HttpError(404, "Trip not found"));
      }
      var k := found.value;
      trips := trips[k := trips[k].(status := Completed)];
      r := Success(());
    }
  }

  lemma {:induction false} PrefixIsSubsequence<T>(a: seq<T>, b: seq<T>)
    requires |a| <= |b| && a == b[..|a|]
    ensures IsSubsequence(a, b)
  {
    if a != [] {
      PrefixIsSubsequence(a[1..], b[1..]);
    }
  }

  lemma {:induction false} SubsequenceTransitive<T>(a: seq<T>, b: seq<T>, c: seq<T>)
    requires IsSubsequence(a, b) && IsSubsequence(b, c)
    ensures IsSubsequence(a, c)
    decreases |c|
  {
    if a != [] && c != [] {
      if b[0] == c[0] && IsSubsequence(b[1..], c[1..]) {
        if a[0] == b[0] && IsSubsequence(a[1..], b[1..]) {
          SubsequenceTransitive(a[1..], b[1..], c[1..]);
        } else {
          SubsequenceTransitive(a, b[1..], c[1..]);
        }
      } else {
        SubsequenceTransitive(a, b, c[1..]);
      }
    }
  }
}
