/** The native onboarding flow: a welcome screen (step 0), a notifications screen
    (step 1) and a profile screen (step 2) that hands the first name and the chosen
    nationality to the session's completeOnboarding. */
module Onboarding {
  import opened Seqs
  import opened Text
  import opened Records
  import NativeApp

  /** What the profile screen asks for before it can complete: a first name with
      something other than whitespace in it, and a nationality. */
  predicate ProfileValid(firstName: string, nationality: string) {
    |Trim(firstName)| > 0 && nationality != ""
  }

  /** A name made only of whitespace can never complete the profile. */
  lemma ProfileValidIff(firstName: string, nationality: string)
    ensures ProfileValid(firstName, nationality) <==>
              nationality != "" && exists i :: 0 <= i < |firstName| && !IsWhitespace(firstName[i])
  {
    TrimEmptyIff(firstName);
  }

  /** The arguments handleComplete hands on: the trimmed first name, the code and the name. */
  datatype ProfileArgs = ProfileArgs(firstName: string, code: string, name: string)

  /** The profile screen's form. */
  class ProfileSetup {
    var firstName: string
    var nationality: string
    var nationalityName: string

    constructor ()
      ensures firstName == "" && nationality == "" && nationalityName == ""
    {
      firstName, nationality, nationalityName := "", "", "";
    }

    method SetFirstName(text: string)
      modifies this
      ensures firstName == text && nationality == old(nationality) && nationalityName == old(nationalityName)
    {
      firstName := text;
    }

    /** The picker's onSelect: keep both the code and the name. */
    method SelectNationality(code: string, name: string)
      modifies this
      ensures nationality == code && nationalityName == name && firstName == old(firstName)
    {
      nationality, nationalityName := code, name;
    }

    /** handleComplete: forward only a valid profile, with the first name trimmed. */
    method HandleComplete() returns (args: Option<ProfileArgs>)
      ensures args.Some? <==> ProfileValid(firstName, nationality)
      ensures args.Some? ==> args.value == ProfileArgs(Trim(firstName), nationality, nationalityName)
      ensures args.Some? ==> args.value.firstName != "" && !IsWhitespace(args.value.firstName[0])
    {
      if ProfileValid(firstName, nationality) {
        args := Some(ProfileArgs(Trim(firstName), nationality, nationalityName));
      } else {
        args := None;
      }
    }
  }

  /** The arguments completeOnboarding receives from the profile screen, as written:
      the three values plus the notifications flag are passed in order to a function
      of three parameters, so the first name is taken as the nationality code, the
      code as the nationality name, the name as the notifications flag, and the flag
      itself is dropped. */
  function ForwardedAsWritten(args: ProfileArgs, notificationsEnabled: bool): (r: (string, string, JsValue))
    ensures r.0 == args.firstName && r.1 == args.code && r.2 == JsString(args.name)
  {
    (args.firstName, args.code, JsString(args.name))
  }

  /** The arguments completeOnboarding expects: code, name and the flag. */
  function ForwardedIntended(args: ProfileArgs, notificationsEnabled: bool): (r: (string, string, JsValue))
    ensures r.0 == args.code && r.1 == args.name && r.2 == JsBool(notificationsEnabled)
  {
    (args.code, args.name, JsBool(notificationsEnabled))
  }

  /** As written, the PATCH carries the first name as the nationality code and a
      country name where the backend expects a boolean, so the backend rejects it;
      the notifications choice is never sent. Example: Ana from Brazil. */
  lemma AsWrittenSendsFirstNameAsCode(enabled: bool)
    ensures var r := ForwardedAsWritten(ProfileArgs("Ana", "BR", "Brazil"), enabled);
            var body := NativeApp.OnboardingBody(r.0, r.1, r.2);
            body.nationalityCode == "Ana" && body.nationality == "BR" &&
            body.notificationsEnabled == JsString("Brazil")
  {
  }

  /** The intended call stores the chosen code and name and the notifications choice
      as a boolean, whatever the profile is. */
  lemma IntendedSendsProfile(args: ProfileArgs, enabled: bool)
    ensures var r := ForwardedIntended(args, enabled);
            var body := NativeApp.OnboardingBody(r.0, r.1, r.2);
            body.nationalityCode == args.code && body.nationality == args.name &&
            body.notificationsEnabled == JsBool(enabled) && body.onboardingCompleted
  {
  }

  /** The two differ on every profile whose first name is not its nationality code. */
  lemma AsWrittenDiffers(args: ProfileArgs, enabled: bool)
    requires args.firstName != args.code
    ensures ForwardedAsWritten(args, enabled) != ForwardedIntended(args, enabled)
  {
  }

  /** The screen shown at a step; past step 2 only the confetti overlay remains. */
  datatype Screen = Welcome | Notifications | Profile | NoScreen

  function ScreenAt(step: int): Screen {
    if step == 0 then Welcome
    else if step == 1 then Notifications
    else if step == 2 then Profile
    else NoScreen
  }

  /** The step buttons and where each one leads. */
  datatype Button = GetStarted | Skip | Enable

  function Target(b: Button): int {
    match b
    case GetStarted => 1
    case Skip => 2
    case Enable => 2
  }

  function ButtonsOn(s: Screen): set<Button> {
    match s
    case Welcome => {GetStarted}
    case Notifications => {Skip, Enable}
    case _ => {}
  }

  /** Steps only move forward, each button one step on from the screen it is on. */
  lemma StepsMoveForward(step: int, b: Button)
    requires b in ButtonsOn(ScreenAt(step))
    ensures Target(b) == step + 1
    ensures ScreenAt(Target(b)) != ScreenAt(step) && ScreenAt(Target(b)) != Welcome
  {
  }

  /** The onboarding screen's own state; `ctx` is the session it completes. */
  class Flow {
    var step: int
    var notificationsEnabled: bool
    var showConfetti: bool
    const ctx: NativeApp.Session

    constructor (session: NativeApp.Session)
      ensures step == 0 && !notificationsEnabled && !showConfetti && ctx == session
    {
      step := 0;
      notificationsEnabled := false;
      showConfetti := false;
      ctx := session;
    }

    /** "Get Started". */
    method PressGetStarted()
      modifies this
      ensures step == Target(GetStarted)
      ensures notificationsEnabled == old(notificationsEnabled) && showConfetti == old(showConfetti)
    {
      step := 1;
    }

    /** "Skip for now". */
    method PressSkip()
      modifies this
      ensures step == Target(Skip)
      ensures notificationsEnabled == old(notificationsEnabled) && showConfetti == old(showConfetti)
    {
      step := 2;
    }

    /** "Enable Notifications": an answered request records whether it was granted,
        a failed one keeps the old choice; the flow moves on either way. */
    method PressEnable(outcome: PermissionOutcome)
      modifies this
      ensures step == Target(Enable)
      ensures notificationsEnabled == if outcome.Answered? then outcome.status == "granted" else old(notificationsEnabled)
      ensures notificationsEnabled ==> old(notificationsEnabled) || outcome == Answered("granted")
      ensures showConfetti == old(showConfetti)
    {
      if outcome.Answered? {
        notificationsEnabled := outcome.status == "granted";
      }
      step := 2;
    }

    /** handleComplete, as written: the session receives the shifted arguments, then
        the confetti shows whether or not the session call succeeded. */
    method HandleComplete(args: ProfileArgs, postResp: Response<User>, patchResp: Response<User>)
      returns (sent: Option<OnboardingPatch>)
      requires ctx.Valid()
      modifies this, ctx
      ensures ctx.Valid()
      ensures showConfetti && step == old(step) && notificationsEnabled == old(notificationsEnabled)
      ensures sent.Some? <==> postResp.Ok?
      ensures sent.Some? ==> sent.value.nationalityCode == args.firstName &&
                             sent.value.nationality == args.code &&
                             sent.value.notificationsEnabled == JsString(args.name)
      ensures var done := postResp.Ok? && patchResp.Ok?;
              && ctx.user == (if done then Some(patchResp.body) else old(ctx.user))
              && ctx.storedUserId == (if done then Some(postResp.body.id) else old(ctx.storedUserId))
              && ctx.onboardingStep == (if done then 4 else old(ctx.onboardingStep))
              && ctx.showConfetti == (done || old(ctx.showConfetti))
      ensures ctx.trips == old(ctx.trips) && ctx.loading == old(ctx.loading) && ctx.scheduled == old(ctx.scheduled)
    {
      var r := ForwardedAsWritten(args, notificationsEnabled);
      sent := ctx.CompleteOnboarding(r.0, r.1, r.2, postResp, patchResp);
      showConfetti := true;
    }

    /** The evidently intended handleComplete: the chosen code and name and the
        notifications choice reach the session. */
    method HandleCompleteIntended(args: ProfileArgs, postResp: Response<User>, patchResp: Response<User>)
      returns (sent: Option<OnboardingPatch>)
      requires ctx.Valid()
      modifies this, ctx
      ensures ctx.Valid()
      ensures showConfetti && step == old(step) && notificationsEnabled == old(notificationsEnabled)
      ensures sent.Some? <==> postResp.Ok?
      ensures sent.Some? ==> sent.value == OnboardingPatch(args.code, args.name, JsBool(notificationsEnabled), true)
      ensures var done := postResp.Ok? && patchResp.Ok?;
              && ctx.user == (if done then Some(patchResp.body) else old(ctx.user))
              && ctx.storedUserId == (if done then Some(postResp.body.id) else old(ctx.storedUserId))
              && ctx.onboardingStep == (if done then 4 else old(ctx.onboardingStep))
              && ctx.showConfetti == (done || old(ctx.showConfetti))
      ensures ctx.trips == old(ctx.trips) && ctx.loading == old(ctx.loading) && ctx.scheduled == old(ctx.scheduled)
    {
      var r := ForwardedIntended(args, notificationsEnabled);
      sent := ctx.CompleteOnboarding(r.0, r.1, r.2, postResp, patchResp);
      showConfetti := true;
    }
  }
}
