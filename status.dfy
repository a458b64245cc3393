/** The status classifier: the colour and the label shown for a number of days
    left before a visa runs out. The web client repeats both ladders verbatim,
    with the same hex values, so one definition models both copies. */
module Status {

  const SuccessColor: string := "#10b981"
  const WarningColor: string := "#f59e0b"
  const UrgentColor: string := "#fb923c"
  const CriticalColor: string := "#ef4444"

  const OnTrackText: string := "On Track"
  const PlanExitText: string := "Plan Exit Soon"
  const UrgentText: string := "Urgent: Exit Soon"
  const CriticalText: string := "CRITICAL: Exit Now"
  const ExpiredText: string := "EXPIRED TODAY"

  /** getStatusColor: a four-step ladder on `daysLeft`, any integer. */
  function StatusColor(daysLeft: int): (c: string)
    ensures c in {SuccessColor, WarningColor, UrgentColor, CriticalColor}
    ensures c == SuccessColor <==> daysLeft >= 14
    ensures c == WarningColor <==> 7 <= daysLeft < 14
    ensures c == UrgentColor <==> 3 <= daysLeft < 7
    ensures c == CriticalColor <==> daysLeft < 3
  {
    if daysLeft >= 14 then SuccessColor
    else if daysLeft >= 7 then WarningColor
    else if daysLeft >= 3 then UrgentColor
    else CriticalColor
  }

  /** getStatusText: a five-step ladder on `daysLeft`, any integer. */
  function StatusText(daysLeft: int): (t: string)
    ensures t in {OnTrackText, PlanExitText, UrgentText, CriticalText, ExpiredText}
    ensures t == OnTrackText <==> daysLeft >= 14
    ensures t == PlanExitText <==> 7 <= daysLeft < 14
    ensures t == UrgentText <==> 3 <= daysLeft < 7
    ensures t == CriticalText <==> 1 <= daysLeft < 3
    ensures t == ExpiredText <==> daysLeft < 1
  {
    if daysLeft >= 14 then OnTrackText
    else if daysLeft >= 7 then PlanExitText
    else if daysLeft >= 3 then UrgentText
    else if daysLeft >= 1 then CriticalText
    else ExpiredText
  }

  /** How severe a colour is, 0 (on track) to 3 (critical). */
  function ColorSeverity(c: string): nat {
    if c == SuccessColor then 0
    else if c == WarningColor then 1
    else if c == UrgentColor then 2
    else 3
  }

  /** How severe a label is, 0 (on track) to 4 (expired). */
  function TextSeverity(t: string): nat {
    if t == OnTrackText then 0
    else if t == PlanExitText then 1
    else if t == UrgentText then 2
    else if t == CriticalText then 3
    else 4
  }

  /** More days left never gives a more severe colour. */
  lemma ColorMonotone(d1: int, d2: int)
    requires d1 <= d2
    ensures ColorSeverity(StatusColor(d2)) <= ColorSeverity(StatusColor(d1))
  {
  }

  /** More days left never gives a more severe label. */
  lemma TextMonotone(d1: int, d2: int)
    requires d1 <= d2
    ensures TextSeverity(StatusText(d2)) <= TextSeverity(StatusText(d1))
  {
  }

  /** The two ladders agree: the two most severe labels share the critical colour,
      and the other three labels each have a colour of their own. */
  lemma ColorMatchesText(d: int)
    ensures StatusText(d) in {CriticalText, ExpiredText} <==> StatusColor(d) == CriticalColor
    ensures StatusText(d) == OnTrackText <==> StatusColor(d) == SuccessColor
    ensures StatusText(d) == PlanExitText <==> StatusColor(d) == WarningColor
    ensures StatusText(d) == UrgentText <==> StatusColor(d) == UrgentColor
    ensures ColorSeverity(StatusColor(d)) == if TextSeverity(StatusText(d)) == 4 then 3 else TextSeverity(StatusText(d))
  {
  }
}
