/** The web client's trip forms: the add-trip modal (validation, the extensions
    field, saving and resetting) and the requirements screen's verdict handling
    (what a verdict shows, which visa type it proposes, the prefill it hands to
    the modal). A date field is None while empty. */
module TripForm {
  import opened Seqs
  import opened Text
  import opened Records

  const VisaTypes: seq<string> := ["Visa-Free", "Tourist Visa", "Business Visa", "eVisa", "Visa on Arrival"]

  /** The form fields that can carry an error. */
  datatype Field = CountryField | VisaTypeField | EntryDateField | ExitDateField

  const CountryMissing: string := "Please select a country"
  const VisaTypeMissing: string := "Please select a visa type"
  const EntryMissing: string := "Please select an entry date"
  const ExitMissing: string := "Please select an exit date"
  const ExitNotAfterEntry: string := "Exit date must be after entry date"

  /** The form can be saved: everything chosen and the exit strictly after the entry. */
  predicate Complete(countryCode: string, visaType: string, entry: Option<int>, exit: Option<int>) {
    countryCode != "" && visaType != "" && entry.Some? && exit.Some? && exit.value > entry.value
  }

  /** The messages validate records for these field values: one per missing field,
      and on the exit date when both dates are set but the exit is not after the entry. */
  predicate Reports(errors: map<Field, string>, countryCode: string, visaType: string,
                    entry: Option<int>, exit: Option<int>) {
    && (CountryField in errors <==> countryCode == "")
    && (VisaTypeField in errors <==> visaType == "")
    && (EntryDateField in errors <==> entry.None?)
    && (ExitDateField in errors <==> exit.None? || (entry.Some? && exit.value <= entry.value))
    && (CountryField in errors ==> errors[CountryField] == CountryMissing)
    && (VisaTypeField in errors ==> errors[VisaTypeField] == VisaTypeMissing)
    && (EntryDateField in errors ==> errors[EntryDateField] == EntryMissing)
    && (ExitDateField in errors ==>
          errors[ExitDateField] == if exit.None? then ExitMissing else ExitNotAfterEntry)
  }

  /** validate: record the messages for the current values; the form is valid exactly
      when no message was recorded. */
  method Validate(countryCode: string, visaType: string, entry: Option<int>, exit: Option<int>)
    returns (errors: map<Field, string>, valid: bool)
    ensures valid <==> Complete(countryCode, visaType, entry, exit)
    ensures valid <==> errors == map[]
    ensures Reports(errors, countryCode, visaType, entry, exit)
  {
    errors := map[];
    if countryCode == "" {
      errors := errors[CountryField := CountryMissing];
    }
    if visaType == "" {
      errors := errors[VisaTypeField := VisaTypeMissing];
    }
    if entry.None? {
      errors := errors[EntryDateField := EntryMissing];
    }
    if exit.None? {
      errors := errors[ExitDateField := ExitMissing];
    }
    if entry.Some? && exit.Some? && exit.value <= entry.value {
      errors := errors[ExitDateField := ExitNotAfterEntry];
    }
    valid := |errors| == 0;
    if !valid {
      assert errors.Keys != {};
      var f :| f in errors.Keys;
    }
  }

  /** The extensions input's handler: parseInt of the text, 0 when that is NaN or 0,
      then clamped to 0..9. */
  function ExtensionsFromInput(input: string): (n: int)
    ensures 0 <= n <= 9
    ensures ParseInt(input).None? ==> n == 0
    ensures ParseInt(input).Some? ==> n == if ParseInt(input).value < 0 then 0
                                           else if ParseInt(input).value > 9 then 9
                                           else ParseInt(input).value
  {
    var parsed := match ParseInt(input) case None => 0 case Some(v) => v;
    var atLeastZero := if parsed > 0 then parsed else 0;
    if atLeastZero < 9 then atLeastZero else 9
  }

  /** The field shows what it holds: typing a number the field displays gives it back,
      larger numbers stop at 9, and a typed negative number gives 0. */
  lemma ExtensionsOfTypedNumber(n: nat)
    ensures ExtensionsFromInput(NatToString(n)) == if n <= 9 then n else 9
    ensures ExtensionsFromInput("-" + NatToString(n)) == 0
  {
    ParseIntOfNatToString(n);
    var s := NatToString(n);
    var m := "-" + s;
    assert !IsWhitespace(m[0]);
    assert TrimStart(m) == m;
    assert m[1..] == s;
    DigitPrefixOfDigits(s);
  }

  /** Text with no digit where parseInt looks for one gives 0. */
  lemma ExtensionsOfNonNumber(input: string)
    requires forall i :: 0 <= i < |input| ==> !IsDigit(input[i])
    ensures ExtensionsFromInput(input) == 0
  {
    var t := TrimStart(input);
    assert forall i :: 0 <= i < |t| ==> t[i] == input[|input| - |t| + i];
  }

  /** The fields the requirements screen hands to the modal; a date is None when empty. */
  datatype Prefill = Prefill(country: string, countryCode: string, visaType: string,
                             entryDate: Option<int>, exitDate: Option<int>)

  /** The add-trip modal's own fields. */
  class AddTripModal {
    var country: string
    var countryCode: string
    var visaType: string
    var entryDate: Option<int>
    var exitDate: Option<int>
    var extensions: int
    var errors: map<Field, string>

    /** The initial fields: the prefill's, or empty ones. */
    constructor (prefill: Option<Prefill>)
      ensures prefill.Some? ==> country == prefill.value.country && countryCode == prefill.value.countryCode &&
                                visaType == prefill.value.visaType && entryDate == prefill.value.entryDate &&
                                exitDate == prefill.value.exitDate
      ensures prefill.None? ==> country == "" && countryCode == "" && visaType == "" &&
                                entryDate.None? && exitDate.None?
      ensures extensions == 0 && errors == map[]
    {
      if prefill.Some? {
        country, countryCode, visaType := prefill.value.country, prefill.value.countryCode, prefill.value.visaType;
        entryDate, exitDate := prefill.value.entryDate, prefill.value.exitDate;
      } else {
        country, countryCode, visaType := "", "", "";
        entryDate, exitDate := None, None;
      }
      extensions := 0;
      errors := map[];
    }

    /** A new prefill overwrites the five prefilled fields and keeps the rest. */
    method ApplyPrefill(p: Prefill)
      modifies this
      ensures country == p.country && countryCode == p.countryCode && visaType == p.visaType
      ensures entryDate == p.entryDate && exitDate == p.exitDate
      ensures extensions == old(extensions) && errors == old(errors)
    {
      country, countryCode, visaType := p.country, p.countryCode, p.visaType;
      entryDate, exitDate := p.entryDate, p.exitDate;
    }

    /** Typing in the extensions field. */
    method SetExtensions(input: string)
      modifies this
      ensures extensions == ExtensionsFromInput(input)
      ensures 0 <= extensions <= 9
      ensures country == old(country) && countryCode == old(countryCode) && visaType == old(visaType)
      ensures entryDate == old(entryDate) && exitDate == old(exitDate) && errors == old(errors)
    {
      extensions := ExtensionsFromInput(input);
    }

    /** handleSave: record the validation messages; when the form is complete, hand
        the trip to the caller and clear every field (the messages stay). */
    method Save() returns (saved: Option<TripDraft>)
      modifies this
      ensures saved.Some? <==> Complete(old(countryCode), old(visaType), old(entryDate), old(exitDate))
      ensures saved.Some? ==>
                saved.value == TripDraft(old(country), old(countryCode), old(visaType),
                                         old(entryDate).value, old(exitDate).value, Some(old(extensions)))
      ensures saved.Some? ==> country == "" && countryCode == "" && visaType == "" &&
                              entryDate.None? && exitDate.None? && extensions == 0 && errors == map[]
      ensures saved.None? ==> country == old(country) && countryCode == old(countryCode) &&
                              visaType == old(visaType) && entryDate == old(entryDate) &&
                              exitDate == old(exitDate) && extensions == old(extensions) && errors != map[]
      ensures Reports(errors, old(countryCode), old(visaType), old(entryDate), old(exitDate))
    {
      var e, valid := Validate(countryCode, visaType, entryDate, exitDate);
      errors := e;
      if !valid {
        return None;
      }
      saved := Some(TripDraft(country, countryCode, visaType, entryDate.value, exitDate.value, Some(extensions)));
      country, countryCode, visaType := "", "", "";
      entryDate, exitDate := None, None;
      extensions := 0;
    }
  }

  /** handleAddToTracker's visa type: the three verdicts that are visa types of their
      own map onto them; every other verdict, and no result at all, gives "Tourist Visa". */
  function VisaTypeFor(verdict: Option<string>): (v: string)
    ensures v in VisaTypes && v != "Business Visa"
    ensures v == "Visa-Free" <==> verdict == Some("visa_free")
    ensures v == "eVisa" <==> verdict == Some("evisa")
    ensures v == "Visa on Arrival" <==> verdict == Some("visa_on_arrival")
    ensures v == "Tourist Visa" <==> verdict !in {Some("visa_free"), Some("evisa"), Some("visa_on_arrival")}
  {
    if verdict == Some("visa_free") then "Visa-Free"
    else if verdict == Some("evisa") then "eVisa"
    else if verdict == Some("visa_on_arrival") then "Visa on Arrival"
    else "Tourist Visa"
  }

  /** handleAddToTracker: without both dates nothing is handed on (the user is asked
      for dates); otherwise the destination, the proposed visa type and the dates. */
  function AddToTracker(verdict: Option<string>, startDate: Option<int>, endDate: Option<int>,
                        destinationName: string, destinationCode: string): (p: Option<Prefill>)
    ensures p.None? <==> startDate.None? || endDate.None?
    ensures p.Some? ==> p.value == Prefill(destinationName, destinationCode, VisaTypeFor(verdict), startDate, endDate)
  {
    if startDate.None? || endDate.None? then None
    else Some(Prefill(destinationName, destinationCode, VisaTypeFor(verdict), startDate, endDate))
  }

  /** A prefill from the requirements screen already has a visa type, so the only
      messages a save can give are about the dates. */
  lemma PrefillNeedsOnlyDates(verdict: Option<string>, s: int, e: int, name: string, code: string)
    requires code != ""
    ensures var p := AddToTracker(verdict, Some(s), Some(e), name, code).value;
            Complete(p.countryCode, p.visaType, p.entryDate, p.exitDate) <==> e > s
  {
  }

  /** What the verdict card shows. */
  datatype Display = Display(icon: string, title: string, color: string)

  const UnknownDisplay: Display := Display("\U{2753}", "Requirements Unknown", "#6b7280")

  /** The verdict table's own entries. */
  function VerdictEntry(verdict: string): Option<Display> {
    if verdict == "visa_free" then Some(Display("\U{2713}", "No visa required", "#10b981"))
    else if verdict == "evisa" then Some(Display("\U{1F4F1}", "eVisa Required", "#0000ee"))
    else if verdict == "visa_on_arrival" then Some(Display("\U{1F6EC}", "Visa on Arrival", "#f59e0b"))
    else if verdict == "embassy_visa" then Some(Display("\U{1F3DB}\U{FE0F}", "Embassy Visa Required", "#ef4444"))
    else if verdict == "unknown" then Some(UnknownDisplay)
    else if verdict == "error" then Some(Display("\U{26A0}\U{FE0F}", "Error", "#ef4444"))
    else None
  }

  /** getVerdictDisplay: nothing before a check; a verdict the table does not know
      falls back to the "unknown" entry. */
  function VerdictDisplay(verdict: Option<string>): (d: Option<Display>)
    ensures d.None? <==> verdict.None?
    ensures verdict.Some? && VerdictEntry(verdict.value).Some? ==> d == VerdictEntry(verdict.value)
    ensures verdict.Some? && VerdictEntry(verdict.value).None? ==> d == Some(UnknownDisplay)
  {
    match verdict
    case None => None
    case Some(v) => match VerdictEntry(v) case Some(e) => Some(e) case None => Some(UnknownDisplay)
  }

  /** The fallback is visible: a checked verdict shows "Requirements Unknown" exactly when
      it is "unknown" or not one of the table's six verdicts, and every verdict gets a
      title of its own otherwise. */
  lemma VerdictDisplayFallback(v: string)
    ensures VerdictDisplay(Some(v)).value.title == "Requirements Unknown" <==>
              v !in {"visa_free", "evisa", "visa_on_arrival", "embassy_visa", "error"}
  {
  }

  /** The verdict the screen holds after checkRequirements: unchanged when either code
      is missing (no request is made), the backend's verdict on success, and "error"
      when the call fails in any way. */
  function VerdictAfterCheck(previous: Option<string>, nationalityCode: string, destinationCode: string,
                             resp: Response<string>): (v: Option<string>)
    ensures nationalityCode == "" || destinationCode == "" ==> v == previous
    ensures nationalityCode != "" && destinationCode != "" ==>
              v == Some(if resp.Ok? then resp.body else "error")
  {
    if nationalityCode == "" || destinationCode == "" then previous
    else if resp.Ok? then Some(resp.body)
    else Some("error")
  }

  /** A failed check shows the error card and proposes a tourist visa. */
  lemma FailedCheckShowsError(previous: Option<string>, n: string, d: string, resp: Response<string>)
    requires n != "" && d != "" && !resp.Ok?
    ensures VerdictDisplay(VerdictAfterCheck(previous, n, d, resp)).value.title == "Error"
    ensures VisaTypeFor(VerdictAfterCheck(previous, n, d, resp)) == "Tourist Visa"
  {
  }
}
