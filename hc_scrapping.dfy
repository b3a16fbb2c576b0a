/** One scrape of the HC booking form (internal/services/hc/scrapping.go):
    fill the five dependent selects in order, read the doctors through the
    option list or, on a timeout only, the single-doctor field, check whether
    the date field is read-only, and turn the result into a message. */
module HcScraper {
  import opened Wrappers
  import opened Browser
  import Text

  /** Seconds the page is left to reload after each selection. */
  const SettleSeconds: nat := 5

  /** The consultation concept code the last select always receives. */
  const ConceptCode: string := "61"

  /** For each `(selector, value)`: wait for the control to be visible, set
      its value, then hold the settle delay. Every value is set right after
      its own control became visible and right before a settle delay. */
  function Fill(fields: seq<(string, string)>, settle: nat): (script: seq<Action>)
    ensures |script| == 3 * |fields|
    ensures forall k :: 0 <= k < |script| ==>
      script[k].WaitVisible? || script[k].SetValue? || script[k].Sleep?
    ensures forall k :: 0 <= k < |script| && script[k].SetValue? ==>
      0 < k < |script| - 1 && script[k - 1] == WaitVisible(script[k].selector)
      && script[k + 1] == Sleep(settle)
  {
    if fields == [] then []
    else [WaitVisible(fields[0].0), SetValue(fields[0].0, fields[0].1), Sleep(settle)]
         + Fill(fields[1..], settle)
  }

  /** The `(selector, value)` pairs a script sets, in the order it sets them. */
  function Assignments(script: seq<Action>): seq<(string, string)>
  {
    if script == [] then []
    else (if script[0].SetValue? then [(script[0].selector, script[0].value)] else [])
         + Assignments(script[1..])
  }

  lemma {:induction false} AssignmentsOfFill(fields: seq<(string, string)>, settle: nat)
    ensures Assignments(Fill(fields, settle)) == fields
  {
    if fields != [] {
      var script := Fill(fields, settle);
      var rest := Fill(fields[1..], settle);
      var s1 := [SetValue(fields[0].0, fields[0].1), Sleep(settle)] + rest;
      var s2 := [Sleep(settle)] + rest;
      assert script[1..] == s1 && s1[1..] == s2 && s2[1..] == rest;
      assert Assignments(s2) == Assignments(rest);
      assert Assignments(s1) == [fields[0]] + Assignments(rest);
      assert Assignments(script) == Assignments(s1);
      AssignmentsOfFill(fields[1..], settle);
      assert fields == [fields[0]] + fields[1..];
    }
  }

  /** The selects in the order the page makes them depend on each other. */
  function FormFields(centerID: string, insuranceID: string, groupID: string, specialtyID: string)
    : seq<(string, string)>
  {
    [("#centro", centerID), ("#aseguradora", insuranceID), ("#colectivo", groupID),
     ("#especialidad", specialtyID), ("#concepto", ConceptCode)]
  }

  /** `selectOptions`: open the form, then fill centre, insurer, group,
      specialty and concept, each with a five-second settle. */
  function FormScript(url: string, centerID: string, insuranceID: string, groupID: string,
                      specialtyID: string): seq<Action>
  {
    [Navigate(url)] + Fill(FormFields(centerID, insuranceID, groupID, specialtyID), SettleSeconds)
  }

  /** The form script opens the page first, then sets exactly the five
      selects in dependency order, concept always "61", each set preceded by
      a wait for its control and followed by the settle delay. */
  lemma FormScriptOrder(url: string, centerID: string, insuranceID: string, groupID: string,
                        specialtyID: string)
    ensures var script := FormScript(url, centerID, insuranceID, groupID, specialtyID);
      && |script| == 16 && script[0] == Navigate(url)
      && Assignments(script) == FormFields(centerID, insuranceID, groupID, specialtyID)
      && forall k :: 0 <= k < |script| && script[k].SetValue? ==>
           script[k - 1] == WaitVisible(script[k].selector) && script[k + 1] == Sleep(SettleSeconds)
  {
    var fields := FormFields(centerID, insuranceID, groupID, specialtyID);
    var script := FormScript(url, centerID, insuranceID, groupID, specialtyID);
    AssignmentsOfFill(fields, SettleSeconds);
    assert script[1..] == Fill(fields, SettleSeconds);
  }

  /** An option label is a doctor's name when it holds a comma ("Surname,
      Name"); the others are placeholder texts such as "not available". */
  predicate HasComma(entry: string) { ',' in entry }

  /** The labels that are doctors' names, in the order the list shows them. */
  function Named(labels: seq<string>): (names: seq<string>)
    ensures |names| <= |labels|
    ensures forall k :: 0 <= k < |names| ==> HasComma(names[k])
  {
    if labels == [] then []
    else Named(labels[..|labels| - 1])
         + (if HasComma(labels[|labels| - 1]) then [labels[|labels| - 1]] else [])
  }

  /** Filtering keeps every named label as often as it occurs and nothing else. */
  lemma {:induction false} NamedCount(labels: seq<string>)
    ensures forall d :: multiset(Named(labels))[d] == if HasComma(d) then multiset(labels)[d] else 0
  {
    if labels != [] {
      var init := labels[..|labels| - 1];
      assert labels == init + [labels[|labels| - 1]];
      NamedCount(init);
    }
  }

  /** A single label is kept iff it holds a comma. */
  lemma NamedOne(entry: string)
    ensures Named([entry]) == if HasComma(entry) then [entry] else []
  {
    assert [entry][..0] == [];
  }

  /** Filtering works label by label: the names of a concatenation are the
      names of its first part followed by those of its second, so with
      `NamedOne` the filter keeps the named labels in list order. */
  lemma {:induction false} NamedAppend(xs: seq<string>, ys: seq<string>)
    ensures Named(xs + ys) == Named(xs) + Named(ys)
  {
    if ys == [] {
      assert xs + ys == xs;
    } else {
      var init, last := ys[..|ys| - 1], ys[|ys| - 1];
      var tail := if HasComma(last) then [last] else [];
      assert (xs + ys)[..|xs + ys| - 1] == xs + init;
      assert (xs + ys)[|xs + ys| - 1] == last;
      NamedAppend(xs, init);
      assert Named(xs + ys) == Named(xs) + Named(init) + tail;
      assert Named(xs) + Named(init) + tail == Named(xs) + (Named(init) + tail);
    }
  }

  lemma {:induction false} NamedIdempotent(labels: seq<string>)
    ensures Named(Named(labels)) == Named(labels)
  {
    if labels != [] {
      var init := labels[..|labels| - 1];
      var n := Named(labels);
      var last := labels[|labels| - 1];
      NamedIdempotent(init);
      if HasComma(last) {
        assert n == Named(init) + [last];
        assert n[..|n| - 1] == Named(init) && n[|n| - 1] == last;
      } else {
        assert n == Named(init);
      }
    }
  }

  /** `availableDoctors` as a value: the option list's names when it could be
      read; on a wait timeout, and only then, the single-doctor field, whose
      non-empty value is the one doctor; any other error as it came. */
  function Doctors(a: PageAnswers): (r: Result<seq<string>, DomError>)
    ensures a.professionalOptions.Success? ==> r == Success(Named(a.professionalOptions.value))
    ensures a.professionalOptions.Success? ==> forall d ::
      multiset(r.value)[d] == if HasComma(d) then multiset(a.professionalOptions.value)[d] else 0
    ensures a.professionalOptions.Failure? && a.professionalOptions.error != DeadlineExceeded ==>
      r == Failure(a.professionalOptions.error)
    ensures a.professionalOptions == Failure(DeadlineExceeded) ==>
      && (r.Failure? <==> a.professionalInput.Failure?)
      && (r.Failure? ==> r.error == a.professionalInput.error)
      && (r.Success? ==> |r.value| <= 1 && (r.value == [] <==> a.professionalInput.value == "")
                         && (r.value != [] ==> r.value[0] == a.professionalInput.value))
  {
    match a.professionalOptions
    case Success(labels) =>
      NamedCount(labels);
      Success(Named(labels))
    case Failure(DeadlineExceeded) =>
      (match a.professionalInput
       case Success(single) => Success(if single == "" then [] else [single])
       case Failure(e) => Failure(e))
    case Failure(e) => Failure(e)
  }

  /** The reads `availableDoctors` performs: the option list, and the
      single-doctor field right after it when the list timed out. */
  function DoctorReads(a: PageAnswers): seq<Action>
  {
    [ReadOptions("#profesional")]
    + (if a.professionalOptions == Failure(DeadlineExceeded) then [ReadValue("#profesionaloTX")] else [])
  }

  /** The filter loop of `availableDoctors`: append each label holding a
      comma to `doctors`, in list order. */
  method AppendNamed(doctors: seq<string>, labels: seq<string>) returns (r: seq<string>)
    ensures r == doctors + Named(labels)
  {
    r := doctors;
    var i := 0;
    while i < |labels|
      invariant 0 <= i <= |labels|
      invariant r == doctors + Named(labels[..i])
    {
      assert labels[..i + 1][..i] == labels[..i];
      if ',' in labels[i] {
        r := r + [labels[i]];
      }
      i := i + 1;
    }
    assert labels[..|labels|] == labels;
  }

  /** `availableDoctors`: the primary/fallback rule, then the comma filter. */
  method AvailableDoctors(page: Page) returns (r: Result<seq<string>, DomError>)
    modifies page
    ensures r == Doctors(page.answers)
    ensures page.trace == old(page.trace) + DoctorReads(page.answers)
  {
    var doctors: seq<string> := [];
    var labels: seq<string> := [];
    var primary := page.ReadProfessionalOptions();
    if primary.Failure? {
      if primary.error != DeadlineExceeded {
        return Failure(primary.error);
      }
      var single := page.ReadProfessionalInput();
      if single.Failure? {
        return Failure(single.error);
      }
      if single.value == "" {
        return Success([]);
      }
      doctors := doctors + [single.value];
      assert Named(labels) == [];
    } else {
      labels := primary.value;
    }
    doctors := AppendNamed(doctors, labels);
    assert doctors == if primary.Success? then Named(primary.value) else [page.answers.professionalInput.value];
    return Success(doctors);
  }

  /** `isDatePickerEnabled`: the date field accepts a date exactly when it is
      not read-only; a failed read is passed on. */
  method IsDatePickerEnabled(page: Page) returns (r: Result<bool, DomError>)
    modifies page
    ensures r.Success? <==> page.answers.dayReadOnly.Success?
    ensures r.Success? ==> r.value == !page.answers.dayReadOnly.value
    ensures r.Failure? ==> r.error == page.answers.dayReadOnly.error
    ensures page.trace == old(page.trace) + [ReadReadOnly("#dia")]
  {
    var readOnly := page.ReadDayReadOnly();
    if readOnly.Failure? {
      return Failure(readOnly.error);
    }
    return Success(!readOnly.value);
  }

  /** What one scrape found. */
  datatype Outcome =
    | NoDoctorsAvailable
    | DoctorsAvailableNoDates(names: seq<string>)
    | DoctorsAvailableWithDates(names: seq<string>)

  /** The notification text for an outcome; the names go on one line,
      separated by ", ". */
  function Message(o: Outcome, centerID: string, specialtyID: string): string
  {
    match o
    case NoDoctorsAvailable =>
      "🔴 HC: No doctors available for center " + centerID + " - specialty " + specialtyID
    case DoctorsAvailableNoDates(_) =>
      "🔴 HC: no dates available for center " + centerID + " - specialty " + specialtyID
    case DoctorsAvailableWithDates(names) =>
      "🎉 HC: doctors available for center " + centerID + " - specialty " + specialtyID + ": "
      + Text.Join(names, ", ")
  }

  /** `scrap` as a value: the decision chain over what the page answered. */
  function ScrapOutcome(a: PageAnswers, url: string, centerID: string, insuranceID: string,
                        groupID: string, specialtyID: string): (r: Result<Outcome, string>)
    ensures r.Failure? ==> "HC: error " <= r.error
    ensures r == Success(NoDoctorsAvailable) <==>
      FirstFault(FormScript(url, centerID, insuranceID, groupID, specialtyID), a.fault).None?
      && Doctors(a) == Success([])
    ensures r.Success? && !r.value.NoDoctorsAvailable? ==>
      && Doctors(a) == Success(r.value.names) && r.value.names != []
      && a.dayReadOnly == Success(r.value.DoctorsAvailableNoDates?)
    ensures r.Failure? <==>
      || FirstFault(FormScript(url, centerID, insuranceID, groupID, specialtyID), a.fault).Some?
      || Doctors(a).Failure? || (Doctors(a).value != [] && a.dayReadOnly.Failure?)
    ensures var e := FirstFault(FormScript(url, centerID, insuranceID, groupID, specialtyID), a.fault);
      e.Some? ==> r == Failure("HC: error selecting form options: " + ErrorText(e.value))
    ensures FirstFault(FormScript(url, centerID, insuranceID, groupID, specialtyID), a.fault).None?
            && Doctors(a).Success? && Doctors(a).value != [] && a.dayReadOnly.Success? ==>
      r == Success(if a.dayReadOnly.value then DoctorsAvailableNoDates(Doctors(a).value)
                   else DoctorsAvailableWithDates(Doctors(a).value))
    ensures FirstFault(FormScript(url, centerID, insuranceID, groupID, specialtyID), a.fault).None? ==>
      r == FilledOutcome(a)
  {
    match FirstFault(FormScript(url, centerID, insuranceID, groupID, specialtyID), a.fault)
    case Some(e) => Failure("HC: error selecting form options: " + ErrorText(e))
    case None => FilledOutcome(a)
  }

  /** The rest of `scrap` once the form is filled: the doctors, then the
      date field when there are any. */
  function FilledOutcome(a: PageAnswers): (r: Result<Outcome, string>)
    ensures r.Failure? ==> "HC: error " <= r.error
    ensures r == Success(NoDoctorsAvailable) <==> Doctors(a) == Success([])
    ensures r.Success? && !r.value.NoDoctorsAvailable? ==>
      && Doctors(a) == Success(r.value.names) && r.value.names != []
      && a.dayReadOnly == Success(r.value.DoctorsAvailableNoDates?)
    ensures r.Failure? <==> Doctors(a).Failure? || (Doctors(a).value != [] && a.dayReadOnly.Failure?)
    ensures Doctors(a).Failure? ==>
      r == Failure("HC: error getting available doctors: " + ErrorText(Doctors(a).error))
    ensures Doctors(a).Success? && Doctors(a).value != [] && a.dayReadOnly.Failure? ==>
      r == Failure("HC: error checking date picker: " + ErrorText(a.dayReadOnly.error))
    ensures Doctors(a).Success? && Doctors(a).value != [] && a.dayReadOnly.Success? ==>
      r == Success(if a.dayReadOnly.value then DoctorsAvailableNoDates(Doctors(a).value)
                   else DoctorsAvailableWithDates(Doctors(a).value))
  {
    match Doctors(a)
    case Failure(e) => Failure("HC: error getting available doctors: " + ErrorText(e))
    case Success(names) =>
      if names == [] then Success(NoDoctorsAvailable)
      else
        match a.dayReadOnly
        case Failure(e) => Failure("HC: error checking date picker: " + ErrorText(e))
        case Success(readOnly) =>
          if readOnly then Success(DoctorsAvailableNoDates(names))
          else Success(DoctorsAvailableWithDates(names))
  }

  /** `scrap`'s result: the outcome's message, or the wrapped error. */
  function ScrapResult(a: PageAnswers, url: string, centerID: string, insuranceID: string,
                       groupID: string, specialtyID: string): Result<string, string>
  {
    match ScrapOutcome(a, url, centerID, insuranceID, groupID, specialtyID)
    case Success(o) => Success(Message(o, centerID, specialtyID))
    case Failure(e) => Failure(e)
  }

  /** Everything one scrape does to its page, in order. */
  function ScrapTrace(a: PageAnswers, url: string, centerID: string, insuranceID: string,
                      groupID: string, specialtyID: string): seq<Action>
  {
    var script := FormScript(url, centerID, insuranceID, groupID, specialtyID);
    Executed(script, a.fault) + if FirstFault(script, a.fault).Some? then [] else AfterForm(a)
  }

  /** The reads after a filled form: the doctors, then the date field if any
      doctor was found. */
  function AfterForm(a: PageAnswers): seq<Action>
  {
    DoctorReads(a) + if Doctors(a).Success? && Doctors(a).value != [] then [ReadReadOnly("#dia")] else []
  }

  /** `scrap` on one browser session. */
  method Scrap(page: Page, url: string, centerID: string, insuranceID: string, groupID: string,
               specialtyID: string) returns (r: Result<string, string>)
    modifies page
    ensures r == ScrapResult(page.answers, url, centerID, insuranceID, groupID, specialtyID)
    ensures page.trace == old(page.trace)
                          + ScrapTrace(page.answers, url, centerID, insuranceID, groupID, specialtyID)
  {
    var formError := page.Run(FormScript(url, centerID, insuranceID, groupID, specialtyID));
    if formError.Some? {
      return Failure("HC: error selecting form options: " + ErrorText(formError.value));
    }
    ghost var filled := page.trace;
    var outcome := ReadFilledForm(page);
    assert ScrapOutcome(page.answers, url, centerID, insuranceID, groupID, specialtyID) == outcome;
    assert page.trace == old(page.trace) + (filled[|old(page.trace)|..] + AfterForm(page.answers));
    if outcome.Failure? {
      return Failure(outcome.error);
    }
    return Success(Message(outcome.value, centerID, specialtyID));
  }

  /** The reads `scrap` makes on a filled form. */
  method ReadFilledForm(page: Page) returns (r: Result<Outcome, string>)
    modifies page
    ensures r == FilledOutcome(page.answers)
    ensures page.trace == old(page.trace) + AfterForm(page.answers)
  {
    var list := AvailableDoctors(page);
    if list.Failure? {
      return Failure("HC: error getting available doctors: " + ErrorText(list.error));
    }
    if |list.value| == 0 {
      return Success(NoDoctorsAvailable);
    }
    var enabled := IsDatePickerEnabled(page);
    if enabled.Failure? {
      return Failure("HC: error checking date picker: " + ErrorText(enabled.error));
    }
    if !enabled.value {
      return Success(DoctorsAvailableNoDates(list.value));
    }
    return Success(DoctorsAvailableWithDates(list.value));
  }

  /** Which of the three messages a text is, read from its fixed prefix. */
  datatype Kind = NoDoctors | NoDates | WithDates

  function KindOf(o: Outcome): Kind
  {
    match o
    case NoDoctorsAvailable => NoDoctors
    case DoctorsAvailableNoDates(_) => NoDates
    case DoctorsAvailableWithDates(_) => WithDates
  }

  function Classify(msg: string): Option<Kind>
  {
    if "🎉 HC: doctors available for center " <= msg then Some(WithDates)
    else if "🔴 HC: No doctors available for center " <= msg then Some(NoDoctors)
    else if "🔴 HC: no dates available for center " <= msg then Some(NoDates)
    else None
  }

  /** The three messages are told apart by their prefixes alone, whatever
      the centre, specialty and names. */
  lemma ClassifyMessage(o: Outcome, centerID: string, specialtyID: string)
    ensures Classify(Message(o, centerID, specialtyID)) == Some(KindOf(o))
  {
    var msg := Message(o, centerID, specialtyID);
    var p1, p2, p3 := "🎉 HC: doctors available for center ", "🔴 HC: No doctors available for center ",
                      "🔴 HC: no dates available for center ";
    match o
    case NoDoctorsAvailable =>
      assert msg == p2 + (centerID + " - specialty " + specialtyID);
      assert msg[0] != p1[0];
    case DoctorsAvailableNoDates(_) =>
      assert msg == p3 + (centerID + " - specialty " + specialtyID);
      assert msg[0] != p1[0] && msg[6] != p2[6];
    case DoctorsAvailableWithDates(names) =>
      assert msg == p1 + (centerID + " - specialty " + specialtyID + ": " + Text.Join(names, ", "));
  }

  lemma NoReadsInForm(url: string, centerID: string, insuranceID: string, groupID: string,
                      specialtyID: string, fault: nat -> Option<DomError>)
    ensures var done := Executed(FormScript(url, centerID, insuranceID, groupID, specialtyID), fault);
      forall k :: 0 <= k < |done| ==> done[k].Navigate? || done[k].WaitVisible? || done[k].SetValue? || done[k].Sleep?
  {
    var script := FormScript(url, centerID, insuranceID, groupID, specialtyID);
    var fields := FormFields(centerID, insuranceID, groupID, specialtyID);
    assert forall k :: 1 <= k < |script| ==> script[k] == Fill(fields, SettleSeconds)[k - 1];
  }

  /** The single-doctor field is read exactly once when the form was filled
      and the option list timed out, and never otherwise. */
  lemma FallbackReadOnlyOnTimeout(a: PageAnswers, url: string, centerID: string, insuranceID: string,
                                  groupID: string, specialtyID: string)
    ensures multiset(ScrapTrace(a, url, centerID, insuranceID, groupID, specialtyID))[ReadValue("#profesionaloTX")]
         == if FirstFault(FormScript(url, centerID, insuranceID, groupID, specialtyID), a.fault).None?
               && a.professionalOptions == Failure(DeadlineExceeded) then 1 else 0
  {
    var script := FormScript(url, centerID, insuranceID, groupID, specialtyID);
    var done := Executed(script, a.fault);
    var x := ReadValue("#profesionaloTX");
    assert x !in done by {
      NoReadsInForm(url, centerID, insuranceID, groupID, specialtyID, a.fault);
    }
    if FirstFault(script, a.fault).Some? {
      CountAfter(done, [], x);
    } else {
      CountAfter(done, AfterForm(a), x);
    }
    AfterFormFallbackCount(a);
  }

  lemma CountAfter(done: seq<Action>, tail: seq<Action>, x: Action)
    requires x !in done
    ensures multiset(done + tail)[x] == multiset(tail)[x]
  {
    assert multiset(done + tail) == multiset(done) + multiset(tail);
  }

  lemma AfterFormFallbackCount(a: PageAnswers)
    ensures multiset(AfterForm(a))[ReadValue("#profesionaloTX")]
         == if a.professionalOptions == Failure(DeadlineExceeded) then 1 else 0
  {
    var x := ReadValue("#profesionaloTX");
    var date := if Doctors(a).Success? && Doctors(a).value != [] then [ReadReadOnly("#dia")] else [];
    assert multiset(DoctorReads(a) + date)[x] == multiset(DoctorReads(a))[x] + multiset(date)[x];
  }

  /** The date field is read exactly when the form was filled and at least
      one doctor was found: with no doctors the date check is skipped. */
  lemma DatePickerReadOnlyWithDoctors(a: PageAnswers, url: string, centerID: string, insuranceID: string,
                                      groupID: string, specialtyID: string)
    ensures ReadReadOnly("#dia") in ScrapTrace(a, url, centerID, insuranceID, groupID, specialtyID)
        <==> FirstFault(FormScript(url, centerID, insuranceID, groupID, specialtyID), a.fault).None?
             && Doctors(a).Success? && Doctors(a).value != []
  {
    var done := Executed(FormScript(url, centerID, insuranceID, groupID, specialtyID), a.fault);
    NoReadsInForm(url, centerID, insuranceID, groupID, specialtyID, a.fault);
    assert ReadReadOnly("#dia") !in done;
  }
}
