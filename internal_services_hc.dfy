/** The first HC scraper, `GetHCAvailablePeople` in
    `internal/services/hc.go`: one fixed form (centre 2, insurer 3, group 4,
    specialty 16, concept 61), then the option labels of the doctor list,
    unfiltered, in the message. */
module InternalServicesHc {
  import opened Wrappers
  import opened Text
  import opened Browser
  import opened HcScraper

  /** Seconds the page is left to settle after each selection. */
  const LegacySettleSeconds: nat := 3

  const MessageTail: string := "available for specialty ID: 16"
  const NoAppointmentMessage: string := "HC: No appointment " + MessageTail
  const AppointmentHeader: string := "HC: Appointment " + MessageTail

  /** The one `chromedp.Run` script: open the page, fill the five fixed
      selects, wait for the doctor list. Its last action, reading the list,
      is the page's `#profesional` read. */
  function LegacyScript(url: string): seq<Action>
  {
    [Navigate(url)] + Fill(FormFields("2", "3", "4", "16"), LegacySettleSeconds) + [WaitVisible("#profesional")]
  }

  lemma {:induction false} AssignmentsAppend(a: seq<Action>, b: seq<Action>)
    ensures Assignments(a + b) == Assignments(a) + Assignments(b)
  {
    if a != [] {
      assert (a + b)[1..] == a[1..] + b;
      AssignmentsAppend(a[1..], b);
    } else {
      assert a + b == b;
    }
  }

  /** The script opens the page, sets centre "2", insurer "3", group "4",
      specialty "16" and concept "61" in that order, each after a wait for
      its control and before a three-second settle, and ends waiting for
      the doctor list. */
  lemma LegacyScriptOrder(url: string)
    ensures var script := LegacyScript(url);
      && |script| == 17 && script[0] == Navigate(url) && script[16] == WaitVisible("#profesional")
      && Assignments(script)
         == [("#centro", "2"), ("#aseguradora", "3"), ("#colectivo", "4"), ("#especialidad", "16"),
             ("#concepto", "61")]
      && forall k :: 0 <= k < |script| && script[k].SetValue? ==>
           script[k - 1] == WaitVisible(script[k].selector) && script[k + 1] == Sleep(LegacySettleSeconds)
  {
    LegacyAssignments(url);
    LegacySetSteps(url);
  }

  lemma LegacyAssignments(url: string)
    ensures Assignments(LegacyScript(url))
         == [("#centro", "2"), ("#aseguradora", "3"), ("#colectivo", "4"), ("#especialidad", "16"),
             ("#concepto", "61")]
  {
    var fields := FormFields("2", "3", "4", "16");
    var fill := Fill(fields, LegacySettleSeconds);
    AssignmentsOfFill(fields, LegacySettleSeconds);
    AssignmentsAppend([Navigate(url)], fill);
    AssignmentsAppend([Navigate(url)] + fill, [WaitVisible("#profesional")]);
    assert Assignments([WaitVisible("#profesional")]) == [];
    assert Assignments([Navigate(url)]) == [];
  }

  lemma LegacySetSteps(url: string)
    ensures var script := LegacyScript(url);
      && |script| == 17 && script[0] == Navigate(url) && script[16] == WaitVisible("#profesional")
      && forall k :: 0 <= k < |script| && script[k].SetValue? ==>
           script[k - 1] == WaitVisible(script[k].selector) && script[k + 1] == Sleep(LegacySettleSeconds)
  {
    var fill := Fill(FormFields("2", "3", "4", "16"), LegacySettleSeconds);
    var script := LegacyScript(url);
    forall k | 0 <= k < |script| && script[k].SetValue?
      ensures script[k - 1] == WaitVisible(script[k].selector) && script[k + 1] == Sleep(LegacySettleSeconds)
    {
      assert script[k] == fill[k - 1];
    }
  }

  /** The `"\n" + p` lines of the options, in order. */
  function PeopleLines(people: seq<string>): string
  {
    if people == [] then "" else PeopleLines(people[..|people| - 1]) + "\n" + people[|people| - 1]
  }

  /** The message for the option labels read: with more than one option,
      the header and every label on its own line; otherwise the
      "no appointment" text. */
  function PeopleMessage(people: seq<string>): string
  {
    if |people| > 1 then AppointmentHeader + PeopleLines(people) else NoAppointmentMessage
  }

  /** The message loop. */
  method FormatPeople(people: seq<string>) returns (msg: string)
    ensures msg == PeopleMessage(people)
  {
    msg := NoAppointmentMessage;
    if |people| > 1 {
      msg := AppointmentHeader;
      for i := 0 to |people|
        invariant msg == AppointmentHeader + PeopleLines(people[..i])
      {
        assert people[..i + 1][..i] == people[..i];
        msg := msg + "\n" + people[i];
      }
      assert people[..|people|] == people;
    }
  }

  lemma {:induction false} PeopleLinesAsJoin(header: string, people: seq<string>)
    ensures header + PeopleLines(people) == Join([header] + people, "\n")
  {
    if people != [] {
      var init := people[..|people| - 1];
      PeopleLinesAsJoin(header, init);
      JoinSnoc([header] + init, people[|people| - 1], "\n");
      assert [header] + people == [header] + init + [people[|people| - 1]];
    }
  }

  lemma HeadersOneLine()
    ensures '\n' !in NoAppointmentMessage && '\n' !in AppointmentHeader
  {
    var a, b, c := "HC: ", "No appointment ", "Appointment ";
    assert '\n' !in a;
    assert '\n' !in b;
    assert '\n' !in c;
    TailOneLine();
  }

  lemma TailOneLine()
    ensures '\n' !in MessageTail
  {
    var d, e := "available for ", "specialty ID: 16";
    assert '\n' !in d;
    assert '\n' !in e;
    assert MessageTail == d + e;
  }

  /** Read line by line, a message with more than one option is the header
      followed by every option label, in order and unfiltered; otherwise it
      is the single "no appointment" line. */
  lemma PeopleMessageLines(people: seq<string>)
    requires forall i :: 0 <= i < |people| ==> '\n' !in people[i]
    ensures |people| > 1 ==> Split(PeopleMessage(people), '\n') == [AppointmentHeader] + people
    ensures |people| <= 1 ==> Split(PeopleMessage(people), '\n') == [NoAppointmentMessage]
  {
    HeadersOneLine();
    if |people| > 1 {
      var lines := [AppointmentHeader] + people;
      PeopleLinesAsJoin(AppointmentHeader, people);
      assert forall i :: 0 <= i < |lines| ==> '\n' !in lines[i] by {
        forall i | 0 <= i < |lines| ensures '\n' !in lines[i] {
          if i > 0 {
            assert lines[i] == people[i - 1];
          }
        }
      }
      SplitJoin(lines, '\n');
    } else {
      SplitNone(NoAppointmentMessage, '\n');
    }
  }

  /** `GetHCAvailablePeople` as a value: the script's first failure, or the
      list read's failure, unwrapped; otherwise the message. */
  function LegacyResult(a: PageAnswers, url: string): (r: Result<string, DomError>)
    ensures r.Failure? <==> FirstFault(LegacyScript(url), a.fault).Some? || a.professionalOptions.Failure?
    ensures r.Success? ==> r.value == PeopleMessage(a.professionalOptions.value)
    ensures FirstFault(LegacyScript(url), a.fault).Some? ==> r == Failure(FirstFault(LegacyScript(url), a.fault).value)
    ensures FirstFault(LegacyScript(url), a.fault).None? && a.professionalOptions.Failure? ==>
      r == Failure(a.professionalOptions.error)
  {
    match FirstFault(LegacyScript(url), a.fault)
    case Some(e) => Failure(e)
    case None =>
      match a.professionalOptions
      case Failure(e) => Failure(e)
      case Success(people) => Success(PeopleMessage(people))
  }

  /** What the page is asked to do: the script up to its first failure,
      and the list read when the script got through. */
  function LegacyTrace(a: PageAnswers, url: string): seq<Action>
  {
    Executed(LegacyScript(url), a.fault)
    + if FirstFault(LegacyScript(url), a.fault).Some? then [] else [ReadOptions("#profesional")]
  }

  /** `GetHCAvailablePeople` on one browser session. */
  method GetHCAvailablePeople(page: Page, url: string) returns (r: Result<string, DomError>)
    modifies page
    ensures r == LegacyResult(page.answers, url)
    ensures page.trace == old(page.trace) + LegacyTrace(page.answers, url)
  {
    var err := page.Run(LegacyScript(url));
    if err.Some? {
      return Failure(err.value);
    }
    var people := page.ReadProfessionalOptions();
    if people.Failure? {
      return Failure(people.error);
    }
    var msg := FormatPeople(people.value);
    return Success(msg);
  }
}
