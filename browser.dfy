/** The headless-browser session as the scrapers drive it: a page that answers
    actions and DOM reads, and remembers every action it was asked to do.
    Which action fails, and what each read returns, are inputs: the real
    answers come from a remote web form. */
module Browser {
  import opened Wrappers

  /** A failed browser action: the bounded wait ran out (Go's
      `context.DeadlineExceeded`) or something else went wrong. */
  datatype DomError = DeadlineExceeded | Fault(msg: string)

  /** The error's text as `%w` prints it. */
  function ErrorText(e: DomError): string
  {
    match e
    case DeadlineExceeded => "context deadline exceeded"
    case Fault(msg) => msg
  }

  /** One step a scraper asks of the page: the scripted `chromedp` actions,
      and the three reads of the doctor list, the single-doctor field and the
      date field's `readOnly` flag. */
  datatype Action =
    | Navigate(url: string)
    | WaitVisible(selector: string)
    | SetValue(selector: string, value: string)
    | Sleep(seconds: nat)
    | ReadOptions(selector: string)
    | ReadValue(selector: string)
    | ReadReadOnly(selector: string)

  /** How one page answers: the error, if any, the action at each position
      of the script run on it ends in (so the same action, a settle delay
      say, can succeed at one position and fail at another), the labels of
      the `#profesional` options, the value of the `#profesionaloTX` field
      and the `readOnly` flag of the `#dia` field. */
  datatype PageAnswers = PageAnswers(
    fault: nat -> Option<DomError>,
    professionalOptions: Result<seq<string>, DomError>,
    professionalInput: Result<string, DomError>,
    dayReadOnly: Result<bool, DomError>)

  /** The actions of `script` from position `from` on that a run gets
      through: up to and including the first that fails, or all of them. */
  function ExecutedFrom(script: seq<Action>, fault: nat -> Option<DomError>, from: nat): (done: seq<Action>)
    requires from <= |script|
    ensures done <= script[from..]
    ensures |done| >= 1 <==> from < |script|
    decreases |script| - from
  {
    if from == |script| then []
    else [script[from]] + (if fault(from).Some? then [] else ExecutedFrom(script, fault, from + 1))
  }

  /** The actions a script gets through. */
  function Executed(script: seq<Action>, fault: nat -> Option<DomError>): (done: seq<Action>)
    ensures done <= script
    ensures |done| >= 1 <==> |script| >= 1
  {
    ExecutedFrom(script, fault, 0)
  }

  /** The error of the first failing action at or after position `from`. */
  function FirstFaultFrom(script: seq<Action>, fault: nat -> Option<DomError>, from: nat): (e: Option<DomError>)
    requires from <= |script|
    ensures e.None? ==> ExecutedFrom(script, fault, from) == script[from..]
    decreases |script| - from
  {
    if from == |script| then None
    else if fault(from).Some? then fault(from)
    else FirstFaultFrom(script, fault, from + 1)
  }

  /** The error `chromedp.Run` reports for a script: that of its first failing action. */
  function FirstFault(script: seq<Action>, fault: nat -> Option<DomError>): (e: Option<DomError>)
    ensures e.None? ==> Executed(script, fault) == script
  {
    FirstFaultFrom(script, fault, 0)
  }

  lemma {:induction false} FailsAtFrom(script: seq<Action>, i: nat, fault: nat -> Option<DomError>, from: nat)
    requires from <= i < |script|
    requires forall k :: from <= k < i ==> fault(k).None?
    requires fault(i).Some?
    ensures ExecutedFrom(script, fault, from) == script[from..i + 1]
    ensures FirstFaultFrom(script, fault, from) == fault(i)
    decreases i - from
  {
    if from < i {
      assert fault(from).None?;
      FailsAtFrom(script, i, fault, from + 1);
      assert script[from..i + 1] == [script[from]] + script[from + 1..i + 1];
    } else {
      assert script[from..i + 1] == [script[from]];
    }
  }

  /** A script whose first `i` actions succeed and whose action `i` fails
      gets through exactly `i + 1` actions and reports that failure. */
  lemma FailsAt(script: seq<Action>, i: nat, fault: nat -> Option<DomError>)
    requires i < |script|
    requires forall k :: 0 <= k < i ==> fault(k).None?
    requires fault(i).Some?
    ensures Executed(script, fault) == script[..i + 1]
    ensures FirstFault(script, fault) == fault(i)
  {
    FailsAtFrom(script, i, fault, 0);
  }

  lemma {:induction false} NeverFailsFrom(script: seq<Action>, fault: nat -> Option<DomError>, from: nat)
    requires from <= |script|
    requires forall k :: from <= k < |script| ==> fault(k).None?
    ensures ExecutedFrom(script, fault, from) == script[from..]
    ensures FirstFaultFrom(script, fault, from) == None
    decreases |script| - from
  {
    if from < |script| {
      NeverFailsFrom(script, fault, from + 1);
      assert script[from..] == [script[from]] + script[from + 1..];
    }
  }

  /** A script none of whose actions fails runs to the end without error. */
  lemma NeverFails(script: seq<Action>, fault: nat -> Option<DomError>)
    requires forall k :: 0 <= k < |script| ==> fault(k).None?
    ensures Executed(script, fault) == script
    ensures FirstFault(script, fault) == None
  {
    NeverFailsFrom(script, fault, 0);
  }

  class Page {
    const answers: PageAnswers
    /** Every action and read performed on this page, in order. */
    var trace: seq<Action>

    /** A fresh browser context (`chromedp.NewContext`): nothing done yet. */
    constructor (answers: PageAnswers)
      ensures this.answers == answers && trace == []
    {
      this.answers := answers;
      trace := [];
    }

    /** `chromedp.Run(ctx, actions...)`: the actions in order, stopping at the
        first that fails and reporting its error. */
    method Run(script: seq<Action>) returns (err: Option<DomError>)
      modifies this
      ensures err == FirstFault(script, answers.fault)
      ensures trace == old(trace) + Executed(script, answers.fault)
    {
      var i := 0;
      while i < |script|
        invariant 0 <= i <= |script|
        invariant trace == old(trace) + script[..i]
        invariant forall k :: 0 <= k < i ==> answers.fault(k).None?
      {
        trace := trace + [script[i]];
        assert trace == old(trace) + script[..i + 1];
        var e := answers.fault(i);
        if e.Some? {
          FailsAt(script, i, answers.fault);
          return e;
        }
        i := i + 1;
      }
      NeverFails(script, answers.fault);
      return None;
    }

    /** Waits for the `#profesional` list and reads its option labels. */
    method ReadProfessionalOptions() returns (r: Result<seq<string>, DomError>)
      modifies this
      ensures r == answers.professionalOptions
      ensures trace == old(trace) + [ReadOptions("#profesional")]
    {
      trace := trace + [ReadOptions("#profesional")];
      r := answers.professionalOptions;
    }

    /** Waits for the `#profesionaloTX` field and reads its value. */
    method ReadProfessionalInput() returns (r: Result<string, DomError>)
      modifies this
      ensures r == answers.professionalInput
      ensures trace == old(trace) + [ReadValue("#profesionaloTX")]
    {
      trace := trace + [ReadValue("#profesionaloTX")];
      r := answers.professionalInput;
    }

    /** Evaluates `document.getElementById("dia").readOnly`. */
    method ReadDayReadOnly() returns (r: Result<bool, DomError>)
      modifies this
      ensures r == answers.dayReadOnly
      ensures trace == old(trace) + [ReadReadOnly("#dia")]
    {
      trace := trace + [ReadReadOnly("#dia")];
      r := answers.dayReadOnly;
    }
  }
}
