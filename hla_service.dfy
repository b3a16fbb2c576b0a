/** The HLA checker of `internal/services/hla`: log in once, then ask the
    availability endpoint about every (health centre, specialty) pair and
    send one notification per answered question. */
module HlaService {
  import opened Wrappers
  import opened Text
  import opened Query
  import opened HlaHttp
  import Jobs

  /** The insurance type every request names. */
  const AgreementID: Int := 90002
  /** The appointment format every request names: 1 is in person. */
  const FormatID: Int := 1
  const InitialTime: string := "07:00"
  const EndTime: string := "21:00"

  /** The query parameters of one availability request. */
  datatype Params = Params(formatIDs: Int, specialtyID: Int, initialDate: string, initialTime: string,
                           endTime: string, agreementID: Int, healthCentreID: Int)

  /** The seven keys of the query string. */
  const ParamKeys: set<string> :=
    {"format_ids", "specialty_id", "initial_date", "initial_time", "end_time", "agreement_id", "health_centre_id"}

  /** The value `toQueryParams` gives key `k`; numbers are written with `%d`. */
  function Value(p: Params, k: string): string
  {
    if k == "format_ids" then Itoa(p.formatIDs)
    else if k == "specialty_id" then Itoa(p.specialtyID)
    else if k == "initial_date" then p.initialDate
    else if k == "initial_time" then p.initialTime
    else if k == "end_time" then p.endTime
    else if k == "agreement_id" then Itoa(p.agreementID)
    else Itoa(p.healthCentreID)
  }

  /** The map `toQueryParams` iterates over. */
  function QueryMap(p: Params): (m: map<string, string>)
    ensures m.Keys == ParamKeys
  {
    map k | k in ParamKeys :: Value(p, k)
  }

  /** What a server reading the query string would take the parameters to be. */
  function ReadParams(ps: seq<Pair>): Option<Params>
  {
    var f, s, d := IntField(ps, "format_ids"), IntField(ps, "specialty_id"), Lookup(ps, "initial_date");
    var t, e := Lookup(ps, "initial_time"), Lookup(ps, "end_time");
    var a, h := IntField(ps, "agreement_id"), IntField(ps, "health_centre_id");
    if f.Some? && s.Some? && d.Some? && t.Some? && e.Some? && a.Some? && h.Some?
    then Some(Params(f.value, s.value, d.value, t.value, e.value, a.value, h.value))
    else None
  }

  /** Text values that keep clear of the pair separator. */
  predicate Plain(p: Params)
  {
    '&' !in p.initialDate && '&' !in p.initialTime && '&' !in p.endTime
  }

  /** In whatever order the map is walked, the query string reads back as
      exactly the parameters it was built from, numbers included. */
  lemma ParamsReadBack(p: Params, order: seq<string>)
    requires multiset(order) == multiset(QueryMap(p).Keys)
    requires forall k :: k in order ==> k in QueryMap(p)
    requires Plain(p)
    ensures ReadParams(ParseQuery(Encode(Pairs(order, QueryMap(p))))) == Some(p)
  {
    var m := QueryMap(p);
    var ps := ParseQuery(Encode(Pairs(order, m)));
    QueryMapRenderable(p);
    RenderedReadsBack(order, m);
    ValuesOf(p);
    IntFieldReadBack(ps, "format_ids", p.formatIDs);
    IntFieldReadBack(ps, "specialty_id", p.specialtyID);
    IntFieldReadBack(ps, "agreement_id", p.agreementID);
    IntFieldReadBack(ps, "health_centre_id", p.healthCentreID);
  }

  lemma ValuesOf(p: Params)
    ensures var m := QueryMap(p);
      && m["format_ids"] == Itoa(p.formatIDs) && m["specialty_id"] == Itoa(p.specialtyID)
      && m["initial_date"] == p.initialDate && m["initial_time"] == p.initialTime
      && m["end_time"] == p.endTime && m["agreement_id"] == Itoa(p.agreementID)
      && m["health_centre_id"] == Itoa(p.healthCentreID)
  {
    var f, s, d, t := "format_ids", "specialty_id", "initial_date", "initial_time";
    var e, a, h := "end_time", "agreement_id", "health_centre_id";
    assert s[0] != f[0];
    assert d[0] != f[0] && d[0] != s[0];
    assert t[0] != f[0] && t[0] != s[0] && t[8] != d[8];
    assert e[0] != f[0] && e[0] != s[0] && e[0] != d[0];
    assert a[0] != f[0] && a[0] != s[0] && a[0] != d[0] && a[0] != e[0];
  }

  lemma QueryMapRenderable(p: Params)
    requires Plain(p)
    ensures Renderable(QueryMap(p))
  {
    var m := QueryMap(p);
    KeysGood();
    forall k | k in m ensures '&' !in m[k] {
      if k == "format_ids" { NoSeparatorInNumber(p.formatIDs, '&'); }
      else if k == "specialty_id" { NoSeparatorInNumber(p.specialtyID, '&'); }
      else if k == "agreement_id" { NoSeparatorInNumber(p.agreementID, '&'); }
      else if k == "health_centre_id" { NoSeparatorInNumber(p.healthCentreID, '&'); }
    }
  }

  lemma KeysGood()
    ensures forall k :: k in ParamKeys ==> GoodKey(k)
  {
  }

  /** `availabilityParams.toQueryParams`: every key once as `key=value&`, in
      the order the map happens to be walked. */
  method ToQueryParams(p: Params) returns (qs: string, ghost order: seq<string>)
    ensures forall k :: multiset(order)[k] == if k in ParamKeys then 1 else 0
    ensures forall k :: k in order ==> k in QueryMap(p)
    ensures qs == Encode(Pairs(order, QueryMap(p)))
    ensures Plain(p) ==> ReadParams(ParseQuery(qs)) == Some(p)
  {
    qs, order := Render(QueryMap(p));
    if Plain(p) {
      ParamsReadBack(p, order);
    }
  }

  /** A written date never contains the pair separator. */
  lemma PlainDate(d: Date)
    ensures '&' !in FormatDate(d)
  {
    var y, m, dd := Itoa(d.year), Pad2(d.month), Pad2(d.day);
    NoSeparatorInNumber(d.year, '&');
    NoSeparatorInNumber(d.month, '&');
    NoSeparatorInNumber(d.day, '&');
    assert '&' !in m && '&' !in dd;
  }

  /** The line a slot contributes to a notification, after `" >> "`. */
  function SlotLine(a: Slot): string
  {
    a.dateTime + " " + a.formatName + " " + a.doctorName + " " + a.locationName + " " + a.consultationName
  }

  const HeaderTail: string := "available for specialty ID: "
  const NoAppointmentPrefix: string := "🔴 HLA: " + "No appointment " + HeaderTail
  const AppointmentPrefix: string := "🎉 HLA: " + "Appointment " + HeaderTail

  function NoAppointment(specialtyID: int): string
  {
    NoAppointmentPrefix + Itoa(specialtyID)
  }

  function Appointment(specialtyID: int): string
  {
    AppointmentPrefix + Itoa(specialtyID)
  }

  /** The `"\n >> "` lines of the slots, in order. */
  function Listing(slots: seq<Slot>): string
  {
    if slots == [] then "" else Listing(slots[..|slots| - 1]) + "\n >> " + SlotLine(slots[|slots| - 1])
  }

  /** The notification for one job's answer. */
  function JobMessage(specialtyID: int, slots: seq<Slot>): string
  {
    if slots == [] then NoAppointment(specialtyID) else Appointment(specialtyID) + Listing(slots)
  }

  /** `runJob`'s message loop. */
  method FormatJobMessage(specialtyID: int, slots: seq<Slot>) returns (msg: string)
    ensures msg == JobMessage(specialtyID, slots)
  {
    msg := NoAppointment(specialtyID);
    if |slots| > 0 {
      msg := Appointment(specialtyID);
      for i := 0 to |slots|
        invariant msg == Appointment(specialtyID) + Listing(slots[..i])
      {
        assert slots[..i + 1][..i] == slots[..i];
        msg := msg + "\n >> " + SlotLine(slots[i]);
      }
      assert slots[..|slots|] == slots;
    }
  }

  /** A slot whose fields fit on one line. */
  predicate OneLine(a: Slot)
  {
    '\n' !in a.dateTime && '\n' !in a.formatName && '\n' !in a.doctorName
    && '\n' !in a.locationName && '\n' !in a.consultationName
  }

  function SlotLines(slots: seq<Slot>): (lines: seq<string>)
    ensures |lines| == |slots|
    ensures forall i :: 0 <= i < |slots| ==> lines[i] == " >> " + SlotLine(slots[i])
  {
    if slots == [] then [] else SlotLines(slots[..|slots| - 1]) + [" >> " + SlotLine(slots[|slots| - 1])]
  }

  lemma {:induction false} ListingAsJoin(header: string, slots: seq<Slot>)
    ensures header + Listing(slots) == Join([header] + SlotLines(slots), "\n")
  {
    if slots != [] {
      var init := slots[..|slots| - 1];
      ListingAsJoin(header, init);
      JoinSnoc([header] + SlotLines(init), " >> " + SlotLine(slots[|slots| - 1]), "\n");
      assert [header] + SlotLines(slots) == [header] + SlotLines(init) + [" >> " + SlotLine(slots[|slots| - 1])];
    }
  }

  lemma NoNewlineInLine(a: Slot)
    requires OneLine(a)
    ensures '\n' !in " >> " + SlotLine(a)
  {
  }

  /** Read line by line, a notification is its header, which ends in the
      specialty id written in decimal, followed by one `" >> "` line per slot
      in server order; with no slots it is the bare "no appointment" line. */
  lemma JobMessageLines(specialtyID: Int, slots: seq<Slot>)
    requires forall i :: 0 <= i < |slots| ==> OneLine(slots[i])
    ensures slots == [] ==> Split(JobMessage(specialtyID, slots), '\n') == [NoAppointment(specialtyID)]
    ensures slots != [] ==>
      Split(JobMessage(specialtyID, slots), '\n') == [Appointment(specialtyID)] + SlotLines(slots)
    ensures var header := Split(JobMessage(specialtyID, slots), '\n')[0];
      Atoi(header[|header| - |Itoa(specialtyID)|..]) == Success(specialtyID)
  {
    HeadersClear(specialtyID);
    if slots == [] {
      SplitNone(NoAppointment(specialtyID), '\n');
      SpecialtyReadsBack(NoAppointmentPrefix, specialtyID);
    } else {
      var header := Appointment(specialtyID);
      LinesClear(header, slots);
      ListingAsJoin(header, slots);
      SplitJoin([header] + SlotLines(slots), '\n');
      SpecialtyReadsBack(AppointmentPrefix, specialtyID);
    }
  }

  lemma HeadersClear(specialtyID: Int)
    ensures '\n' !in NoAppointment(specialtyID) && '\n' !in Appointment(specialtyID)
  {
    HeadersOneLine();
    NoSeparatorInNumber(specialtyID, '\n');
  }

  lemma SpecialtyReadsBack(prefix: string, specialtyID: Int)
    ensures var header := prefix + Itoa(specialtyID);
      Atoi(header[|header| - |Itoa(specialtyID)|..]) == Success(specialtyID)
  {
    var header := prefix + Itoa(specialtyID);
    assert header[|header| - |Itoa(specialtyID)|..] == Itoa(specialtyID);
    AtoiItoa(specialtyID);
  }

  lemma HeadersOneLine()
    ensures '\n' !in NoAppointmentPrefix && '\n' !in AppointmentPrefix
  {
    var a, b, c, d := "🔴 HLA: ", "No appointment ", "🎉 HLA: ", "Appointment ";
    assert '\n' !in a;
    assert '\n' !in b;
    assert '\n' !in c;
    assert '\n' !in d;
    TailOneLine();
  }

  lemma TailOneLine()
    ensures '\n' !in HeaderTail
  {
    var c, d := "available for ", "specialty ID: ";
    assert '\n' !in c;
    assert '\n' !in d;
    assert HeaderTail == c + d;
  }

  lemma LinesClear(header: string, slots: seq<Slot>)
    requires '\n' !in header
    requires forall i :: 0 <= i < |slots| ==> OneLine(slots[i])
    ensures forall i :: 0 <= i < |[header] + SlotLines(slots)| ==> '\n' !in ([header] + SlotLines(slots))[i]
  {
    var lines := [header] + SlotLines(slots);
    forall i | 0 <= i < |lines| ensures '\n' !in lines[i] {
      if i > 0 {
        assert lines[i] == " >> " + SlotLine(slots[i - 1]);
        NoNewlineInLine(slots[i - 1]);
      }
    }
  }

  /** What one job reports: its notification, or why its check failed. */
  function JobResult(specialtyID: Int, ex: Exchange<seq<Slot>>): (r: Result<string, string>)
    ensures r.Success? <==> CheckAvailability(ex).Success?
  {
    match CheckAvailability(ex)
    case Failure(e) => Failure("Error checking availability: " + e)
    case Success(slots) => Success(JobMessage(specialtyID, slots))
  }

  /** What every job of a run reports, in submission order. */
  function JobResults(jobs: seq<(Int, Int)>, server: (Int, Int) -> Exchange<seq<Slot>>): seq<Result<string, string>>
  {
    Jobs.Outcomes(jobs, (job: (Int, Int)) => JobResult(job.1, server(job.0, job.1)))
  }

  /** The notifications a run of jobs sends: one per answered check, in
      submission order. */
  function Notified(jobs: seq<(Int, Int)>, server: (Int, Int) -> Exchange<seq<Slot>>): seq<string>
  {
    Jobs.Succeeded(JobResults(jobs, server))
  }

  lemma NotifiedAppend(jobs: seq<(Int, Int)>, more: seq<(Int, Int)>, server: (Int, Int) -> Exchange<seq<Slot>>)
    ensures Notified(jobs + more, server) == Notified(jobs, server) + Notified(more, server)
  {
    JobResultsAppend(jobs, more, server);
    Jobs.SucceededAppend(JobResults(jobs, server), JobResults(more, server));
  }

  lemma NotifiedSnoc(jobs: seq<(Int, Int)>, job: (Int, Int), server: (Int, Int) -> Exchange<seq<Slot>>)
    ensures var r := JobResult(job.1, server(job.0, job.1));
      Notified(jobs + [job], server) == Notified(jobs, server) + if r.Success? then [r.value] else []
  {
    JobResultsSnoc(jobs, job, server);
    Jobs.SucceededSnoc(JobResults(jobs, server), JobResult(job.1, server(job.0, job.1)));
  }

  lemma JobResultsAt(jobs: seq<(Int, Int)>, server: (Int, Int) -> Exchange<seq<Slot>>, i: nat)
    requires i < |jobs|
    ensures JobResults(jobs, server)[i] == JobResult(jobs[i].1, server(jobs[i].0, jobs[i].1))
  {
    Jobs.OutcomesAt(jobs, (job: (Int, Int)) => JobResult(job.1, server(job.0, job.1)), i);
  }

  /** A message is sent exactly when it is the notification of some job
      whose check was answered. */
  lemma NotifiedIff(jobs: seq<(Int, Int)>, server: (Int, Int) -> Exchange<seq<Slot>>, m: string)
    ensures m in Notified(jobs, server) <==>
      exists i :: 0 <= i < |jobs| && JobResult(jobs[i].1, server(jobs[i].0, jobs[i].1)) == Success(m)
  {
    var rs := JobResults(jobs, server);
    Jobs.SucceededMembership(rs, m);
    forall i | 0 <= i < |jobs|
      ensures rs[i] == JobResult(jobs[i].1, server(jobs[i].0, jobs[i].1))
    {
      JobResultsAt(jobs, server, i);
    }
  }

  /** At most one message per job, and one for every job exactly when every
      check was answered: a failed check is logged, never notified. */
  lemma NotifiedCount(jobs: seq<(Int, Int)>, server: (Int, Int) -> Exchange<seq<Slot>>)
    ensures |Notified(jobs, server)| <= |jobs|
    ensures |Notified(jobs, server)| == |jobs| <==>
      forall i :: 0 <= i < |jobs| ==> CheckAvailability(server(jobs[i].0, jobs[i].1)).Success?
  {
    var rs := JobResults(jobs, server);
    Jobs.SucceededAll(rs);
    forall i | 0 <= i < |jobs|
      ensures rs[i] == JobResult(jobs[i].1, server(jobs[i].0, jobs[i].1))
    {
      JobResultsAt(jobs, server, i);
    }
  }

  /** A request that asks the availability endpoint about exactly `p`. */
  predicate AvailabilityRequestFor(req: Request, baseURL: string, token: string, p: Params)
  {
    var prefix := baseURL + AvailabilityPath + "?";
    && req.verb == "GET" && req.headers == AvailabilityHeaders(token) && req.credentials.None?
    && prefix <= req.url
    && ReadParams(ParseQuery(req.url[|prefix|..])) == Some(p)
  }

  /** `defaultParams`, taken on the day `today`, with the job's health
      centre and specialty written over the defaults. */
  function JobParams(healthCentreID: Int, specialtyID: Int, today: Date): Params
  {
    var defaults := Params(FormatID, 0, FormatDate(today), InitialTime, EndTime, AgreementID, 0);
    defaults.(specialtyID := specialtyID, healthCentreID := healthCentreID)
  }

  /** Every job asks about its own health centre and specialty, in the
      07:00-21:00 window, with the fixed format and agreement, from the day
      `today` written as a date that reads back. */
  lemma JobParamsDefaults(healthCentreID: Int, specialtyID: Int, today: Date)
    requires ValidDate(today)
    ensures var p := JobParams(healthCentreID, specialtyID, today);
      && p.healthCentreID == healthCentreID && p.specialtyID == specialtyID
      && p.formatIDs == 1 && p.agreementID == 90002
      && p.initialTime == "07:00" && p.endTime == "21:00"
      && ParseDate(p.initialDate) == Some(today)
  {
    FormatDateRoundTrip(today);
  }

  lemma PlainJobParams(healthCentreID: Int, specialtyID: Int, today: Date)
    ensures Plain(JobParams(healthCentreID, specialtyID, today))
  {
    PlainDate(today);
  }

  /** The parameters of every job, in submission order. */
  function JobsParams(jobs: seq<(Int, Int)>, today: Date): seq<Params>
  {
    Jobs.Outcomes(jobs, (job: (Int, Int)) => JobParams(job.0, job.1, today))
  }

  lemma JobsParamsSnoc(jobs: seq<(Int, Int)>, job: (Int, Int), today: Date)
    ensures JobsParams(jobs + [job], today) == JobsParams(jobs, today) + [JobParams(job.0, job.1, today)]
  {
    Jobs.OutcomesSnoc(jobs, job, (job: (Int, Int)) => JobParams(job.0, job.1, today));
  }

  lemma JobsParamsAt(jobs: seq<(Int, Int)>, today: Date, i: nat)
    requires i < |jobs|
    ensures JobsParams(jobs, today)[i] == JobParams(jobs[i].0, jobs[i].1, today)
  {
    Jobs.OutcomesAt(jobs, (job: (Int, Int)) => JobParams(job.0, job.1, today), i);
  }

  /** A run asks about a (health centre, specialty) pair, with the fixed
      agreement, format, hours and today's date, exactly when both are
      configured. */
  lemma AskedExactlyConfigured(healthCentres: seq<Int>, specialties: seq<Int>, today: Date,
                               healthCentreID: Int, specialtyID: Int)
    ensures JobParams(healthCentreID, specialtyID, today) in JobsParams(Jobs.Product(healthCentres, specialties), today)
        <==> healthCentreID in healthCentres && specialtyID in specialties
  {
    var jobs := Jobs.Product(healthCentres, specialties);
    var ps, p := JobsParams(jobs, today), JobParams(healthCentreID, specialtyID, today);
    Jobs.ProductMembership(healthCentres, specialties, healthCentreID, specialtyID);
    if p in ps {
      var i :| 0 <= i < |ps| && ps[i] == p;
      JobsParamsAt(jobs, today, i);
      assert jobs[i] == (healthCentreID, specialtyID);
    }
    if (healthCentreID, specialtyID) in jobs {
      var i :| 0 <= i < |jobs| && jobs[i] == (healthCentreID, specialtyID);
      JobsParamsAt(jobs, today, i);
      assert ps[i] == p;
    }
  }

  lemma JobsParamsAppend(jobs: seq<(Int, Int)>, more: seq<(Int, Int)>, today: Date)
    ensures JobsParams(jobs + more, today) == JobsParams(jobs, today) + JobsParams(more, today)
  {
    Jobs.OutcomesAppend(jobs, more, (job: (Int, Int)) => JobParams(job.0, job.1, today));
  }

  lemma RequestFor(baseURL: string, token: string, p: Params, qs: string)
    requires ReadParams(ParseQuery(qs)) == Some(p)
    ensures AvailabilityRequestFor(Request("GET", baseURL + AvailabilityPath + "?" + qs, AvailabilityHeaders(token), None),
                                   baseURL, token, p)
  {
    var prefix := baseURL + AvailabilityPath + "?";
    assert (prefix + qs)[|prefix|..] == qs;
  }

  /** The requests `reqs` are, one for one, availability requests to
      `baseURL` carrying `token` and asking about `ps`. */
  predicate RequestsFor(reqs: seq<Request>, baseURL: string, token: string, ps: seq<Params>)
  {
    && |reqs| == |ps|
    && forall i :: 0 <= i < |reqs| ==> AvailabilityRequestFor(reqs[i], baseURL, token, ps[i])
  }

  /** The one request at the end of a log. */
  lemma RequestsForLast(log: seq<Request>, prev: seq<Request>, baseURL: string, token: string, p: Params)
    requires |log| == |prev| + 1
    requires AvailabilityRequestFor(log[|log| - 1], baseURL, token, p)
    ensures RequestsFor(log[|prev|..], baseURL, token, [p])
  {
    assert log[|prev|..] == [log[|log| - 1]];
  }

  /** More requests at the end of a log whose tail from `start` is already
      accounted for. */
  lemma RequestsForExtend(log: seq<Request>, prev: seq<Request>, start: nat, baseURL: string, token: string,
                          ps: seq<Params>, qs: seq<Params>)
    requires start <= |prev| <= |log| && log[..|prev|] == prev
    requires RequestsFor(prev[start..], baseURL, token, ps)
    requires RequestsFor(log[|prev|..], baseURL, token, qs)
    ensures RequestsFor(log[start..], baseURL, token, ps + qs)
  {
    assert log[start..] == prev[start..] + log[|prev|..];
    RequestsForAppend(prev[start..], log[|prev|..], baseURL, token, ps, qs);
  }

  lemma RequestsForAppend(reqs: seq<Request>, more: seq<Request>, baseURL: string, token: string,
                          ps: seq<Params>, qs: seq<Params>)
    requires RequestsFor(reqs, baseURL, token, ps)
    requires RequestsFor(more, baseURL, token, qs)
    ensures RequestsFor(reqs + more, baseURL, token, ps + qs)
  {
    forall i | 0 <= i < |reqs + more|
      ensures AvailabilityRequestFor((reqs + more)[i], baseURL, token, (ps + qs)[i])
    {
      if i < |reqs| {
        assert (reqs + more)[i] == reqs[i] && (ps + qs)[i] == ps[i];
      } else {
        assert (reqs + more)[i] == more[i - |reqs|] && (ps + qs)[i] == qs[i - |reqs|];
      }
    }
  }

  class HLA {
    const baseURL: string
    const username: string
    const password: string
    /** The type of insurance. */
    const agreementID: Int := AgreementID
    /** The type of appointment: in person. */
    const formatID: Int := FormatID
    /** The messages handed to the notifier, in order. */
    var notifications: seq<string>
    /** The requests attempted, in order: one whose exchange reports a
        construction failure (`CreateError`) is recorded too. */
    var requests: seq<Request>
    /** The parameters each availability request asked about, in order. */
    ghost var asked: seq<Params>

    /** `New`. */
    constructor (baseURL: string, username: string, password: string)
      ensures this.baseURL == baseURL && this.username == username && this.password == password
      ensures agreementID == 90002 && formatID == 1
      ensures notifications == [] && requests == [] && asked == []
    {
      this.baseURL, this.username, this.password := baseURL, username, password;
      notifications, requests, asked := [], [], [];
    }

    /** `availabilityCheckRequest`: builds the request for one job and reads
        the server's answer `ex` to it. */
    method AvailabilityCheckRequest(token: string, healthCentreID: Int, specialtyID: Int, today: Date,
                                    ex: Exchange<seq<Slot>>)
      returns (r: Result<seq<Slot>, string>, ghost order: seq<string>)
      modifies this
      ensures forall k :: multiset(order)[k] == if k in ParamKeys then 1 else 0
      ensures var qs := Encode(Pairs(order, QueryMap(JobParams(healthCentreID, specialtyID, today))));
        requests == old(requests)
                    + [Request("GET", baseURL + AvailabilityPath + "?" + qs, AvailabilityHeaders(token), None)]
      ensures AvailabilityRequestFor(requests[|requests| - 1], baseURL, token,
                                     JobParams(healthCentreID, specialtyID, today))
      ensures asked == old(asked) + [JobParams(healthCentreID, specialtyID, today)]
      ensures notifications == old(notifications)
      ensures r == CheckAvailability(ex)
    {
      var defaults := Params(formatID, 0, FormatDate(today), InitialTime, EndTime, agreementID, 0);
      var params := defaults.(specialtyID := specialtyID, healthCentreID := healthCentreID);
      PlainJobParams(healthCentreID, specialtyID, today);
      var qs;
      qs, order := ToQueryParams(params);
      var req := Request("GET", baseURL + AvailabilityPath + "?" + qs, AvailabilityHeaders(token), None);
      RequestFor(baseURL, token, params, qs);
      requests, asked := requests + [req], asked + [params];
      r := CheckAvailability(ex);
    }

    /** `runJob`: one availability check, then one notification if it was
        answered; a failed check notifies nothing. */
    method RunJob(token: string, healthCentreID: Int, specialtyID: Int, today: Date, ex: Exchange<seq<Slot>>)
      returns (err: Option<string>)
      modifies this
      ensures var r := JobResult(specialtyID, ex);
        && err == (if r.Failure? then Some(r.error) else None)
        && notifications == old(notifications) + if r.Success? then [r.value] else []
      ensures |requests| == |old(requests)| + 1 && requests[..|old(requests)|] == old(requests)
      ensures RequestsFor(requests[|old(requests)|..], baseURL, token, [JobParams(healthCentreID, specialtyID, today)])
      ensures asked == old(asked) + [JobParams(healthCentreID, specialtyID, today)]
    {
      var data, order := AvailabilityCheckRequest(token, healthCentreID, specialtyID, today, ex);
      RequestsForLast(requests, old(requests), baseURL, token, JobParams(healthCentreID, specialtyID, today));
      if data.Failure? {
        return Some("Error checking availability: " + data.error);
      }
      var msg := FormatJobMessage(specialtyID, data.value);
      notifications := notifications + [msg];
      return None;
    }

    /** One pass of `Run`'s inner loop: every specialty for one centre. */
    method RunRow(token: string, healthCentre: Int, specialties: seq<Int>, today: Date,
                  server: (Int, Int) -> Exchange<seq<Slot>>)
      modifies this
      ensures var jobs := Jobs.Row(healthCentre, specialties);
        && notifications == old(notifications) + Notified(jobs, server)
        && asked == old(asked) + JobsParams(jobs, today)
        && |requests| == |old(requests)| + |jobs| && requests[..|old(requests)|] == old(requests)
        && RequestsFor(requests[|old(requests)|..], baseURL, token, JobsParams(jobs, today))
    {
      ghost var before, askedBefore, sentBefore := notifications, asked, requests;
      ghost var done: seq<(Int, Int)> := [];
      for j := 0 to |specialties|
        invariant done == Jobs.Row(healthCentre, specialties[..j])
        invariant notifications == before + Notified(done, server)
        invariant asked == askedBefore + JobsParams(done, today)
        invariant |requests| == |sentBefore| + |done| && requests[..|sentBefore|] == sentBefore
        invariant RequestsFor(requests[|sentBefore|..], baseURL, token, JobsParams(done, today))
      {
        var job := (healthCentre, specialties[j]);
        ghost var prev := requests;
        var jobErr := RunJob(token, job.0, job.1, today, server(job.0, job.1));
        assert requests[..|sentBefore|] == prev[..|sentBefore|];
        RequestsForExtend(requests, prev, |sentBefore|, baseURL, token,
                          JobsParams(done, today), [JobParams(job.0, job.1, today)]);
        Jobs.RowSnoc(healthCentre, specialties, j);
        LogsSnoc(before, askedBefore, done, job, server, today);
        done := done + [job];
      }
      assert specialties[..|specialties|] == specialties;
    }

    /** The fan-out of `Run` after a login: the nested loops, centres outside. */
    method RunJobs(token: string, healthCentres: seq<Int>, specialties: seq<Int>, today: Date,
                   server: (Int, Int) -> Exchange<seq<Slot>>)
      modifies this
      ensures var jobs := Jobs.Product(healthCentres, specialties);
        && notifications == old(notifications) + Notified(jobs, server)
        && asked == old(asked) + JobsParams(jobs, today)
        && |requests| == |old(requests)| + |jobs| && requests[..|old(requests)|] == old(requests)
        && RequestsFor(requests[|old(requests)|..], baseURL, token, JobsParams(jobs, today))
    {
      ghost var before, askedBefore, sentBefore := notifications, asked, requests;
      ghost var done: seq<(Int, Int)> := [];
      for i := 0 to |healthCentres|
        invariant done == Jobs.Product(healthCentres[..i], specialties)
        invariant notifications == before + Notified(done, server)
        invariant asked == askedBefore + JobsParams(done, today)
        invariant |requests| == |sentBefore| + |done| && requests[..|sentBefore|] == sentBefore
        invariant RequestsFor(requests[|sentBefore|..], baseURL, token, JobsParams(done, today))
      {
        ghost var prev, row := requests, Jobs.Row(healthCentres[i], specialties);
        RunRow(token, healthCentres[i], specialties, today, server);
        assert requests[..|sentBefore|] == prev[..|sentBefore|];
        RequestsForExtend(requests, prev, |sentBefore|, baseURL, token,
                          JobsParams(done, today), JobsParams(row, today));
        assert Jobs.Product(healthCentres[..i + 1], specialties) == done + row by {
          Jobs.ProductRow(healthCentres, specialties, i);
          assert specialties[..|specialties|] == specialties;
        }
        NotifiedAppend(done, row, server);
        Jobs.AppendAssoc(before, Notified(done, server), Notified(row, server));
        JobsParamsAppend(done, row, today);
        Jobs.AppendAssoc(askedBefore, JobsParams(done, today), JobsParams(row, today));
        done := done + row;
      }
      assert healthCentres[..|healthCentres|] == healthCentres;
    }

    /** `Run`: nothing without a base URL; no job without a login; after a
        login, one job per (health centre, specialty) pair, centres outside,
        and no error whatever the jobs report. */
    method Run(healthCentres: seq<Int>, specialties: seq<Int>, today: Date,
               login: Exchange<User>, server: (Int, Int) -> Exchange<seq<Slot>>)
      returns (err: Option<string>)
      modifies this
      ensures baseURL == "" ==>
        err.None? && notifications == old(notifications) && requests == old(requests) && asked == old(asked)
      ensures baseURL != "" ==>
        && |requests| > |old(requests)|
        && requests[..|old(requests)| + 1] == old(requests) + [LoginRequest(baseURL, username, password)]
      ensures baseURL != "" && LoginBodyFirst(login).Failure? ==>
        && err == Some("Error logging in: " + LoginBodyFirst(login).error)
        && notifications == old(notifications) && asked == old(asked)
        && |requests| == |old(requests)| + 1
      ensures baseURL != "" && LoginBodyFirst(login).Success? ==>
        var jobs := Jobs.Product(healthCentres, specialties);
        && err.None?
        && notifications == old(notifications) + Notified(jobs, server)
        && asked == old(asked) + JobsParams(jobs, today)
        && |requests| == |old(requests)| + 1 + |jobs|
        && RequestsFor(requests[|old(requests)| + 1..], baseURL, LoginBodyFirst(login).value.token,
                       JobsParams(jobs, today))
    {
      if baseURL == "" {
        return None;
      }
      requests := requests + [LoginRequest(baseURL, username, password)];
      var user := LoginBodyFirst(login);
      if user.Failure? {
        return Some("Error logging in: " + user.error);
      }
      ghost var atLogin := requests;
      RunJobs(user.value.token, healthCentres, specialties, today, server);
      assert requests[..|old(requests)| + 1] == atLogin[..|old(requests)| + 1];
      return None;
    }
  }

  /** What one more job adds to the notification and parameter logs. */
  lemma LogsSnoc(notified: seq<string>, asked: seq<Params>, done: seq<(Int, Int)>, job: (Int, Int),
                 server: (Int, Int) -> Exchange<seq<Slot>>, today: Date)
    ensures var r := JobResult(job.1, server(job.0, job.1));
      notified + Notified(done + [job], server)
      == (notified + Notified(done, server)) + if r.Success? then [r.value] else []
    ensures asked + JobsParams(done + [job], today) == (asked + JobsParams(done, today)) + [JobParams(job.0, job.1, today)]
  {
    NotifiedSnoc(done, job, server);
    var r := JobResult(job.1, server(job.0, job.1));
    Jobs.AppendAssoc(notified, Notified(done, server), if r.Success? then [r.value] else []);
    JobsParamsSnoc(done, job, today);
    Jobs.AppendAssoc(asked, JobsParams(done, today), [JobParams(job.0, job.1, today)]);
  }

  lemma JobResultsAppend(jobs: seq<(Int, Int)>, more: seq<(Int, Int)>, server: (Int, Int) -> Exchange<seq<Slot>>)
    ensures JobResults(jobs + more, server) == JobResults(jobs, server) + JobResults(more, server)
  {
    Jobs.OutcomesAppend(jobs, more, (job: (Int, Int)) => JobResult(job.1, server(job.0, job.1)));
  }

  lemma JobResultsSnoc(jobs: seq<(Int, Int)>, job: (Int, Int), server: (Int, Int) -> Exchange<seq<Slot>>)
    ensures JobResults(jobs + [job], server) == JobResults(jobs, server) + [JobResult(job.1, server(job.0, job.1))]
  {
    Jobs.OutcomesSnoc(jobs, job, (job: (Int, Int)) => JobResult(job.1, server(job.0, job.1)));
  }
}
