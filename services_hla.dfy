/** The oldest HLA client, `services/hla.go`: one specialty, one centre and
    optionally one doctor, all taken from the environment. */
module ServicesHla {
  import opened Wrappers
  import opened Text
  import opened Query
  import opened HlaHttp
  import opened Env

  /** The query parameters of the availability request; a doctor id of 0
      means "any doctor". */
  datatype Params = Params(formatIDs: Int, specialtyID: Int, initialDate: string, initialTime: string,
                           endTime: string, agreementID: Int, provinceID: Int, healthCentreID: Int,
                           doctorID: Int)

  /** The eight keys every query string carries. */
  const BaseKeys: set<string> :=
    {"format_ids", "specialty_id", "initial_date", "initial_time", "end_time", "agreement_id",
     "province_id", "health_centre_id"}

  /** The keys of `p`'s query string: `doctor_id` joins only for a doctor. */
  function ParamKeys(p: Params): set<string>
  {
    if p.doctorID != 0 then BaseKeys + {"doctor_id"} else BaseKeys
  }

  /** The value `toQueryParams` gives key `k`; numbers are written with `%d`. */
  function Value(p: Params, k: string): string
  {
    if k == "format_ids" then Itoa(p.formatIDs)
    else if k == "specialty_id" then Itoa(p.specialtyID)
    else if k == "initial_date" then p.initialDate
    else if k == "initial_time" then p.initialTime
    else if k == "end_time" then p.endTime
    else if k == "agreement_id" then Itoa(p.agreementID)
    else if k == "province_id" then Itoa(p.provinceID)
    else if k == "health_centre_id" then Itoa(p.healthCentreID)
    else Itoa(p.doctorID)
  }

  /** The map `toQueryParams` iterates over. */
  function QueryMap(p: Params): (m: map<string, string>)
    ensures m.Keys == ParamKeys(p)
  {
    map k | k in ParamKeys(p) :: Value(p, k)
  }

  /** What a server reading the query string would take the parameters to
      be; no `doctor_id` reads as any doctor. */
  function ReadParams(ps: seq<Pair>): Option<Params>
  {
    var f, s, d := IntField(ps, "format_ids"), IntField(ps, "specialty_id"), Lookup(ps, "initial_date");
    var t, e := Lookup(ps, "initial_time"), Lookup(ps, "end_time");
    var a, v, h := IntField(ps, "agreement_id"), IntField(ps, "province_id"), IntField(ps, "health_centre_id");
    var doc := DoctorField(ps);
    if f.Some? && s.Some? && d.Some? && t.Some? && e.Some? && a.Some? && v.Some? && h.Some? && doc.Some?
    then Some(Params(f.value, s.value, d.value, t.value, e.value, a.value, v.value, h.value, doc.value))
    else None
  }

  /** The doctor a decoded query names: none means any doctor, 0. */
  function DoctorField(ps: seq<Pair>): Option<Int>
  {
    if Lookup(ps, "doctor_id").None? then Some(0) else IntField(ps, "doctor_id")
  }

  lemma DoctorFieldReadBack(ps: seq<Pair>, n: Int)
    requires Lookup(ps, "doctor_id") == if n != 0 then Some(Itoa(n)) else None
    ensures DoctorField(ps) == Some(n)
  {
    if n != 0 {
      IntFieldReadBack(ps, "doctor_id", n);
    }
  }

  lemma DoctorKey(p: Params)
    ensures "doctor_id" in ParamKeys(p) <==> p.doctorID != 0
  {
    var o := "doctor_id";
    assert o[0] == 'd' && o[1] == 'o';
  }

  /** Text values that keep clear of the pair separator. */
  predicate Plain(p: Params)
  {
    '&' !in p.initialDate && '&' !in p.initialTime && '&' !in p.endTime
  }

  lemma ValuesOf(p: Params)
    ensures && Value(p, "format_ids") == Itoa(p.formatIDs) && Value(p, "specialty_id") == Itoa(p.specialtyID)
            && Value(p, "initial_date") == p.initialDate && Value(p, "initial_time") == p.initialTime
            && Value(p, "end_time") == p.endTime && Value(p, "agreement_id") == Itoa(p.agreementID)
            && Value(p, "province_id") == Itoa(p.provinceID)
            && Value(p, "health_centre_id") == Itoa(p.healthCentreID)
            && Value(p, "doctor_id") == Itoa(p.doctorID)
  {
    var f, s, d, t := "format_ids", "specialty_id", "initial_date", "initial_time";
    var e, a, v, h, o := "end_time", "agreement_id", "province_id", "health_centre_id", "doctor_id";
    assert s[0] != f[0];
    assert d[0] != f[0] && d[0] != s[0];
    assert t[0] != f[0] && t[0] != s[0] && t[8] != d[8];
    assert e[0] != f[0] && e[0] != s[0] && e[0] != d[0];
    assert a[0] != f[0] && a[0] != s[0] && a[0] != d[0] && a[0] != e[0];
    assert v[0] != f[0] && v[0] != s[0] && v[0] != d[0] && v[0] != e[0] && v[0] != a[0];
    assert h[0] != f[0] && h[0] != s[0] && h[0] != e[0] && h[0] != a[0] && h[0] != v[0];
    assert o[1] != d[1] && o[0] != f[0] && o[0] != s[0] && o[0] != e[0] && o[0] != a[0] && o[0] != v[0];
    assert o[0] != h[0];
  }

  lemma KeysGood()
    ensures forall k :: k in BaseKeys + {"doctor_id"} ==> GoodKey(k)
  {
  }

  lemma QueryMapRenderable(p: Params)
    requires Plain(p)
    ensures Renderable(QueryMap(p))
  {
    var m := QueryMap(p);
    KeysGood();
    forall k | k in m ensures '&' !in m[k] {
      if k == "format_ids" { NoSeparatorInNumber(p.formatIDs, '&'); }
      else if k == "specialty_id" { NoSeparatorInNumber(p.specialtyID, '&'); }
      else if k == "agreement_id" { NoSeparatorInNumber(p.agreementID, '&'); }
      else if k == "province_id" { NoSeparatorInNumber(p.provinceID, '&'); }
      else if k == "health_centre_id" { NoSeparatorInNumber(p.healthCentreID, '&'); }
      else if k == "doctor_id" { NoSeparatorInNumber(p.doctorID, '&'); }
    }
  }

  /** In whatever order the map is walked, the query string reads back as
      exactly the parameters it was built from, the doctor included, and
      names a doctor exactly when one was configured. */
  lemma ParamsReadBack(p: Params, order: seq<string>)
    requires multiset(order) == multiset(QueryMap(p).Keys)
    requires forall k :: k in order ==> k in QueryMap(p)
    requires Plain(p)
    ensures var ps := ParseQuery(Encode(Pairs(order, QueryMap(p))));
      ReadParams(ps) == Some(p) && (Lookup(ps, "doctor_id").Some? <==> p.doctorID != 0)
  {
    var ps := ParseQuery(Encode(Pairs(order, QueryMap(p))));
    LookupsOf(p, order);
    IntFieldReadBack(ps, "format_ids", p.formatIDs);
    IntFieldReadBack(ps, "specialty_id", p.specialtyID);
    IntFieldReadBack(ps, "agreement_id", p.agreementID);
    IntFieldReadBack(ps, "province_id", p.provinceID);
    IntFieldReadBack(ps, "health_centre_id", p.healthCentreID);
    DoctorFieldReadBack(ps, p.doctorID);
  }

  /** What a reader finds under each key of the rendered query string. */
  lemma LookupsOf(p: Params, order: seq<string>)
    requires multiset(order) == multiset(QueryMap(p).Keys)
    requires forall k :: k in order ==> k in QueryMap(p)
    requires Plain(p)
    ensures var ps := ParseQuery(Encode(Pairs(order, QueryMap(p))));
      && Lookup(ps, "format_ids") == Some(Itoa(p.formatIDs))
      && Lookup(ps, "specialty_id") == Some(Itoa(p.specialtyID))
      && Lookup(ps, "initial_date") == Some(p.initialDate)
      && Lookup(ps, "initial_time") == Some(p.initialTime)
      && Lookup(ps, "end_time") == Some(p.endTime)
      && Lookup(ps, "agreement_id") == Some(Itoa(p.agreementID))
      && Lookup(ps, "province_id") == Some(Itoa(p.provinceID))
      && Lookup(ps, "health_centre_id") == Some(Itoa(p.healthCentreID))
      && Lookup(ps, "doctor_id") == if p.doctorID != 0 then Some(Itoa(p.doctorID)) else None
  {
    var m := QueryMap(p);
    QueryMapRenderable(p);
    RenderedReadsBack(order, m);
    ValuesOf(p);
    DoctorKey(p);
    RenderedLookup(order, m, "doctor_id");
  }

  /** `availabilityParams.toQueryParams`: the eight keys, and `doctor_id`
      for a doctor, each once as `key=value&`, in the order the map happens
      to be walked. */
  method ToQueryParams(p: Params) returns (qs: string, ghost order: seq<string>)
    ensures forall k :: multiset(order)[k] == if k in ParamKeys(p) then 1 else 0
    ensures forall k :: k in order ==> k in QueryMap(p)
    ensures qs == Encode(Pairs(order, QueryMap(p)))
    ensures Plain(p) ==>
      ReadParams(ParseQuery(qs)) == Some(p) && (Lookup(ParseQuery(qs), "doctor_id").Some? <==> p.doctorID != 0)
  {
    var m := map k | k in BaseKeys :: Value(p, k);
    if p.doctorID != 0 {
      m := m["doctor_id" := Itoa(p.doctorID)];
    }
    assert m == QueryMap(p) by {
      ValuesOf(p);
    }
    qs, order := Render(m);
    if Plain(p) {
      ParamsReadBack(p, order);
    }
  }

  /** Parameters with the fixed 07:00-21:00 window are plain when their date is. */
  lemma WindowPlain(p: Params)
    requires p.initialTime == "07:00" && p.endTime == "21:00" && '&' !in p.initialDate
    ensures Plain(p)
  {
  }

  class HLA {
    const baseURL: string
    const provinceID: Int
    const healthCentreID: Int
    const doctorID: Int
    const specialtyID: Int
    const agreementID: Int
    const formatID: Int
    const initialDate: string

    constructor (baseURL: string, provinceID: Int, healthCentreID: Int, doctorID: Int, specialtyID: Int,
                 agreementID: Int, formatID: Int, initialDate: string)
      ensures this.baseURL == baseURL && this.provinceID == provinceID && this.healthCentreID == healthCentreID
      ensures this.doctorID == doctorID && this.specialtyID == specialtyID
      ensures this.agreementID == agreementID && this.formatID == formatID && this.initialDate == initialDate
    {
      this.baseURL, this.provinceID, this.healthCentreID := baseURL, provinceID, healthCentreID;
      this.doctorID, this.specialtyID := doctorID, specialtyID;
      this.agreementID, this.formatID, this.initialDate := agreementID, formatID, initialDate;
    }

    /** `NewHLA`: the base URL and five ids are required, in this order; the
        first one missing or unreadable stops the process with its message.
        The doctor id is optional (unset reads as any doctor, but a value
        that is not a number still stops the process), and so is the initial
        date, which defaults to today. */
    static method NewHLA(env: Environment, today: Date) returns (r: Result<HLA, string>)
      ensures Getenv(env, "HLA_BASE_URL") == "" ==> r == Failure("HLA_BASE_URL is required")
      ensures r.Success? <==>
        && Getenv(env, "HLA_BASE_URL") != ""
        && MustLoadInt(env, "HLA_PROVINCE_ID").Success? && MustLoadInt(env, "HLA_HEALTH_CENTRE_ID").Success?
        && MustLoadInt(env, "HLA_SPECIALTY_ID").Success? && MustLoadInt(env, "HLA_AGREEMENT_ID").Success?
        && MustLoadInt(env, "HLA_FORMAT_ID").Success? && LoadInt(env, "HLA_DOCTOR_ID").Success?
      ensures r.Success? ==>
        && fresh(r.value)
        && r.value.baseURL == Getenv(env, "HLA_BASE_URL")
        && r.value.provinceID == MustLoadInt(env, "HLA_PROVINCE_ID").value
        && r.value.healthCentreID == MustLoadInt(env, "HLA_HEALTH_CENTRE_ID").value
        && r.value.specialtyID == MustLoadInt(env, "HLA_SPECIALTY_ID").value
        && r.value.agreementID == MustLoadInt(env, "HLA_AGREEMENT_ID").value
        && r.value.formatID == MustLoadInt(env, "HLA_FORMAT_ID").value
        && r.value.doctorID == LoadInt(env, "HLA_DOCTOR_ID").value
        && (Getenv(env, "HLA_DOCTOR_ID") == "" ==> r.value.doctorID == 0)
        && r.value.initialDate == InitialDate(env, today)
    {
      var baseURL := Getenv(env, "HLA_BASE_URL");
      if baseURL == "" {
        return Failure("HLA_BASE_URL is required");
      }
      var provinceID := MustLoadInt(env, "HLA_PROVINCE_ID");
      if provinceID.Failure? {
        return Failure(provinceID.error);
      }
      var healthCentreID := MustLoadInt(env, "HLA_HEALTH_CENTRE_ID");
      if healthCentreID.Failure? {
        return Failure(healthCentreID.error);
      }
      var specialtyID := MustLoadInt(env, "HLA_SPECIALTY_ID");
      if specialtyID.Failure? {
        return Failure(specialtyID.error);
      }
      var agreementID := MustLoadInt(env, "HLA_AGREEMENT_ID");
      if agreementID.Failure? {
        return Failure(agreementID.error);
      }
      var formatID := MustLoadInt(env, "HLA_FORMAT_ID");
      if formatID.Failure? {
        return Failure(formatID.error);
      }
      var doctorID: Int := 0;
      var loaded := LoadInt(env, "HLA_DOCTOR_ID");
      if loaded.Failure? {
        return Failure(loaded.error);
      }
      if loaded.value != 0 {
        doctorID := loaded.value;
      }
      var initialDate: string;
      if Getenv(env, "HLA_INITIAL_DATE") != "" {
        initialDate := Getenv(env, "HLA_INITIAL_DATE");
      } else {
        initialDate := FormatDate(today);
      }
      var hla := new HLA(baseURL, provinceID.value, healthCentreID.value, doctorID, specialtyID.value,
                         agreementID.value, formatID.value, initialDate);
      return Success(hla);
    }

    /** `params`: everything configured, with the 07:00-21:00 window. */
    function RequestParams(): Params
    {
      Params(formatID, specialtyID, initialDate, "07:00", "21:00", agreementID, provinceID, healthCentreID,
             doctorID)
    }

    /** `Login`: posts the credentials; a refused login is reported by its
        status alone, before the body is read. */
    method Login(env: Environment, ex: Exchange<User>) returns (req: Request, r: Result<User, string>)
      requires LoadCredentials(env).Success?
      ensures req == LoginRequest(baseURL, Getenv(env, "HLA_USERNAME"), Getenv(env, "HLA_PASSWORD"))
      ensures r == LoginStatusFirst(ex)
    {
      var credentials := LoadCredentials(env);
      req := LoginRequest(baseURL, credentials.value.0, credentials.value.1);
      r := LoginStatusFirst(ex);
    }

    /** `AvailabilityCheck`: the configured parameters sent to the
        availability endpoint; the server's answer is `ex`. */
    method AvailabilityCheck(token: string, ex: Exchange<seq<Slot>>) returns (req: Request, r: Result<seq<Slot>, string>)
      ensures var prefix := baseURL + AvailabilityPath + "?";
        && req.verb == "GET" && req.headers == AvailabilityHeaders(token) && req.credentials.None?
        && prefix <= req.url
        && ('&' !in initialDate ==>
              && ReadParams(ParseQuery(req.url[|prefix|..])) == Some(RequestParams())
              && (Lookup(ParseQuery(req.url[|prefix|..]), "doctor_id").Some? <==> doctorID != 0))
      ensures r == CheckAvailability(ex)
    {
      var params := RequestParams();
      var qs, order := ToQueryParams(params);
      var prefix := baseURL + AvailabilityPath + "?";
      req := Request("GET", prefix + qs, AvailabilityHeaders(token), None);
      assert req.url[|prefix|..] == qs;
      if '&' !in initialDate {
        WindowPlain(params);
      }
      r := CheckAvailability(ex);
    }
  }
}
