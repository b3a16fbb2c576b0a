/** The single-centre HLA client of `internal/services/hla.go`: configured
    from the environment once, then asked about one specialty at a time. */
module InternalServicesHla {
  import opened Wrappers
  import opened Text
  import opened Query
  import opened HlaHttp
  import opened Env

  /** The query parameters of one availability request. */
  datatype Params = Params(formatIDs: Int, specialtyID: Int, initialDate: string, initialTime: string,
                           endTime: string, agreementID: Int, provinceID: Int, healthCentreID: Int)

  /** The eight keys of the query string. */
  const ParamKeys: set<string> :=
    {"format_ids", "specialty_id", "initial_date", "initial_time", "end_time", "agreement_id",
     "province_id", "health_centre_id"}

  /** The value `toQueryParams` gives key `k`; numbers are written with `%d`. */
  function Value(p: Params, k: string): string
  {
    if k == "format_ids" then Itoa(p.formatIDs)
    else if k == "specialty_id" then Itoa(p.specialtyID)
    else if k == "initial_date" then p.initialDate
    else if k == "initial_time" then p.initialTime
    else if k == "end_time" then p.endTime
    else if k == "agreement_id" then Itoa(p.agreementID)
    else if k == "province_id" then Itoa(p.provinceID)
    else Itoa(p.healthCentreID)
  }

  /** The map `toQueryParams` iterates over. */
  function QueryMap(p: Params): (m: map<string, string>)
    ensures m.Keys == ParamKeys
  {
    map k | k in ParamKeys :: Value(p, k)
  }

  /** What a server reading the query string would take the parameters to be. */
  function ReadParams(ps: seq<Pair>): Option<Params>
  {
    var f, s, d := IntField(ps, "format_ids"), IntField(ps, "specialty_id"), Lookup(ps, "initial_date");
    var t, e := Lookup(ps, "initial_time"), Lookup(ps, "end_time");
    var a, v, h := IntField(ps, "agreement_id"), IntField(ps, "province_id"), IntField(ps, "health_centre_id");
    if f.Some? && s.Some? && d.Some? && t.Some? && e.Some? && a.Some? && v.Some? && h.Some?
    then Some(Params(f.value, s.value, d.value, t.value, e.value, a.value, v.value, h.value))
    else None
  }

  /** Text values that keep clear of the pair separator. */
  predicate Plain(p: Params)
  {
    '&' !in p.initialDate && '&' !in p.initialTime && '&' !in p.endTime
  }

  lemma ValuesOf(p: Params)
    ensures && Value(p, "format_ids") == Itoa(p.formatIDs) && Value(p, "specialty_id") == Itoa(p.specialtyID)
            && Value(p, "initial_date") == p.initialDate && Value(p, "initial_time") == p.initialTime
            && Value(p, "end_time") == p.endTime && Value(p, "agreement_id") == Itoa(p.agreementID)
            && Value(p, "province_id") == Itoa(p.provinceID)
            && Value(p, "health_centre_id") == Itoa(p.healthCentreID)
  {
    var f, s, d, t := "format_ids", "specialty_id", "initial_date", "initial_time";
    var e, a, v, h := "end_time", "agreement_id", "province_id", "health_centre_id";
    assert s[0] != f[0];
    assert d[0] != f[0] && d[0] != s[0];
    assert t[0] != f[0] && t[0] != s[0] && t[8] != d[8];
    assert e[0] != f[0] && e[0] != s[0] && e[0] != d[0];
    assert a[0] != f[0] && a[0] != s[0] && a[0] != d[0] && a[0] != e[0];
    assert v[0] != f[0] && v[0] != s[0] && v[0] != d[0] && v[0] != e[0] && v[0] != a[0];
  }

  /** Parameters with the fixed 07:00-21:00 window are plain when their date is. */
  lemma WindowPlain(p: Params)
    requires p.initialTime == "07:00" && p.endTime == "21:00" && '&' !in p.initialDate
    ensures Plain(p)
  {
  }

  lemma KeysGood()
    ensures forall k :: k in ParamKeys ==> GoodKey(k)
  {
  }

  lemma QueryMapRenderable(p: Params)
    requires Plain(p)
    ensures Renderable(QueryMap(p))
  {
    var m := QueryMap(p);
    KeysGood();
    forall k | k in m ensures '&' !in m[k] {
      if k == "format_ids" { NoSeparatorInNumber(p.formatIDs, '&'); }
      else if k == "specialty_id" { NoSeparatorInNumber(p.specialtyID, '&'); }
      else if k == "agreement_id" { NoSeparatorInNumber(p.agreementID, '&'); }
      else if k == "province_id" { NoSeparatorInNumber(p.provinceID, '&'); }
      else if k == "health_centre_id" { NoSeparatorInNumber(p.healthCentreID, '&'); }
    }
  }

  /** In whatever order the map is walked, the query string reads back as
      exactly the parameters it was built from, numbers included. */
  lemma ParamsReadBack(p: Params, order: seq<string>)
    requires multiset(order) == multiset(QueryMap(p).Keys)
    requires forall k :: k in order ==> k in QueryMap(p)
    requires Plain(p)
    ensures ReadParams(ParseQuery(Encode(Pairs(order, QueryMap(p))))) == Some(p)
  {
    var m := QueryMap(p);
    var ps := ParseQuery(Encode(Pairs(order, m)));
    QueryMapRenderable(p);
    RenderedReadsBack(order, m);
    ValuesOf(p);
    IntFieldReadBack(ps, "format_ids", p.formatIDs);
    IntFieldReadBack(ps, "specialty_id", p.specialtyID);
    IntFieldReadBack(ps, "agreement_id", p.agreementID);
    IntFieldReadBack(ps, "province_id", p.provinceID);
    IntFieldReadBack(ps, "health_centre_id", p.healthCentreID);
  }

  /** `availabilityParams.toQueryParams`: every key once as `key=value&`, in
      the order the map happens to be walked. */
  method ToQueryParams(p: Params) returns (qs: string, ghost order: seq<string>)
    ensures forall k :: multiset(order)[k] == if k in ParamKeys then 1 else 0
    ensures forall k :: k in order ==> k in QueryMap(p)
    ensures qs == Encode(Pairs(order, QueryMap(p)))
    ensures Plain(p) ==> ReadParams(ParseQuery(qs)) == Some(p)
  {
    qs, order := Render(QueryMap(p));
    if Plain(p) {
      ParamsReadBack(p, order);
    }
  }

  class HLA {
    const baseURL: string
    const provinceID: Int
    const healthCentreID: Int
    const agreementID: Int
    const formatID: Int
    /** The API lists the first three dates from this one on. */
    const initialDate: string

    constructor (baseURL: string, provinceID: Int, healthCentreID: Int, agreementID: Int, formatID: Int,
                 initialDate: string)
      ensures this.baseURL == baseURL && this.provinceID == provinceID && this.healthCentreID == healthCentreID
      ensures this.agreementID == agreementID && this.formatID == formatID && this.initialDate == initialDate
    {
      this.baseURL, this.provinceID, this.healthCentreID := baseURL, provinceID, healthCentreID;
      this.agreementID, this.formatID, this.initialDate := agreementID, formatID, initialDate;
    }

    /** `NewHLA`: the base URL and the four ids are required, in this order;
        the first one missing or unreadable stops the process with its
        message. The initial date is optional and defaults to today. */
    static method NewHLA(env: Environment, today: Date) returns (r: Result<HLA, string>)
      ensures Getenv(env, "HLA_BASE_URL") == "" ==> r == Failure("HLA_BASE_URL is required")
      ensures r.Success? <==>
        && Getenv(env, "HLA_BASE_URL") != ""
        && MustLoadInt(env, "HLA_PROVINCE_ID").Success? && MustLoadInt(env, "HLA_HEALTH_CENTRE_ID").Success?
        && MustLoadInt(env, "HLA_AGREEMENT_ID").Success? && MustLoadInt(env, "HLA_FORMAT_ID").Success?
      ensures r.Success? ==>
        && fresh(r.value)
        && r.value.baseURL == Getenv(env, "HLA_BASE_URL")
        && r.value.provinceID == MustLoadInt(env, "HLA_PROVINCE_ID").value
        && r.value.healthCentreID == MustLoadInt(env, "HLA_HEALTH_CENTRE_ID").value
        && r.value.agreementID == MustLoadInt(env, "HLA_AGREEMENT_ID").value
        && r.value.formatID == MustLoadInt(env, "HLA_FORMAT_ID").value
        && r.value.initialDate == InitialDate(env, today)
    {
      var baseURL := Getenv(env, "HLA_BASE_URL");
      if baseURL == "" {
        return Failure("HLA_BASE_URL is required");
      }
      var provinceID := MustLoadInt(env, "HLA_PROVINCE_ID");
      if provinceID.Failure? {
        return Failure(provinceID.error);
      }
      var healthCentreID := MustLoadInt(env, "HLA_HEALTH_CENTRE_ID");
      if healthCentreID.Failure? {
        return Failure(healthCentreID.error);
      }
      var agreementID := MustLoadInt(env, "HLA_AGREEMENT_ID");
      if agreementID.Failure? {
        return Failure(agreementID.error);
      }
      var formatID := MustLoadInt(env, "HLA_FORMAT_ID");
      if formatID.Failure? {
        return Failure(formatID.error);
      }
      var initialDate: string;
      if Getenv(env, "HLA_INITIAL_DATE") != "" {
        initialDate := Getenv(env, "HLA_INITIAL_DATE");
      } else {
        initialDate := FormatDate(today);
      }
      var hla := new HLA(baseURL, provinceID.value, healthCentreID.value, agreementID.value, formatID.value,
                         initialDate);
      return Success(hla);
    }

    /** `defaultParams`: the configured ids and date, the 07:00-21:00
        window, and no specialty yet. */
    function DefaultParams(): Params
    {
      Params(formatID, 0, initialDate, "07:00", "21:00", agreementID, provinceID, healthCentreID)
    }

    /** `Login`: posts the credentials; the body is read before the status
        is looked at. */
    method Login(env: Environment, ex: Exchange<User>) returns (req: Request, r: Result<User, string>)
      requires LoadCredentials(env).Success?
      ensures req == LoginRequest(baseURL, Getenv(env, "HLA_USERNAME"), Getenv(env, "HLA_PASSWORD"))
      ensures r == LoginBodyFirst(ex)
    {
      var credentials := LoadCredentials(env);
      req := LoginRequest(baseURL, credentials.value.0, credentials.value.1);
      r := LoginBodyFirst(ex);
    }

    /** `AvailabilityCheck`: the default parameters with the specialty
        written over them, sent to the availability endpoint; the server's
        answer is `ex`. */
    method AvailabilityCheck(token: string, specialtyID: Int, ex: Exchange<seq<Slot>>)
      returns (req: Request, r: Result<seq<Slot>, string>)
      ensures var prefix := baseURL + AvailabilityPath + "?";
        && req.verb == "GET" && req.headers == AvailabilityHeaders(token) && req.credentials.None?
        && prefix <= req.url
        && ('&' !in initialDate ==>
              ReadParams(ParseQuery(req.url[|prefix|..])) == Some(DefaultParams().(specialtyID := specialtyID)))
      ensures r == CheckAvailability(ex)
    {
      var params := DefaultParams();
      params := params.(specialtyID := specialtyID);
      var qs, order := ToQueryParams(params);
      var prefix := baseURL + AvailabilityPath + "?";
      req := Request("GET", prefix + qs, AvailabilityHeaders(token), None);
      assert req.url[|prefix|..] == qs;
      if '&' !in initialDate {
        WindowPlain(params);
      }
      r := CheckAvailability(ex);
    }
  }
}
