/** The HLA REST API as its three clients see it. The HTTP transport and the
    JSON codec are outside the model: each exchange is given as the value the
    client ends up holding (a request it could not build, a send that failed,
    or a reply with a status and a body that did or did not read and decode). */
module HlaHttp {
  import opened Wrappers

  const LoginPath: string := "/auth/login"
  const AvailabilityPath: string := "/me/appointment-availabilities"
  const StatusOK: int := 200

  /** One free appointment slot, as the availability endpoint lists it. */
  datatype Slot = Slot(availabilityID: string, dateTime: string, formatName: string,
                       doctorName: string, locationName: string, consultationName: string)

  /** The session a login returns. */
  datatype User = User(token: string, customerID: string)

  /** A response body: its text and what decoding it gave, or a read error. */
  datatype Body<T> = Body(text: string, decoded: Result<T, string>) | ReadError(msg: string)

  /** One round trip to the server. `status` is Go's `resp.Status`, such as
      "401 Unauthorized"; `code` is `resp.StatusCode`. */
  datatype Exchange<T> =
    | CreateError(msg: string)
    | SendError(msg: string)
    | Reply(code: int, status: string, body: Body<T>)

  /** A request as built: method, URL, headers in the order they are set, and
      the login credentials when it carries them. */
  datatype Request = Request(verb: string, url: string, headers: seq<(string, string)>,
                             credentials: Option<(string, string)>)

  /** The headers of every availability request. */
  function AvailabilityHeaders(token: string): seq<(string, string)>
  {
    [("Authorization", "Bearer " + token), ("Content-Type", "application/json"), ("language", "es")]
  }

  function LoginRequest(baseURL: string, username: string, password: string): (req: Request)
    ensures req.verb == "POST" && req.url == baseURL + LoginPath
    ensures req.credentials == Some((username, password))
  {
    Request("POST", baseURL + LoginPath, [("Content-Type", "application/json")], Some((username, password)))
  }

  /** The slots of an availability reply: the status is checked before the
      body is read, and the decoded slots come back in server order. */
  function CheckAvailability(ex: Exchange<seq<Slot>>): (r: Result<seq<Slot>, string>)
    ensures r.Success? <==> ex.Reply? && ex.code == StatusOK && ex.body.Body? && ex.body.decoded.Success?
    ensures r.Success? ==> r.value == ex.body.decoded.value
    ensures ex.Reply? && ex.code != StatusOK ==> r == Failure("Availability check failed: " + ex.status)
  {
    match ex
    case CreateError(e) => Failure("Error creating request: " + e)
    case SendError(e) => Failure("Error sending request: " + e)
    case Reply(code, status, body) =>
      if code != StatusOK then Failure("Availability check failed: " + status)
      else
        match body
        case ReadError(e) => Failure("Error reading response: " + e)
        case Body(_, decoded) =>
          match decoded
          case Failure(e) => Failure("Error unmarshalling availability response: " + e)
          case Success(slots) => Success(slots)
  }

  /** The login of `internal/services/hla/login.go` and of
      `internal/services/hla.go`: the body is read first, so a refused login
      reports the server's explanation next to the status. */
  function LoginBodyFirst(ex: Exchange<User>): (r: Result<User, string>)
    ensures r.Success? <==> ex.Reply? && ex.code == StatusOK && ex.body.Body? && ex.body.decoded.Success?
    ensures r.Success? ==> r.value == ex.body.decoded.value
    ensures ex.Reply? && ex.body.ReadError? ==> r == Failure("Error reading response: " + ex.body.msg)
    ensures ex.Reply? && ex.code != StatusOK && ex.body.Body?
            ==> r == Failure("Login failed: " + ex.status + ": " + ex.body.text)
  {
    match ex
    case CreateError(e) => Failure("Error creating request: " + e)
    case SendError(e) => Failure("Error sending request: " + e)
    case Reply(code, status, body) =>
      match body
      case ReadError(e) => Failure("Error reading response: " + e)
      case Body(text, decoded) =>
        if code != StatusOK then Failure("Login failed: " + status + ": " + text)
        else
          match decoded
          case Failure(e) => Failure("Error unmarshalling login response: " + e)
          case Success(user) => Success(user)
  }

  /** The login of `services/hla.go`: the status is checked first and the
      body of a refused login is never read. */
  function LoginStatusFirst(ex: Exchange<User>): (r: Result<User, string>)
    ensures r.Success? <==> ex.Reply? && ex.code == StatusOK && ex.body.Body? && ex.body.decoded.Success?
    ensures r.Success? ==> r.value == ex.body.decoded.value
    ensures ex.Reply? && ex.code != StatusOK ==> r == Failure("Login failed: " + ex.status)
  {
    match ex
    case CreateError(e) => Failure("Error creating request: " + e)
    case SendError(e) => Failure("Error sending request: " + e)
    case Reply(code, status, body) =>
      if code != StatusOK then Failure("Login failed: " + status)
      else
        match body
        case ReadError(e) => Failure("Error reading response: " + e)
        case Body(_, decoded) =>
          match decoded
          case Failure(e) => Failure("Error unmarshalling login response: " + e)
          case Success(user) => Success(user)
  }

  /** The two logins differ only on a refused login: there the status-first
      one omits the body, even when that body could not have been read. */
  lemma LoginVariants(ex: Exchange<User>)
    ensures !(ex.Reply? && ex.code != StatusOK) ==> LoginBodyFirst(ex) == LoginStatusFirst(ex)
    ensures ex.Reply? && ex.code != StatusOK ==>
      && LoginStatusFirst(ex) == Failure("Login failed: " + ex.status)
      && LoginBodyFirst(ex).Failure? && LoginBodyFirst(ex) != LoginStatusFirst(ex)
  {
    if ex.Reply? && ex.code != StatusOK {
      var p := "Login failed: " + ex.status;
      match ex.body
      case ReadError(e) =>
        assert LoginBodyFirst(ex).error[0] != p[0];
      case Body(text, _) =>
        assert |LoginBodyFirst(ex).error| > |p|;
    }
  }

  /** The step of an exchange that failed, as its error message names it. */
  datatype Step = Creating | Sending | StatusCheck | Reading | Decoding

  function StepOf(msg: string): Option<Step>
  {
    if "Error creating request: " <= msg then Some(Creating)
    else if "Error sending request: " <= msg then Some(Sending)
    else if "Availability check failed: " <= msg || "Login failed: " <= msg then Some(StatusCheck)
    else if "Error reading response: " <= msg then Some(Reading)
    else if "Error unmarshalling availability response: " <= msg
         || "Error unmarshalling login response: " <= msg then Some(Decoding)
    else None
  }

  /** The step at which an availability exchange stops: the status is looked
      at before the body. */
  function AvailabilityStep(ex: Exchange<seq<Slot>>): Step
  {
    if ex.CreateError? then Creating
    else if ex.SendError? then Sending
    else if ex.code != StatusOK then StatusCheck
    else if ex.body.ReadError? then Reading
    else Decoding
  }

  /** Every availability failure names the step that failed, so a decode
      failure is told apart from a refused status or an unreadable body. */
  lemma AvailabilityErrorNamesStep(ex: Exchange<seq<Slot>>)
    requires CheckAvailability(ex).Failure?
    ensures StepOf(CheckAvailability(ex).error) == Some(AvailabilityStep(ex))
  {
    match ex
    case CreateError(e) =>
    case SendError(e) => StepOfSending(e);
    case Reply(code, status, body) =>
      if code != StatusOK {
        StepOfRefused(status);
      } else if body.ReadError? {
        StepOfReading(body.msg);
      } else {
        StepOfDecoding(body.decoded.error);
      }
  }

  lemma StepOfSending(x: string)
    ensures StepOf("Error sending request: " + x) == Some(Sending)
  {
    var msg := "Error sending request: " + x;
    assert msg[6] == 's';
  }

  lemma StepOfRefused(x: string)
    ensures StepOf("Availability check failed: " + x) == Some(StatusCheck)
  {
    var msg := "Availability check failed: " + x;
    assert msg[0] == 'A';
  }

  lemma StepOfReading(x: string)
    ensures StepOf("Error reading response: " + x) == Some(Reading)
  {
    var msg := "Error reading response: " + x;
    assert msg[0] == 'E' && msg[6] == 'r';
  }

  lemma StepOfDecoding(x: string)
    ensures StepOf("Error unmarshalling availability response: " + x) == Some(Decoding)
  {
    var msg := "Error unmarshalling availability response: " + x;
    assert msg[0] == 'E' && msg[6] == 'u';
  }
}
