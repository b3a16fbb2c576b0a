# appointment-availability, modelled in Dafny

The Go program checks two booking back-ends for free medical appointments and
sends a notification for each answer:

- **HLA** is a REST API. The checker logs in once. It then asks the
  availability endpoint about every (health centre, specialty) pair and
  reports either "no appointment" or the list of free slots.
- **HC** is a booking web form that is scraped with a headless browser. The
  checker fills five dependent selects in order. It reads the doctors offered,
  either from the option list or, after a timeout, from the single-doctor
  field. It then checks whether the date field is read-only and reports one
  of three messages.

The repository holds three generations of the HLA client and two of the HC
scraper. All five are modelled:

| module | Go file |
|---|---|
| `HlaService` | `internal/services/hla/hla.go`, `internal/services/hla/availability.go` |
| `InternalServicesHla` | `internal/services/hla.go` |
| `ServicesHla` | `services/hla.go` |
| `HcScraper`, `HcService` | `internal/services/hc/scrapping.go`, `internal/services/hc/hc.go` |
| `InternalServicesHc` | `internal/services/hc.go` |

Shared modules:

- `Text` models Go's `%d`, `%02d`, `strconv.Atoi` on a 64-bit `int`,
  `strings.Split` and `strings.Join`, and the `YYYY/MM/DD` date.
- `Query` models the `k=v&` query string built by ranging over a Go map.
  It also defines how a server reads that string back.
- `Jobs` models the jobs of a run (the cartesian product of the two id
  lists) and what a group of jobs reports.
- `Env` models `os.Getenv` and the integer and credential loaders.
- `HlaHttp` models the HLA endpoints as their clients see them.
- `Browser` models a chromedp page: the actions run on it and what it answers.

How the outside world enters the model:

- **HTTP.** Every exchange is an input value, `HlaHttp.Exchange`. It is a
  request that could not be built, a send that failed, or a reply with a
  status and a body. The body either failed to read or carries its text and
  what JSON decoding gave.
- **Browser.** Every page is an input, `Browser.PageAnswers`. It says at which
  positions of a script an action faults, so the same action can succeed at
  one step and fault at another, and what the three DOM reads return. A `Page`
  object records every action performed on it in its `trace`, so the
  contracts state what is done as well as what is returned.
- **Configuration and time.** The environment is a map. "Today" is a `Date`
  parameter.
- **Fatal errors.** `log.Fatalf` becomes a `Failure` carrying the fatal
  message, except for the login credentials (see "Left out").
- **Notifications.** A notifier call becomes an append to a `notifications`
  sequence field.
- **Map order.** Go's map iteration order is unspecified. `Query.Render`
  therefore picks each next key with `:|` and returns the order it chose as
  a ghost value. Every property of a query string holds for all orders.
- **Concurrency.** An errgroup fan-out is modelled as a sequential loop in
  submission order. The error it returns is that of the first failing job in
  submission order (the model's sequential order). Go's errgroup returns the
  first error in time instead, which can come from any failing job.
  Each job closure takes the current centre and specialty, which gives one
  job per pair only with the per-iteration loop variables of Go 1.22 and
  later; the model assumes that language version.

Where the prose description and the code differ, the model follows the code:

- HC doctor names are joined with `", "` on one line.
- HLA `Run` returns nil even when jobs fail: after a successful login, errors
  are only logged.
- The HC scrapes of one run are launched concurrently, not one after another.

## Model

| member | source | states |
|---|---|---|
| Text.AtoiItoa | services/hla.go:230-240 | a number written with `%d` is read back by `strconv.Atoi` as the same 64-bit integer |
| Text.Pad2 | internal/services/hla/availability.go:92-96 | `%02d` of a month or day gives exactly two digits that denote the number; from 10 on it is plain `%d` |
| Text.FormatDateRoundTrip | internal/services/hla/availability.go:92-96 | the `%d/%02d/%02d` date of any valid day parses back to that same year, month and day |
| Query.Render | internal/services/hla/availability.go:83-88 | the query string is one `k=v&` segment per map entry, each key exactly once, in some order of the map's keys |
| Query.RenderedReadsBack | internal/services/hla/availability.go:73-89 | whatever the iteration order, splitting the string on `&` and `=` gives back exactly the map's entries, and every key looks up its own value |
| Query.RenderedLookup | services/hla.go:145-165 | in any rendering, a key's lookup is its map value when present and nothing when absent |
| Jobs.ProductCount | internal/services/hla/hla.go:51-60 | the nested loops produce each (centre, specialty) pair exactly as often as the centre occurs times as often as the specialty occurs |
| Jobs.ProductMembership | internal/services/hc/hc.go:35-46 | a pair is scheduled iff its centre and its specialty are both configured |
| Jobs.ProductSplit | internal/services/hla/hla.go:51-60 | the jobs come centre by centre: all jobs of one centre, in specialty order, before those of the next |
| Jobs.SucceededMembership | internal/services/hc/hc.go:38-42 | a message is among the successes iff some job produced exactly that success |
| Jobs.FirstFailureIff | internal/services/hc/hc.go:47 | the group's error is `e` iff some job failed with `e` and every earlier job succeeded |
| Jobs.FirstFailureNone | internal/services/hc/hc.go:47 | the group reports no error iff every job succeeded |
| Jobs.FirstFailureAppend | internal/services/hc/hc.go:35-47 | the first failure of two job batches is that of the first batch, if any, and otherwise that of the second |
| Browser.FailsAt | internal/services/hc/scrapping.go:79-96 | a `chromedp.Run` script stops at its first faulting action: that action is the last one performed and its error is returned |
| Browser.NeverFails | internal/services/hc/scrapping.go:79-96 | a script with no faulting action is performed in full and returns no error |
| Browser.Page.constructor | internal/services/hc/scrapping.go:20-21 | a new browser context has performed nothing yet |
| Browser.Page.Run | internal/services/hc/scrapping.go:79-96 | running a script returns its first fault and appends exactly the actions performed up to that fault to the page's trace |
| Browser.Page.ReadProfessionalOptions | internal/services/hc/scrapping.go:135-150 | reading `#profesional` returns the page's option labels or its error and records that one read |
| Browser.Page.ReadProfessionalInput | internal/services/hc/scrapping.go:115-130 | reading `#profesionaloTX` returns the field's value or its error and records that one read |
| Browser.Page.ReadDayReadOnly | internal/services/hc/scrapping.go:104-106 | reading `#dia` returns its read-only flag or its error and records that one read |
| HcScraper.Fill | internal/services/hc/scrapping.go:81-95 | every value is set right after its own control became visible and right before a settle sleep |
| HcScraper.AssignmentsOfFill | internal/services/hc/scrapping.go:81-95 | the values a filled form sets are exactly the given fields, in the given order |
| HcScraper.FormScriptOrder | internal/services/hc/scrapping.go:78-97 | the form script navigates first and then sets centre, insurer, group, specialty and concept "61", in that order, each after a wait-visible and before a 5 s sleep |
| HcScraper.NoReadsInForm | internal/services/hc/scrapping.go:78-97 | whatever faults, filling the form performs no DOM read |
| HcScraper.Named | internal/services/hc/scrapping.go:65-71 | the kept labels are no more than the labels, and every kept label contains a comma |
| HcScraper.NamedCount | internal/services/hc/scrapping.go:63-71 | each label with a comma is kept exactly as often as it occurs, and each label without one is dropped |
| HcScraper.NamedIdempotent | internal/services/hc/scrapping.go:65-71 | filtering an already filtered list changes nothing |
| HcScraper.NamedAppend | internal/services/hc/scrapping.go:65-71 | filtering two lists one after the other gives the two filtered lists in that order |
| HcScraper.NamedOne | internal/services/hc/scrapping.go:65-71 | a single label is kept iff it contains a comma |
| HcScraper.AppendNamed | internal/services/hc/scrapping.go:65-71 | the filter loop appends exactly the comma-carrying labels, in list order, to what was already collected |
| HcScraper.Doctors | internal/services/hc/scrapping.go:47-73 | a successful option read gives exactly its comma-carrying labels, in list order; a non-timeout error is returned unchanged; after a timeout, the single field's error, nothing for an empty value, or exactly that value |
| HcScraper.AvailableDoctors | internal/services/hc/scrapping.go:47-73 | returns the doctors above, reading the option list and then the single field only after a timeout |
| HcScraper.IsDatePickerEnabled | internal/services/hc/scrapping.go:102-110 | the picker is enabled iff `#dia` is not read-only; a read error is returned as is |
| HcScraper.ScrapOutcome | internal/services/hc/scrapping.go:16-43 | every failure carries an `HC: error ` prefix; it fails iff a form step faulted, the doctor read failed, or doctors were found and the date read failed; a form fault gives "HC: error selecting form options: " and its text; once the form is filled the outcome is the filled-form outcome below; it is "no doctors" iff the form filled and no doctor was found; with doctors and a readable date field it is "no dates" when the field is read-only and "with dates" otherwise, naming the doctors found |
| HcScraper.FilledOutcome | internal/services/hc/scrapping.go:27-42 | once the form is filled, it fails iff the doctor read failed or doctors were found and the date read failed, with "HC: error getting available doctors: " or "HC: error checking date picker: " and the error's text; "no doctors" means exactly an empty doctor list; otherwise the names are the doctors found and "no dates" means the date field is read-only |
| HcScraper.ReadFilledForm | internal/services/hc/scrapping.go:27-42 | reads the doctors and, only when there are some, the date field, and returns that outcome |
| HcScraper.Scrap | internal/services/hc/scrapping.go:16-43 | `scrap` returns that outcome's message or wrapped error and performs the form, the doctor reads and, only with doctors, the date read |
| HcScraper.ClassifyMessage | internal/services/hc/scrapping.go:32-42 | the three messages are distinguished by their prefixes whatever the centre, specialty and names |
| HcScraper.FallbackReadOnlyOnTimeout | internal/services/hc/scrapping.go:49-57 | the single-doctor field is read once if the form filled and the option read timed out, and never otherwise |
| HcScraper.DatePickerReadOnlyWithDoctors | internal/services/hc/scrapping.go:32-36 | the date field is read iff the form filled and at least one doctor was found |
| HlaHttp.LoginRequest | internal/services/hla/login.go:27-43 | the login is a POST to the base URL plus `/auth/login` that carries the username and password |
| HlaHttp.CheckAvailability | internal/services/hla/availability.go:31-51 | slots are returned iff the reply is 200 and its body read and decoded, and they are the decoded slots in server order; any other status fails with that status |
| HlaHttp.LoginBodyFirst | internal/services/hla/login.go:45-65 | a user is returned iff the reply is 200 and decoded; a refused login reports the status and the body text; an unreadable body is reported whatever the status |
| HlaHttp.LoginStatusFirst | services/hla.go:111-130 | a user is returned iff the reply is 200 and decoded; a refused login reports only its status |
| HlaHttp.LoginVariants | services/hla.go:116-123 | the two logins agree except on a refused login, where the status-first one reports only the status and the body-first one something else |
| HlaHttp.AvailabilityErrorNamesStep | internal/services/hla/availability.go:23-49 | every availability error names the step that failed, so a refused status, an unreadable body and a decode failure are told apart |
| HlaService.ToQueryParams | internal/services/hla/availability.go:73-89 | the seven keys appear once each, and the string reads back to exactly the parameters |
| HlaService.ParamsReadBack | internal/services/hla/availability.go:73-89 | in any key order, the rendered parameters read back to themselves |
| HlaService.ValuesOf | internal/services/hla/availability.go:74-82 | integers are written with `%d` and strings as they are |
| HlaService.JobParamsDefaults | internal/services/hla/availability.go:17-19 | each job asks about its own centre and specialty with format 1, agreement 90002, the 07:00-21:00 window and today's date |
| HlaService.FormatJobMessage | internal/services/hla/hla.go:76-82 | the `+=` loop builds the job message |
| HlaService.JobMessageLines | internal/services/hla/hla.go:76-82 | no slots gives the single "no appointment" line; otherwise the header and then one ` >> ` line per slot, in order; the header ends in the decimal specialty id |
| HlaService.ListingAsJoin | internal/services/hla/hla.go:79-81 | the appended lines are the header and the slot lines joined by newlines |
| HlaService.JobResult | internal/services/hla/hla.go:71-83 | a job reports a message iff its availability check succeeded |
| HlaService.NotifiedIff | internal/services/hla/hla.go:83 | a message is notified iff some job's check succeeded with exactly that message |
| HlaService.NotifiedCount | internal/services/hla/hla.go:71-83 | there is at most one notification per job, and one for every job iff every check succeeded |
| HlaService.AskedExactlyConfigured | internal/services/hla/hla.go:51-60 | a centre and specialty are asked about iff both are configured |
| HlaService.HLA.constructor | internal/services/hla/hla.go:25-37 | `New` keeps the URL and credentials and always fixes agreement 90002 and format 1 |
| HlaService.HLA.AvailabilityCheckRequest | internal/services/hla/availability.go:16-52 | one GET to the availability path whose query reads back to the job's parameters, with the bearer, JSON and language headers; the result is the checked reply |
| HlaService.HLA.RunJob | internal/services/hla/hla.go:67-86 | a failed check is returned and notifies nothing; a successful one notifies its message once; the one request it sends carries the given token and asks about the job's parameters |
| HlaService.HLA.Run | internal/services/hla/hla.go:39-65 | with an empty URL nothing happens; otherwise the login is the first request; a failed login returns "Error logging in: ..." and runs no job; after a login every pair is asked once in loop order, each request carrying the token the login returned and asking about that pair's parameters, each success notified, and nil returned |
| Env.MustLoadInt | services/hla.go:230-240 | an empty value is fatal with "NAME is required"; otherwise the load succeeds iff `strconv.Atoi` does, with its value |
| Env.MustLoadOverflowFirst | services/hla.go:230-240 | a value whose leading digits pass the largest `uint64` is fatal with `strconv.Atoi`'s "value out of range", even when a non-digit follows, because `strconv.ParseUint` reads left to right |
| Text.AtoiRangeBeforeSyntax | services/hla.go:230-240 | whatever sign precedes and whatever follows, digits worth more than the largest `uint64` make `strconv.Atoi` report a range error |
| Env.LoadInt | services/hla.go:242-252 | an empty value gives 0; any other value is loaded as by the mandatory loader |
| Env.LoadersAgree | services/hla.go:230-252 | the two loaders differ only on an empty value, where one gives 0 and the other is fatal |
| Env.LoadWritten | services/hla.go:230-252 | both loaders read back any integer written in decimal |
| Env.LoadCredentials | internal/services/hla.go:69-79 | credentials load iff both variables are set, and they are those values |
| Env.InitialDate | internal/services/hla.go:58-64 | a configured initial date is used as is |
| Env.InitialDateDefault | internal/services/hla.go:58-64 | without one, the initial date is today's date, and it reads back to today |
| InternalServicesHla.ValuesOf | internal/services/hla.go:139-150 | integers, `province_id` among them, are written with `%d` |
| InternalServicesHla.ParamsReadBack | internal/services/hla.go:139-156 | in any key order, the eight rendered parameters read back to themselves |
| InternalServicesHla.ToQueryParams | internal/services/hla.go:139-156 | the eight keys appear once each, and the string reads back to exactly the parameters |
| InternalServicesHla.HLA.constructor | internal/services/hla.go:50-56 | the client keeps the values it is given |
| InternalServicesHla.HLA.NewHLA | internal/services/hla.go:40-67 | an empty URL or a missing or non-integer id is fatal; otherwise the fields are the loaded values and the initial date is the configured one or today |
| InternalServicesHla.HLA.Login | internal/services/hla.go:82-126 | the login is posted with the configured credentials, and the body is read before the status is checked |
| InternalServicesHla.HLA.AvailabilityCheck | internal/services/hla.go:180-218 | the request's query reads back to the default parameters with the caller's specialty; the result is the checked reply |
| ServicesHla.DoctorKey | services/hla.go:156-158 | `doctor_id` is among the keys iff the doctor id is not zero |
| ServicesHla.ValuesOf | services/hla.go:145-158 | integers, the doctor id among them, are written with `%d` |
| ServicesHla.ParamsReadBack | services/hla.go:145-165 | in any key order, the parameters read back to themselves, and `doctor_id` is present iff the doctor id is not zero |
| ServicesHla.LookupsOf | services/hla.go:145-165 | each of the eight base keys looks up its own value, and `doctor_id` looks up the doctor id or nothing |
| ServicesHla.ToQueryParams | services/hla.go:145-165 | the eight base keys appear once each and `doctor_id` once iff set; the string reads back to exactly the parameters |
| ServicesHla.HLA.constructor | services/hla.go:52-59 | the client keeps the values it is given |
| ServicesHla.HLA.NewHLA | services/hla.go:41-74 | an empty URL or a missing or non-integer mandatory id is fatal, as is a non-integer doctor id; the doctor id is 0 when unset; the initial date is the configured one or today |
| ServicesHla.HLA.Login | services/hla.go:89-131 | the login is posted with the configured credentials, and a refused login is reported before the body is read |
| ServicesHla.HLA.AvailabilityCheck | services/hla.go:191-228 | the request's query reads back to the configured parameters, with `doctor_id` present iff one is configured; the result is the checked reply |
| HcService.NotifiedIff | internal/services/hc/hc.go:38-42 | a message is notified iff some scrape succeeded with exactly that message |
| HcService.GroupErrorIff | internal/services/hc/hc.go:39-47 | the run reports no error iff every scrape succeeded, and otherwise the error of the first failing scrape in submission order (the model's sequential order; Go's errgroup returns the first error in time) |
| HcService.FixedInsurerAndGroup | internal/services/hc/hc.go:19-26 | every scrape sets the job's centre, insurer "3", group "4", the job's specialty and concept "61" |
| HcService.HC.constructor | internal/services/hc/hc.go:19-26 | `New` keeps the URL and has notified and scraped nothing |
| HcService.HC.RunJob | internal/services/hc/hc.go:37-44 | one scrape of the job on a fresh page; its message is notified iff it succeeded |
| HcService.HC.Run | internal/services/hc/hc.go:28-48 | with an empty URL nothing is scraped and nil returned; otherwise every pair is scraped once, each success notified, and the first failure returned |
| InternalServicesHc.LegacyScriptOrder | internal/services/hc.go:17-43 | the script navigates, sets centre "2", insurer "3", group "4", specialty "16" and concept "61" in that order, each after a wait-visible and before a 3 s sleep, then waits for `#profesional` |
| InternalServicesHc.FormatPeople | internal/services/hc.go:48-54 | the `+=` loop builds the message |
| InternalServicesHc.PeopleMessageLines | internal/services/hc.go:48-54 | with at most one option the message is the single "no appointment" line; with more, the header and then every option on its own line, in order and unfiltered |
| InternalServicesHc.LegacyResult | internal/services/hc.go:17-56 | the result is an error iff a scripted step faulted or the option read failed; the error is the first fault, else the read's error; a success is the people message of the options read |
| InternalServicesHc.GetHCAvailablePeople | internal/services/hc.go:10-56 | runs the script on the page, stopping at the first fault, and returns that message or error |

## Left out

- HTTP transport and JSON: requests are values, and replies are inputs. A
  `json.Marshal` failure of the login payload cannot happen for two strings
  and is not modelled.
- A login body of `null` decodes to a nil user in Go, and `Run` would then
  dereference it. The model treats every decoded user as present.
- chromedp timing is not modelled: the 5 s wait on the doctor controls, the
  60 s scrape timeout and the sleeps. Sleeps are kept only as steps of the
  script. A timeout is an input answer, `DeadlineExceeded`.
- Concurrency is not modelled: the errgroup fan-out, `SetLimit(5)`, the
  cancellation of the other jobs after a first error, and the 5-minute
  per-job timeout. Jobs run sequentially in submission order.
- HlaService.HLA.Run: the `time.Now` of `defaultParams` is taken once per run
  as `today`, not once per job.
- Logging is not modelled, including "HLA: error running job" after a failed
  job and the log lines of `AvailabilityCheck`.
- Env.MustLoadInt: the fatal message for a non-integer value writes the value
  between plain quotes. Go's `%q` escaping of special characters is not
  modelled.
- InternalServicesHla.HLA.Login: missing credentials stop the Go process
  (`log.Fatalf`). This is a precondition here rather than an error outcome.
- ServicesHla.HLA.Login: missing credentials are a precondition here as well,
  for the same reason.
- HlaService.HLA.constructor: the HTTP client and the notifier function are
  not fields. Requests are recorded in `requests`, and notifications in
  `notifications`. `requests` lists the requests attempted: one is recorded
  even when its exchange reports that Go's `http.NewRequest` failed
  (`CreateError`).
- Go's `int` is modelled as a 64-bit integer (`Text.Int`). `strconv.Atoi`
  reports a range error outside it. It also reports one, before any syntax
  error, when the leading digits already pass the largest `uint64`, as
  `strconv.ParseUint` reads left to right; the model does the same.
- Not modelled: the Telegram bot (`internal/bot`), configuration loading
  (`internal/config`) and the process wiring (`main.go`, `cmd/checker`).
  They only delegate to libraries or connect the pieces.
- Dates are taken as given: `Text.ValidDate` bounds month and day, but the
  model does not check calendar validity, such as February 30.
