/** The process environment as the two older HLA clients read it
    (`os.Getenv`), and their two integer loaders. A `log.Fatalf` ends the
    process; here it is the `Failure` carrying the message it would log. */
module Env {
  import opened Wrappers
  import opened Text

  type Environment = map<string, string>

  /** `os.Getenv`: an unset variable reads as the empty string. */
  function Getenv(env: Environment, name: string): string
  {
    if name in env then env[name] else ""
  }

  /** How `%v` prints the error of `strconv.Atoi` on `value`. */
  function AtoiErrorText(value: string, e: NumError): string
  {
    "strconv.Atoi: parsing \"" + value + "\": " + (if e == ErrSyntax then "invalid syntax" else "value out of range")
  }

  /** `mustLoadIntEnvVar`: the variable must be set and hold an integer. */
  function MustLoadInt(env: Environment, name: string): (r: Result<Int, string>)
    ensures Getenv(env, name) == "" ==> r == Failure(name + " is required")
    ensures r.Success? <==> Atoi(Getenv(env, name)).Success?
    ensures r.Success? ==> r.value == Atoi(Getenv(env, name)).value
  {
    var value := Getenv(env, name);
    if value == "" then Failure(name + " is required")
    else
      match Atoi(value)
      case Failure(e) => Failure("Error parsing " + name + ": " + AtoiErrorText(value, e))
      case Success(n) => Success(n)
  }

  /** A value whose leading digits already pass the largest `uint64` is
      reported out of range, even when a non-digit follows them. */
  lemma MustLoadOverflowFirst(env: Environment, name: string, digits: string, rest: string)
    requires AllDigits(digits) && ParseDigits(digits) > MaxUint64
    requires Getenv(env, name) == digits + rest
    ensures MustLoadInt(env, name)
         == Failure("Error parsing " + name + ": " + AtoiErrorText(digits + rest, ErrRange))
  {
    assert "" + digits + rest == digits + rest;
    assert |digits| > 0;
    AtoiRangeBeforeSyntax("", digits, rest);
  }

  /** `loadIntEnvVar`: an unset variable reads as 0, a set one must hold an
      integer. */
  function LoadInt(env: Environment, name: string): (r: Result<Int, string>)
    ensures Getenv(env, name) == "" ==> r == Success(0)
    ensures Getenv(env, name) != "" ==> r == MustLoadInt(env, name)
  {
    var value := Getenv(env, name);
    if value == "" then Success(0)
    else
      match Atoi(value)
      case Failure(e) => Failure("Error parsing " + name + ": " + AtoiErrorText(value, e))
      case Success(n) => Success(n)
  }

  /** The two loaders differ only on an unset variable: the optional one
      reads it as 0 where the mandatory one stops the process. */
  lemma LoadersAgree(env: Environment, name: string)
    ensures Getenv(env, name) != "" ==> LoadInt(env, name) == MustLoadInt(env, name)
    ensures Getenv(env, name) == "" ==>
      LoadInt(env, name) == Success(0) && MustLoadInt(env, name).Failure?
  {
  }

  /** A variable holding a number written with `%d` loads as that number,
      through either loader. */
  lemma LoadWritten(env: Environment, name: string, n: Int)
    requires Getenv(env, name) == Itoa(n)
    ensures MustLoadInt(env, name) == Success(n) && LoadInt(env, name) == Success(n)
  {
    AtoiItoa(n);
  }

  /** `mustLoadCredentials`: both the user name and the password must be set. */
  function LoadCredentials(env: Environment): (r: Result<(string, string), string>)
    ensures r.Success? <==> Getenv(env, "HLA_USERNAME") != "" && Getenv(env, "HLA_PASSWORD") != ""
    ensures r.Success? ==> r.value == (Getenv(env, "HLA_USERNAME"), Getenv(env, "HLA_PASSWORD"))
  {
    var username := Getenv(env, "HLA_USERNAME");
    if username == "" then Failure("HLA_USERNAME is required")
    else
      var password := Getenv(env, "HLA_PASSWORD");
      if password == "" then Failure("HLA_PASSWORD is required")
      else Success((username, password))
  }

  /** The optional initial date: the variable when set, otherwise today
      written `%d/%02d/%02d`. */
  function InitialDate(env: Environment, today: Date): (s: string)
    ensures Getenv(env, "HLA_INITIAL_DATE") != "" ==> s == Getenv(env, "HLA_INITIAL_DATE")
  {
    var initialDate := Getenv(env, "HLA_INITIAL_DATE");
    if initialDate != "" then initialDate else FormatDate(today)
  }

  /** Without the variable, the initial date is today, and reads back as today. */
  lemma InitialDateDefault(env: Environment, today: Date)
    requires Getenv(env, "HLA_INITIAL_DATE") == ""
    requires ValidDate(today)
    ensures ParseDate(InitialDate(env, today)) == Some(today)
  {
    FormatDateRoundTrip(today);
  }
}
