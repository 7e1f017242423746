/**
 * The start-up decisions of farmapp/start.js: how the `PORT` setting becomes
 * a port, a pipe name or `false`, and how an error of the listening server
 * is answered.
 */
module Start {
  import opened Wrappers
  import opened Text

  /** What `normalizePort` returns: the text itself (a named pipe), a port number, or `false`. */
  datatype PortValue = Pipe(name: string) | Number(n: nat) | Refused

  /** `normalizePort(val)`: `parseInt(val, 10)`, with NaN keeping the text and a negative number refused. */
  function NormalizePort(val: string): (r: PortValue)
    ensures r.Pipe? <==> ParseInt(val).None?
    ensures r.Pipe? ==> r.name == val
    ensures r.Number? <==> ParseInt(val).Some? && ParseInt(val).value >= 0
    ensures r.Number? ==> r.n == ParseInt(val).value
    ensures r.Refused? <==> ParseInt(val).Some? && ParseInt(val).value < 0
  {
    match ParseInt(val)
    case None => Pipe(val)
    case Some(port) => if port >= 0 then Number(port) else Refused
  }

  /** `process.env.PORT || '3000'`: an unset or empty setting falls back to `'3000'`. */
  function PortSetting(env: Option<string>): (s: string)
    ensures env.None? || env == Some("") ==> s == "3000"
    ensures env.Some? && env.value != "" ==> s == env.value
  {
    if env.None? || env.value == "" then "3000" else env.value
  }

  /** A port written in decimal is read back as that number, whatever non-digit text follows it. */
  lemma NormalizeDecimal(n: nat, rest: string)
    requires rest == [] || !IsDigit(rest[0])
    ensures NormalizePort(NatToString(n) + rest) == Number(n)
  {
    ParseIntOfDecimal(n, rest);
  }

  /** A minus sign before a positive number gives `false`. */
  lemma NormalizeNegative(n: nat, rest: string)
    requires n > 0
    requires rest == [] || !IsDigit(rest[0])
    ensures NormalizePort("-" + NatToString(n) + rest) == Refused
  {
    var s := "-" + NatToString(n) + rest;
    LeadingDigitsOfDigits(NatToString(n), rest);
    SignedDigits(NatToString(n) + rest, NatToString(n));
    assert s == "-" + (NatToString(n) + rest);
    DigitsValueOfNat(n);
  }

  /** `parseInt` of a minus sign and text whose leading digits are `ds`. */
  lemma SignedDigits(t: string, ds: string)
    requires LeadingDigits(t) == ds && ds != []
    ensures ParseInt("-" + t) == Some(-(DigitsValue(ds) as int))
  {
    var s := "-" + t;
    assert TrimStart(s) == s;
    assert s[1..] == t;
  }

  /** Text that opens with anything but white space, a sign or a digit is a pipe name. */
  lemma NormalizePipe(val: string)
    requires val != [] && !IsJsSpace(val[0]) && !IsDigit(val[0]) && val[0] != '-' && val[0] != '+'
    ensures NormalizePort(val) == Pipe(val)
  {
    assert TrimStart(val) == val;
  }

  /** With no `PORT`, the server listens on port 3000. */
  lemma DefaultPort()
    ensures NormalizePort(PortSetting(None)) == Number(3000)
  {
    assert NatToString(3000) == "3000";
    NormalizeDecimal(3000, []);
    assert NatToString(3000) + [] == "3000";
  }

  /** The error the server reports: the system call that failed and its code. */
  datatype ServerError = ServerError(syscall: string, code: string)

  /** `onError`'s answer: throw the error again, or log a message and exit with a status. */
  datatype ErrorOutcome = Rethrow | Exit(status: int, message: string)

  /** `bind`: a string port is a pipe; a number, or `false`, is a port. */
  function Bind(port: PortValue): (b: string)
    ensures port.Pipe? ==> b == "Pipe " + port.name
    ensures port.Number? ==> b == "Port " + NatToString(port.n)
    ensures port.Refused? ==> b == "Port false"
  {
    match port
    case Pipe(name) => "Pipe " + name
    case Number(n) => "Port " + NatToString(n)
    case Refused => "Port false"
  }

  /** The message names the kind of the port: it opens with `Pipe ` exactly for a pipe. */
  lemma BindNamesKind(port: PortValue)
    ensures IsPrefix("Pipe ", Bind(port)) <==> port.Pipe?
  {
    var b := Bind(port);
    if port.Pipe? {
      assert b[..5] == "Pipe ";
    } else {
      assert b[0] == 'P' && b[1] == 'o';
    }
  }

  /** The message tells two port numbers apart. */
  lemma BindTellsNumbersApart(m: nat, n: nat)
    requires m != n
    ensures Bind(Number(m)) != Bind(Number(n))
  {
    if Bind(Number(m)) == Bind(Number(n)) {
      assert Bind(Number(m))[5..] == NatToString(m);
      assert Bind(Number(n))[5..] == NatToString(n);
      DigitsValueOfNat(m);
      DigitsValueOfNat(n);
    }
  }

  const ElevatedSuffix: string := " requires elevated privileges"
  const InUseSuffix: string := " is already in use"

  /**
   * `onError`: anything but a failed `listen` is thrown again; of those, a
   * denied or taken address exits with status 1 and a message, and any other
   * code is thrown again.
   */
  function OnError(error: ServerError, port: PortValue): (r: ErrorOutcome)
    ensures r.Exit? <==> error.syscall == "listen" && (error.code == "EACCES" || error.code == "EADDRINUSE")
    ensures r.Exit? ==> r.status == 1
    ensures r.Exit? && error.code == "EACCES" ==> r.message == Bind(port) + ElevatedSuffix
    ensures r.Exit? && error.code == "EADDRINUSE" ==> r.message == Bind(port) + InUseSuffix
  {
    if error.syscall != "listen" then Rethrow
    else if error.code == "EACCES" then Exit(1, Bind(port) + ElevatedSuffix)
    else if error.code == "EADDRINUSE" then Exit(1, Bind(port) + InUseSuffix)
    else Rethrow
  }

  /** The two exits are told apart by their messages. */
  lemma ExitMessagesDiffer(port: PortValue)
    ensures OnError(ServerError("listen", "EACCES"), port) != OnError(ServerError("listen", "EADDRINUSE"), port)
  {
    var a := Bind(port) + ElevatedSuffix;
    var b := Bind(port) + InUseSuffix;
    assert a[|Bind(port)|] == ' ' && b[|Bind(port)|] == ' ';
    assert a[|Bind(port)| + 1] == 'r';
    assert b[|Bind(port)| + 1] == 'i';
  }
}
