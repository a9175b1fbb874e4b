/** Command-line handling shared by the iterations: the servers' `-p`/`-a`
    options (`get_params`), the clients' port check, and the positional
    fallback of the earliest clients. `argv` includes the program name, as
    `sys.argv` does. */
module Cli {
  import opened Jim

  /** Either the program goes on with a value, or it calls `sys.exit`. */
  datatype Outcome<T> = Run(value: T) | Exit(status: int)

  /** Ports the programs accept: 1024 to 65535. */
  const PORT_MIN: int := 1024
  const PORT_MAX: int := 65535

  predicate IsDigit(c: char) {
    '0' <= c <= '9'
  }

  predicate AllDigits(s: string) {
    forall i :: 0 <= i < |s| ==> IsDigit(s[i])
  }

  /** The number a string of decimal digits denotes. */
  function DigitsValue(s: string): nat
    requires AllDigits(s)
    decreases |s|
  {
    if s == [] then 0
    else DigitsValue(s[..|s| - 1]) * 10 + (s[|s| - 1] as int - '0' as int)
  }

  /** `int(s)`: an optional sign followed by at least one ASCII digit; None
      stands for the ValueError. */
  function ParseInt(s: string): Option<int> {
    if |s| > 1 && (s[0] == '-' || s[0] == '+') && AllDigits(s[1..]) then
      Some(if s[0] == '-' then 0 - DigitsValue(s[1..]) else DigitsValue(s[1..]))
    else if |s| > 0 && AllDigits(s) then Some(DigitsValue(s))
    else None
  }

  /** The decimal rendering of a number reads back as that number. */
  lemma {:induction false} DigitsOfNat(n: nat)
    ensures AllDigits(NatToString(n)) && DigitsValue(NatToString(n)) == n
    decreases n
  {
    if n >= 10 {
      DigitsOfNat(n / 10);
      var s := NatToString(n);
      assert s[..|s| - 1] == NatToString(n / 10);
    }
  }

  /** `int(str(n)) == n`: ParseInt inverts Python's rendering of an integer. */
  lemma ParseIntShow(n: int)
    ensures ParseInt(Show(JNum(n))) == Some(n)
  {
    var s := Show(JNum(n));
    if n < 0 {
      var d := NatToString(-n);
      DigitsOfNat(-n);
      assert s == "-" + d;
      assert s[1..] == d && s[0] == '-';
    } else {
      DigitsOfNat(n);
      assert s == NatToString(n);
      assert IsDigit(s[0]);
    }
  }

  /** `xs.index(x)`: the first position holding x. */
  function IndexOf(xs: seq<string>, x: string): (i: nat)
    requires x in xs
    ensures i < |xs| && xs[i] == x
    ensures forall j :: 0 <= j < i ==> xs[j] != x
    decreases |xs|
  {
    if xs[0] == x then 0 else 1 + IndexOf(xs[1..], x)
  }

  /** The server's listening parameters. */
  datatype Params = Params(port: int, address: string)

  /** The port part of `get_params`: `-p` must be followed by an integer,
      and the port, given or default, must lie in 1024..65535. */
  function PortParam(argv: seq<string>): Outcome<int> {
    var port :=
      if "-p" !in argv then Some(DEFAULT_SERVER_PORT)
      else
        var i := IndexOf(argv, "-p");
        if i + 1 == |argv| then None else ParseInt(argv[i + 1]);
    if port.None? || port.value < PORT_MIN || port.value > PORT_MAX then Exit(1)
    else Run(port.value)
  }

  /** The address part of `get_params`: the value after `-a`, or "" (all
      interfaces) when there is no `-a`. */
  function AddressParam(argv: seq<string>): Outcome<string> {
    if "-a" !in argv then Run("")
    else
      var j := IndexOf(argv, "-a");
      if j + 1 == |argv| then Exit(1) else Run(argv[j + 1])
  }

  /** `get_params()` of the lesson 6, 7 and 8 servers, and the same
      inline code of the lesson 3 server: the port is checked first. */
  function ServerParams(argv: seq<string>): Outcome<Params> {
    match PortParam(argv)
    case Exit(st) => Exit(st)
    case Run(port) =>
      match AddressParam(argv)
      case Exit(st) => Exit(st)
      case Run(address) => Run(Params(port, address))
  }

  /** What the option parser promises: a port in range, the given one or
      7777; the address after `-a` or ""; and exit status 1 on `-p` as the
      last argument, a non-numeric or out-of-range port, or `-a` as the
      last argument. */
  lemma ServerParamsSpec(argv: seq<string>)
    ensures var r := ServerParams(argv);
      && (r.Exit? ==> r.status == 1)
      && (r.Run? ==> PORT_MIN <= r.value.port <= PORT_MAX)
      && ("-p" !in argv && r.Run? ==> r.value.port == DEFAULT_SERVER_PORT)
      && ("-p" in argv && r.Run? ==>
            var i := IndexOf(argv, "-p");
            i + 1 < |argv| && ParseInt(argv[i + 1]) == Some(r.value.port))
      && ("-p" in argv && IndexOf(argv, "-p") + 1 == |argv| ==> r == Exit(1))
      && ("-p" in argv && IndexOf(argv, "-p") + 1 < |argv| ==>
            var p := ParseInt(argv[IndexOf(argv, "-p") + 1]);
            (p.None? || p.value < PORT_MIN || p.value > PORT_MAX) ==> r == Exit(1))
      && ("-a" !in argv && r.Run? ==> r.value.address == "")
      && ("-a" in argv && r.Run? ==> r.value.address == argv[IndexOf(argv, "-a") + 1])
      && ("-a" in argv && IndexOf(argv, "-a") + 1 == |argv| ==> r == Exit(1))
      && (PortParam(argv).Run? && AddressParam(argv).Run? <==> r.Run?)
  {
  }

  /** `server.py -p N` starts on port N exactly when N is in range. */
  lemma ServerParamsPort(prog: string, n: int)
    requires prog != "-p" && prog != "-a"
    ensures var r := ServerParams([prog, "-p", Show(JNum(n))]);
      && (PORT_MIN <= n <= PORT_MAX ==> r == Run(Params(n, "")))
      && (n < PORT_MIN || n > PORT_MAX ==> r == Exit(1))
  {
    var argv := [prog, "-p", Show(JNum(n))];
    ParseIntShow(n);
    assert IndexOf(argv, "-p") == 1;
    assert "-a" !in argv by {
      if n < 0 {
        assert Show(JNum(n))[0] == '-';
        assert |Show(JNum(n))| > 1;
      } else {
        assert IsDigit(Show(JNum(n))[0]);
      }
    }
  }

  /** The clients' port check after argument parsing:
      `if not 1023 < server_port < 65536: sys.exit(1)`. */
  function CheckPort(port: int): (r: Outcome<int>)
    ensures r.Run? <==> PORT_MIN <= port <= PORT_MAX
    ensures r.Run? ==> r.value == port
    ensures r.Exit? ==> r.status == 1
  {
    if !(1023 < port < 65536) then Exit(1) else Run(port)
  }

  /** The positional arguments of the lesson 3 and lesson 5 clients:
      `sys.argv[1]` and `int(sys.argv[2])`, both replaced by the defaults on
      IndexError; a port that is not a number raises ValueError. */
  function ArgvFallback(argv: seq<string>): (r: Result<(string, int)>)
    ensures |argv| < 3 ==> r == Ok((DEFAULT_SERVER_ADDRESS, DEFAULT_SERVER_PORT))
    ensures |argv| >= 3 ==> (r.Ok? <==> ParseInt(argv[2]).Some?)
    ensures |argv| >= 3 && r.Ok? ==> r.value == (argv[1], ParseInt(argv[2]).value)
    ensures r.Raise? ==> r.exc == ValueError
  {
    if |argv| < 3 then Ok((DEFAULT_SERVER_ADDRESS, DEFAULT_SERVER_PORT))
    else match ParseInt(argv[2])
      case None => Raise(ValueError)
      case Some(p) => Ok((argv[1], p))
  }
}
