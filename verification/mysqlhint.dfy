/** The connection hint that the describe report prints under the MySQL
    credentials: one sentence naming the published port and the Docker IP, and
    one ready-to-run client command naming them again. */
module MysqlHint {
  import opened Wrappers
  import opened GoText

  const Lead := "\nTo connect to mysql from your host machine, use port "
  const On := " on "
  const Example := ".\nFor example: "
  const HostFlag := "mysql --host="
  const PortFlag := " --port="
  const Login := " --user=db --password=db --database=db"

  /** The fixed text around the two values: `lead`, the port, `on`, the IP,
      `bridge`, the IP again, `portFlag`, the port again, `login`. */
  datatype Pattern = Pattern(lead: string, on: string, bridge: string, portFlag: string, login: string)

  /** The pattern of the hint's Sprintf format string. */
  const Hint := Pattern(Lead, On, Example + HostFlag, PortFlag, Login)

  /** A pattern whose text after the port cannot be mistaken for more digits. */
  predicate Delimited(p: Pattern)
  {
    |p.on| > 0 && !IsDigit(p.on[0])
  }

  /** The pattern filled in with an IP and a printed port. */
  function Format(p: Pattern, ip: string, port: string): string
  {
    p.lead + port + p.on + ip + p.bridge + ip + p.portFlag + port + p.login
  }

  /** The client command of the hint's second line. */
  function ClientCommand(ip: string, port: string): string
  {
    HostFlag + ip + PortFlag + port + Login
  }

  /** The hint as the Sprintf call formats it, with `port` already printed by
      %d. A hint made from a printed port reads back as its IP and port. */
  function HintText(ip: string, port: string): (h: string)
    ensures |port| > 0 && IsDigits(port) ==> ParseHint(h) == Some((ip, port))
  {
    HintParses(ip, port);
    Format(Hint, ip, port)
  }

  /** The hint is a sentence naming the port and the IP, followed by the
      client command for the same IP and port. */
  lemma HintShape(ip: string, port: string)
    ensures HintText(ip, port) == Lead + port + On + ip + Example + ClientCommand(ip, port)
  {
    CommandLast(Lead, port, On, ip, Example, HostFlag, PortFlag, Login);
  }

  lemma CommandLast(lead: string, port: string, on: string, ip: string, example: string,
                    hostFlag: string, portFlag: string, login: string)
    ensures lead + port + on + ip + (example + hostFlag) + ip + portFlag + port + login
            == lead + port + on + ip + example + (hostFlag + ip + portFlag + port + login)
  {
  }

  /** Length of the run of decimal digits at the start of `s`. */
  function DigitRun(s: string): (k: nat)
    ensures k <= |s| && IsDigits(s[..k])
    ensures k < |s| ==> !IsDigit(s[k])
    decreases |s|
  {
    if s == [] || !IsDigit(s[0]) then 0
    else
      var k := 1 + DigitRun(s[1..]);
      assert s[..k] == [s[0]] + s[1..][..k - 1];
      k
  }

  /** `s` without the prefix `p`, when it starts with `p`. */
  function StripPrefix(p: string, s: string): (r: Option<string>)
    ensures r.Some? <==> p <= s
    ensures r.Some? ==> s == p + r.value
  {
    if |p| <= |s| && s[..|p|] == p then Some(s[|p|..]) else None
  }

  /** `s` without the suffix `q`, when it ends with `q`. */
  function StripSuffix(s: string, q: string): (r: Option<string>)
    ensures r.Some? ==> s == r.value + q
  {
    if |q| <= |s| && s[|s| - |q|..] == q then Some(s[..|s| - |q|]) else None
  }

  /** The one `x` with `m == x + b + x`, if there is one. */
  function SplitTwin(m: string, b: string): (r: Option<string>)
    ensures r.Some? ==> m == r.value + b + r.value
  {
    if |m| < |b| || (|m| - |b|) % 2 != 0 then None
    else
      var n := (|m| - |b|) / 2;
      if m[n..n + |b|] == b && m[..n] == m[n + |b|..] then
        assert m == m[..n] + m[n..n + |b|] + m[n + |b|..];
        Some(m[..n])
      else None
  }

  lemma StripSuffixOf(t: string, q: string)
    ensures StripSuffix(t + q, q) == Some(t)
  {
    assert (t + q)[|t|..] == q && (t + q)[..|t|] == t;
  }

  lemma SplitTwinOf(x: string, b: string)
    ensures SplitTwin(x + b + x, b) == Some(x)
  {
    var m := x + b + x;
    assert (|m| - |b|) / 2 == |x|;
    assert m[..|x|] == x && m[|x|..|x| + |b|] == b && m[|x| + |b|..] == x;
  }

  /** Reads text of pattern `p` back: the IP and the port it names. It
      succeeds only when both mentions of the IP agree and both mentions of the
      port agree. */
  function Parse(p: Pattern, h: string): Option<(string, string)>
  {
    match StripPrefix(p.lead, h)
    case None => None
    case Some(rest) => ParseRest(p, rest)
  }

  /** Parse after the lead: the port is the run of digits that starts `rest`. */
  function ParseRest(p: Pattern, rest: string): Option<(string, string)>
  {
    var k := DigitRun(rest);
    if k == 0 then None else ParseTail(p, rest[..k], rest[k..])
  }

  /** Parse after the first mention of `port`. */
  function ParseTail(p: Pattern, port: string, afterPort: string): Option<(string, string)>
  {
    match StripPrefix(p.on, afterPort)
    case None => None
    case Some(tail) =>
      match StripSuffix(tail, p.portFlag + port + p.login)
      case None => None
      case Some(mid) =>
        match SplitTwin(mid, p.bridge)
        case None => None
        case Some(ip) => Some((ip, port))
  }

  /** Reads a connection hint back. */
  function ParseHint(h: string): Option<(string, string)>
  {
    Parse(Hint, h)
  }

  /** The run of digits at the start of `d + t` is `d` when `t` does not start with a digit. */
  lemma DigitRunOf(d: string, t: string)
    requires IsDigits(d)
    requires |t| > 0 && !IsDigit(t[0])
    ensures DigitRun(d + t) == |d|
  {
    var s := d + t;
    assert s[|d|] == t[0];
    assert forall i :: 0 <= i < |d| ==> s[i] == d[i];
  }

  /** Format, grouped the way Parse takes it apart. */
  lemma FormatGrouped(p: Pattern, ip: string, port: string)
    ensures Format(p, ip, port)
            == p.lead + (port + (p.on + ((ip + p.bridge + ip) + (p.portFlag + port + p.login))))
  {
  }

  lemma ParseTailFormat(p: Pattern, ip: string, port: string)
    ensures ParseTail(p, port, p.on + ((ip + p.bridge + ip) + (p.portFlag + port + p.login)))
            == Some((ip, port))
  {
    var close := p.portFlag + port + p.login;
    var mid := ip + p.bridge + ip;
    assert StripPrefix(p.on, p.on + (mid + close)) == Some(mid + close);
    StripSuffixOf(mid, close);
    SplitTwinOf(ip, p.bridge);
  }

  lemma ParseRestFormat(p: Pattern, port: string, afterPort: string)
    requires IsDigits(port) && |port| > 0
    requires |afterPort| > 0 && !IsDigit(afterPort[0])
    ensures ParseRest(p, port + afterPort) == ParseTail(p, port, afterPort)
  {
    DigitRunOf(port, afterPort);
    var rest := port + afterPort;
    assert rest[..|port|] == port && rest[|port|..] == afterPort;
  }

  /** Text formatted from a delimited pattern reads back as the IP and the port it was given. */
  lemma ParseFormat(p: Pattern, ip: string, port: string)
    requires Delimited(p)
    requires |port| > 0 && IsDigits(port)
    ensures Parse(p, Format(p, ip, port)) == Some((ip, port))
  {
    var afterPort := p.on + ((ip + p.bridge + ip) + (p.portFlag + port + p.login));
    FormatGrouped(p, ip, port);
    assert StripPrefix(p.lead, p.lead + (port + afterPort)) == Some(port + afterPort);
    assert afterPort[0] == p.on[0];
    ParseRestFormat(p, port, afterPort);
    ParseTailFormat(p, ip, port);
  }

  lemma ParseTailSound(p: Pattern, port: string, afterPort: string, ip: string)
    requires ParseTail(p, port, afterPort) == Some((ip, port))
    ensures afterPort == p.on + ((ip + p.bridge + ip) + (p.portFlag + port + p.login))
  {
    var tail := StripPrefix(p.on, afterPort).value;
    var mid := StripSuffix(tail, p.portFlag + port + p.login).value;
    assert mid == ip + p.bridge + ip;
  }

  lemma HintParses(ip: string, port: string)
    ensures |port| > 0 && IsDigits(port) ==> Parse(Hint, Format(Hint, ip, port)) == Some((ip, port))
  {
    if |port| > 0 && IsDigits(port) {
      assert Delimited(Hint) by { assert On[0] == ' '; }
      ParseFormat(Hint, ip, port);
    }
  }

  /** Whatever reads back as an IP and a port is the formatted text for them. */
  lemma ParseSound(p: Pattern, h: string, ip: string, port: string)
    requires Parse(p, h) == Some((ip, port))
    ensures |port| > 0 && IsDigits(port)
    ensures h == Format(p, ip, port)
  {
    var rest := StripPrefix(p.lead, h).value;
    var k := DigitRun(rest);
    assert k > 0 && ParseTail(p, rest[..k], rest[k..]) == Some((ip, port));
    assert port == rest[..k];
    assert rest == port + rest[k..];
    ParseTailSound(p, port, rest[k..], ip);
    FormatGrouped(p, ip, port);
  }

  /** A hint read back names exactly the IP and the printed port it was made
      from, and text reads back as a hint only if it is one, with the same IP
      in the sentence and in the command and the same port in both. */
  lemma HintReadsBack(h: string, ip: string, port: string)
    requires |port| > 0 && IsDigits(port)
    ensures ParseHint(h) == Some((ip, port)) <==> h == HintText(ip, port)
  {
    if ParseHint(h) == Some((ip, port)) {
      ParseSound(Hint, h, ip, port);
    }
  }
}
