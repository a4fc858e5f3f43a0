/**
 The parser of untrusted OpenVPN configurations and the printer of safe ones
 (internal/discovery/vpngate_ovpn.go), on decoded text.
 */
module OvpnConfig {
  import opened Wrappers
  import opened Text
  import Decimal

  datatype Endpoint = Endpoint(host: string, port: int, proto: string)

  datatype Config = Config(
    protocol: string, endpoints: seq<Endpoint>, dev: string,
    cipher: string, dataCiphers: string, auth: string, remoteCertTLS: string, verifyX509Name: string,
    tlsVersionMin: string,
    ca: string, cert: string, key: string)

  datatype Error =
    | Empty | IllegalInline | UnknownTag | Metacharacter
    | Injection | Disallowed | Unrecognized | NoEndpoints

  /** The parts of unicode.IsLetter, unicode.IsDigit and the host name syntax that are taken from the libraries. */
  datatype Library = Library(letter: char -> bool, hostname: string -> bool)

  /** A remote directive as read: no port, or an explicit one, in or out of range. */
  datatype Remote = Remote(host: string, port: Option<int>, proto: string)

  /** The scanner loop's variables. */
  datatype Scan = Scan(cfg: Config, globalProto: string, globalPort: int, remotes: seq<Remote>, tag: string,
      content: string)

  // ---- Vocabulary ----

  const DISALLOWED: set<string> := {
    "up", "down", "route-up", "route-pre-down", "ipchange", "plugin", "tls-verify", "auth-user-pass-verify",
    "client-connect", "client-disconnect", "learn-address", "route", "route-ipv6", "management", "management-client",
    "management-query-passwords", "script-security", "system", "setenv", "setenv-safe", "exec", "user", "group",
    "chroot", "daemon", "socks-proxy", "http-proxy"
  }

  const ALLOWED: set<string> := {
    "persist-key", "persist-tun", "client", "proto", "remote", "port", "rport", "dev", "dev-type", "cipher",
    "data-ciphers", "auth", "remote-cert-tls", "verify-x509-name", "tls-version-min", "nobind", "resolv-retry",
    "fast-io", "ping", "ping-restart", "keepalive", "explicit-exit-notify", "auth-user-pass", "verb"
  }

  /** The one printed directive that the parser does not know. */
  const ROUTE_NOPULL := "route-nopull"

  predicate IsMeta(c: char) {
    || c == ';' || c == '&' || c == '|' || c == '`' || c == '$'
    || c == '(' || c == ')' || c == '{' || c == '}' || c == '\\'
  }

  /** What sanitizeSafeString lets through. */
  predicate Kept(c: char) {
    && !IsControl(c) && c != ';' && c != '&' && c != '|' && c != '`' && c != '$' && c != '"' && c != '\'' && c != '\\'
    && c != '<' && c != '>'
  }

  function Filter(s: string): string {
    if s == "" then "" else (if Kept(s[0]) then [s[0]] else "") + Filter(s[1..])
  }

  function Sanitize(s: string): string {
    TrimSpace(Filter(s))
  }

  function NormalizeProto(p: string): string {
    var cleaned := Lower(TrimSpace(p));
    if cleaned == "udp" || cleaned == "udp4" || cleaned == "udp6" then "udp"
    else if cleaned == "tcp" || cleaned == "tcp4" || cleaned == "tcp6" then "tcp"
    else if cleaned == "tcp-client" || cleaned == "tcp-server" then "tcp"
    else ""
  }

  function Unsigned(s: string): string {
    if s != "" && (s[0] == '+' || s[0] == '-') then s[1..] else s
  }

  /** strconv.Atoi, 64 bits wide. */
  function Atoi(s: string): Option<int> {
    var digits := Unsigned(s);
    if digits == "" || exists k | 0 <= k < |digits| :: !Decimal.IsDigit(digits[k]) then None
    else
      var v := if s[0] == '-' then -Decimal.Value(digits) else Decimal.Value(digits);
      if -0x8000_0000_0000_0000 <= v < 0x8000_0000_0000_0000 then Some(v) else None
  }

  predicate ValidPort(p: int) {
    1 <= p <= 65535
  }

  predicate ValidHost(lib: Library, host: string) {
    && host != ""
    && (forall k | 0 <= k < |host| ::
          var c := host[k];
          !IsControl(c) && !IsMeta(c) && c != '<' && c != '>' && c != '"' && c != '\'' && c != ' ')
    && lib.hostname(host)
  }

  // ---- Inline blocks ----

  predicate InlineTag(tag: string) {
    tag == "ca" || tag == "cert" || tag == "key"
  }

  predicate HasPrefix(s: string, p: string) {
    p <= s
  }

  predicate PemLine(lib: Library, line: string) {
    var t := TrimSpace(line);
    || t == ""
    || HasPrefix(t, "-----BEGIN ") || HasPrefix(t, "-----END ")
    || forall k | 0 <= k < |t| ::
         var c := t[k]; lib.letter(c) || c == '+' || c == '/' || c == '=' || c == '-' || c == '_'
  }

  /** strings.Trim(line, "<>/ \t"). */
  predicate Bracket(c: char) {
    c == '<' || c == '>' || c == '/' || c == ' ' || c == '\t'
  }

  function TrimBrackets(s: string): string {
    if s != "" && Bracket(s[0]) then TrimBrackets(s[1..])
    else if s != "" && Bracket(s[|s| - 1]) then TrimBrackets(s[..|s| - 1])
    else s
  }

  function Opening(tag: string): string {
    "<" + tag + ">"
  }

  function Closing(tag: string): string {
    "</" + tag + ">"
  }

  function WithBlock(cfg: Config, tag: string, content: string): Config {
    if tag == "ca" then cfg.(ca := content) else if tag == "cert" then cfg.(cert := content) else cfg.(key := content)
  }

  function FeedInline(st: Scan, line: string, lib: Library): Result<Scan, Error> {
    if EqualFold(line, Closing(st.tag))
        then Ok(st.(cfg := WithBlock(st.cfg, st.tag, st.content), tag := "", content := ""))
    else if !PemLine(lib, line) then Err(IllegalInline)
    else Ok(st.(content := st.content + line + "\n"))
  }

  function FeedOpening(st: Scan, line: string): Result<Scan, Error> {
    var tag := Lower(TrimBrackets(line));
    if !InlineTag(tag) then Err(UnknownTag) else Ok(st.(tag := tag, content := ""))
  }

  // ---- Directives ----

  function ReadRemote(args: seq<string>): Remote
    requires args != []
  {
    var host := Sanitize(args[0]);
    if |args| == 1 then Remote(host, None, "")
    else
      var second := Atoi(args[1]);
      if |args| == 2 then (if second.Some? then Remote(host, second, "") else Remote(host, None, args[1]))
      else if second.Some? then Remote(host, second, args[2])
      else Remote(host, Atoi(args[2]), args[1])
  }

  function SetProto(st: Scan, p: string): Scan {
    if p == "" then st else st.(globalProto := p, cfg := st.cfg.(protocol := p))
  }

  function SetPort(st: Scan, p: Option<int>): Scan {
    if p.Some? && ValidPort(p.value) then st.(globalPort := p.value) else st
  }

  function SetDev(st: Scan, d: string): Scan {
    if HasPrefix(d, "tun") then st.(cfg := st.cfg.(dev := d)) else st
  }

  /** The switch on an allowed directive. */
  function Directive(st: Scan, directive: string, args: seq<string>): Scan {
    if args == [] then st
    else if directive == "proto" then SetProto(st, NormalizeProto(args[0]))
    else if directive == "port" || directive == "rport" then SetPort(st, Atoi(args[0]))
    else if directive == "remote" then st.(remotes := st.remotes + [ReadRemote(args)])
    else if directive == "dev" then SetDev(st, Sanitize(args[0]))
    else if directive == "cipher" then st.(cfg := st.cfg.(cipher := Sanitize(args[0])))
    else if directive == "data-ciphers" then st.(cfg := st.cfg.(dataCiphers := Sanitize(Join(args))))
    else if directive == "auth" then st.(cfg := st.cfg.(auth := Sanitize(args[0])))
    else if directive == "remote-cert-tls" then st.(cfg := st.cfg.(remoteCertTLS := Sanitize(args[0])))
    else if directive == "verify-x509-name" then st.(cfg := st.cfg.(verifyX509Name := Sanitize(Join(args))))
    else if directive == "tls-version-min" then st.(cfg := st.cfg.(tlsVersionMin := Sanitize(args[0])))
    else st
  }

  function FeedDirective(st: Scan, line: string, allowed: set<string>): Result<Scan, Error> {
    if exists k | 0 <= k < |line| :: IsMeta(line[k]) then Err(Metacharacter)
    else
      var fields := Fields(line);
      if fields == [] then Ok(st)
      else
        var directive := Lower(fields[0]);
        if HasPrefix(directive, "--") then Err(Injection)
        else if directive in DISALLOWED then Err(Disallowed)
        else if directive !in allowed then Err(Unrecognized)
        else Ok(Directive(st, directive, fields[1..]))
  }

  // ---- The whole text ----

  predicate Skipped(line: string) {
    line == "" || line[0] == '#' || line[0] == ';'
  }

  function Feed(st: Scan, raw: string, allowed: set<string>, lib: Library): Result<Scan, Error> {
    var line := TrimSpace(raw);
    if Skipped(line) then Ok(st)
    else if st.tag != "" then FeedInline(st, line, lib)
    else if line[0] == '<' && line[|line| - 1] == '>' then FeedOpening(st, line)
    else FeedDirective(st, line, allowed)
  }

  function FeedAll(st: Scan, lines: seq<string>, allowed: set<string>, lib: Library): Result<Scan, Error>
    decreases |lines|
  {
    if lines == [] then Ok(st)
    else
      match Feed(st, lines[0], allowed, lib)
      case Err(e) => Err(e)
      case Ok(next) => FeedAll(next, lines[1..], allowed, lib)
  }

  const INITIAL := Scan(Config("", [], "tun", "", "", "", "", "", "", "", "", ""), "", 0, [], "", "")

  /** A remote that names a valid endpoint, and which. */
  function Resolve(r: Remote, globalPort: int, globalProto: string, lib: Library): Option<Endpoint> {
    if !ValidHost(lib, r.host) || (r.port.Some? && !ValidPort(r.port.value)) then None
    else
      var port := if r.port.Some? then r.port.value else if globalPort > 0 then globalPort else 1194;
      var proto := if r.proto != "" then NormalizeProto(r.proto) else if globalProto != "" then globalProto else "udp";
      if !ValidPort(port) || proto == "" then None else Some(Endpoint(r.host, port, proto))
  }

  function ResolveAll(rs: seq<Remote>, globalPort: int, globalProto: string, lib: Library): seq<Endpoint> {
    if rs == [] then []
    else
      (match Resolve(rs[0], globalPort, globalProto, lib)
       case None => []
       case Some(e) => [e])
      + ResolveAll(rs[1..], globalPort, globalProto, lib)
  }

  function Conclude(st: Scan, lib: Library): Result<Config, Error> {
    var endpoints := ResolveAll(st.remotes, st.globalPort, st.globalProto, lib);
    if endpoints == [] then Err(NoEndpoints)
    else Ok(st.cfg.(endpoints := endpoints, protocol := if st.cfg.protocol == "" then endpoints[0].proto
        else st.cfg.protocol))
  }

  function Parse(text: string, allowed: set<string>, lib: Library): Result<Config, Error> {
    if TrimSpace(text) == "" then Err(Empty)
    else
      match FeedAll(INITIAL, Lines(text), allowed, lib)
      case Err(e) => Err(e)
      case Ok(st) => Conclude(st, lib)
  }

  /** The scanner loop, and the resolution loop after it. */
  method ParseSafeOpenVPNConfig(text: string, lib: Library) returns (r: Result<Config, Error>)
    ensures r == Parse(text, ALLOWED, lib)
  {
    hide Feed, Resolve, Lines, TrimSpace, ALLOWED;
    if TrimSpace(text) == "" {
      return Err(Empty);
    }
    var lines, st := Lines(text), INITIAL;
    for i := 0 to |lines|
      invariant FeedAll(INITIAL, lines, ALLOWED, lib) == FeedAll(st, lines[i..], ALLOWED, lib)
    {
      assert lines[i..][1..] == lines[i + 1..];
      var next := Feed(st, lines[i], ALLOWED, lib);
      if next.Err? {
        return Err(next.error);
      }
      st := next.value;
    }
    var endpoints: seq<Endpoint> := [];
    for i := 0 to |st.remotes|
      invariant endpoints + ResolveAll(st.remotes[i..], st.globalPort, st.globalProto, lib)
             == ResolveAll(st.remotes, st.globalPort, st.globalProto, lib)
    {
      assert st.remotes[i..][1..] == st.remotes[i + 1..];
      var e := Resolve(st.remotes[i], st.globalPort, st.globalProto, lib);
      if e.Some? {
        endpoints := endpoints + [e.value];
      }
    }
    assert st.remotes[|st.remotes|..] == [] && lines[|lines|..] == [];
    assert endpoints + [] == endpoints;
    if endpoints == [] {
      return Err(NoEndpoints);
    }
    var cfg := st.cfg.(endpoints := endpoints);
    if cfg.protocol == "" {
      cfg := cfg.(protocol := endpoints[0].proto);
    }
    return Ok(cfg);
  }

  // ---- The printer ----

  /** "%d" of a port. */
  function Signed(n: int): string {
    if n >= 0 then Decimal.Itoa(n) else "-" + Decimal.Itoa(-n)
  }

  function RemoteLine(e: Endpoint): string {
    "remote " + e.host + " " + Signed(e.port)
  }

  function RemoteLines(es: seq<Endpoint>): seq<string> {
    if es == [] then [] else [RemoteLine(es[0])] + RemoteLines(es[1..])
  }

  function Setting(name: string, value: string): seq<string> {
    if value == "" then [] else [name + " " + value]
  }

  const HEADER := "# Super-Proxy Safe Generated OpenVPN Configuration"

  function OpeningLines(cfg: Config): seq<string> {
    [HEADER, "client",
     "dev " + (if cfg.dev != "" then cfg.dev else "tun"), "dev-type tun",
     "proto " + (if cfg.protocol != "" then cfg.protocol else "udp")]
  }

  function SettingLines(cfg: Config): seq<string> {
    Setting("cipher", cfg.cipher) + Setting("data-ciphers", cfg.dataCiphers) + Setting("auth", cfg.auth)
    + Setting("remote-cert-tls", cfg.remoteCertTLS) + Setting("verify-x509-name", cfg.verifyX509Name)
    + Setting("tls-version-min", cfg.tlsVersionMin)
  }

  function HeadLines(cfg: Config): seq<string> {
    OpeningLines(cfg) + RemoteLines(cfg.endpoints) + ["nobind", ROUTE_NOPULL] + SettingLines(cfg)
  }

  function BlockText(tag: string, content: string): string {
    if content == "" then "" else Opening(tag) + "\n" + TrimSpace(content) + "\n" + Closing(tag) + "\n"
  }

  /** GenerateSafeOpenVPNConfig. */
  function Print(cfg: Config): string {
    Unlines(HeadLines(cfg)) + BlockText("ca", cfg.ca) + BlockText("cert", cfg.cert) + BlockText("key", cfg.key)
  }

  /** The printer fills a builder, line by line; `ls` are the lines written so far. */
  method GenerateSafeOpenVPNConfig(cfg: Config) returns (text: string)
    ensures text == Print(cfg)
  {
    hide TrimSpace, Unlines, RemoteLine, HEADER, Setting, BlockText;
    ghost var ls: seq<string>;
    text, ls := WriteOpening(cfg);
    for i := 0 to |cfg.endpoints|
      invariant text == Unlines(ls)
      invariant ls + RemoteLines(cfg.endpoints[i..]) == OpeningLines(cfg) + RemoteLines(cfg.endpoints)
    {
      assert RemoteLines(cfg.endpoints[i..]) == [RemoteLine(cfg.endpoints[i])] + RemoteLines(cfg.endpoints[i + 1..]);
      text, ls := WriteLine(text, ls, RemoteLine(cfg.endpoints[i]));
    }
    assert cfg.endpoints[|cfg.endpoints|..] == [];
    text, ls := WriteLine(text, ls, "nobind");
    text, ls := WriteLine(text, ls, ROUTE_NOPULL);
    assert ls == OpeningLines(cfg) + RemoteLines(cfg.endpoints) + ["nobind", ROUTE_NOPULL];
    text, ls := WriteSettings(cfg, text, ls);
    text := WriteBlock(text, "ca", cfg.ca);
    text := WriteBlock(text, "cert", cfg.cert);
    text := WriteBlock(text, "key", cfg.key);
  }

  method WriteLine(b: string, ghost ls: seq<string>, line: string) returns (text: string, ghost more: seq<string>)
    requires b == Unlines(ls)
    ensures text == Unlines(more) && more == ls + [line]
  {
    text, more := b + line + "\n", ls + [line];
    UnlinesAppend(ls, line);
  }

  method WriteOpening(cfg: Config) returns (text: string, ghost ls: seq<string>)
    ensures text == Unlines(ls) && ls == OpeningLines(cfg)
  {
    hide HEADER;
    text, ls := WriteLine("", [], HEADER);
    text, ls := WriteLine(text, ls, "client");
    text, ls := WriteLine(text, ls, "dev " + if cfg.dev != "" then cfg.dev else "tun");
    text, ls := WriteLine(text, ls, "dev-type tun");
    text, ls := WriteLine(text, ls, "proto " + if cfg.protocol != "" then cfg.protocol else "udp");
  }

  method WriteSetting(b: string, ghost ls: seq<string>, name: string, value: string)
      returns (text: string, ghost more: seq<string>)
    requires b == Unlines(ls)
    ensures text == Unlines(more) && more == ls + Setting(name, value)
  {
    text, more := b, ls;
    if value != "" {
      text, more := WriteLine(text, more, name + " " + value);
    }
  }

  method WriteSettings(cfg: Config, b: string, ghost ls: seq<string>) returns (text: string, ghost more: seq<string>)
    requires b == Unlines(ls)
    ensures text == Unlines(more) && more == ls + SettingLines(cfg)
  {
    hide Setting, Unlines;
    text, more := WriteSetting(b, ls, "cipher", cfg.cipher);
    text, more := WriteSetting(text, more, "data-ciphers", cfg.dataCiphers);
    text, more := WriteSetting(text, more, "auth", cfg.auth);
    text, more := WriteSetting(text, more, "remote-cert-tls", cfg.remoteCertTLS);
    text, more := WriteSetting(text, more, "verify-x509-name", cfg.verifyX509Name);
    text, more := WriteSetting(text, more, "tls-version-min", cfg.tlsVersionMin);
  }

  method WriteBlock(b: string, tag: string, content: string) returns (text: string)
    ensures text == b + BlockText(tag, content)
  {
    text := b;
    if content != "" {
      text := text + (Opening(tag) + "\n" + TrimSpace(content) + "\n" + Closing(tag) + "\n");
    }
  }
}
