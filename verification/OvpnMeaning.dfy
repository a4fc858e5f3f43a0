/**
 What a text means to the parser, said without the scanner: its directives, and which
 of several takes effect. A setting is what its last directive says, ports and
 protocols fill in what a remote leaves open, wherever in the text they stand.
 */
module OvpnMeaning {
  import opened Wrappers
  import opened Text
  import opened OvpnConfig
  import opened OvpnRoundTrip
  import Decimal

  // ---- The directives of a text ----

  /** The words of every line that is neither blank nor a comment, nor in a block; `tag` is the open block. */
  function Directives(lines: seq<string>, tag: string): seq<seq<string>> {
    if lines == [] then []
    else
      var line := TrimSpace(lines[0]);
      if line == "" || line[0] == '#' || line[0] == ';' then Directives(lines[1..], tag)
      else if tag != "" then Directives(lines[1..], if EqualFold(line, "</" + tag + ">") then "" else tag)
      else if line[0] == '<' && line[|line| - 1] == '>' then Directives(lines[1..], Lower(TrimBrackets(line)))
      else [Fields(line)] + Directives(lines[1..], "")
  }

  /** A directive of this name with at least one argument. */
  predicate Gives(d: seq<string>, name: string) {
    |d| > 1 && Lower(d[0]) == name
  }

  /** The arguments of the last directive of a name, if it has any at all. */
  function LastOf(ds: seq<seq<string>>, name: string): Option<seq<string>> {
    if ds == [] then None
    else if LastOf(ds[1..], name).Some? then LastOf(ds[1..], name)
    else if Gives(ds[0], name) then Some(ds[0][1..])
    else None
  }

  /** The last port that is one: `port` and `rport` are the same here. */
  function LastPort(ds: seq<seq<string>>): Option<int> {
    if ds == [] then None
    else if LastPort(ds[1..]).Some? then LastPort(ds[1..])
    else if (Gives(ds[0], "port") || Gives(ds[0], "rport")) && Atoi(ds[0][1]).Some? && 0 < Atoi(ds[0][1]).value < 65536
      then Atoi(ds[0][1])
    else None
  }

  function LastProto(ds: seq<seq<string>>): Option<string> {
    if ds == [] then None
    else if LastProto(ds[1..]).Some? then LastProto(ds[1..])
    else if Gives(ds[0], "proto") && NormalizeProto(ds[0][1]) != "" then Some(NormalizeProto(ds[0][1]))
    else None
  }

  function LastDev(ds: seq<seq<string>>): Option<string> {
    if ds == [] then None
    else if LastDev(ds[1..]).Some? then LastDev(ds[1..])
    else if Gives(ds[0], "dev") && "tun" <= Sanitize(ds[0][1]) then Some(Sanitize(ds[0][1]))
    else None
  }

  function RemoteArgs(ds: seq<seq<string>>): (remotes: seq<seq<string>>)
    ensures forall k | 0 <= k < |remotes| :: remotes[k] != []
  {
    if ds == [] then [] else (if Gives(ds[0], "remote") then [ds[0][1..]] else []) + RemoteArgs(ds[1..])
  }

  function Or<T>(o: Option<T>, d: T): T {
    if o.Some? then o.value else d
  }

  // ---- The scanner reads them so ----

  function Read(args: seq<seq<string>>): seq<Remote>
    requires forall k | 0 <= k < |args| :: args[k] != []
  {
    seq(|args|, k requires 0 <= k < |args| => ReadRemote(args[k]))
  }

  function FirstWord(o: Option<seq<string>>, before: string): string {
    if o.Some? && o.value != [] then Sanitize(o.value[0]) else before
  }

  function AllWords(o: Option<seq<string>>, before: string): string {
    if o.Some? then Sanitize(Join(o.value)) else before
  }

  /** What the scanner has learnt from these directives, on top of what it knew. */
  ghost predicate Learnt(st: Scan, ds: seq<seq<string>>, end: Scan) {
    EndpointsLearnt(st, ds, end) && SettingsLearnt(st, ds, end)
  }

  /** Of endpoints. */
  ghost predicate EndpointsLearnt(st: Scan, ds: seq<seq<string>>, end: Scan) {
    && end.globalPort == Or(LastPort(ds), st.globalPort)
    && end.globalProto == Or(LastProto(ds), st.globalProto)
    && end.cfg.protocol == Or(LastProto(ds), st.cfg.protocol)
    && end.remotes == st.remotes + Read(RemoteArgs(ds))
    && end.cfg.endpoints == st.cfg.endpoints
  }

  /** Of settings. */
  ghost predicate SettingsLearnt(st: Scan, ds: seq<seq<string>>, end: Scan) {
    && end.cfg.dev == Or(LastDev(ds), st.cfg.dev)
    && end.cfg.cipher == FirstWord(LastOf(ds, "cipher"), st.cfg.cipher)
    && end.cfg.dataCiphers == AllWords(LastOf(ds, "data-ciphers"), st.cfg.dataCiphers)
    && end.cfg.auth == FirstWord(LastOf(ds, "auth"), st.cfg.auth)
    && end.cfg.remoteCertTLS == FirstWord(LastOf(ds, "remote-cert-tls"), st.cfg.remoteCertTLS)
    && end.cfg.verifyX509Name == AllWords(LastOf(ds, "verify-x509-name"), st.cfg.verifyX509Name)
    && end.cfg.tlsVersionMin == FirstWord(LastOf(ds, "tls-version-min"), st.cfg.tlsVersionMin)
  }

  lemma {:induction false} LastGiven(ds: seq<seq<string>>, name: string)
    ensures LastOf(ds, name).Some? ==> LastOf(ds, name).value != []
  {
    if ds != [] { LastGiven(ds[1..], name); }
  }

  lemma NothingLearnt(st: Scan, end: Scan)
    requires end.globalPort == st.globalPort && end.globalProto == st.globalProto && end.remotes == st.remotes
    requires end.cfg == st.cfg.(ca := end.cfg.ca, cert := end.cfg.cert, key := end.cfg.key)
    ensures Learnt(st, [], end)
  {
    assert Read(RemoteArgs([])) == [];
  }

  /** What one more directive in front changes: it counts where nothing later does. */
  lemma OneInFront(d: seq<string>, ds: seq<seq<string>>, name: string)
    ensures LastOf([d] + ds, name) == First(LastOf(ds, name), LastOf([d], name))
    ensures LastPort([d] + ds) == First(LastPort(ds), LastPort([d]))
    ensures LastProto([d] + ds) == First(LastProto(ds), LastProto([d]))
    ensures LastDev([d] + ds) == First(LastDev(ds), LastDev([d]))
    ensures RemoteArgs([d] + ds) == RemoteArgs([d]) + RemoteArgs(ds)
  {
    assert ([d] + ds)[1..] == ds && ([d] + ds)[0] == d && [d][1..] == [];
    hide Sanitize, Atoi, NormalizeProto, Gives;
  }

  function First<T>(a: Option<T>, b: Option<T>): Option<T> {
    if a.Some? then a else b
  }

  /** One directive, then the rest. */
  lemma LearntMore(st: Scan, d: seq<string>, next: Scan, ds: seq<seq<string>>, end: Scan)
    requires Learnt(st, [d], next) && Learnt(next, ds, end)
    ensures Learnt(st, [d] + ds, end)
  {
    hide EndpointsLearnt, SettingsLearnt;
    EndpointsLearntMore(st, d, next, ds, end);
    SettingsLearntMore(st, d, next, ds, end);
  }

  lemma EndpointsLearntMore(st: Scan, d: seq<string>, next: Scan, ds: seq<seq<string>>, end: Scan)
    requires EndpointsLearnt(st, [d], next) && EndpointsLearnt(next, ds, end)
    ensures EndpointsLearnt(st, [d] + ds, end)
  {
    OneInFront(d, ds, "");
    hide ReadRemote, LastOf, LastPort, LastProto, LastDev, RemoteArgs;
    assert Read(RemoteArgs([d] + ds)) == Read(RemoteArgs([d])) + Read(RemoteArgs(ds));
    assert end.remotes == st.remotes + Read(RemoteArgs([d])) + Read(RemoteArgs(ds));
  }

  lemma SettingsLearntMore(st: Scan, d: seq<string>, next: Scan, ds: seq<seq<string>>, end: Scan)
    requires SettingsLearnt(st, [d], next) && SettingsLearnt(next, ds, end)
    ensures SettingsLearnt(st, [d] + ds, end)
  {
    OneInFront(d, ds, "cipher");
    OneInFront(d, ds, "data-ciphers");
    OneInFront(d, ds, "auth");
    OneInFront(d, ds, "remote-cert-tls");
    OneInFront(d, ds, "verify-x509-name");
    OneInFront(d, ds, "tls-version-min");
    LastGiven(ds, "cipher");
    LastGiven(ds, "auth");
    LastGiven(ds, "remote-cert-tls");
    LastGiven(ds, "tls-version-min");
    hide Sanitize, Join, LastOf, LastDev, LastPort, LastProto, RemoteArgs;
  }

  /** A line outside blocks that is no directive, or ends a block, teaches nothing but the block. */
  lemma LearntThrough(st: Scan, next: Scan, ds: seq<seq<string>>, end: Scan)
    requires next == st.(tag := next.tag, content := next.content,
                         cfg := st.cfg.(ca := next.cfg.ca, cert := next.cfg.cert, key := next.cfg.key))
    requires Learnt(next, ds, end)
    ensures Learnt(st, ds, end)
  {
    hide Sanitize, Atoi, NormalizeProto, Join, Lower, ReadRemote, LastOf, LastPort, LastProto, LastDev, RemoteArgs;
  }

  // ---- One directive ----

  lemma OneAlone(d: seq<string>, name: string)
    requires d != []
    ensures LastOf([d], name) == if |d| > 1 && Lower(d[0]) == name then Some(d[1..]) else None
    ensures RemoteArgs([d]) == if |d| > 1 && Lower(d[0]) == "remote" then [d[1..]] else []
  {
    assert [d][1..] == [] && [d][0] == d;
    hide Lower;
  }

  lemma DirectiveLearns(st: Scan, d: seq<string>)
    requires d != []
    ensures Learnt(st, [d], Directive(st, Lower(d[0]), d[1..]))
  {
    DirectiveLearnsEndpoints(st, d);
    DirectiveLearnsSettings(st, d);
    hide EndpointsLearnt, SettingsLearnt, Directive, Lower;
  }

  lemma DirectiveLearnsEndpoints(st: Scan, d: seq<string>)
    requires d != []
    ensures EndpointsLearnt(st, [d], Directive(st, Lower(d[0]), d[1..]))
  {
    assert [d][1..] == [] && [d][0] == d;
    OneAlone(d, "");
    hide Sanitize, Atoi, NormalizeProto, Join, Lower, ReadRemote, LastOf, RemoteArgs;
    var end := Directive(st, Lower(d[0]), d[1..]);
    if |d| > 1 && Lower(d[0]) == "remote" {
      assert Read([d[1..]]) == [ReadRemote(d[1..])];
      assert end == st.(remotes := st.remotes + [ReadRemote(d[1..])]);
    } else {
      assert Read(RemoteArgs([d])) == [];
      assert st.remotes + [] == st.remotes && end.remotes == st.remotes;
    }
    assert end.globalProto == Or(LastProto([d]), st.globalProto);
    assert end.cfg.protocol == Or(LastProto([d]), st.cfg.protocol);
    assert end.globalPort == Or(LastPort([d]), st.globalPort);
  }

  lemma DirectiveLearnsSettings(st: Scan, d: seq<string>)
    requires d != []
    ensures SettingsLearnt(st, [d], Directive(st, Lower(d[0]), d[1..]))
  {
    DirectiveLearnsWords(st, d);
    DirectiveLearnsPhrases(st, d);
    hide Directive, Lower, Sanitize, Join, LastOf, LastDev;
  }

  lemma DirectiveLearnsWords(st: Scan, d: seq<string>)
    requires d != []
    ensures var cfg := Directive(st, Lower(d[0]), d[1..]).cfg;
      && cfg.cipher == FirstWord(LastOf([d], "cipher"), st.cfg.cipher)
      && cfg.auth == FirstWord(LastOf([d], "auth"), st.cfg.auth)
      && cfg.remoteCertTLS == FirstWord(LastOf([d], "remote-cert-tls"), st.cfg.remoteCertTLS)
      && cfg.tlsVersionMin == FirstWord(LastOf([d], "tls-version-min"), st.cfg.tlsVersionMin)
  {
    OneAlone(d, "cipher");
    OneAlone(d, "auth");
    OneAlone(d, "remote-cert-tls");
    OneAlone(d, "tls-version-min");
    hide Sanitize, Atoi, NormalizeProto, Join, Lower, ReadRemote, LastOf, RemoteArgs;
  }

  lemma DirectiveLearnsPhrases(st: Scan, d: seq<string>)
    requires d != []
    ensures var cfg := Directive(st, Lower(d[0]), d[1..]).cfg;
      && cfg.dev == Or(LastDev([d]), st.cfg.dev)
      && cfg.dataCiphers == AllWords(LastOf([d], "data-ciphers"), st.cfg.dataCiphers)
      && cfg.verifyX509Name == AllWords(LastOf([d], "verify-x509-name"), st.cfg.verifyX509Name)
  {
    assert [d][1..] == [] && [d][0] == d;
    OneAlone(d, "data-ciphers");
    OneAlone(d, "verify-x509-name");
    hide Sanitize, Atoi, NormalizeProto, Join, Lower, ReadRemote, LastOf, RemoteArgs;
  }

  lemma EmptyLearns(st: Scan)
    ensures Learnt(st, [[]], st)
  {
    var none: seq<seq<string>> := [[]];
    assert none[1..] == [];
    assert RemoteArgs(none) == [];
    assert Read(RemoteArgs(none)) == [];
  }

  // ---- The whole text ----

  ghost predicate OnlyBlock(st: Scan, next: Scan) {
    next == st.(tag := next.tag, content := next.content,
                cfg := st.cfg.(ca := next.cfg.ca, cert := next.cfg.cert, key := next.cfg.key))
  }

  lemma LineLearns(st: Scan, line: string, rest: seq<string>, allowed: set<string>, lib: Library)
    requires Feed(st, line, allowed, lib).Ok?
    ensures var next := Feed(st, line, allowed, lib).value; var ds := Directives(rest, next.tag);
      || (Directives([line] + rest, st.tag) == ds && OnlyBlock(st, next))
      || (Directives([line] + rest, st.tag) == [Fields(TrimSpace(line))] + ds
          && Learnt(st, [Fields(TrimSpace(line))], next))
  {
    assert ([line] + rest)[1..] == rest && ([line] + rest)[0] == line;
    hide TrimSpace, Fields, EqualFold, Lower, TrimBrackets, Directive, PemLine, Learnt;
    var text := TrimSpace(line);
    if Skipped(text) || st.tag != "" || (text[0] == '<' && text[|text| - 1] == '>') {
    } else {
      var fields := Fields(text);
      if fields == [] {
        EmptyLearns(st);
      } else {
        DirectiveLearns(st, fields);
        DirectiveKeepsTag(st, Lower(fields[0]), fields[1..]);
      }
    }
  }

  lemma DirectiveKeepsTag(st: Scan, name: string, args: seq<string>)
    ensures Directive(st, name, args).tag == st.tag
  {
    hide Sanitize, Atoi, NormalizeProto, Join, ReadRemote;
  }

  lemma {:induction false} ScannerLearns(st: Scan, lines: seq<string>, allowed: set<string>, lib: Library)
    requires FeedAll(st, lines, allowed, lib).Ok?
    ensures Learnt(st, Directives(lines, st.tag), FeedAll(st, lines, allowed, lib).value)
    decreases |lines|
  {
    if lines == [] {
      NothingLearnt(st, st);
    } else {
      var next, end := Feed(st, lines[0], allowed, lib).value, FeedAll(st, lines, allowed, lib).value;
      ScannerLearns(next, lines[1..], allowed, lib);
      var ds := Directives(lines[1..], next.tag);
      LineLearns(st, lines[0], lines[1..], allowed, lib);
      assert [lines[0]] + lines[1..] == lines;
      hide Learnt, Feed, Directives;
      if Directives(lines, st.tag) == ds && OnlyBlock(st, next) {
        LearntThrough(st, next, ds, end);
      } else {
        LearntMore(st, Fields(TrimSpace(lines[0])), next, ds, end);
      }
    }
  }

  // ---- Endpoints ----

  /** The endpoint that a remote's arguments name, when the text's port and protocol are these. */
  function EndpointOf(args: seq<string>, port: int, proto: string, lib: Library): Option<Endpoint>
    requires args != []
  {
    var explicit := if |args| > 1 && Atoi(args[1]).Some? then Atoi(args[1])
                    else if |args| > 2 then Atoi(args[2]) else None;
    var own := if |args| == 1 then "" else if Atoi(args[1]).None? then args[1] else if |args| > 2 then args[2] else "";
    if !ValidHost(lib, Sanitize(args[0])) then None
    else if explicit.Some? && !(0 < explicit.value < 65536) then None
    else if own != "" && NormalizeProto(own) == "" then None
    else Some(Endpoint(Sanitize(args[0]), Or(explicit, port), if own != "" then NormalizeProto(own) else proto))
  }

  /** The remotes that name an endpoint, in order. */
  function EndpointsOf(remotes: seq<seq<string>>, port: int, proto: string, lib: Library): seq<Endpoint>
    requires forall k | 0 <= k < |remotes| :: remotes[k] != []
  {
    if remotes == [] then []
    else
      (match EndpointOf(remotes[0], port, proto, lib)
       case None => []
       case Some(e) => [e])
      + EndpointsOf(remotes[1..], port, proto, lib)
  }

  lemma EndpointMeans(args: seq<string>, port: int, proto: string, lib: Library)
    requires args != [] && 0 <= port < 65536
    ensures Resolve(ReadRemote(args), port, proto, lib) ==
      EndpointOf(args, if port == 0 then 1194 else port, if proto == "" then "udp" else proto, lib)
  {
    hide Sanitize, Atoi, NormalizeProto, ValidHost;
  }

  lemma {:induction false} EndpointsMean(remotes: seq<seq<string>>, port: int, proto: string, lib: Library)
    requires 0 <= port < 65536 && forall k | 0 <= k < |remotes| :: remotes[k] != []
    ensures ResolveAll(Read(remotes), port, proto, lib) ==
      EndpointsOf(remotes, if port == 0 then 1194 else port, if proto == "" then "udp" else proto, lib)
    decreases |remotes|
  {
    hide Resolve, ReadRemote, EndpointOf;
    if remotes != [] {
      EndpointMeans(remotes[0], port, proto, lib);
      EndpointsMean(remotes[1..], port, proto, lib);
      assert Read(remotes)[0] == ReadRemote(remotes[0]) && Read(remotes)[1..] == Read(remotes[1..]);
    }
  }

  lemma {:induction false} PortInRange(ds: seq<seq<string>>)
    ensures LastPort(ds).Some? ==> 0 < LastPort(ds).value < 65536
  {
    if ds != [] { PortInRange(ds[1..]); }
  }

  lemma {:induction false} ProtoNotEmpty(ds: seq<seq<string>>)
    ensures LastProto(ds).Some? ==> LastProto(ds).value != ""
  {
    if ds != [] { ProtoNotEmpty(ds[1..]); }
  }

  /** The endpoints that are resolved in the end, of a text that the scanner has accepted. */
  lemma EndpointsFound(text: string, allowed: set<string>, lib: Library)
    requires FeedAll(INITIAL, Lines(text), allowed, lib).Ok?
    ensures var end := FeedAll(INITIAL, Lines(text), allowed, lib).value; var ds := Directives(Lines(text), "");
      ResolveAll(end.remotes, end.globalPort, end.globalProto, lib) ==
        EndpointsOf(RemoteArgs(ds), Or(LastPort(ds), 1194), Or(LastProto(ds), "udp"), lib)
  {
    var ds := Directives(Lines(text), "");
    var end := FeedAll(INITIAL, Lines(text), allowed, lib).value;
    ScannerLearns(INITIAL, Lines(text), allowed, lib);
    PortInRange(ds);
    ProtoNotEmpty(ds);
    assert INITIAL.remotes + Read(RemoteArgs(ds)) == Read(RemoteArgs(ds));
    EndpointsMean(RemoteArgs(ds), end.globalPort, end.globalProto, lib);
    hide FeedAll, Lines, Directives, TrimSpace, Sanitize, Atoi, NormalizeProto, Join, LastOf, LastPort, LastProto,
         LastDev, RemoteArgs, Read, EndpointsOf, ResolveAll;
  }

  lemma Concluded(text: string, allowed: set<string>, lib: Library)
    requires Parse(text, allowed, lib).Ok?
    ensures FeedAll(INITIAL, Lines(text), allowed, lib).Ok?
    ensures var end := FeedAll(INITIAL, Lines(text), allowed, lib).value;
      var endpoints := ResolveAll(end.remotes, end.globalPort, end.globalProto, lib);
      endpoints != [] && Parse(text, allowed, lib).value == end.cfg.(endpoints := endpoints,
        protocol := if end.cfg.protocol == "" then endpoints[0].proto else end.cfg.protocol)
  {
    hide FeedAll, Lines, TrimSpace, ResolveAll;
  }

  /**
   What an accepted text means. Every setting is that of its last directive. The endpoints are those of the remotes that
   name a valid one, in order; a remote without a port has the last valid port of the text, or 1194, one without a
   protocol the last known one, or UDP. There is at least one.
   */
  lemma ParseMeans(text: string, allowed: set<string>, lib: Library)
    requires Parse(text, allowed, lib).Ok?
    ensures var cfg := Parse(text, allowed, lib).value; var ds := Directives(Lines(text), "");
      && cfg.endpoints == EndpointsOf(RemoteArgs(ds), Or(LastPort(ds), 1194), Or(LastProto(ds), "udp"), lib)
      && cfg.endpoints != []
      && cfg.protocol == Or(LastProto(ds), cfg.endpoints[0].proto)
      && cfg.dev == Or(LastDev(ds), "tun")
      && cfg.cipher == FirstWord(LastOf(ds, "cipher"), "")
      && cfg.dataCiphers == AllWords(LastOf(ds, "data-ciphers"), "")
      && cfg.auth == FirstWord(LastOf(ds, "auth"), "")
      && cfg.remoteCertTLS == FirstWord(LastOf(ds, "remote-cert-tls"), "")
      && cfg.verifyX509Name == AllWords(LastOf(ds, "verify-x509-name"), "")
      && cfg.tlsVersionMin == FirstWord(LastOf(ds, "tls-version-min"), "")
  {
    hide Parse, FeedAll, Lines, Directives, LastOf, LastPort, LastProto, LastDev, RemoteArgs, Read, EndpointsOf,
         ResolveAll, FirstWord, AllWords;
    Concluded(text, allowed, lib);
    ScannerLearns(INITIAL, Lines(text), allowed, lib);
    EndpointsFound(text, allowed, lib);
    ProtoNotEmpty(Directives(Lines(text), ""));
  }

  // ---- On texts of two lines ----

  predicate PortName(name: string) {
    name == "port" || name == "rport"
  }

  lemma ReadsPort(st: Scan, name: string, p: int, lib: Library)
    requires st.tag == "" && PortName(name) && ValidPort(p)
    ensures Feed(st, name + " " + Decimal.Itoa(p), ALLOWED, lib) == Ok(st.(globalPort := p))
  {
    var port := Decimal.Itoa(p);
    PortNames(name);
    PortReads(p);
    TokenReads(port);
    hide Feed, ALLOWED, DISALLOWED, Fields, Sanitize, Atoi, Decimal.Itoa;
    ReadsDirective(st, name, port, ALLOWED, lib);
  }

  lemma PortNames(name: string)
    requires PortName(name)
    ensures name != "" && LowerWord(name) && name in ALLOWED && name !in DISALLOWED
  {
  }

  lemma ReadsHost(st: Scan, host: string, lib: Library)
    requires st.tag == "" && Token(host)
    ensures Feed(st, "remote " + host, ALLOWED, lib) == Ok(st.(remotes := st.remotes + [Remote(host, None, "")]))
  {
    TokenReads(host);
    RemotePrinted();
    HostDirective(st, host);
    HostLine(host);
    assert "remote" in PRINTED && "remote" in ALLOWED;
    hide Feed, PRINTED, ALLOWED, Fields, Sanitize, Token, Trimmed, MetaFree, Directive;
    ReadsSetting(st, "remote", host, ALLOWED, lib);
  }

  lemma HostLine(host: string)
    ensures "remote " + host == "remote" + " " + host
  {
    assert "remote " == "remote" + " ";
  }

  lemma HostDirective(st: Scan, host: string)
    requires Sanitize(host) == host
    ensures Directive(st, "remote", [host]) == st.(remotes := st.remotes + [Remote(host, None, "")])
  {
    hide Sanitize, Atoi, NormalizeProto, Join;
  }

  lemma TwoLines(a: string, b: string, s1: Scan, s2: Scan, lib: Library)
    requires OneLine(a) && OneLine(b) && a != "" && !IsSpace(a[0])
    requires Feed(INITIAL, a, ALLOWED, lib) == Ok(s1) && Feed(s1, b, ALLOWED, lib) == Ok(s2)
    ensures Parse(Unlines([a, b]), ALLOWED, lib) == Conclude(s2, lib)
  {
    assert Unlines([a, b])[0] == a[0];
    TrimLeftOfText(Unlines([a, b]));
    LinesOfUnlines([a, b]);
    hide Feed, Lines, Unlines, TrimSpace, Conclude, INITIAL;
    FeedFirst(INITIAL, a, s1, [b] + [], ALLOWED, lib);
    FeedFirst(s1, b, s2, [], ALLOWED, lib);
    assert [a, b] == [a] + ([b] + []);
  }

  /** A port on a line of its own is that of a remote without one, whichever comes first. */
  lemma PortFillsIn(lib: Library, host: string, name: string, p: int)
    requires ValidHost(lib, host) && Token(host) && PortName(name) && ValidPort(p)
    ensures var port, remote := name + " " + Decimal.Itoa(p), "remote " + host;
      var cfg := INITIAL.cfg.(endpoints := [Endpoint(host, p, "udp")], protocol := "udp");
      && Parse(Unlines([port, remote]), ALLOWED, lib) == Ok(cfg)
      && Parse(Unlines([remote, port]), ALLOWED, lib) == Ok(cfg)
  {
    var port, remote := name + " " + Decimal.Itoa(p), "remote " + host;
    var end := INITIAL.(globalPort := p, remotes := [Remote(host, None, "")]);
    LinesAreOne(name, p, host);
    assert INITIAL.tag == "" && INITIAL.remotes + [Remote(host, None, "")] == [Remote(host, None, "")];
    ReadsPort(INITIAL, name, p, lib);
    ReadsHost(INITIAL.(globalPort := p), host, lib);
    ReadsHost(INITIAL, host, lib);
    ReadsPort(INITIAL.(remotes := [Remote(host, None, "")]), name, p, lib);
    assert Conclude(end, lib) == Ok(INITIAL.cfg.(endpoints := [Endpoint(host, p, "udp")], protocol := "udp")) by {
      ConcludesWith(end, host, p, lib);
    }
    hide Feed, Conclude, Unlines, Parse, OneLine, Token;
    TwoLines(port, remote, INITIAL.(globalPort := p), end, lib);
    TwoLines(remote, port, INITIAL.(remotes := [Remote(host, None, "")]), end, lib);
  }

  lemma LinesAreOne(name: string, p: int, host: string)
    requires PortName(name) && ValidPort(p) && Token(host)
    ensures OneLine(name + " " + Decimal.Itoa(p)) && OneLine("remote " + host)
    ensures !IsSpace((name + " " + Decimal.Itoa(p))[0]) && !IsSpace(("remote " + host)[0])
  {
    PortReads(p);
    CleanOneLine(host);
    CleanOneLine(Decimal.Itoa(p));
    hide Decimal.Itoa, Clean;
  }

  lemma ConcludesWith(end: Scan, host: string, p: int, lib: Library)
    requires end == INITIAL.(globalPort := p, remotes := [Remote(host, None, "")])
    requires ValidHost(lib, host) && ValidPort(p)
    ensures Conclude(end, lib) == Ok(INITIAL.cfg.(endpoints := [Endpoint(host, p, "udp")], protocol := "udp"))
  {
    var r := Remote(host, None, "");
    assert Resolve(r, p, "", lib) == Some(Endpoint(host, p, "udp"));
    assert [r][1..] == [] && [r][0] == r;
    assert ResolveAll([r], p, "", lib) == [Endpoint(host, p, "udp")];
    assert end.globalProto == "" && end.cfg.protocol == "";
  }
}
