/**
 Which texts the parser accepts, and what it says of the others: the first offending line
 decides. With what an accepted text means this is the whole parser, said without its
 scanner. The vocabulary is listed by what the words are for.
 */
module OvpnAcceptance {
  import opened Wrappers
  import opened Text
  import opened OvpnConfig
  import opened OvpnMeaning
  import Decimal

  // ---- Characters and words ----

  lemma CharactersMean(c: char)
    ensures IsMeta(c) <==> c in ";&|`$(){}\\"
    ensures Kept(c) <==> !IsControl(c) && c !in ";&|`$\"'\\<>"
    ensures Bracket(c) <==> c in "<>/ \t"
  {
  }

  lemma HostMeans(lib: Library, host: string)
    ensures ValidHost(lib, host) <==>
      && host != "" && lib.hostname(host)
      && forall c | c in host :: !IsControl(c) && c !in ";&|`$(){}\\<>\"' "
  {
    if ValidHost(lib, host) {
      forall c | c in host ensures !IsControl(c) && c !in ";&|`$(){}\\<>\"' " {
        var k :| 0 <= k < |host| && host[k] == c;
        CharactersMean(c);
      }
    } else if host != "" && lib.hostname(host) {
      var k :| 0 <= k < |host| && (IsControl(host[k]) || IsMeta(host[k]) || host[k] in "<>\"' ");
      CharactersMean(host[k]);
      assert host[k] in host;
    }
    hide IsControl;
  }

  /** Sanitizing drops the characters that are not kept, and the spaces around what is left, and nothing else. */
  lemma {:induction false} FilterMeans(a: string, b: string)
    ensures Filter(a + b) == Filter(a) + Filter(b)
    ensures forall c: char :: Filter([c]) == if !IsControl(c) && c !in ";&|`$\"'\\<>" then [c] else ""
  {
    forall c: char ensures Filter([c]) == if !IsControl(c) && c !in ";&|`$\"'\\<>" then [c] else "" {
      CharactersMean(c);
      assert [c][1..] == "" && [c] + "" == [c];
    }
    hide Kept;
    if a == "" {
      assert a + b == b;
    } else {
      assert (a + b)[1..] == a[1..] + b;
      FilterMeans(a[1..], b);
    }
  }

  lemma ProtoMeans(p: string)
    ensures var word := Lower(TrimSpace(p));
      && (NormalizeProto(p) == "udp" <==> word in {"udp", "udp4", "udp6"})
      && (NormalizeProto(p) == "tcp" <==> word in {"tcp", "tcp4", "tcp6", "tcp-client", "tcp-server"})
      && NormalizeProto(p) in {"udp", "tcp", ""}
  {
    hide Lower, TrimSpace;
  }

  /** Numbers of 64 bits, printed with a minus or a plus, are read; larger ones are not. */
  lemma AtoiMeans(n: nat)
    ensures Atoi(Decimal.Itoa(n)) == Atoi("+" + Decimal.Itoa(n))
    ensures if n <= 9223372036854775807 then Atoi(Decimal.Itoa(n)) == Some(n) else Atoi(Decimal.Itoa(n)).None?
    ensures var s := "-" + Decimal.Itoa(n);
      if n <= 9223372036854775808 then Atoi(s).Some? && Atoi(s).value + n == 0 else Atoi(s).None?
  {
    var s := Decimal.Itoa(n);
    Decimal.ValueOfItoa(n);
    assert Decimal.IsDigit(s[0]);
    assert ("+" + s)[1..] == s && ("-" + s)[1..] == s;
    hide Decimal.Itoa, Decimal.Value;
  }

  lemma NotANumber(s: string, k: nat)
    requires k < |s| && !Decimal.IsDigit(s[k]) && !(k == 0 && (s[0] == '+' || s[0] == '-') && |s| > 1)
    ensures Atoi(s).None?
  {
    var digits := Unsigned(s);
    if digits == s { assert !Decimal.IsDigit(digits[k]); }
    else if digits != "" { assert !Decimal.IsDigit(digits[k - 1]); }
  }

  lemma PemMeans(lib: Library, line: string)
    ensures PemLine(lib, line) <==>
      var t := TrimSpace(line);
      "-----BEGIN " <= t || "-----END " <= t || forall c | c in t :: lib.letter(c) || c in "+/=-_"
  {
    hide TrimSpace;
  }

  lemma {:induction false} TrimBracketsOff(s: string) returns (a: string, b: string)
    ensures s == a + TrimBrackets(s) + b && forall c | c in a + b :: Bracket(c)
    ensures var t := TrimBrackets(s); t != "" ==> !Bracket(t[0]) && !Bracket(t[|t| - 1])
    decreases |s|
  {
    hide Bracket;
    a, b := "", "";
    if s != "" && Bracket(s[0]) {
      a, b := TrimBracketsOff(s[1..]);
      a := [s[0]] + a;
    } else if s != "" && Bracket(s[|s| - 1]) {
      a, b := TrimBracketsOff(s[..|s| - 1]);
      b := b + [s[|s| - 1]];
    }
  }

  /** The brackets around a tag, and the spaces and slashes among them, are cut off on both sides. */
  lemma TrimBracketsMeans(s: string) returns (a: string, b: string)
    ensures s == a + TrimBrackets(s) + b && forall c | c in a + b :: c in "<>/ \t"
    ensures var t := TrimBrackets(s); t != "" ==> t[0] !in "<>/ \t" && t[|t| - 1] !in "<>/ \t"
  {
    a, b := TrimBracketsOff(s);
    forall c ensures Bracket(c) <==> c in "<>/ \t" { CharactersMean(c); }
    hide Bracket, TrimBrackets;
  }

  // ---- Vocabulary ----

  predicate NamesEndpoints(word: string) {
    word in {"remote", "port", "rport", "proto"}
  }

  predicate Settles(word: string) {
    word in {"dev", "cipher", "data-ciphers", "auth", "remote-cert-tls", "verify-x509-name", "tls-version-min"}
  }

  /** Let through, and without effect. */
  predicate Idle(word: string) {
    word in {"persist-key", "persist-tun", "client", "dev-type", "nobind", "resolv-retry", "fast-io", "ping",
             "ping-restart", "keepalive", "explicit-exit-notify", "auth-user-pass", "verb"}
  }

  predicate RunsPrograms(word: string) {
    word in {"up", "down", "route-up", "route-pre-down", "ipchange", "plugin", "tls-verify", "auth-user-pass-verify",
             "client-connect", "client-disconnect", "learn-address", "script-security", "system", "exec"}
  }

  predicate TouchesTheHost(word: string) {
    word in {"route", "route-ipv6", "management", "management-client", "management-query-passwords", "setenv",
             "setenv-safe", "user", "group", "chroot", "daemon", "socks-proxy", "http-proxy"}
  }

  predicate Permitted(word: string) {
    NamesEndpoints(word) || Settles(word) || Idle(word)
  }

  predicate Forbidden(word: string) {
    RunsPrograms(word) || TouchesTheHost(word)
  }

  lemma VocabularyMeans(word: string)
    ensures word in ALLOWED <==> Permitted(word)
    ensures word in DISALLOWED <==> Forbidden(word)
  {
  }

  lemma IdleWordsAreIdle(st: Scan, word: string, args: seq<string>)
    requires Idle(word)
    ensures Directive(st, word, args) == st
  {
    IdleWords(word);
    hide Idle, Sanitize, Atoi, NormalizeProto, Join, ReadRemote;
  }

  lemma IdleWords(word: string)
    requires Idle(word)
    ensures !NamesEndpoints(word) && !Settles(word)
  {
  }

  // ---- The first offence ----

  predicate Starts(word: string, prefix: string) {
    prefix <= word
  }

  /** What is wrong with a line outside blocks: its characters first, then its first word. */
  function LineOffence(line: string): Option<Error> {
    if exists c | c in line :: c in ";&|`$(){}\\" then Some(Metacharacter)
    else if Fields(line) == [] then None
    else
      var word := Lower(Fields(line)[0]);
      if Starts(word, "--") then Some(Injection)
      else if Forbidden(word) then Some(Disallowed)
      else if !Permitted(word) then Some(Unrecognized)
      else None
  }

  /** The first thing that is wrong with these lines, when block `tag` is open. */
  function Offence(lines: seq<string>, tag: string, lib: Library): Option<Error> {
    if lines == [] then None
    else
      var line := TrimSpace(lines[0]);
      if line == "" || line[0] == '#' || line[0] == ';' then Offence(lines[1..], tag, lib)
      else if tag != "" then
        if EqualFold(line, "</" + tag + ">") then Offence(lines[1..], "", lib)
        else if PemLine(lib, line) then Offence(lines[1..], tag, lib) else Some(IllegalInline)
      else if line[0] == '<' && line[|line| - 1] == '>' then
        var name := Lower(TrimBrackets(line));
        if name in {"ca", "cert", "key"} then Offence(lines[1..], name, lib) else Some(UnknownTag)
      else if LineOffence(line).Some? then LineOffence(line)
      else Offence(lines[1..], "", lib)
  }

  lemma LineOffends(st: Scan, line: string)
    ensures LineOffence(line).Some? ==> FeedDirective(st, line, ALLOWED) == Err(LineOffence(line).value)
    ensures LineOffence(line).None? ==>
      && FeedDirective(st, line, ALLOWED).Ok? && FeedDirective(st, line, ALLOWED).value.tag == st.tag
      && BlocksKept(st, FeedDirective(st, line, ALLOWED).value)
  {
    MetaMeans(line);
    var fields := Fields(line);
    if fields != [] {
      var word := Lower(fields[0]);
      VocabularyMeans(word);
      DirectiveKeepsBlocks(st, word, fields[1..]);
    }
    hide IsMeta, ALLOWED, DISALLOWED, Permitted, Forbidden, Fields, Lower, Directive;
  }

  lemma MetaMeans(line: string)
    ensures (exists k | 0 <= k < |line| :: IsMeta(line[k])) <==> (exists c | c in line :: c in ";&|`$(){}\\")
  {
    forall c ensures IsMeta(c) <==> c in ";&|`$(){}\\" { CharactersMean(c); }
    hide IsMeta;
  }

  ghost predicate BlocksKept(st: Scan, next: Scan) {
    next.cfg.ca == st.cfg.ca && next.cfg.cert == st.cfg.cert && next.cfg.key == st.cfg.key
  }

  lemma DirectiveKeepsBlocks(st: Scan, name: string, args: seq<string>)
    ensures Directive(st, name, args).tag == st.tag && BlocksKept(st, Directive(st, name, args))
  {
    hide Sanitize, Atoi, NormalizeProto, Join, ReadRemote;
  }

  // ---- Blocks ----

  /** The blocks that are closed, each with its lines trimmed; `content` is what the open one holds so far. */
  function Blocks(lines: seq<string>, tag: string, content: string): seq<(string, string)> {
    if lines == [] then []
    else
      var line := TrimSpace(lines[0]);
      if line == "" || line[0] == '#' || line[0] == ';' then Blocks(lines[1..], tag, content)
      else if tag != "" then
        if EqualFold(line, "</" + tag + ">") then [(tag, content)] + Blocks(lines[1..], "", "")
        else Blocks(lines[1..], tag, content + line + "\n")
      else if line[0] == '<' && line[|line| - 1] == '>' then Blocks(lines[1..], Lower(TrimBrackets(line)), "")
      else Blocks(lines[1..], "", "")
  }

  /** The content of the last block of a name, or what is known of it without one. */
  function LastBlock(blocks: seq<(string, string)>, name: string, before: string): string {
    if blocks == [] then before
    else LastBlock(blocks[1..], name, if blocks[0].0 == name then blocks[0].1 else before)
  }

  lemma OneBlockMore(block: (string, string), blocks: seq<(string, string)>, name: string, before: string)
    ensures LastBlock([block] + blocks, name, before) ==
      LastBlock(blocks, name, if block.0 == name then block.1 else before)
  {
    assert ([block] + blocks)[1..] == blocks;
  }

  // ---- The scanner ----

  ghost predicate BlocksLearnt(st: Scan, blocks: seq<(string, string)>, end: Scan) {
    && end.cfg.ca == LastBlock(blocks, "ca", st.cfg.ca)
    && end.cfg.cert == LastBlock(blocks, "cert", st.cfg.cert)
    && end.cfg.key == LastBlock(blocks, "key", st.cfg.key)
  }

  /** Either the block that is open is one of the three, or none is. */
  predicate Between(st: Scan) {
    if st.tag == "" then st.content == "" else st.tag in {"ca", "cert", "key"}
  }

  /** A line offends, or leaves a state from which the rest goes on as it does after that line. */
  ghost predicate GoesOn(st: Scan, line: string, rest: seq<string>, r: Result<Scan, Error>, lib: Library) {
    match r
    case Err(e) => Offence([line] + rest, st.tag, lib) == Some(e)
    case Ok(next) =>
      && Between(next) && Offence([line] + rest, st.tag, lib) == Offence(rest, next.tag, lib)
      && BlocksGoOn(st, Blocks([line] + rest, st.tag, st.content), next, Blocks(rest, next.tag, next.content))
  }

  ghost predicate BlocksGoOn(st: Scan, all: seq<(string, string)>, next: Scan, rest: seq<(string, string)>) {
    || (BlocksKept(st, next) && all == rest)
    || (st.tag in {"ca", "cert", "key"} && next.cfg == WithBlock(st.cfg, st.tag, st.content)
        && all == [(st.tag, st.content)] + rest)
  }

  lemma BlocksOfAll(st: Scan, all: seq<(string, string)>, next: Scan, rest: seq<(string, string)>, end: Scan)
    requires BlocksGoOn(st, all, next, rest) && BlocksLearnt(next, rest, end)
    ensures BlocksLearnt(st, all, end)
  {
    if all == [(st.tag, st.content)] + rest {
      OneBlockMore((st.tag, st.content), rest, "ca", st.cfg.ca);
      OneBlockMore((st.tag, st.content), rest, "cert", st.cfg.cert);
      OneBlockMore((st.tag, st.content), rest, "key", st.cfg.key);
    }
    hide LastBlock;
  }

  /** One line: it offends, or the scanner goes on with the state that the rest is judged by. */
  lemma LineGoesOn(st: Scan, line: string, rest: seq<string>, lib: Library)
    requires Between(st)
    ensures GoesOn(st, line, rest, Feed(st, line, ALLOWED, lib), lib)
  {
    assert ([line] + rest)[1..] == rest && ([line] + rest)[0] == line;
    var text := TrimSpace(line);
    if !Skipped(text) {
      if st.tag != "" {
        InlineGoesOn(st, line, rest, lib);
      } else if text[0] == '<' && text[|text| - 1] == '>' {
        hide TrimSpace, Lower, TrimBrackets, LastBlock;
      } else {
        LineOffends(st, text);
        hide TrimSpace, LineOffence, FeedDirective, LastBlock;
      }
    }
  }

  lemma InlineGoesOn(st: Scan, line: string, rest: seq<string>, lib: Library)
    requires Between(st) && st.tag != "" && !Skipped(TrimSpace(line))
    ensures GoesOn(st, line, rest, Feed(st, line, ALLOWED, lib), lib)
  {
    assert ([line] + rest)[1..] == rest && ([line] + rest)[0] == line;
    var text := TrimSpace(line);
    hide TrimSpace, EqualFold, PemLine, LastBlock;
  }

  /** The scanner stops at the first offence, and otherwise has kept the last block of each name. */
  lemma {:induction false} ScannerStops(st: Scan, lines: seq<string>, lib: Library)
    requires Between(st)
    ensures Offence(lines, st.tag, lib).Some? ==>
      FeedAll(st, lines, ALLOWED, lib) == Err(Offence(lines, st.tag, lib).value)
    ensures Offence(lines, st.tag, lib).None? ==>
      && FeedAll(st, lines, ALLOWED, lib).Ok?
      && BlocksLearnt(st, Blocks(lines, st.tag, st.content), FeedAll(st, lines, ALLOWED, lib).value)
    decreases |lines|
  {
    if lines == [] {
    } else {
      LineGoesOn(st, lines[0], lines[1..], lib);
      assert [lines[0]] + lines[1..] == lines;
      hide Feed, Offence, Blocks, BlocksLearnt, Between, BlocksGoOn, ALLOWED;
      var r := Feed(st, lines[0], ALLOWED, lib);
      if r.Ok? {
        var next := r.value;
        ScannerStops(next, lines[1..], lib);
        if Offence(lines, st.tag, lib).None? {
          BlocksOfAll(st, Blocks(lines, st.tag, st.content), next, Blocks(lines[1..], next.tag, next.content),
                      FeedAll(st, lines, ALLOWED, lib).value);
        }
      }
    }
  }

  // ---- The whole parser ----

  /** The configuration that a text describes, endpoints or not. */
  function MeaningOf(text: string, endpoints: seq<Endpoint>): Config
    requires endpoints != []
  {
    var ds, blocks := Directives(Lines(text), ""), Blocks(Lines(text), "", "");
    Config(Or(LastProto(ds), endpoints[0].proto), endpoints, Or(LastDev(ds), "tun"),
           FirstWord(LastOf(ds, "cipher"), ""), AllWords(LastOf(ds, "data-ciphers"), ""),
           FirstWord(LastOf(ds, "auth"), ""), FirstWord(LastOf(ds, "remote-cert-tls"), ""),
           AllWords(LastOf(ds, "verify-x509-name"), ""), FirstWord(LastOf(ds, "tls-version-min"), ""),
           LastBlock(blocks, "ca", ""), LastBlock(blocks, "cert", ""), LastBlock(blocks, "key", ""))
  }

  function EndpointsIn(text: string, lib: Library): seq<Endpoint> {
    var ds := Directives(Lines(text), "");
    EndpointsOf(RemoteArgs(ds), Or(LastPort(ds), 1194), Or(LastProto(ds), "udp"), lib)
  }

  /**
   Every text: refused as empty, for its first offence, or for want of an endpoint, and otherwise read as what it
   says last.
   */
  lemma ParseIs(text: string, lib: Library)
    ensures Parse(text, ALLOWED, lib) ==
      if TrimSpace(text) == "" then Err(Empty)
      else if Offence(Lines(text), "", lib).Some? then Err(Offence(Lines(text), "", lib).value)
      else if EndpointsIn(text, lib) == [] then Err(NoEndpoints)
      else Ok(MeaningOf(text, EndpointsIn(text, lib)))
  {
    ScannerStops(INITIAL, Lines(text), lib);
    if TrimSpace(text) != "" && Offence(Lines(text), "", lib).None? {
      EndpointsFound(text, ALLOWED, lib);
      if Parse(text, ALLOWED, lib).Ok? {
        ParseMeans(text, ALLOWED, lib);
        BlocksStay(text, lib);
      }
    }
    hide FeedAll, Lines, TrimSpace, Offence, Directives, Blocks, LastBlock, LastOf, LastPort, LastProto, LastDev,
         RemoteArgs, EndpointsOf, ResolveAll, ALLOWED, FirstWord, AllWords;
  }

  lemma BlocksStay(text: string, lib: Library)
    requires FeedAll(INITIAL, Lines(text), ALLOWED, lib).Ok? && Parse(text, ALLOWED, lib).Ok?
    ensures var cfg, end := Parse(text, ALLOWED, lib).value, FeedAll(INITIAL, Lines(text), ALLOWED, lib).value.cfg;
      cfg.ca == end.ca && cfg.cert == end.cert && cfg.key == end.key
  {
    hide FeedAll, Lines, TrimSpace, ResolveAll, ALLOWED;
  }
}
