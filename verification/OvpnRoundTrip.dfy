/**
 Printing an accepted configuration and reading the text back gives the configuration
 again, once the parser is told about `route-nopull`; and without that it rejects
 its own printer's output.
 */
module OvpnRoundTrip {
  import opened Wrappers
  import opened Text
  import opened OvpnConfig
  import Decimal

  // ---- What an accepted configuration looks like ----

  /** No character that sanitizeSafeString or the metacharacter check would object to. */
  predicate Clean(s: string) {
    forall k | 0 <= k < |s| :: Kept(s[k]) && !IsMeta(s[k])
  }

  /** One word of a line. */
  predicate Token(s: string) {
    s != "" && Plain(s) && Clean(s)
  }

  /** Words of a line, with blanks between them. */
  predicate Phrase(s: string) {
    Clean(s) && Trimmed(s) && forall k | 0 <= k < |s| :: IsSpace(s[k]) ==> s[k] == ' '
  }

  /** A line that stays inside a block when it is read again. */
  predicate BlockLine(lib: Library, tag: string, line: string) {
    && line != "" && Trimmed(line) && OneLine(line) && !Skipped(line)
    && !EqualFold(line, Closing(tag)) && PemLine(lib, line)
  }

  predicate BlockContent(lib: Library, tag: string, content: string) {
    var ls := Lines(content);
    content == Unlines(ls) && forall k | 0 <= k < |ls| :: BlockLine(lib, tag, ls[k])
  }

  predicate SoundValues(cfg: Config) {
    && HasPrefix(cfg.dev, "tun") && Token(cfg.dev)
    && (cfg.cipher == "" || Token(cfg.cipher)) && (cfg.auth == "" || Token(cfg.auth))
    && (cfg.remoteCertTLS == "" || Token(cfg.remoteCertTLS)) && (cfg.tlsVersionMin == "" || Token(cfg.tlsVersionMin))
    && Phrase(cfg.dataCiphers) && Phrase(cfg.verifyX509Name)
  }

  predicate SoundBlocks(lib: Library, cfg: Config) {
    BlockContent(lib, "ca", cfg.ca) && BlockContent(lib, "cert", cfg.cert) && BlockContent(lib, "key", cfg.key)
  }

  predicate KnownProto(p: string) {
    p == "udp" || p == "tcp"
  }

  predicate SoundRemotes(rs: seq<Remote>) {
    forall k | 0 <= k < |rs| :: Clean(rs[k].host) && Plain(rs[k].host)
  }

  predicate Sound(lib: Library, st: Scan) {
    && SoundValues(st.cfg) && SoundBlocks(lib, st.cfg) && SoundRemotes(st.remotes)
    && (st.cfg.protocol == "" || KnownProto(st.cfg.protocol)) && st.globalProto == st.cfg.protocol
    && (st.tag == "" || (InlineTag(st.tag) && BlockContent(lib, st.tag, st.content)))
  }

  // ---- Every line read keeps that ----

  lemma {:induction false} FilterShape(s: string)
    ensures forall c | c in Filter(s) :: Kept(c) && c in s
  {
    if s != "" {
      FilterShape(s[1..]);
    }
  }

  lemma SanitizeShape(s: string)
    ensures Trimmed(Sanitize(s)) && forall c | c in Sanitize(s) :: Kept(c) && c in s
  {
    FilterShape(s);
    TrimSpaceShape(Filter(s));
  }

  predicate MetaFree(s: string) {
    forall k | 0 <= k < |s| :: !IsMeta(s[k])
  }

  lemma SanitizedWord(f: string)
    requires Plain(f) && MetaFree(f)
    ensures Sanitize(f) == "" || Token(Sanitize(f))
  {
    SanitizeShape(f);
    var s := Sanitize(f);
    forall k | 0 <= k < |s| ensures !IsSpace(s[k]) && Kept(s[k]) && !IsMeta(s[k]) { assert s[k] in s; }
  }

  lemma SanitizedPhrase(fs: seq<string>)
    requires Words(fs) && forall f | f in fs :: MetaFree(f)
    ensures Phrase(Sanitize(Join(fs)))
  {
    SanitizeShape(Join(fs));
    var s := Sanitize(Join(fs));
    forall k | 0 <= k < |s| ensures Kept(s[k]) && !IsMeta(s[k]) && (IsSpace(s[k]) ==> s[k] == ' ') {
      assert s[k] in s;
      JoinChars(fs, s[k]);
      if s[k] != ' ' {
        var f :| f in fs && s[k] in f;
        var i :| 0 <= i < |fs| && fs[i] == f;
      }
    }
  }

  lemma NormalizedProto(p: string)
    ensures NormalizeProto(p) == "" || KnownProto(NormalizeProto(p))
  {
  }

  lemma RemoteSound(args: seq<string>)
    requires args != [] && Plain(args[0]) && MetaFree(args[0])
    ensures Clean(ReadRemote(args).host) && Plain(ReadRemote(args).host)
  {
    SanitizedWord(args[0]);
  }

  lemma TokenSettingsSound(lib: Library, st: Scan, v: string)
    requires Sound(lib, st) && (v == "" || Token(v))
    ensures Sound(lib, st.(cfg := st.cfg.(cipher := v))) && Sound(lib, st.(cfg := st.cfg.(auth := v)))
    ensures Sound(lib, st.(cfg := st.cfg.(remoteCertTLS := v))) && Sound(lib, st.(cfg := st.cfg.(tlsVersionMin := v)))
    ensures Sound(lib, SetDev(st, v))
  {
    hide BlockContent, Token, Phrase, KnownProto;
  }

  lemma PhraseSettingsSound(lib: Library, st: Scan, v: string)
    requires Sound(lib, st) && Phrase(v)
    ensures Sound(lib, st.(cfg := st.cfg.(dataCiphers := v))) && Sound(lib, st.(cfg := st.cfg.(verifyX509Name := v)))
  {
    hide BlockContent, Token, Phrase, KnownProto;
  }

  lemma ConnectionSettingsSound(lib: Library, st: Scan, p: string, port: Option<int>, r: Remote)
    requires Sound(lib, st) && (p == "" || KnownProto(p)) && Clean(r.host) && Plain(r.host)
    ensures Sound(lib, SetProto(st, p)) && Sound(lib, SetPort(st, port)) && Sound(lib, st.(remotes := st.remotes + [r]))
  {
    hide BlockContent, Token, Phrase, Clean, Plain;
  }

  lemma DirectiveSound(lib: Library, st: Scan, directive: string, args: seq<string>)
    requires Sound(lib, st) && Words(args) && forall f | f in args :: MetaFree(f)
    ensures Sound(lib, Directive(st, directive, args))
  {
    hide Sound, NormalizeProto, Atoi, Sanitize, Join, ReadRemote, Token, Phrase, SetDev, SetProto, SetPort;
    if args != [] {
      SanitizedWord(args[0]);
      SanitizedPhrase(args);
      NormalizedProto(args[0]);
      RemoteSound(args);
      TokenSettingsSound(lib, st, Sanitize(args[0]));
      PhraseSettingsSound(lib, st, Sanitize(Join(args)));
      ConnectionSettingsSound(lib, st, NormalizeProto(args[0]), Atoi(args[0]), ReadRemote(args));
    }
  }

  lemma FeedDirectiveSound(lib: Library, st: Scan, line: string, allowed: set<string>)
    requires Sound(lib, st) && FeedDirective(st, line, allowed).Ok?
    ensures Sound(lib, FeedDirective(st, line, allowed).value)
  {
    hide Sound, Directive, DISALLOWED;
    var fields := Fields(line);
    FieldsAreWords(line);
    forall f | f in fields ensures MetaFree(f) { forall k | 0 <= k < |f| ensures !IsMeta(f[k]) { assert f[k] in f; } }
    if fields != [] {
      assert forall f | f in fields[1..] :: f in fields;
      DirectiveSound(lib, st, Lower(fields[0]), fields[1..]);
    }
  }

  lemma ContentGrows(lib: Library, tag: string, content: string, line: string)
    requires BlockContent(lib, tag, content) && BlockLine(lib, tag, line)
    ensures BlockContent(lib, tag, content + line + "\n")
  {
    var ls := Lines(content);
    UnlinesAppend(ls, line);
    LinesOfUnlines(ls + [line]);
  }

  lemma TrimmedLine(raw: string)
    requires forall k | 0 <= k < |raw| :: raw[k] != '\n'
    ensures var line := TrimSpace(raw); Trimmed(line) && OneLine(line)
  {
    TrimSpaceShape(raw);
    var line := TrimSpace(raw);
    forall k | 0 <= k < |line| ensures line[k] != '\n' { assert line[k] in line; }
  }

  lemma FeedInlineSound(lib: Library, st: Scan, line: string)
    requires Sound(lib, st) && st.tag != "" && Trimmed(line) && OneLine(line) && !Skipped(line)
    requires FeedInline(st, line, lib).Ok?
    ensures Sound(lib, FeedInline(st, line, lib).value)
  {
    hide SoundValues, SoundRemotes, BlockContent, PemLine, EqualFold;
    if !EqualFold(line, Closing(st.tag)) {
      ContentGrows(lib, st.tag, st.content, line);
    }
    SameValues(st.cfg, WithBlock(st.cfg, st.tag, st.content));
  }

  lemma SameValues(a: Config, b: Config)
    requires b == a.(ca := b.ca, cert := b.cert, key := b.key)
    ensures SoundValues(b) <==> SoundValues(a)
  {
  }

  lemma FeedSound(lib: Library, st: Scan, raw: string, allowed: set<string>)
    requires Sound(lib, st) && (forall k | 0 <= k < |raw| :: raw[k] != '\n') && Feed(st, raw, allowed, lib).Ok?
    ensures Sound(lib, Feed(st, raw, allowed, lib).value)
  {
    hide Sound, FeedInline, FeedDirective, FeedOpening, Trimmed, TrimSpace;
    TrimmedLine(raw);
    var line := TrimSpace(raw);
    if Skipped(line) {
    } else if st.tag != "" {
      FeedInlineSound(lib, st, line);
    } else if line[0] == '<' && line[|line| - 1] == '>' {
      FeedOpeningSound(lib, st, line);
    } else {
      FeedDirectiveSound(lib, st, line, allowed);
    }
  }

  lemma FeedOpeningSound(lib: Library, st: Scan, line: string)
    requires Sound(lib, st) && FeedOpening(st, line).Ok?
    ensures Sound(lib, FeedOpening(st, line).value)
  {
    hide SoundValues, SoundRemotes, SoundBlocks, TrimBrackets;
  }

  lemma {:induction false} FeedAllSound(lib: Library, st: Scan, lines: seq<string>, allowed: set<string>)
    requires Sound(lib, st) && FeedAll(st, lines, allowed, lib).Ok?
    requires forall line, c | line in lines && c in line :: c != '\n'
    ensures Sound(lib, FeedAll(st, lines, allowed, lib).value)
    decreases |lines|
  {
    hide Sound, Feed;
    if lines != [] {
      forall k | 0 <= k < |lines[0]| ensures lines[0][k] != '\n' {
        assert lines[0] in lines && lines[0][k] in lines[0];
      }
      FeedSound(lib, st, lines[0], allowed);
      assert forall line | line in lines[1..] :: line in lines;
      FeedAllSound(lib, Feed(st, lines[0], allowed, lib).value, lines[1..], allowed);
    }
  }

  predicate SoundEndpoint(lib: Library, e: Endpoint) {
    ValidHost(lib, e.host) && Token(e.host) && ValidPort(e.port) && KnownProto(e.proto)
  }

  predicate Accepted(lib: Library, cfg: Config) {
    && SoundValues(cfg) && SoundBlocks(lib, cfg) && KnownProto(cfg.protocol)
    && cfg.endpoints != [] && forall k | 0 <= k < |cfg.endpoints| :: SoundEndpoint(lib, cfg.endpoints[k])
  }

  lemma {:induction false} ResolvedSound(lib: Library, rs: seq<Remote>, globalPort: int, globalProto: string)
    requires SoundRemotes(rs) && (globalProto == "" || KnownProto(globalProto))
    ensures forall k | 0 <= k < |ResolveAll(rs, globalPort, globalProto, lib)| ::
              SoundEndpoint(lib, ResolveAll(rs, globalPort, globalProto, lib)[k])
  {
    hide NormalizeProto;
    if rs != [] {
      NormalizedProto(rs[0].proto);
      ResolvedSound(lib, rs[1..], globalPort, globalProto);
    }
  }

  /**
   Whatever the text, an accepted configuration is clean: no value can split a line, close a block or comment
   out its line.
   */
  lemma ParsedIsAccepted(text: string, allowed: set<string>, lib: Library)
    requires Parse(text, allowed, lib).Ok?
    ensures Accepted(lib, Parse(text, allowed, lib).value)
  {
    hide Feed, FeedAll, SoundValues, SoundEndpoint;
    InitialSound(lib);
    LinesAreLines(text);
    FeedAllSound(lib, INITIAL, Lines(text), allowed);
    var st := FeedAll(INITIAL, Lines(text), allowed, lib).value;
    ResolvedSound(lib, st.remotes, st.globalPort, st.globalProto);
    var es := ResolveAll(st.remotes, st.globalPort, st.globalProto, lib);
    assert SoundEndpoint(lib, es[0]);
    FirstProto(lib, es[0]);
    OtherFields(st.cfg, Parse(text, allowed, lib).value);
  }

  lemma FirstProto(lib: Library, e: Endpoint)
    requires SoundEndpoint(lib, e)
    ensures KnownProto(e.proto)
  {
  }

  lemma OtherFields(a: Config, b: Config)
    requires b == a.(endpoints := b.endpoints, protocol := b.protocol)
    ensures SoundValues(b) <==> SoundValues(a)
  {
  }

  lemma InitialSound(lib: Library)
    ensures Sound(lib, INITIAL)
  {
    assert INITIAL.cfg.dev == "tun";
  }

  // ---- Reading one printed line ----

  const EXTENDED: set<string> := ALLOWED + {ROUTE_NOPULL}

  const PRINTED: set<string> := {
    "client", "dev", "dev-type", "proto", "remote", "nobind", ROUTE_NOPULL, "cipher", "data-ciphers", "auth",
    "remote-cert-tls", "verify-x509-name", "tls-version-min"
  }

  predicate LowerWord(s: string) {
    forall k | 0 <= k < |s| :: 'a' <= s[k] <= 'z' || '0' <= s[k] <= '9' || (s[k] == '-' && k > 0)
  }

  lemma VocabularyShape(d: string)
    requires d in PRINTED
    ensures d != "" && LowerWord(d)
  {
  }

  lemma NothingPrintedDisallowed(d: string)
    requires d in PRINTED
    ensures d !in DISALLOWED
  {
  }

  lemma Vocabulary(d: string)
    requires d in PRINTED
    ensures d in EXTENDED && (d in ALLOWED <==> d != ROUTE_NOPULL)
  {
  }

  lemma LowerWordPlain(d: string)
    requires d != "" && LowerWord(d)
    ensures Plain(d) && MetaFree(d) && Lower(d) == d && !HasPrefix(d, "--") && d[0] != '<' && d[0] != '#' && d[0] != ';'
  {
    assert d[0] != '-' && "--"[0] == '-';
    forall k | 0 <= k < |d| ensures LowerChar(d[k]) == d[k] {}
  }

  lemma FieldsAfterSpace(v: string)
    ensures Fields(" " + v) == Fields(v)
  {
    assert (" " + v)[1..] == v;
  }

  /** A printed directive without arguments. */
  lemma ReadsFlag(st: Scan, d: string, allowed: set<string>, lib: Library)
    requires st.tag == "" && d in PRINTED && d in allowed
    ensures Feed(st, d, allowed, lib) == Ok(st)
  {
    hide PRINTED, DISALLOWED, ALLOWED, TrimSpace, Lower, Fields, LowerWord;
    NothingPrintedDisallowed(d);
    VocabularyShape(d);
    LowerWordPlain(d);
    TrimmedStays(d);
    FieldsOfWord(d, "");
    NoFields();
    assert d + "" == d;
  }

  lemma NoFields()
    ensures Fields("") == []
  {
  }

  /** A directive with clean arguments is read as that directive with those arguments. */
  lemma ReadsDirective(st: Scan, d: string, v: string, allowed: set<string>, lib: Library)
    requires st.tag == "" && d != "" && LowerWord(d) && d !in DISALLOWED && d in allowed
    requires v != "" && MetaFree(v) && Trimmed(v)
    ensures Feed(st, d + " " + v, allowed, lib) == Ok(Directive(st, d, Fields(v)))
  {
    hide DISALLOWED, ALLOWED, Directive, TrimSpace, Lower, Fields, LowerWord;
    LowerWordPlain(d);
    var line := d + " " + v;
    TrimmedStays(line);
    assert line == d + (" " + v);
    FieldsOfWord(d, " " + v);
    FieldsAfterSpace(v);
    forall k | 0 <= k < |line| ensures !IsMeta(line[k]) {}
    assert Fields(line)[1..] == Fields(v);
  }

  lemma ReadsSetting(st: Scan, d: string, v: string, allowed: set<string>, lib: Library)
    requires st.tag == "" && d in PRINTED && d in allowed && v != "" && MetaFree(v) && Trimmed(v)
    ensures Feed(st, d + " " + v, allowed, lib) == Ok(Directive(st, d, Fields(v)))
  {
    hide PRINTED, DISALLOWED, ALLOWED, Directive, TrimSpace, Lower, Fields, LowerWord;
    NothingPrintedDisallowed(d);
    VocabularyShape(d);
    ReadsDirective(st, d, v, allowed, lib);
  }

  lemma CleanStays(v: string)
    requires Clean(v) && Trimmed(v)
    ensures Sanitize(v) == v && MetaFree(v)
  {
    FilterCleans(v);
  }

  lemma {:induction false} FilterCleans(v: string)
    requires Clean(v)
    ensures Filter(v) == v
  {
    if v != "" {
      FilterCleans(v[1..]);
    }
  }

  lemma TokenReads(v: string)
    requires Token(v)
    ensures Fields(v) == [v] && Trimmed(v) && MetaFree(v) && Sanitize(v) == v
  {
    FieldsOfWord(v, "");
    assert v + "" == v;
    CleanStays(v);
  }

  /** The words of a phrase, set with single blanks. */
  function Respaced(v: string): string {
    Join(Fields(v))
  }

  lemma PhraseReads(v: string)
    requires Phrase(v) && v != ""
    ensures Fields(v) != [] && Sanitize(Respaced(v)) == Respaced(v) && Respaced(v) != ""
    ensures Phrase(Respaced(v)) && Fields(Respaced(v)) == Fields(v)
  {
    FieldsAreWords(v);
    FieldsOfJoin(Fields(v));
    JoinTrimmed(Fields(v));
    var r := Respaced(v);
    forall k | 0 <= k < |r| ensures Kept(r[k]) && !IsMeta(r[k]) && (IsSpace(r[k]) ==> r[k] == ' ') {
      JoinChars(Fields(v), r[k]);
      if r[k] != ' ' {
        var f :| f in Fields(v) && r[k] in f;
        assert r[k] in v;
      }
    }
    CleanStays(r);
  }

  // ---- Reading the printed lines ----

  lemma {:induction false} FeedAllConcat(st: Scan, a: seq<string>, b: seq<string>, allowed: set<string>, lib: Library)
    requires FeedAll(st, a, allowed, lib).Ok?
    ensures FeedAll(st, a + b, allowed, lib) == FeedAll(FeedAll(st, a, allowed, lib).value, b, allowed, lib)
    decreases |a|
  {
    hide Feed;
    if a == [] {
      assert a + b == b;
    } else {
      assert (a + b)[1..] == a[1..] + b;
      FeedAllConcat(Feed(st, a[0], allowed, lib).value, a[1..], b, allowed, lib);
    }
  }

  lemma FeedNothing(st: Scan, allowed: set<string>, lib: Library)
    ensures FeedAll(st, [], allowed, lib) == Ok(st)
  {
  }

  lemma FeedFirst(st: Scan, line: string, next: Scan, rest: seq<string>, allowed: set<string>, lib: Library)
    requires Feed(st, line, allowed, lib) == Ok(next)
    ensures FeedAll(st, [line] + rest, allowed, lib) == FeedAll(next, rest, allowed, lib)
  {
    hide Feed;
    assert ([line] + rest)[1..] == rest;
  }

  lemma FeedOne(st: Scan, line: string, st': Scan, allowed: set<string>, lib: Library)
    requires Feed(st, line, allowed, lib) == Ok(st')
    ensures FeedAll(st, [line], allowed, lib) == Ok(st')
  {
    hide Feed;
  }

  /** The settings that are single words. */
  predicate TokenSetting(d: string) {
    d == "cipher" || d == "auth" || d == "remote-cert-tls" || d == "tls-version-min"
  }

  predicate PhraseSetting(d: string) {
    d == "data-ciphers" || d == "verify-x509-name"
  }

  function WithSetting(st: Scan, d: string, v: string): Scan {
    var cfg :=
      if d == "cipher" then st.cfg.(cipher := v) else if d == "auth" then st.cfg.(auth := v)
      else if d == "remote-cert-tls" then st.cfg.(remoteCertTLS := v) else if d == "tls-version-min"
          then st.cfg.(tlsVersionMin := v)
      else if d == "data-ciphers" then st.cfg.(dataCiphers := v) else st.cfg.(verifyX509Name := v);
    st.(cfg := cfg)
  }

  lemma ReadsTokenSetting(st: Scan, d: string, v: string, lib: Library)
    requires st.tag == "" && TokenSetting(d) && (v == "" || Token(v))
    ensures FeedAll(st, Setting(d, v), EXTENDED, lib) == Ok(if v == "" then st else WithSetting(st, d, v))
  {
    if v != "" {
      TokenReads(v);
      Vocabulary(d);
      SettingDirective(st, d, v);
      hide Feed, Directive, PRINTED, DISALLOWED, ALLOWED, EXTENDED, Sanitize;
      ReadsSetting(st, d, v, EXTENDED, lib);
      FeedOne(st, d + " " + v, Directive(st, d, [v]), EXTENDED, lib);
    }
  }

  lemma SettingDirective(st: Scan, d: string, v: string)
    requires TokenSetting(d) && Sanitize(v) == v
    ensures Directive(st, d, [v]) == WithSetting(st, d, v)
  {
    hide Sanitize;
  }

  lemma PhraseDirective(st: Scan, d: string, fs: seq<string>)
    requires PhraseSetting(d) && fs != [] && Sanitize(Join(fs)) == Join(fs)
    ensures Directive(st, d, fs) == WithSetting(st, d, Join(fs))
  {
    hide Sanitize, Join;
  }

  lemma ReadsPhraseSetting(st: Scan, d: string, v: string, lib: Library)
    requires st.tag == "" && PhraseSetting(d) && Phrase(v)
    ensures FeedAll(st, Setting(d, v), EXTENDED, lib) == Ok(if v == "" then st else WithSetting(st, d, Respaced(v)))
  {
    if v != "" {
      PhraseReads(v);
      CleanStays(v);
      Vocabulary(d);
      PhraseDirective(st, d, Fields(v));
      hide Feed, Directive, PRINTED, DISALLOWED, ALLOWED, EXTENDED, Sanitize;
      ReadsSetting(st, d, v, EXTENDED, lib);
      FeedOne(st, d + " " + v, Directive(st, d, Fields(v)), EXTENDED, lib);
    }
  }

  // ---- Remotes ----

  lemma {:induction false} DigitsOnly(s: string)
    requires Decimal.AllDigits(s)
    ensures Plain(s) && Clean(s)
  {
  }

  lemma PortReads(p: int)
    requires ValidPort(p)
    ensures Atoi(Decimal.Itoa(p)) == Some(p) && Token(Decimal.Itoa(p))
  {
    var s := Decimal.Itoa(p);
    DigitsOnly(s);
    assert Decimal.IsDigit(s[0]);
    Decimal.ValueOfItoa(p);
  }

  function RemoteOf(e: Endpoint): Remote {
    Remote(e.host, Some(e.port), "")
  }

  lemma ReadsRemote(st: Scan, e: Endpoint, allowed: set<string>, lib: Library)
    requires ALLOWED <= allowed && st.tag == "" && SoundEndpoint(lib, e)
    ensures Feed(st, RemoteLine(e), allowed, lib) == Ok(st.(remotes := st.remotes + [RemoteOf(e)]))
  {
    hide Feed, Directive, PRINTED, DISALLOWED, ALLOWED, Fields, Atoi, Sanitize, Decimal.Itoa, TrimSpace;
    var port := Decimal.Itoa(e.port);
    PortReads(e.port);
    TokenReads(e.host);
    TokenReads(port);
    var v := e.host + " " + port;
    assert v == e.host + (" " + port);
    FieldsOfWord(e.host, " " + port);
    FieldsAfterSpace(port);
    assert Fields(v) == [e.host, port];
    RemoteDirective(st, e.host, e.port);
    RemotePrinted();
    assert RemoteLine(e) == "remote" + " " + v;
    ReadsSetting(st, "remote", v, allowed, lib);
  }

  lemma RemotePrinted()
    ensures "remote" in PRINTED && "remote" in ALLOWED
  {
  }

  lemma RemoteDirective(st: Scan, host: string, port: int)
    requires ValidPort(port) && Sanitize(host) == host && Atoi(Decimal.Itoa(port)) == Some(port)
    ensures Directive(st, "remote", [host, Decimal.Itoa(port)]) ==
        st.(remotes := st.remotes + [Remote(host, Some(port), "")])
  {
    hide Sanitize, Atoi;
  }

  function RemotesOf(es: seq<Endpoint>): seq<Remote> {
    if es == [] then [] else [RemoteOf(es[0])] + RemotesOf(es[1..])
  }

  lemma {:induction false} ReadsRemotes(st: Scan, es: seq<Endpoint>, allowed: set<string>, lib: Library)
    requires ALLOWED <= allowed && st.tag == "" && forall k | 0 <= k < |es| :: SoundEndpoint(lib, es[k])
    ensures FeedAll(st, RemoteLines(es), allowed, lib) == Ok(st.(remotes := st.remotes + RemotesOf(es)))
    decreases |es|
  {
    hide Feed, SoundEndpoint, ALLOWED, RemoteLine, FeedAll, RemoteOf;
    if es == [] {
      FeedNothing(st, allowed, lib);
      assert st.remotes + [] == st.remotes;
    } else {
      var next := st.(remotes := st.remotes + [RemoteOf(es[0])]);
      ReadsRemote(st, es[0], allowed, lib);
      FeedFirst(st, RemoteLine(es[0]), next, RemoteLines(es[1..]), allowed, lib);
      ReadsRemotes(next, es[1..], allowed, lib);
      assert next.remotes + RemotesOf(es[1..]) == st.remotes + RemotesOf(es);
    }
  }

  // ---- Inline blocks ----

  function BlockLines(tag: string, content: string): seq<string> {
    if content == "" then [] else [Opening(tag)] + Lines(content) + [Closing(tag)]
  }

  lemma OpensBlock(st: Scan, tag: string, allowed: set<string>, lib: Library)
    requires st.tag == "" && InlineTag(tag)
    ensures Feed(st, Opening(tag), allowed, lib) == Ok(st.(tag := tag, content := ""))
  {
    var line := "<" + tag + ">";
    TrimmedStays(line);
    assert line[1..] == tag + ">";
    assert (tag + ">")[..|tag|] == tag;
    assert TrimBrackets(line) == TrimBrackets(tag + ">") == TrimBrackets(tag) == tag;
    assert Lower(tag) == tag;
  }

  lemma ClosesBlock(st: Scan, allowed: set<string>, lib: Library)
    requires InlineTag(st.tag)
    ensures Feed(st, Closing(st.tag), allowed, lib) ==
        Ok(st.(cfg := WithBlock(st.cfg, st.tag, st.content), tag := "", content := ""))
  {
    TrimmedStays(Closing(st.tag));
  }

  lemma {:induction false} ReadsBlock(st: Scan, ls: seq<string>, allowed: set<string>, lib: Library)
    requires InlineTag(st.tag) && forall k | 0 <= k < |ls| :: BlockLine(lib, st.tag, ls[k])
    ensures FeedAll(st, ls, allowed, lib) == Ok(st.(content := st.content + Unlines(ls)))
    decreases |ls|
  {
    hide EqualFold, PemLine;
    if ls == [] {
      assert st.content + "" == st.content;
    } else {
      var next := st.(content := st.content + ls[0] + "\n");
      TrimmedStays(ls[0]);
      assert Feed(st, ls[0], allowed, lib) == Ok(next);
      ReadsBlock(next, ls[1..], allowed, lib);
      assert st.content + ls[0] + "\n" + Unlines(ls[1..]) == st.content + Unlines(ls);
    }
  }

  lemma ReadsBlockLines(st: Scan, tag: string, content: string, allowed: set<string>, lib: Library)
    requires st.tag == "" && st.content == "" && InlineTag(tag) && BlockContent(lib, tag, content)
    ensures FeedAll(st, BlockLines(tag, content), allowed, lib) ==
              Ok(if content == "" then st else st.(cfg := WithBlock(st.cfg, tag, content)))
  {
    if content != "" {
      var ls := Lines(content);
      OpensBlock(st, tag, allowed, lib);
      var inside := st.(tag := tag, content := "");
      ReadsBlock(inside, ls, allowed, lib);
      assert "" + Unlines(ls) == content;
      ClosesBlock(inside.(content := content), allowed, lib);
      hide Feed, BlockContent, Lines, Unlines, WithBlock;
      FeedOne(st, Opening(tag), inside, allowed, lib);
      FeedOne(inside.(content := content), Closing(tag), st.(cfg := WithBlock(st.cfg, tag, content)), allowed, lib);
      FeedAllConcat(st, [Opening(tag)], ls, allowed, lib);
      FeedAllConcat(st, [Opening(tag)] + ls, [Closing(tag)], allowed, lib);
    }
  }

  // ---- The printed text is its lines ----

  /** The text of a block's lines is one trimmed text and a line feed. */
  lemma {:induction false} ContentBody(ls: seq<string>) returns (body: string)
    requires ls != [] && forall k | 0 <= k < |ls| :: ls[k] != "" && Trimmed(ls[k])
    ensures Unlines(ls) == body + "\n" && body != "" && Trimmed(body)
  {
    if |ls| == 1 {
      body := ls[0];
    } else {
      var rest := ContentBody(ls[1..]);
      body := ls[0] + "\n" + rest;
    }
  }

  lemma TrimsLineFeed(body: string)
    requires body != "" && Trimmed(body)
    ensures TrimSpace(body + "\n") == body
  {
    var s := body + "\n";
    assert TrimLeft(s) == s;
    assert s[..|s| - 1] == body;
    TrimmedStays(body);
  }

  lemma BlockTextIsLines(lib: Library, tag: string, content: string)
    requires BlockContent(lib, tag, content)
    ensures BlockText(tag, content) == Unlines(BlockLines(tag, content))
  {
    if content != "" {
      var ls := Lines(content);
      var body := ContentBody(ls);
      TrimsLineFeed(body);
      hide BlockContent, Lines, TrimSpace, Opening, Closing, Unlines;
      FramedText(Opening(tag), ls, Closing(tag));
      Regrouped(Opening(tag), body, Closing(tag));
    }
  }

  lemma Regrouped(a: string, b: string, c: string)
    ensures a + "\n" + (b + "\n") + (c + "\n") == a + "\n" + b + "\n" + c + "\n"
  {
  }

  lemma FramedText(first: string, ls: seq<string>, last: string)
    ensures Unlines([first] + ls + [last]) == first + "\n" + Unlines(ls) + (last + "\n")
  {
    UnlinesConcat([first] + ls, [last]);
    UnlinesConcat([first], ls);
    assert Unlines([last]) == last + "\n" && Unlines([first]) == first + "\n";
  }

  function AllLines(cfg: Config): seq<string> {
    HeadLines(cfg) + BlockLines("ca", cfg.ca) + BlockLines("cert", cfg.cert) + BlockLines("key", cfg.key)
  }

  lemma PrintIsLines(lib: Library, cfg: Config)
    requires SoundBlocks(lib, cfg)
    ensures Print(cfg) == Unlines(AllLines(cfg))
  {
    hide BlockContent, HeadLines, BlockText, BlockLines, Unlines;
    BlockTextIsLines(lib, "ca", cfg.ca);
    BlockTextIsLines(lib, "cert", cfg.cert);
    BlockTextIsLines(lib, "key", cfg.key);
    UnlinesConcat(HeadLines(cfg), BlockLines("ca", cfg.ca));
    UnlinesConcat(HeadLines(cfg) + BlockLines("ca", cfg.ca), BlockLines("cert", cfg.cert));
    UnlinesConcat(HeadLines(cfg) + BlockLines("ca", cfg.ca) + BlockLines("cert", cfg.cert), BlockLines("key", cfg.key));
  }

  ghost predicate AllOneLine(ls: seq<string>) {
    forall k | 0 <= k < |ls| :: OneLine(ls[k])
  }

  lemma CleanOneLine(s: string)
    requires Clean(s)
    ensures OneLine(s)
  {
    forall k | 0 <= k < |s| ensures s[k] != '\n' && s[k] != '\r' {}
  }

  lemma SettingOneLine(d: string, v: string)
    requires OneLine(d) && Clean(v)
    ensures AllOneLine(Setting(d, v))
  {
    CleanOneLine(v);
  }

  lemma {:induction false} RemotesOneLine(lib: Library, es: seq<Endpoint>)
    requires forall k | 0 <= k < |es| :: SoundEndpoint(lib, es[k])
    ensures AllOneLine(RemoteLines(es))
    decreases |es|
  {
    if es != [] {
      DigitsOnly(Decimal.Itoa(es[0].port));
      CleanOneLine(Decimal.Itoa(es[0].port));
      CleanOneLine(es[0].host);
      RemotesOneLine(lib, es[1..]);
    }
  }

  lemma BlockOneLine(lib: Library, tag: string, content: string)
    requires BlockContent(lib, tag, content) && InlineTag(tag)
    ensures AllOneLine(BlockLines(tag, content))
  {
  }

  lemma HeaderOneLine()
    ensures OneLine(HEADER) && HEADER[0] == '#' && HEADER[|HEADER| - 1] == 'n'
  {
    assert OneLine("# Super-Proxy ") && "# Super-Proxy "[0] == '#';
    assert OneLine("# Super-Proxy Safe Generated ") && "# Super-Proxy Safe Generated "[0] == '#';
    assert OneLine("# Super-Proxy Safe Generated OpenVPN ") && "# Super-Proxy Safe Generated OpenVPN "[0] == '#';
  }

  lemma OpeningOneLine(cfg: Config)
    requires SoundValues(cfg) && KnownProto(cfg.protocol)
    ensures AllOneLine(OpeningLines(cfg))
  {
    CleanOneLine(cfg.dev);
    HeaderOneLine();
    var ls := OpeningLines(cfg);
    assert OneLine(ls[0]) && OneLine(ls[1]) && OneLine(ls[2]) && OneLine(ls[3]) && OneLine(ls[4]);
  }

  lemma SettingsOneLine(cfg: Config)
    requires SoundValues(cfg)
    ensures AllOneLine(SettingLines(cfg))
  {
    SettingOneLine("cipher", cfg.cipher);
    SettingOneLine("data-ciphers", cfg.dataCiphers);
    SettingOneLine("auth", cfg.auth);
    SettingOneLine("remote-cert-tls", cfg.remoteCertTLS);
    SettingOneLine("verify-x509-name", cfg.verifyX509Name);
    SettingOneLine("tls-version-min", cfg.tlsVersionMin);
    hide Setting, OneLine, Clean;
  }

  lemma TogetherOneLine(a: seq<string>, b: seq<string>)
    requires AllOneLine(a) && AllOneLine(b)
    ensures AllOneLine(a + b)
  {
    hide OneLine;
  }

  lemma FixedOneLine()
    ensures AllOneLine(["nobind", ROUTE_NOPULL])
  {
    assert OneLine("nobind") && OneLine(ROUTE_NOPULL);
  }

  lemma HeadOneLine(lib: Library, cfg: Config)
    requires Accepted(lib, cfg)
    ensures AllOneLine(HeadLines(cfg))
  {
    RemotesOneLine(lib, cfg.endpoints);
    OpeningOneLine(cfg);
    SettingsOneLine(cfg);
    FixedOneLine();
    hide RemoteLines, OpeningLines, SettingLines, OneLine, AllOneLine, SoundValues, SoundEndpoint;
    TogetherOneLine(OpeningLines(cfg), RemoteLines(cfg.endpoints));
    TogetherOneLine(OpeningLines(cfg) + RemoteLines(cfg.endpoints), ["nobind", ROUTE_NOPULL]);
    TogetherOneLine(OpeningLines(cfg) + RemoteLines(cfg.endpoints) + ["nobind", ROUTE_NOPULL], SettingLines(cfg));
  }

  lemma AllLinesOneLine(lib: Library, cfg: Config)
    requires Accepted(lib, cfg)
    ensures AllOneLine(AllLines(cfg))
  {
    HeadOneLine(lib, cfg);
    BlockOneLine(lib, "ca", cfg.ca);
    BlockOneLine(lib, "cert", cfg.cert);
    BlockOneLine(lib, "key", cfg.key);
    hide HeadLines, BlockLines, OneLine, Accepted;
  }

  // ---- Reading all of it ----

  lemma ReadsComment(st: Scan, allowed: set<string>, lib: Library)
    ensures Feed(st, HEADER, allowed, lib) == Ok(st)
  {
    HeaderOneLine();
    TrimmedStays(HEADER);
  }

  lemma ReadsDev(st: Scan, d: string, allowed: set<string>, lib: Library)
    requires st.tag == "" && Token(d) && HasPrefix(d, "tun") && ALLOWED <= allowed
    ensures Feed(st, "dev " + d, allowed, lib) == Ok(st.(cfg := st.cfg.(dev := d)))
  {
    TokenReads(d);
    assert "dev " + d == "dev" + " " + d;
    assert "dev" in PRINTED && "dev" in ALLOWED;
    assert Directive(st, "dev", [d]) == SetDev(st, Sanitize(d));
    hide ALLOWED, PRINTED, DISALLOWED, Feed, Sanitize, Directive, Fields;
    ReadsSetting(st, "dev", d, allowed, lib);
  }

  lemma ReadsDevType(st: Scan, allowed: set<string>, lib: Library)
    requires st.tag == "" && ALLOWED <= allowed
    ensures Feed(st, "dev-type tun", allowed, lib) == Ok(st)
  {
    assert Token("tun");
    TokenReads("tun");
    assert "dev-type tun" == "dev-type" + " " + "tun";
    assert "dev-type" in PRINTED && "dev-type" in ALLOWED;
    assert Directive(st, "dev-type", ["tun"]) == st;
    hide ALLOWED, PRINTED, DISALLOWED, Feed, Directive, Fields;
    ReadsSetting(st, "dev-type", "tun", allowed, lib);
  }

  lemma ReadsProto(st: Scan, p: string, allowed: set<string>, lib: Library)
    requires st.tag == "" && KnownProto(p) && ALLOWED <= allowed
    ensures Feed(st, "proto " + p, allowed, lib) == Ok(st.(globalProto := p, cfg := st.cfg.(protocol := p)))
  {
    assert Token(p);
    TokenReads(p);
    ProtoStays(p);
    assert "proto " + p == "proto" + " " + p;
    assert "proto" in PRINTED && "proto" in ALLOWED;
    assert Directive(st, "proto", [p]) == SetProto(st, NormalizeProto(p));
    hide ALLOWED, PRINTED, DISALLOWED, Feed, NormalizeProto, Directive, Fields;
    ReadsSetting(st, "proto", p, allowed, lib);
  }

  lemma ProtoStays(p: string)
    requires KnownProto(p)
    ensures NormalizeProto(p) == p
  {
    TrimmedStays(p);
    assert Lower(p) == p;
  }

  function Opened(cfg: Config): Scan {
    INITIAL.(globalProto := cfg.protocol, cfg := INITIAL.cfg.(protocol := cfg.protocol, dev := cfg.dev))
  }

  lemma ReadsOpening(cfg: Config, allowed: set<string>, lib: Library)
    requires SoundValues(cfg) && KnownProto(cfg.protocol) && ALLOWED <= allowed
    ensures FeedAll(INITIAL, OpeningLines(cfg), allowed, lib) == Ok(Opened(cfg))
  {
    var s1 := INITIAL.(cfg := INITIAL.cfg.(dev := cfg.dev));
    assert INITIAL.tag == "" && s1.tag == "";
    assert "client" in PRINTED && "client" in ALLOWED;
    hide ALLOWED, PRINTED, DISALLOWED, Feed, FeedAll, HEADER;
    ReadsComment(INITIAL, allowed, lib);
    ReadsFlag(INITIAL, "client", allowed, lib);
    ReadsDev(INITIAL, cfg.dev, allowed, lib);
    ReadsDevType(s1, allowed, lib);
    ReadsProto(s1, cfg.protocol, allowed, lib);
    FeedFive(INITIAL, HEADER, INITIAL, "client", INITIAL, "dev " + cfg.dev, s1, "dev-type tun", s1,
             "proto " + cfg.protocol, Opened(cfg), allowed, lib);
  }

  lemma FeedFive(st: Scan, l1: string, s1: Scan, l2: string, s2: Scan, l3: string, s3: Scan, l4: string, s4: Scan,
                 l5: string, s5: Scan, allowed: set<string>, lib: Library)
    requires Feed(st, l1, allowed, lib) == Ok(s1) && Feed(s1, l2, allowed, lib) == Ok(s2) &&
        Feed(s2, l3, allowed, lib) == Ok(s3)
    requires Feed(s3, l4, allowed, lib) == Ok(s4) && Feed(s4, l5, allowed, lib) == Ok(s5)
    ensures FeedAll(st, [l1, l2, l3, l4, l5], allowed, lib) == Ok(s5)
  {
    hide Feed, FeedAll;
    assert [l1, l2, l3, l4, l5] == [l1] + ([l2] + ([l3] + ([l4] + ([l5] + []))));
    FeedFirst(st, l1, s1, [l2] + ([l3] + ([l4] + ([l5] + []))), allowed, lib);
    FeedFirst(s1, l2, s2, [l3] + ([l4] + ([l5] + [])), allowed, lib);
    FeedFirst(s2, l3, s3, [l4] + ([l5] + []), allowed, lib);
    FeedFirst(s3, l4, s4, [l5] + [], allowed, lib);
    FeedFirst(s4, l5, s5, [], allowed, lib);
    FeedNothing(s5, allowed, lib);
  }

  lemma ReadsFlags(st: Scan, lib: Library)
    requires st.tag == ""
    ensures FeedAll(st, ["nobind", ROUTE_NOPULL], EXTENDED, lib) == Ok(st)
  {
    assert "nobind" in PRINTED && "nobind" in EXTENDED && ROUTE_NOPULL in PRINTED && ROUTE_NOPULL in EXTENDED;
    hide ALLOWED, EXTENDED, PRINTED, DISALLOWED, Feed, FeedAll, ROUTE_NOPULL;
    ReadsFlag(st, "nobind", EXTENDED, lib);
    ReadsFlag(st, ROUTE_NOPULL, EXTENDED, lib);
    FeedBoth(st, "nobind", ROUTE_NOPULL, EXTENDED, lib);
  }

  lemma FeedBoth(st: Scan, a: string, b: string, allowed: set<string>, lib: Library)
    requires Feed(st, a, allowed, lib) == Ok(st) && Feed(st, b, allowed, lib) == Ok(st)
    ensures FeedAll(st, [a, b], allowed, lib) == Ok(st)
  {
    hide Feed, FeedAll;
    FeedFirst(st, a, st, [b] + [], allowed, lib);
    FeedFirst(st, b, st, [], allowed, lib);
    FeedNothing(st, allowed, lib);
    assert [a, b] == [a] + ([b] + []);
  }

  lemma FeedChain(st: Scan, a: seq<string>, s1: Scan, b: seq<string>, s2: Scan, allowed: set<string>, lib: Library)
    requires FeedAll(st, a, allowed, lib) == Ok(s1) && FeedAll(s1, b, allowed, lib) == Ok(s2)
    ensures FeedAll(st, a + b, allowed, lib) == Ok(s2)
  {
    hide FeedAll;
    FeedAllConcat(st, a, b, allowed, lib);
  }

  /** The state after a setting has been read; nothing is printed for an unset one. */
  function Given(st: Scan, d: string, v: string): Scan {
    if v == "" then st else WithSetting(st, d, v)
  }

  function Settled(st: Scan, cfg: Config): Scan {
    var s2 := Given(Given(st, "cipher", cfg.cipher), "data-ciphers", Respaced(cfg.dataCiphers));
    var s4 := Given(Given(s2, "auth", cfg.auth), "remote-cert-tls", cfg.remoteCertTLS);
    Given(Given(s4, "verify-x509-name", Respaced(cfg.verifyX509Name)), "tls-version-min", cfg.tlsVersionMin)
  }

  lemma ReadsToken(st: Scan, d: string, v: string, lib: Library)
    requires st.tag == "" && TokenSetting(d) && (v == "" || Token(v))
    ensures FeedAll(st, Setting(d, v), EXTENDED, lib) == Ok(Given(st, d, v)) && Given(st, d, v).tag == ""
  {
    hide FeedAll;
    ReadsTokenSetting(st, d, v, lib);
  }

  lemma ReadsPhrase(st: Scan, d: string, v: string, lib: Library)
    requires st.tag == "" && PhraseSetting(d) && Phrase(v)
    ensures FeedAll(st, Setting(d, v), EXTENDED, lib) == Ok(Given(st, d, Respaced(v))) &&
        Given(st, d, Respaced(v)).tag == ""
  {
    hide FeedAll;
    ReadsPhraseSetting(st, d, v, lib);
    if v != "" { PhraseReads(v); } else { NoFields(); }
  }

  lemma ReadsSettings(st: Scan, cfg: Config, lib: Library)
    requires st.tag == "" && SoundValues(cfg)
    ensures FeedAll(st, SettingLines(cfg), EXTENDED, lib) == Ok(Settled(st, cfg))
  {
    hide FeedAll, Setting, Given, Respaced, Token, Phrase;
    var s1 := Given(st, "cipher", cfg.cipher);
    ReadsToken(st, "cipher", cfg.cipher, lib);
    var s2 := Given(s1, "data-ciphers", Respaced(cfg.dataCiphers));
    ReadsPhrase(s1, "data-ciphers", cfg.dataCiphers, lib);
    var s3 := Given(s2, "auth", cfg.auth);
    ReadsToken(s2, "auth", cfg.auth, lib);
    var s4 := Given(s3, "remote-cert-tls", cfg.remoteCertTLS);
    ReadsToken(s3, "remote-cert-tls", cfg.remoteCertTLS, lib);
    var s5 := Given(s4, "verify-x509-name", Respaced(cfg.verifyX509Name));
    ReadsPhrase(s4, "verify-x509-name", cfg.verifyX509Name, lib);
    ReadsToken(s5, "tls-version-min", cfg.tlsVersionMin, lib);
    var l1, l2, l3 := Setting("cipher", cfg.cipher), Setting("data-ciphers", cfg.dataCiphers),
        Setting("auth", cfg.auth);
    var l4, l5 := Setting("remote-cert-tls", cfg.remoteCertTLS), Setting("verify-x509-name", cfg.verifyX509Name);
    FeedChain(st, l1, s1, l2, s2, EXTENDED, lib);
    FeedChain(st, l1 + l2, s2, l3, s3, EXTENDED, lib);
    FeedChain(st, l1 + l2 + l3, s3, l4, s4, EXTENDED, lib);
    FeedChain(st, l1 + l2 + l3 + l4, s4, l5, s5, EXTENDED, lib);
    FeedChain(st, l1 + l2 + l3 + l4 + l5, s5, Setting("tls-version-min", cfg.tlsVersionMin), Settled(st, cfg),
        EXTENDED, lib);
  }

  // ---- The configuration that comes back ----

  function WithProto(es: seq<Endpoint>, proto: string): (r: seq<Endpoint>)
    ensures |r| == |es| && forall k | 0 <= k < |es| :: r[k] == es[k].(proto := proto)
  {
    seq(|es|, k requires 0 <= k < |es| => es[k].(proto := proto))
  }

  /** The same configuration; phrases are set with single blanks, and every endpoint has the one printed protocol. */
  function Canonical(cfg: Config): Config {
    cfg.(dataCiphers := Respaced(cfg.dataCiphers), verifyX509Name := Respaced(cfg.verifyX509Name),
         endpoints := WithProto(cfg.endpoints, cfg.protocol))
  }

  lemma GivenTwice(cfg: Config, st: Scan)
    requires st == Opened(cfg).(remotes := st.remotes)
    ensures Settled(st, cfg) == st.(cfg := Canonical(cfg).(endpoints := [], ca := "", cert := "", key := ""))
  {
    hide Respaced;
  }

  lemma ReadsHead(cfg: Config, lib: Library)
    requires Accepted(lib, cfg)
    ensures FeedAll(INITIAL, HeadLines(cfg), EXTENDED, lib) ==
              Ok(Opened(cfg).(remotes := RemotesOf(cfg.endpoints),
                              cfg := Canonical(cfg).(endpoints := [], ca := "", cert := "", key := "")))
  {
    hide FeedAll, OpeningLines, RemoteLines, SettingLines, ALLOWED, SoundEndpoint, Settled, SoundValues;
    var s1 := Opened(cfg);
    var s2 := s1.(remotes := RemotesOf(cfg.endpoints));
    ReadsOpening(cfg, EXTENDED, lib);
    ReadsRemotes(s1, cfg.endpoints, EXTENDED, lib);
    assert s1.remotes + RemotesOf(cfg.endpoints) == RemotesOf(cfg.endpoints);
    ReadsFlags(s2, lib);
    ReadsSettings(s2, cfg, lib);
    GivenTwice(cfg, s2);
    FeedChain(INITIAL, OpeningLines(cfg), s1, RemoteLines(cfg.endpoints), s2, EXTENDED, lib);
    FeedChain(INITIAL, OpeningLines(cfg) + RemoteLines(cfg.endpoints), s2, ["nobind", ROUTE_NOPULL], s2, EXTENDED, lib);
    FeedChain(INITIAL, OpeningLines(cfg) + RemoteLines(cfg.endpoints) + ["nobind", ROUTE_NOPULL], s2,
              SettingLines(cfg), Settled(s2, cfg), EXTENDED, lib);
  }

  lemma ReadsAll(cfg: Config, lib: Library)
    requires Accepted(lib, cfg)
    ensures FeedAll(INITIAL, AllLines(cfg), EXTENDED, lib) ==
              Ok(Opened(cfg).(remotes := RemotesOf(cfg.endpoints), cfg := Canonical(cfg).(endpoints := [])))
  {
    hide FeedAll, HeadLines, BlockLines, BlockContent, SoundValues, SoundEndpoint, Respaced, RemotesOf;
    var c := Canonical(cfg).(endpoints := [], ca := "", cert := "", key := "");
    var s1 := Opened(cfg).(remotes := RemotesOf(cfg.endpoints), cfg := c);
    var s2, s3 := s1.(cfg := c.(ca := cfg.ca)), s1.(cfg := c.(ca := cfg.ca, cert := cfg.cert));
    var s4 := s1.(cfg := Canonical(cfg).(endpoints := []));
    ReadsHead(cfg, lib);
    ReadsBlockLines(s1, "ca", cfg.ca, EXTENDED, lib);
    ReadsBlockLines(s2, "cert", cfg.cert, EXTENDED, lib);
    ReadsBlockLines(s3, "key", cfg.key, EXTENDED, lib);
    FeedChain(INITIAL, HeadLines(cfg), s1, BlockLines("ca", cfg.ca), s2, EXTENDED, lib);
    FeedChain(INITIAL, HeadLines(cfg) + BlockLines("ca", cfg.ca), s2, BlockLines("cert", cfg.cert), s3, EXTENDED, lib);
    FeedChain(INITIAL, HeadLines(cfg) + BlockLines("ca", cfg.ca) + BlockLines("cert", cfg.cert), s3,
              BlockLines("key", cfg.key), s4, EXTENDED, lib);
  }

  lemma {:induction false} ResolvesBack(es: seq<Endpoint>, proto: string, lib: Library)
    requires KnownProto(proto) && forall k | 0 <= k < |es| :: SoundEndpoint(lib, es[k])
    ensures ResolveAll(RemotesOf(es), 0, proto, lib) == WithProto(es, proto)
    decreases |es|
  {
    if es != [] {
      assert SoundEndpoint(lib, es[0]);
      ResolvesBack(es[1..], proto, lib);
    }
  }

  lemma PrintIsNotBlank(cfg: Config)
    ensures TrimSpace(Print(cfg)) != ""
  {
    HeaderOneLine();
    assert OpeningLines(cfg)[0] == HEADER;
    assert Print(cfg)[0] == '#' by { hide HEADER; }
    TrimLeftOfText(Print(cfg));
  }

  lemma TrimLeftOfText(s: string)
    requires s != "" && !IsSpace(s[0])
    ensures TrimSpace(s) != ""
  {
    KeepsFirst(s);
  }

  lemma {:induction false} KeepsFirst(s: string)
    requires s != "" && !IsSpace(s[0])
    ensures TrimRight(s) != ""
  {
    if IsSpace(s[|s| - 1]) {
      KeepsFirst(s[..|s| - 1]);
    }
  }

  lemma ReadsBackAccepted(cfg: Config, lib: Library)
    requires Accepted(lib, cfg)
    ensures Parse(Print(cfg), EXTENDED, lib) == Ok(Canonical(cfg))
  {
    hide FeedAll, AllLines, BlockContent, SoundValues, SoundEndpoint, Respaced, Print, Unlines, Lines, TrimSpace;
    PrintIsLines(lib, cfg);
    PrintIsNotBlank(cfg);
    AllLinesOneLine(lib, cfg);
    LinesOfUnlines(AllLines(cfg));
    ReadsAll(cfg, lib);
    ResolvesBack(cfg.endpoints, cfg.protocol, lib);
  }

  /**
   Whatever text the parser accepts, printing the result and reading it back, with `route-nopull` known, gives the
   same device, the same single-word settings, the same words of the two longer settings, the same inline blocks, the
   same hosts and ports in the same order and the same protocol.
   */
  lemma RoundTrip(text: string, lib: Library)
    requires Parse(text, ALLOWED, lib).Ok?
    ensures var cfg := Parse(text, ALLOWED, lib).value; Parse(Print(cfg), EXTENDED, lib) == Ok(Canonical(cfg))
  {
    hide Parse, Accepted, Canonical, Print;
    ParsedIsAccepted(text, ALLOWED, lib);
    ReadsBackAccepted(Parse(text, ALLOWED, lib).value, lib);
  }

  lemma CanonicalAccepted(cfg: Config, lib: Library)
    requires Accepted(lib, cfg)
    ensures Accepted(lib, Canonical(cfg)) && Canonical(Canonical(cfg)) == Canonical(cfg)
  {
    hide BlockContent;
    if cfg.dataCiphers != "" { PhraseReads(cfg.dataCiphers); } else { NoFields(); }
    if cfg.verifyX509Name != "" { PhraseReads(cfg.verifyX509Name); } else { NoFields(); }
    forall k | 0 <= k < |cfg.endpoints| ensures SoundEndpoint(lib, Canonical(cfg).endpoints[k]) {
      assert SoundEndpoint(lib, cfg.endpoints[k]);
    }
    var c := Canonical(cfg);
    assert WithProto(c.endpoints, c.protocol) == c.endpoints;
  }

  /** From then on nothing changes any more: the second print is read back exactly. */
  lemma SecondRoundTripExact(text: string, lib: Library)
    requires Parse(text, ALLOWED, lib).Ok?
    ensures var c := Canonical(Parse(text, ALLOWED, lib).value); Parse(Print(c), EXTENDED, lib) == Ok(c)
  {
    hide Parse, Accepted, Canonical, Print;
    ParsedIsAccepted(text, ALLOWED, lib);
    CanonicalAccepted(Parse(text, ALLOWED, lib).value, lib);
    ReadsBackAccepted(Canonical(Parse(text, ALLOWED, lib).value), lib);
  }

  /** What a round trip loses of the endpoints: their own protocols, when they differ from the printed one. */
  lemma ProtocolsLostExactly(cfg: Config)
    ensures Canonical(cfg).endpoints == cfg.endpoints <==>
        forall k | 0 <= k < |cfg.endpoints| :: cfg.endpoints[k].proto == cfg.protocol
  {
    var es := Canonical(cfg).endpoints;
    if es == cfg.endpoints {
      forall k | 0 <= k < |cfg.endpoints| ensures cfg.endpoints[k].proto == cfg.protocol {
        assert es[k] == cfg.endpoints[k];
      }
    }
  }

  // ---- Without the extension ----

  lemma {:induction false} FeedStops(st: Scan, a: seq<string>, s1: Scan, line: string, rest: seq<string>, e: Error,
                                     allowed: set<string>, lib: Library)
    requires FeedAll(st, a, allowed, lib) == Ok(s1) && Feed(s1, line, allowed, lib) == Err(e)
    ensures FeedAll(st, a + ([line] + rest), allowed, lib) == Err(e)
  {
    hide Feed;
    FeedAllConcat(st, a, [line] + rest, allowed, lib);
    assert ([line] + rest)[0] == line;
  }

  lemma RoutePullUnknown(st: Scan, lib: Library)
    requires st.tag == ""
    ensures Feed(st, ROUTE_NOPULL, ALLOWED, lib) == Err(Unrecognized)
  {
    hide PRINTED, DISALLOWED, ALLOWED, TrimSpace, Lower, Fields, LowerWord, EXTENDED;
    RoutePullPrinted();
    NothingPrintedDisallowed(ROUTE_NOPULL);
    VocabularyShape(ROUTE_NOPULL);
    Vocabulary(ROUTE_NOPULL);
    LowerWordPlain(ROUTE_NOPULL);
    TrimmedStays(ROUTE_NOPULL);
    FieldsOfWord(ROUTE_NOPULL, "");
    NoFields();
    assert ROUTE_NOPULL + "" == ROUTE_NOPULL;
  }

  lemma RoutePullPrinted()
    ensures ROUTE_NOPULL in PRINTED
  {
  }

  lemma RejectsLines(cfg: Config, lib: Library)
    requires Accepted(lib, cfg)
    ensures FeedAll(INITIAL, AllLines(cfg), ALLOWED, lib) == Err(Unrecognized)
  {
    hide FeedAll, OpeningLines, RemoteLines, SettingLines, ALLOWED, SoundEndpoint, SoundValues, BlockLines,
        BlockContent, Feed,
         RemotesOf;
    var s1 := Opened(cfg);
    var s2 := s1.(remotes := s1.remotes + RemotesOf(cfg.endpoints));
    NobindPrinted();
    ReadsOpening(cfg, ALLOWED, lib);
    ReadsRemotes(s1, cfg.endpoints, ALLOWED, lib);
    ReadsFlag(s2, "nobind", ALLOWED, lib);
    FeedOne(s2, "nobind", s2, ALLOWED, lib);
    RoutePullUnknown(s2, lib);
    var head := OpeningLines(cfg) + RemoteLines(cfg.endpoints);
    FeedChain(INITIAL, OpeningLines(cfg), s1, RemoteLines(cfg.endpoints), s2, ALLOWED, lib);
    FeedChain(INITIAL, head, s2, ["nobind"], s2, ALLOWED, lib);
    var blocks := BlockLines("ca", cfg.ca) + BlockLines("cert", cfg.cert) + BlockLines("key", cfg.key);
    FeedStops(INITIAL, head + ["nobind"], s2, ROUTE_NOPULL, SettingLines(cfg) + blocks, Unrecognized, ALLOWED, lib);
    FlagsInside(cfg);
  }

  lemma FlagsInside(cfg: Config)
    ensures AllLines(cfg) == OpeningLines(cfg) + RemoteLines(cfg.endpoints) + ["nobind"]
              + ([ROUTE_NOPULL] + (SettingLines(cfg) + (BlockLines("ca", cfg.ca) + BlockLines("cert",
                  cfg.cert) + BlockLines("key", cfg.key))))
  {
    hide OpeningLines, RemoteLines, SettingLines, BlockLines;
    assert ["nobind", ROUTE_NOPULL] == ["nobind"] + [ROUTE_NOPULL];
  }

  /** The parser as it is rejects every text its own printer produces from an accepted configuration. */
  lemma OwnOutputRejected(text: string, lib: Library)
    requires Parse(text, ALLOWED, lib).Ok?
    ensures Parse(Print(Parse(text, ALLOWED, lib).value), ALLOWED, lib) == Err(Unrecognized)
  {
    hide FeedAll, AllLines, Accepted, Print, Unlines, Lines, TrimSpace, Conclude;
    ParsedIsAccepted(text, ALLOWED, lib);
    var cfg := Parse(text, ALLOWED, lib).value;
    RejectsLines(cfg, lib);
    PrintIsLinesOfAccepted(lib, cfg);
    PrintIsNotBlank(cfg);
    AllLinesOneLine(lib, cfg);
    LinesOfUnlines(AllLines(cfg));
  }

  lemma PrintIsLinesOfAccepted(lib: Library, cfg: Config)
    requires Accepted(lib, cfg)
    ensures Print(cfg) == Unlines(AllLines(cfg))
  {
    hide SoundBlocks, SoundValues, SoundEndpoint, Print, AllLines;
    PrintIsLines(lib, cfg);
  }

  /**
   What is printed of an accepted configuration, line by line, up to its settings and blocks: an opening of five lines,
   the remotes in order, and two flags.
   */
  lemma PrintedLines(lib: Library, cfg: Config)
    requires Accepted(lib, cfg)
    ensures var ls, opening, n := Lines(Print(cfg)), OpeningLines(cfg), |cfg.endpoints|;
      && |opening| == 5 && |ls| >= n + 7 && (forall k | 0 <= k < 5 :: ls[k] == opening[k])
      && (forall k | 0 <= k < n :: ls[5 + k] == RemoteLine(cfg.endpoints[k]))
      && ls[5 + n] == "nobind" && ls[6 + n] == ROUTE_NOPULL
  {
    hide Accepted, Print, Unlines, Lines, OneLine, AllOneLine, AllLines, OpeningLines, RemoteLine, ROUTE_NOPULL;
    PrintIsLinesOfAccepted(lib, cfg);
    AllLinesOneLine(lib, cfg);
    AllAreOneLine(AllLines(cfg));
    LinesOfUnlines(AllLines(cfg));
    LinesInPlace(cfg);
  }

  lemma AllAreOneLine(ls: seq<string>)
    requires AllOneLine(ls)
    ensures forall k | 0 <= k < |ls| :: OneLine(ls[k])
  {
  }

  lemma LinesInPlace(cfg: Config)
    ensures var ls, opening, n := AllLines(cfg), OpeningLines(cfg), |cfg.endpoints|;
      && |opening| == 5 && |ls| >= n + 7 && (forall k | 0 <= k < 5 :: ls[k] == opening[k])
      && (forall k | 0 <= k < n :: ls[5 + k] == RemoteLine(cfg.endpoints[k]))
      && ls[5 + n] == "nobind" && ls[6 + n] == ROUTE_NOPULL
  {
    FiveOpeningLines(cfg);
    hide OpeningLines, RemoteLine, RemoteLines, SettingLines, BlockLines, AllLines, ROUTE_NOPULL;
    RemotesPrinted(cfg.endpoints);
    FlagsInside(cfg);
    InPlace(AllLines(cfg), OpeningLines(cfg), RemoteLines(cfg.endpoints), "nobind", ROUTE_NOPULL,
            SettingLines(cfg) + (BlockLines("ca", cfg.ca) + BlockLines("cert", cfg.cert) + BlockLines("key", cfg.key)));
  }

  lemma FiveOpeningLines(cfg: Config)
    ensures |OpeningLines(cfg)| == 5
  {
  }

  lemma InPlace(ls: seq<string>, a: seq<string>, b: seq<string>, c: string, d: string, rest: seq<string>)
    requires ls == a + b + [c] + ([d] + rest)
    ensures |ls| >= |a| + |b| + 2
    ensures (forall k | 0 <= k < |a| :: ls[k] == a[k]) && (forall k | 0 <= k < |b| :: ls[|a| + k] == b[k])
    ensures ls[|a| + |b|] == c && ls[|a| + |b| + 1] == d
  {
  }

  /** The words of the opening. */
  lemma OpeningPrinted(lib: Library, cfg: Config)
    requires Accepted(lib, cfg)
    ensures ROUTE_NOPULL == "route-nopull"
    ensures OpeningLines(cfg) == ["# Super-Proxy Safe Generated OpenVPN Configuration", "client", "dev " + cfg.dev,
                                  "dev-type tun", "proto " + cfg.protocol]
  {
    hide SoundBlocks, SoundEndpoint;
  }

  lemma {:induction false} RemotesPrinted(es: seq<Endpoint>)
    ensures |RemoteLines(es)| == |es| && forall k | 0 <= k < |es| :: RemoteLines(es)[k] == RemoteLine(es[k])
  {
    hide RemoteLine;
    if es != [] { RemotesPrinted(es[1..]); }
  }

  /** A remote is printed with its host and its port, never without. */
  lemma RemotePort(lib: Library, cfg: Config, k: nat)
    requires Accepted(lib, cfg) && k < |cfg.endpoints|
    ensures cfg.endpoints[k].port > 0
    ensures RemoteLine(cfg.endpoints[k]) ==
      "remote " + cfg.endpoints[k].host + " " + Decimal.Itoa(cfg.endpoints[k].port)
  {
    hide SoundBlocks, SoundValues, Decimal.Itoa;
    assert SoundEndpoint(lib, cfg.endpoints[k]);
  }

  lemma NobindPrinted()
    ensures "nobind" in PRINTED && "nobind" in ALLOWED
  {
  }

  // ---- Texts that are accepted ----

  /** One remote directive with a valid endpoint is enough of a configuration. */
  lemma OneRemoteIsAccepted(lib: Library, e: Endpoint)
    requires SoundEndpoint(lib, e) && e.proto == "udp"
    ensures Parse(Unlines([RemoteLine(e)]), ALLOWED, lib) == Ok(INITIAL.cfg.(endpoints := [e], protocol := "udp"))
  {
    var text := Unlines([RemoteLine(e)]);
    var st := INITIAL.(remotes := [RemoteOf(e)]);
    assert RemoteLine(e)[0] == 'r' && text[0] == 'r';
    TrimLeftOfText(text);
    RemotesOneLine(lib, [e]);
    assert OneLine(RemoteLines([e])[0]);
    LinesOfUnlines([RemoteLine(e)]);
    assert INITIAL.remotes + [RemoteOf(e)] == [RemoteOf(e)] && INITIAL.tag == "";
    hide Feed, FeedAll, RemoteLine, Lines, Unlines, TrimSpace, ALLOWED;
    ReadsRemote(INITIAL, e, ALLOWED, lib);
    FeedOne(INITIAL, RemoteLine(e), st, ALLOWED, lib);
    assert ResolveAll([RemoteOf(e)], 0, "", lib) == [e] by { ResolvesAlone(e, lib); }
  }

  lemma ResolvesAlone(e: Endpoint, lib: Library)
    requires SoundEndpoint(lib, e) && e.proto == "udp"
    ensures ResolveAll([RemoteOf(e)], 0, "", lib) == [e]
  {
    assert Resolve(RemoteOf(e), 0, "", lib) == Some(e);
    assert [RemoteOf(e)][1..] == [];
  }
}
