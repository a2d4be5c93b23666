/**
 The rendered `config.yaml`: `internal/resources/configmap.go`, with a decoder for
 the double-quoted scalars of YAML 1.2.2 (sections 5.7 and 7.3.1) as its partner.
 */
module ConfigYaml {
  import opened Api
  import opened Text
  import opened Common

  // ---- Hexadecimal ----------------------------------------------------------

  function Pow16(w: nat): nat { if w == 0 then 1 else 16 * Pow16(w - 1) }

  predicate IsHexChar(c: char) { '0' <= c <= '9' || 'a' <= c <= 'f' }

  function HexChar(d: nat): (c: char)
    requires d < 16
    ensures IsHexChar(c) && HexDigit(c) == Some(d)
  {
    if d < 10 then ('0' as int + d) as char else ('a' as int + d - 10) as char
  }

  function Hex(n: nat, w: nat): (s: string)
    ensures |s| == w && forall i | 0 <= i < w :: IsHexChar(s[i])
  {
    if w == 0 then "" else Hex(n / 16, w - 1) + [HexChar(n % 16)]
  }

  function HexDigit(c: char): Option<nat> {
    if '0' <= c <= '9' then Some(c as int - '0' as int)
    else if 'a' <= c <= 'f' then Some(c as int - 'a' as int + 10)
    else if 'A' <= c <= 'F' then Some(c as int - 'A' as int + 10)
    else None
  }

  function HexValue(s: string): Option<nat> {
    if s == "" then Some(0)
    else match (HexValue(s[..|s|-1]), HexDigit(s[|s|-1]))
      case (Some(hi), Some(lo)) => Some(16 * hi + lo)
      case _ => None
  }

  lemma {:induction false} HexRoundTrip(n: nat, w: nat)
    requires n < Pow16(w)
    ensures HexValue(Hex(n, w)) == Some(n)
  {
    if w > 0 {
      HexRoundTrip(n / 16, w - 1);
      var s := Hex(n, w);
      assert s[..|s|-1] == Hex(n / 16, w - 1);
    }
  }

  // ---- Quoting --------------------------------------------------------------

  /** `unicode.IsPrint` above Latin-1, where it is a table. */
  const WidePrintable: char -> bool

  /** `strconv.IsPrint`. */
  predicate IsPrint(c: char) {
    var n := c as int;
    if n <= 0xFF then 0x20 <= n < 0x7F || (0xA1 <= n && n != 0xAD) else WidePrintable(c)
  }

  /** One rune of `strconv.Quote`. */
  function Escaped(c: char): string {
    var n := c as int;
    if c == '\"' || c == '\\' then ['\\', c]
    else if IsPrint(c) then [c]
    else if n == 7 then "\\a"
    else if n == 8 then "\\b"
    else if n == 12 then "\\f"
    else if n == 10 then "\\n"
    else if n == 13 then "\\r"
    else if n == 9 then "\\t"
    else if n == 11 then "\\v"
    else if n < 0x20 || n == 0x7F then "\\x" + Hex(n, 2)
    else if n < 0x10000 then "\\u" + Hex(n, 4)
    else "\\U" + Hex(n, 8)
  }

  function EscapedAll(s: string): string {
    if s == "" then "" else Escaped(s[0]) + EscapedAll(s[1..])
  }

  /** `%q`. */
  function Quote(s: string): string { "\"" + EscapedAll(s) + "\"" }

  lemma {:induction false} QuotedStaysOnOneLine(s: string)
    ensures forall i | 0 <= i < |EscapedAll(s)| :: EscapedAll(s)[i] != '\n' && EscapedAll(s)[i] != '\r'
  {
    if s != "" {
      QuotedStaysOnOneLine(s[1..]);
      var e := Escaped(s[0]);
      assert forall i | 0 <= i < |e| :: e[i] != '\n' && e[i] != '\r';
    }
  }

  // ---- Decoding a double-quoted scalar ----------------------------------------

  function CharOf(n: nat): Option<char> {
    if n < 0xD800 || 0xE000 <= n < 0x110000 then Some(n as char) else None
  }

  /** The single-character escapes of section 5.7. */
  function SimpleEscape(c: char): Option<nat> {
    match c
    case '0' => Some(0x00)
    case 'a' => Some(0x07)
    case 'b' => Some(0x08)
    case 't' => Some(0x09)
    case 'n' => Some(0x0A)
    case 'v' => Some(0x0B)
    case 'f' => Some(0x0C)
    case 'r' => Some(0x0D)
    case 'e' => Some(0x1B)
    case ' ' => Some(0x20)
    case '\"' => Some(0x22)
    case '/' => Some(0x2F)
    case '\\' => Some(0x5C)
    case 'N' => Some(0x85)
    case '_' => Some(0xA0)
    case 'L' => Some(0x2028)
    case 'P' => Some(0x2029)
    case _ => None
  }

  function HexEscapeWidth(c: char): nat {
    match c case 'x' => 2 case 'u' => 4 case 'U' => 8 case _ => 0
  }

  /** One character of a double-quoted scalar, and the text after it. */
  function DecodeChar(s: string): Option<(char, string)> {
    if s == "" || s[0] == '\n' || s[0] == '\r' then None
    else if s[0] != '\\' then Some((s[0], s[1..]))
    else if |s| < 2 then None
    else match SimpleEscape(s[1])
      case Some(n) => Some((n as char, s[2..]))
      case None =>
        var w := HexEscapeWidth(s[1]);
        if w == 0 || |s| < 2 + w then None
        else match HexValue(s[2..2 + w])
          case None => None
          case Some(n) => match CharOf(n)
            case None => None
            case Some(c) => Some((c, s[2 + w..]))
  }

  /** The scalar up to its closing quote, and the text after the quote. */
  function DecodeScalar(s: string): Option<(string, string)>
    decreases |s|
  {
    if s != "" && s[0] == '\"' then Some(("", s[1..]))
    else match DecodeChar(s)
      case None => None
      case Some((c, rest)) =>
        if |rest| >= |s| then None
        else match DecodeScalar(rest)
          case None => None
          case Some((value, after)) => Some(([c] + value, after))
  }

  lemma HexEscapeDecodes(letter: char, c: char, w: nat, rest: string)
    requires w == HexEscapeWidth(letter) > 0 && c as int < Pow16(w)
    ensures DecodeChar(['\\', letter] + Hex(c as int, w) + rest) == Some((c, rest))
  {
    var s := ['\\', letter] + Hex(c as int, w) + rest;
    assert s[2..2 + w] == Hex(c as int, w);
    assert s[2 + w..] == rest;
    HexRoundTrip(c as int, w);
  }

  lemma SmallPowers()
    ensures Pow16(2) == 0x100 && Pow16(4) == 0x10000 && Pow16(8) == 0x1_0000_0000
  {
    assert Pow16(3) == 16 * Pow16(2);
    assert Pow16(5) == 16 * Pow16(4);
    assert Pow16(6) == 16 * Pow16(5);
    assert Pow16(7) == 16 * Pow16(6);
  }

  lemma EscapedDecodes(c: char, rest: string)
    ensures DecodeChar(Escaped(c) + rest) == Some((c, rest))
    ensures Escaped(c) != "" && Escaped(c)[0] != '\"'
  {
    var n, e := c as int, Escaped(c);
    var s := e + rest;
    if |e| == 1 {
      assert s[1..] == rest;
    } else if |e| == 2 {
      assert s[2..] == rest;
    } else {
      SmallPowers();
      var w := |e| - 2;
      assert s == ['\\', e[1]] + Hex(n, w) + rest;
      HexEscapeDecodes(e[1], c, w, rest);
    }
  }

  /** Decoding a quoted string returns the string, for every string. */
  lemma {:induction false} QuoteRoundTrip(v: string, rest: string)
    ensures DecodeScalar(EscapedAll(v) + "\"" + rest) == Some((v, rest))
  {
    if v == "" {
      DecodesQuote(rest);
      assert EscapedAll(v) + "\"" + rest == "\"" + rest;
    } else {
      var head, tail := Escaped(v[0]), EscapedAll(v[1..]);
      QuoteRoundTrip(v[1..], rest);
      DecodesFirst(v[0], tail + "\"" + rest, v[1..], rest);
      FirstApart(head, tail, "\"", rest);
      assert v == [v[0]] + v[1..];
    }
  }

  lemma FirstApart(a: string, b: string, c: string, d: string)
    ensures a + b + c + d == a + (b + c + d)
  {
  }

  lemma DecodesQuote(rest: string)
    ensures DecodeScalar("\"" + rest) == Some(("", rest))
  {
    assert ("\"" + rest)[1..] == rest;
  }

  lemma DecodesFirst(c: char, tail: string, value: string, rest: string)
    requires DecodeScalar(tail) == Some((value, rest))
    ensures DecodeScalar(Escaped(c) + tail) == Some(([c] + value, rest))
  {
    EscapedDecodes(c, tail);
  }

  // ---- Rendering --------------------------------------------------------------

  /** What the server is told, after defaulting. */
  datatype Settings = Settings(db: string, tcp: string, http: string, socket: Option<string>, metrics: Option<string>)

  function Listen(port: nat): string { ":" + Decimal(port) }

  function Effective(spec: Spec): Settings {
    Settings(
      if spec.config.dbPath == "" then "/data/tlndb.bbolt" else spec.config.dbPath,
      if spec.config.tcp == "" then Listen(DEFAULT_GRPC_PORT) else spec.config.tcp,
      if spec.config.http == "" then Listen(DEFAULT_HTTP_PORT) else spec.config.http,
      if spec.config.socket == "" then None else Some(spec.config.socket),
      if MetricsEnabled(spec) then Some(Listen(MetricsPort(spec))) else None)
  }

  const HEADER := "# Rendered by tln-db-operator. Do not edit.\n"

  function Line(key: string, value: string): string { key + ": " + Quote(value) + "\n" }

  function OptionalLine(key: string, value: Option<string>): string {
    if value.Some? then Line(key, value.value) else ""
  }

  function Tail(s: Settings): string { OptionalLine("socket", s.socket) + OptionalLine("metrics", s.metrics) }

  function Extra(spec: Spec): string {
    var extra := TrimSpace(spec.config.extraConfig);
    if extra == "" then "" else extra + "\n"
  }

  function Front(s: Settings): string { HEADER + Line("db", s.db) + Line("tcp", s.tcp) + Line("http", s.http) }

  function Render(spec: Spec): string { Front(Effective(spec)) + (Tail(Effective(spec)) + Extra(spec)) }

  /** The mandatory lines, with the defaults filled in. */
  method WriteListeners(spec: Spec) returns (text: string)
    ensures text == Front(Effective(spec))
  {
    var dbPath := spec.config.dbPath;
    if dbPath == "" { dbPath := "/data/tlndb.bbolt"; }
    var tcp := spec.config.tcp;
    if tcp == "" { tcp := Listen(DEFAULT_GRPC_PORT); }
    var httpAddr := spec.config.http;
    if httpAddr == "" { httpAddr := Listen(DEFAULT_HTTP_PORT); }
    text := HEADER;
    text := text + Line("db", dbPath);
    text := text + Line("tcp", tcp);
    text := text + Line("http", httpAddr);
  }

  /** `renderConfigYAML`, line by line. */
  method RenderConfigYaml(spec: Spec) returns (text: string)
    ensures text == Render(spec)
  {
    var front := WriteListeners(spec);
    text := front;
    if spec.config.socket != "" {
      text := text + Line("socket", spec.config.socket);
    }
    if MetricsEnabled(spec) {
      text := text + Line("metrics", Listen(MetricsPort(spec)));
    }
    ghost var s := Effective(spec);
    Associate(front, OptionalLine("socket", s.socket), OptionalLine("metrics", s.metrics));
    var extra := TrimSpace(spec.config.extraConfig);
    if extra != "" {
      text := text + (extra + "\n");
    }
    Associate(front, Tail(s), Extra(spec));
  }

  lemma Associate(a: string, b: string, c: string)
    ensures a + b + c == a + (b + c)
    ensures a + "" == a && a + b + "" == a + b
  {
  }

  // ---- Decoding the rendered text ---------------------------------------------

  predicate StartsWith(s: string, prefix: string) { |prefix| <= |s| && s[..|prefix|] == prefix }

  /** A line `key: "scalar"`, and the text after it. */
  function DecodeLine(key: string, s: string): Option<(string, string)> {
    var prefix := key + ": \"";
    if !StartsWith(s, prefix) then None
    else match DecodeScalar(s[|prefix|..])
      case None => None
      case Some((value, rest)) => if StartsWith(rest, "\n") then Some((value, rest[1..])) else None
  }

  lemma LineRoundTrip(key: string, value: string, rest: string)
    ensures DecodeLine(key, Line(key, value) + rest) == Some((value, rest))
  {
    var prefix := key + ": \"";
    var s := Line(key, value) + rest;
    var body := EscapedAll(value) + "\"" + ("\n" + rest);
    assert s == prefix + body;
    assert s[..|prefix|] == prefix && s[|prefix|..] == body;
    QuoteRoundTrip(value, "\n" + rest);
    assert ("\n" + rest)[1..] == rest;
  }

  /** The three mandatory lines, and the text after them. */
  function DecodeListeners(text: string): Option<(string, string, string, string)> {
    if !StartsWith(text, HEADER) then None
    else match DecodeLine("db", text[|HEADER|..])
      case None => None
      case Some((db, afterDb)) => match DecodeLine("tcp", afterDb)
        case None => None
        case Some((tcp, afterTcp)) => match DecodeLine("http", afterTcp)
          case None => None
          case Some((http, rest)) => Some((db, tcp, http, rest))
  }

  /** Whatever follows them, the database path and the two listen addresses read back. */
  lemma ListenersRoundTrip(spec: Spec)
    ensures var s := Effective(spec);
      DecodeListeners(Render(spec)) == Some((s.db, s.tcp, s.http, Tail(s) + Extra(spec)))
  {
    var s := Effective(spec);
    var rest := Tail(s) + Extra(spec);
    var afterTcp := Line("http", s.http) + rest;
    var afterDb := Line("tcp", s.tcp) + afterTcp;
    var body := Line("db", s.db) + afterDb;
    Regroup(HEADER, Line("db", s.db), Line("tcp", s.tcp), Line("http", s.http), rest);
    StripHeader(body);
    LineRoundTrip("db", s.db, afterDb);
    LineRoundTrip("tcp", s.tcp, afterTcp);
    LineRoundTrip("http", s.http, rest);
  }

  lemma Regroup(a: string, b: string, c: string, d: string, rest: string)
    ensures a + b + c + d + rest == a + (b + (c + (d + rest)))
  {
  }

  lemma StripHeader(body: string)
    ensures StartsWith(HEADER + body, HEADER) && (HEADER + body)[|HEADER|..] == body
  {
  }

  function DecodeOptional(key: string, s: string): (Option<string>, string) {
    match DecodeLine(key, s)
    case None => (None, s)
    case Some((value, rest)) => (Some(value), rest)
  }

  /** The whole file, when nothing is appended. */
  function DecodeConfig(text: string): Option<Settings> {
    match DecodeListeners(text)
    case None => None
    case Some((db, tcp, http, rest)) =>
      var (socket, afterSocket) := DecodeOptional("socket", rest);
      var (metrics, afterMetrics) := DecodeOptional("metrics", afterSocket);
      if afterMetrics == "" then Some(Settings(db, tcp, http, socket, metrics)) else None
  }

  lemma OptionalRoundTrip(key: string, value: Option<string>, rest: string)
    requires key != "" && (value.None? ==> rest == "" || rest[0] != key[0])
    ensures DecodeOptional(key, OptionalLine(key, value) + rest) == (value, rest)
  {
    if value.Some? {
      LineRoundTrip(key, value.value, rest);
    } else {
      assert "" + rest == rest;
      var prefix := key + ": \"";
      assert prefix[0] == key[0];
      assert |prefix| <= |rest| ==> rest[..|prefix|][0] == rest[0];
    }
  }

  /** With blank `extraConfig`, decoding the rendered text returns the defaulted settings. */
  lemma ConfigRoundTrip(spec: Spec)
    requires Extra(spec) == ""
    ensures DecodeConfig(Render(spec)) == Some(Effective(spec))
  {
    var s := Effective(spec);
    ListenersRoundTrip(spec);
    var metrics := OptionalLine("metrics", s.metrics);
    assert Tail(s) + Extra(spec) == OptionalLine("socket", s.socket) + metrics;
    assert metrics != "" ==> metrics[0] == 'm';
    OptionalRoundTrip("socket", s.socket, metrics);
    assert metrics + "" == metrics;
    OptionalRoundTrip("metrics", s.metrics, "");
  }

  /** Equal texts mean equal listeners, whatever is appended to either. */
  /** What the server reads back, in the fields of the spec. */
  lemma DecodedFields(spec: Spec)
    requires Extra(spec) == ""
    ensures DecodeConfig(Render(spec)).Some?
    ensures var s, c, m := DecodeConfig(Render(spec)).value, spec.config, spec.metrics;
      s.db == (if c.dbPath == "" then "/data/tlndb.bbolt" else c.dbPath)
      && s.tcp == (if c.tcp == "" then ":" + Decimal(9899) else c.tcp)
      && s.http == (if c.http == "" then ":" + Decimal(8080) else c.http)
      && s.socket == (if c.socket == "" then None else Some(c.socket))
      && s.metrics == (if m.enabled == Some(false) then None else Some(":" + Decimal(if m.port > 0 then m.port else 9090)))
  {
    ConfigRoundTrip(spec);
  }

  /** Appended text goes in as it is, without the blanks around it and with one newline; blank text adds nothing. */
  lemma AppendedText(spec: Spec)
    ensures Extra(spec) == "" || exists pre, post ::
      Surrounded(spec.config.extraConfig, pre, TrimSpace(spec.config.extraConfig), post) && Extra(spec) == TrimSpace(spec.config.extraConfig) + "\n"
    ensures Extra(spec) == "" <==> forall i | 0 <= i < |spec.config.extraConfig| :: IsSpace(spec.config.extraConfig[i])
  {
    TrimSpaceMeans(spec.config.extraConfig);
  }

  lemma EqualTextEqualListeners(a: Spec, b: Spec)
    requires Render(a) == Render(b)
    ensures Effective(a).db == Effective(b).db
    ensures Effective(a).tcp == Effective(b).tcp
    ensures Effective(a).http == Effective(b).http
  {
    ListenersRoundTrip(a);
    ListenersRoundTrip(b);
  }

  /** With nothing appended, texts are equal exactly when the effective settings are. */
  lemma EqualTextExactly(a: Spec, b: Spec)
    requires Extra(a) == "" && Extra(b) == ""
    ensures Render(a) == Render(b) <==> Effective(a) == Effective(b)
  {
    ConfigRoundTrip(a);
    ConfigRoundTrip(b);
  }

  lemma DefaultedPort(addr: string, port: nat)
    requires 1 <= port <= 65535
    ensures PortFromAddr(if addr == "" then Listen(port) else addr, port) == PortFromAddr(addr, port)
  {
    if addr == "" {
      ListenParses(port);
    }
  }

  lemma ListenParses(port: nat)
    requires 1 <= port <= 65535
    ensures PortFromAddr(Listen(port), port) == port
  {
    var digits := Decimal(port);
    assert Spelled(":" + digits, "", "", digits) by {
      assert ":" + digits == "" + ":" + ("" + digits);
    }
    SpelledParses(":" + digits, "", "", digits, port);
  }

  /** The text determines the ports: a blank address and its default render and parse alike. */
  lemma EffectivePorts(spec: Spec)
    ensures GrpcPort(spec) == PortFromAddr(Effective(spec).tcp, DEFAULT_GRPC_PORT)
    ensures HttpPort(spec) == PortFromAddr(Effective(spec).http, DEFAULT_HTTP_PORT)
  {
    DefaultedPort(spec.config.tcp, DEFAULT_GRPC_PORT);
    DefaultedPort(spec.config.http, DEFAULT_HTTP_PORT);
  }

  lemma NamedOrDefault(addr: string, def: nat)
    requires 1 <= def <= 65535
    ensures var told, served := (if addr == "" then Listen(def) else addr), PortFromAddr(addr, def);
      NamesPort(told, served) <==> addr == "" || exists q :: NamesPort(addr, q)
  {
    if addr == "" {
      assert Listen(def) == "" + ":" + Decimal(def) && "" + Decimal(def) == Decimal(def);
      assert Spelled(Listen(def), "", "", Decimal(def));
    } else {
      PortFromAddrExact(addr, def, PortFromAddr(addr, def));
    }
  }

  /**
   The address the server is told to listen on names the container's port exactly when the spec gives no address
   or one that names a port.
   */
  lemma ListensOnServedPorts(spec: Spec)
    ensures NamesPort(Effective(spec).tcp, GrpcPort(spec)) <==> spec.config.tcp == "" || exists q :: NamesPort(spec.config.tcp, q)
    ensures NamesPort(Effective(spec).http, HttpPort(spec)) <==> spec.config.http == "" || exists q :: NamesPort(spec.config.http, q)
  {
    NamedOrDefault(spec.config.tcp, DEFAULT_GRPC_PORT);
    NamedOrDefault(spec.config.http, DEFAULT_HTTP_PORT);
  }

  /** An address such as ":0" names none: the server is told to listen there, the container and Service port is the default. */
  lemma UnnamedPortIsNotServed(spec: Spec)
    requires spec.config.tcp == ":0"
    ensures Effective(spec).tcp == ":0" && GrpcPort(spec) == DEFAULT_GRPC_PORT && forall q :: !NamesPort(":0", q)
  {
    assert ":0" == "" + ":" + ("" + "0");
    assert DigitsValue("0") == 0;
    assert Spelled(":0", "", "", "0");
    SpelledParses(":0", "", "", "0", DEFAULT_GRPC_PORT);
    SpelledParses(":0", "", "", "0", DEFAULT_HTTP_PORT);
    forall q ensures !NamesPort(":0", q) {
      PortFromAddrExact(":0", DEFAULT_GRPC_PORT, q);
      PortFromAddrExact(":0", DEFAULT_HTTP_PORT, q);
    }
  }

  lemma EqualTextEqualPorts(a: Spec, b: Spec)
    requires Render(a) == Render(b)
    ensures GrpcPort(a) == GrpcPort(b) && HttpPort(a) == HttpPort(b)
  {
    EqualTextEqualListeners(a, b);
    EffectivePorts(a);
    EffectivePorts(b);
  }

  /** The same settings with metrics off and a hand-written metrics line instead. */
  function Imitation(spec: Spec): Spec
    requires MetricsEnabled(spec)
  {
    var line := Line("metrics", Listen(MetricsPort(spec)));
    spec.(metrics := spec.metrics.(enabled := Some(false)),
          config := spec.config.(extraConfig := line[..|line|-1]))
  }

  /** The line alone, without its newline, survives trimming. */
  lemma MetricsLineIsTrimmed(port: nat)
    ensures var line := Line("metrics", Listen(port));
      line != "" && TrimSpace(line[..|line|-1]) == line[..|line|-1] && line[..|line|-1] != "" && line[..|line|-1] + "\n" == line
  {
    var quoted := Quote(Listen(port));
    var line := "metrics" + ": " + quoted + "\n";
    var text := line[..|line|-1];
    assert text == "metrics" + ": " + quoted;
    assert text[0] == 'm' && text[|text|-1] == quoted[|quoted|-1] == '\"';
  }

  lemma ImitationSettings(spec: Spec)
    requires MetricsEnabled(spec)
    ensures Effective(Imitation(spec)) == Effective(spec).(metrics := None)
    ensures Extra(Imitation(spec)) == Line("metrics", Listen(MetricsPort(spec)))
  {
    MetricsLineIsTrimmed(MetricsPort(spec));
  }

  lemma LineMovesToExtra(s: Settings, line: string)
    requires s.metrics.Some? && line == Line("metrics", s.metrics.value)
    ensures Front(s.(metrics := None)) == Front(s) && Tail(s.(metrics := None)) + line == Tail(s) + ""
  {
  }

  /** The text does not determine the metrics settings: appended text can imitate the metrics line. */
  lemma MetricsLineCanBeImitated(spec: Spec)
    requires MetricsEnabled(spec) && Extra(spec) == ""
    ensures Render(Imitation(spec)) == Render(spec)
    ensures MetricsEnabled(spec) && !MetricsEnabled(Imitation(spec))
  {
    ImitationSettings(spec);
    LineMovesToExtra(Effective(spec), Line("metrics", Listen(MetricsPort(spec))));
  }
}
