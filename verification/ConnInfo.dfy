/** Connection strings: building one from configuration values, and the scanner
    that looks for a connect_timeout in it. */
module ConnInfo {
  import opened Wrappers
  import opened TextFold
  import opened Sequences

  datatype Pair = Pair(key: string, value: string)

  // ---------- building ----------

  predicate NulFree(v: string) { '\0' !in v }

  const QUOTE := '\''

  method EscapeValue(v: string) returns (r: Option<string>)
    ensures r == if NulFree(v) then Some(Quoted(v, QUOTE)) else None
  {
    if '\0' in v {
      return None;
    }
    var out := AppendQuoted([], v, QUOTE);
    assert [] + Quoted(v, QUOTE) == Quoted(v, QUOTE);
    r := Some(out);
  }

  function Separated(s: string): string { if s == [] then s else s + [' '] }

  function Entry(p: Pair): string { p.key + ['='] + Quoted(p.value, QUOTE) }

  function Appended(s: string, p: Pair): string { Separated(s) + Entry(p) }

  /** The first `n` pairs, separated by spaces. */
  function RenderTo(ps: seq<Pair>, n: nat): string
    requires n <= |ps|
  {
    if n == 0 then [] else Appended(RenderTo(ps, n - 1), ps[n - 1])
  }

  /** None when some value cannot be written. */
  function Rendered(ps: seq<Pair>): Option<string> {
    if forall i | 0 <= i < |ps| :: NulFree(ps[i].value) then Some(RenderTo(ps, |ps|)) else None
  }

  /** Rendering looks only at the pairs it renders. */
  lemma {:induction false} RenderSame(ps: seq<Pair>, qs: seq<Pair>, n: nat)
    requires n <= |ps| && n <= |qs| && forall i | 0 <= i < n :: ps[i] == qs[i]
    ensures RenderTo(ps, n) == RenderTo(qs, n)
    decreases n
  {
    if n > 0 {
      RenderSame(ps, qs, n - 1);
      assert ps[n - 1] == qs[n - 1];
      RenderStep(ps, n);
      RenderStep(qs, n);
    }
  }

  lemma RenderStep(ps: seq<Pair>, n: nat)
    requires 0 < n <= |ps|
    ensures RenderTo(ps, n) == Appended(RenderTo(ps, n - 1), ps[n - 1])
  {
  }

  lemma AllNulFreeSnoc(ps: seq<Pair>, p: Pair)
    ensures Rendered(ps + [p]).Some? <==> Rendered(ps).Some? && NulFree(p.value)
  {
    var more := ps + [p];
    if Rendered(more).Some? {
      assert more[|ps|] == p;
      forall i | 0 <= i < |ps| ensures NulFree(ps[i].value) { assert more[i] == ps[i]; }
    }
  }

  lemma RenderedSnoc(ps: seq<Pair>, p: Pair)
    ensures Rendered(ps + [p])
         == if Rendered(ps).Some? && NulFree(p.value) then Some(Appended(Rendered(ps).value, p)) else None
  {
    AllNulFreeSnoc(ps, p);
    RenderSame(ps, ps + [p], |ps|);
    RenderStep(ps + [p], |ps| + 1);
  }

  method AddKv(out: string, key: string, ev: string) returns (r: string)
    ensures r == Separated(out) + (key + ['='] + ev)
  {
    r := out;
    if r != [] {
      r := r + [' '];
    }
    Assoc(r, key, ['=']);
    Assoc(r, key + ['='], ev);
    r := r + key + ['='] + ev;
  }

  /** One field of the string. A value that cannot be written, here or before, ends
      the building. */
  method AddField(ci: Option<string>, ghost ps: seq<Pair>, key: string, value: string) returns (r: Option<string>)
    requires ci == Rendered(ps)
    ensures r == Rendered(ps + [Pair(key, value)])
  {
    RenderedSnoc(ps, Pair(key, value));
    if ci.None? {
      return None;
    }
    var ev := EscapeValue(value);
    if ev.None? {
      return None;
    }
    var out := AddKv(ci.value, key, ev.value);
    r := Some(out);
  }

  function With(ps: seq<Pair>, key: string, value: Option<string>): seq<Pair> {
    if value.Some? then ps + [Pair(key, value.value)] else ps
  }

  method AddOptional(ci: Option<string>, ghost ps: seq<Pair>, key: string, value: Option<string>) returns (r: Option<string>)
    requires ci == Rendered(ps)
    ensures r == Rendered(With(ps, key, value))
  {
    r := ci;
    if value.Some? {
      r := AddField(r, ps, key, value.value);
    }
  }

  datatype Ssl = Ssl(mode: string, rootCert: Option<string>, clientCert: Option<string>, clientKey: Option<string>,
                     crl: Option<string>, serverHostname: Option<string>)

  datatype Keepalive = Keepalive(enabled: bool, idle: int, interval: int, count: int)

  datatype Config = Config(host: string, port: string, user: string, dbname: string, password: string, ssl: Ssl, keepalive: Keepalive)

  function Digit(d: nat): char
    requires d < 10
  {
    ['0', '1', '2', '3', '4', '5', '6', '7', '8', '9'][d]
  }

  function NatText(n: nat): string { if n < 10 then [Digit(n)] else NatText(n / 10) + [Digit(n % 10)] }

  function IntText(n: int): string { if n < 0 then ['-'] + NatText(-n) else NatText(n) }

  function StripBrackets(h: string): string {
    if |h| >= 2 && h[0] == '[' && h[|h| - 1] == ']' then h[1..|h| - 1] else h
  }

  /** `pton` says which texts the system's address parser accepts. */
  predicate IsIpLiteral(h: string, pton: string -> bool) { '%' !in StripBrackets(h) && pton(StripBrackets(h)) }

  function HostPairs(c: Config, pton: string -> bool): seq<Pair> {
    var raw := StripBrackets(c.host);
    match c.ssl.serverHostname
    case Some(name) => (if IsIpLiteral(raw, pton) then [Pair("hostaddr", raw)] else []) + [Pair("host", name)]
    case None => [] + [Pair("host", raw)]
  }

  function LoginPairs(ps: seq<Pair>, c: Config): seq<Pair> {
    ps + [Pair("port", c.port)] + [Pair("user", c.user)] + [Pair("dbname", c.dbname)] + [Pair("password", c.password)]
  }

  function SslPairs(ps: seq<Pair>, ssl: Ssl): seq<Pair> {
    With(With(With(With(ps + [Pair("sslmode", ssl.mode)], "sslrootcert", ssl.rootCert), "sslcert", ssl.clientCert),
              "sslkey", ssl.clientKey), "sslcrl", ssl.crl)
  }

  function KeepalivePairs(ps: seq<Pair>, on: string, idle: string, interval: string, count: string): seq<Pair> {
    ps + [Pair("keepalives", on)] + [Pair("keepalives_idle", idle)] + [Pair("keepalives_interval", interval)]
    + [Pair("keepalives_count", count)]
  }

  /** What a connection string for this configuration says, field by field. */
  function ConfigPairs(c: Config, pton: string -> bool): seq<Pair> {
    var ps := SslPairs(LoginPairs(HostPairs(c, pton), c), c.ssl);
    var k := c.keepalive;
    if !k.enabled then ps
    else KeepalivePairs(ps, IntText(1), IntText(k.idle), IntText(k.interval), IntText(k.count))
  }

  method AddHost(c: Config, pton: string -> bool) returns (ci: Option<string>)
    ensures ci == Rendered(HostPairs(c, pton))
  {
    var raw := StripBrackets(c.host);
    ci := Some([]);
    match c.ssl.serverHostname {
      case Some(name) => {
        if IsIpLiteral(raw, pton) {
          ci := AddField(ci, [], "hostaddr", raw);
          assert [] + [Pair("hostaddr", raw)] == [Pair("hostaddr", raw)];
          ci := AddField(ci, [Pair("hostaddr", raw)], "host", name);
        } else {
          ci := AddField(ci, [], "host", name);
        }
      }
      case None => { ci := AddField(ci, [], "host", raw); }
    }
  }

  method AddLogin(ci: Option<string>, ghost ps: seq<Pair>, c: Config) returns (r: Option<string>)
    requires ci == Rendered(ps)
    ensures r == Rendered(LoginPairs(ps, c))
  {
    ghost var p := ps;
    r := AddField(ci, p, "port", c.port);
    p := p + [Pair("port", c.port)];
    r := AddField(r, p, "user", c.user);
    p := p + [Pair("user", c.user)];
    r := AddField(r, p, "dbname", c.dbname);
    p := p + [Pair("dbname", c.dbname)];
    r := AddField(r, p, "password", c.password);
  }

  method AddSsl(ci: Option<string>, ghost ps: seq<Pair>, ssl: Ssl) returns (r: Option<string>)
    requires ci == Rendered(ps)
    ensures r == Rendered(SslPairs(ps, ssl))
  {
    ghost var p := ps + [Pair("sslmode", ssl.mode)];
    r := AddField(ci, ps, "sslmode", ssl.mode);
    r := AddOptional(r, p, "sslrootcert", ssl.rootCert);
    p := With(p, "sslrootcert", ssl.rootCert);
    r := AddOptional(r, p, "sslcert", ssl.clientCert);
    p := With(p, "sslcert", ssl.clientCert);
    r := AddOptional(r, p, "sslkey", ssl.clientKey);
    p := With(p, "sslkey", ssl.clientKey);
    r := AddOptional(r, p, "sslcrl", ssl.crl);
  }

  method AddKeepalive(ci: Option<string>, ghost ps: seq<Pair>, on: string, idle: string, interval: string, count: string)
    returns (r: Option<string>)
    requires ci == Rendered(ps)
    ensures r == Rendered(KeepalivePairs(ps, on, idle, interval, count))
  {
    ghost var p := ps;
    r := AddField(ci, p, "keepalives", on);
    p := p + [Pair("keepalives", on)];
    r := AddField(r, p, "keepalives_idle", idle);
    p := p + [Pair("keepalives_idle", idle)];
    r := AddField(r, p, "keepalives_interval", interval);
    p := p + [Pair("keepalives_interval", interval)];
    r := AddField(r, p, "keepalives_count", count);
  }

  method MakeConninfo(c: Config, pton: string -> bool) returns (r: Option<string>)
    ensures r == Rendered(ConfigPairs(c, pton))
  {
    ghost var host := HostPairs(c, pton);
    ghost var login := LoginPairs(host, c);
    r := AddHost(c, pton);
    r := AddLogin(r, host, c);
    r := AddSsl(r, login, c.ssl);
    if c.keepalive.enabled {
      var k := c.keepalive;
      r := AddKeepalive(r, SslPairs(login, c.ssl), IntText(1), IntText(k.idle), IntText(k.interval), IntText(k.count));
    }
  }

  // ---------- scanning ----------

  datatype Mode = Between | InKey | AtValue | InQuotes | AfterBackslash | InBare | Broken

  /** Reading a connection string character by character: the keys met, the values
      read in full, the key or value being read. */
  datatype Scan = Scan(keys: seq<string>, values: seq<string>, cur: string, mode: Mode)

  const START := Scan([], [], [], Between)

  predicate Blank(c: char) { c == ' ' || c == '\t' }

  function KeyRead(st: Scan): Scan { Scan(st.keys + [st.cur], st.values, [], AtValue) }

  function ValueRead(st: Scan): Scan { Scan(st.keys, st.values + [st.cur], [], Between) }

  function ScanChar(st: Scan, c: char): Scan {
    match st.mode
    case Between =>
      if Blank(c) then st else if c == '=' then KeyRead(st) else st.(cur := st.cur + [c], mode := InKey)
    case InKey =>
      if c == '=' then KeyRead(st) else if c == ' ' then st.(mode := Broken) else st.(cur := st.cur + [c])
    case AtValue =>
      if c == '\'' then st.(mode := InQuotes) else if Blank(c) then ValueRead(st) else st.(cur := st.cur + [c], mode := InBare)
    case InQuotes =>
      if c == '\\' then st.(mode := AfterBackslash) else if c == '\'' then ValueRead(st) else st.(cur := st.cur + [c])
    case AfterBackslash => st.(cur := st.cur + [c], mode := InQuotes)
    case InBare => if Blank(c) then ValueRead(st) else st.(cur := st.cur + [c])
    case Broken => st
  }

  /** The state after s[i], ..., s[j - 1]. */
  function ScanRange(st: Scan, s: string, i: nat, j: nat): Scan
    requires i <= j <= |s|
  {
    Range(ScanChar, st, s, i, j)
  }

  function ScanAll(st: Scan, s: string): Scan { All(ScanChar, st, s) }

  predicate NamesTimeout(s: string) { "connect_timeout" in ScanAll(START, s).keys }

  lemma {:induction false} KeysOnlyGrow(s: string, i: nat, j: nat)
    requires i <= j <= |s|
    ensures ScanRange(START, s, 0, i).keys <= ScanRange(START, s, 0, j).keys
    ensures ScanRange(START, s, 0, i).mode == Broken ==> ScanRange(START, s, 0, j) == ScanRange(START, s, 0, i)
    decreases j - i
  {
    if i < j { KeysOnlyGrow(s, i, j - 1); }
  }

  function At(ci: string, i: nat): Scan
    requires i <= |ci|
  {
    ScanRange(START, ci, 0, i)
  }

  /** Where the scanner's main loop stands: between entries, or at the blank that ends a bare value. */
  predicate Resting(ci: string, i: nat)
    requires i <= |ci|
  {
    i < |ci| ==> At(ci, i).mode == Between || (Blank(ci[i]) && (At(ci, i).mode == AtValue || At(ci, i).mode == InBare))
  }

  method SkipQuoted(ci: string, i: nat) returns (e: nat)
    requires i <= |ci| && At(ci, i).mode == InQuotes
    ensures i <= e <= |ci| && At(ci, e).keys == At(ci, i).keys && Resting(ci, e)
  {
    e := i;
    while e < |ci|
      invariant i <= e <= |ci| && At(ci, e).keys == At(ci, i).keys
      invariant e < |ci| ==> At(ci, e).mode == InQuotes
    {
      if ci[e] == '\\' && e + 1 < |ci| {
        assert At(ci, e + 1) == At(ci, e).(mode := AfterBackslash);
        e := e + 2;
      } else if ci[e] == '\'' {
        e := e + 1;
        assert At(ci, e).mode == Between;
        break;
      } else {
        e := e + 1;
      }
    }
  }

  method SkipBare(ci: string, i: nat) returns (e: nat)
    requires i <= |ci| && At(ci, i).mode == AtValue && (i < |ci| ==> ci[i] != '\'')
    ensures i <= e <= |ci| && At(ci, e).keys == At(ci, i).keys && Resting(ci, e)
  {
    e := i;
    while e < |ci| && ci[e] != ' ' && ci[e] != '\t'
      invariant i <= e <= |ci| && At(ci, e).keys == At(ci, i).keys
      invariant At(ci, e).mode == if e == i then AtValue else InBare
    {
      e := e + 1;
    }
  }

  /** From the '=' after a key to the end of the value. */
  method SkipValue(ci: string, i: nat) returns (e: nat)
    requires i < |ci| && ci[i] == '=' && (At(ci, i).mode == Between || At(ci, i).mode == InKey)
    ensures i < e <= |ci| && At(ci, e).keys == At(ci, i).keys + [At(ci, i).cur] && Resting(ci, e)
  {
    e := i + 1;
    assert At(ci, e) == KeyRead(At(ci, i));
    if e < |ci| && ci[e] == '\'' {
      e := SkipQuoted(ci, e + 1);
    } else {
      e := SkipBare(ci, e);
    }
  }

  method SkipBlanks(ci: string, i: nat) returns (e: nat)
    requires i <= |ci| && Resting(ci, i)
    ensures i <= e <= |ci| && At(ci, e).keys == At(ci, i).keys
    ensures e < |ci| ==> !Blank(ci[e]) && At(ci, e).mode == Between && At(ci, e).cur == []
  {
    e := i;
    while e < |ci| && (ci[e] == ' ' || ci[e] == '\t')
      invariant i <= e <= |ci| && At(ci, e).keys == At(ci, i).keys && Resting(ci, e)
    {
      e := e + 1;
    }
    BetweenIsEmpty(ci, e);
  }

  method ReadKey(ci: string, start: nat) returns (e: nat)
    requires start < |ci| && !Blank(ci[start]) && At(ci, start).mode == Between && At(ci, start).cur == []
    ensures start <= e <= |ci| && (e < |ci| ==> ci[e] == '=' || (ci[e] == ' ' && At(ci, e).mode == InKey))
    ensures At(ci, e).keys == At(ci, start).keys && At(ci, e).cur == ci[start..e]
    ensures At(ci, e).mode == Between || At(ci, e).mode == InKey
  {
    e := start;
    while e < |ci| && ci[e] != '=' && ci[e] != ' '
      invariant start <= e <= |ci|
      invariant At(ci, e).keys == At(ci, start).keys && At(ci, e).cur == ci[start..e]
      invariant At(ci, e).mode == if e == start then Between else InKey
    {
      assert ci[start..e] + [ci[e]] == ci[start..e + 1];
      e := e + 1;
    }
  }

  method HasConnectTimeout(ci: string) returns (found: bool)
    ensures found == NamesTimeout(ci)
  {
    var i := 0;
    while i < |ci|
      invariant 0 <= i <= |ci| && Resting(ci, i) && "connect_timeout" !in At(ci, i).keys
    {
      i := SkipBlanks(ci, i);
      if i >= |ci| {
        break;
      }
      var keyStart := i;
      ghost var keys := At(ci, i).keys;
      i := ReadKey(ci, i);
      var key := ci[keyStart..i];
      if i >= |ci| || ci[i] != '=' {
        if i < |ci| {
          assert At(ci, i + 1) == At(ci, i).(mode := Broken);
          KeysOnlyGrow(ci, i + 1, |ci|);
        }
        return false;
      }
      i := SkipValue(ci, i);
      if key == "connect_timeout" {
        KeysOnlyGrow(ci, i, |ci|);
        assert At(ci, |ci|).keys[|keys|] == key;
        return true;
      }
    }
    found := false;
  }

  lemma {:induction false} BetweenIsEmpty(s: string, i: nat)
    requires i <= |s|
    ensures ScanRange(START, s, 0, i).mode == Between || ScanRange(START, s, 0, i).mode == AtValue
            ==> ScanRange(START, s, 0, i).cur == []
    decreases i
  {
    if i > 0 { BetweenIsEmpty(s, i - 1); }
  }

  // ---------- the scanner agrees with the builder ----------

  predicate IsKey(k: string) { k != [] && forall i | 0 <= i < |k| :: k[i] != '=' && !Blank(k[i]) }

  lemma {:induction false} ScanKey(st: Scan, k: string, n: nat)
    requires IsKey(k) && n <= |k| && st.mode == Between && st.cur == []
    ensures ScanRange(st, k, 0, n) == if n == 0 then st else st.(cur := k[..n], mode := InKey)
    decreases n
  {
    if n > 0 {
      ScanKey(st, k, n - 1);
      assert k[..n - 1] + [k[n - 1]] == k[..n];
    }
  }

  lemma ScanEscapedChar(st: Scan, c: char)
    requires st.mode == InQuotes
    ensures ScanAll(st, EscapedChar(c, QUOTE)) == st.(cur := st.cur + [c])
  {
    One(ScanChar, st, c);
    if c == '\'' || c == '\\' {
      Concat(ScanChar, st, ['\\'], [c]);
      One(ScanChar, st, '\\');
      One(ScanChar, ScanChar(st, '\\'), c);
      assert ['\\'] + [c] == ['\\', c];
    }
  }

  lemma {:induction false} ScanEscaped(st: Scan, v: string, n: nat)
    requires st.mode == InQuotes && n <= |v| && st.cur == []
    ensures ScanAll(st, EscapedTo(v, n, QUOTE)) == st.(cur := v[..n])
    decreases n
  {
    if n > 0 {
      ScanEscaped(st, v, n - 1);
      Concat(ScanChar, st, EscapedTo(v, n - 1, QUOTE), EscapedChar(v[n - 1], QUOTE));
      ScanEscapedChar(st.(cur := v[..n - 1]), v[n - 1]);
      assert v[..n - 1] + [v[n - 1]] == v[..n];
    }
  }

  lemma ScanQuoted(st: Scan, v: string)
    requires st.mode == AtValue && st.cur == []
    ensures ScanAll(st, Quoted(v, QUOTE)) == Scan(st.keys, st.values + [v], [], Between)
  {
    var text := EscapedTo(v, |v|, QUOTE);
    Concat(ScanChar, st, ['\''] + text, ['\'']);
    Concat(ScanChar, st, ['\''], text);
    One(ScanChar, st, '\'');
    ScanEscaped(st.(mode := InQuotes), v, |v|);
    assert v[..|v|] == v;
    One(ScanChar, st.(cur := v, mode := InQuotes), '\'');
  }

  lemma ScanKeyEquals(st: Scan, k: string)
    requires IsKey(k) && st.mode == Between && st.cur == []
    ensures ScanAll(st, k + ['=']) == Scan(st.keys + [k], st.values, [], AtValue)
  {
    Concat(ScanChar, st, k, ['=']);
    ScanKey(st, k, |k|);
    assert k[..|k|] == k;
    One(ScanChar, st.(cur := k, mode := InKey), '=');
  }

  lemma ScanEntry(st: Scan, p: Pair)
    requires IsKey(p.key) && st.mode == Between && st.cur == []
    ensures ScanAll(st, Entry(p)) == Scan(st.keys + [p.key], st.values + [p.value], [], Between)
  {
    Concat(ScanChar, st, p.key + ['='], Quoted(p.value, QUOTE));
    ScanKeyEquals(st, p.key);
    ScanQuoted(Scan(st.keys + [p.key], st.values, [], AtValue), p.value);
  }

  function KeysTo(ps: seq<Pair>, n: nat): (r: seq<string>)
    requires n <= |ps|
    ensures |r| == n && forall i | 0 <= i < n :: r[i] == ps[i].key
  {
    if n == 0 then [] else KeysTo(ps, n - 1) + [ps[n - 1].key]
  }

  function ValuesTo(ps: seq<Pair>, n: nat): (r: seq<string>)
    requires n <= |ps|
    ensures |r| == n && forall i | 0 <= i < n :: r[i] == ps[i].value
  {
    if n == 0 then [] else ValuesTo(ps, n - 1) + [ps[n - 1].value]
  }

  predicate KeysOk(ps: seq<Pair>) { forall i | 0 <= i < |ps| :: IsKey(ps[i].key) && ps[i].key != "connect_timeout" }

  /** Scanning a rendered string meets exactly the pairs that were written. */
  lemma {:induction false} ScanRender(ps: seq<Pair>, n: nat)
    requires KeysOk(ps) && n <= |ps|
    ensures ScanAll(START, RenderTo(ps, n)) == Scan(KeysTo(ps, n), ValuesTo(ps, n), [], Between)
    decreases n
  {
    if n > 0 {
      var text := RenderTo(ps, n - 1);
      var st := Scan(KeysTo(ps, n - 1), ValuesTo(ps, n - 1), [], Between);
      ScanRender(ps, n - 1);
      Concat(ScanChar, START, text, [' ']);
      One(ScanChar, st, ' ');
      Concat(ScanChar, START, Separated(text), Entry(ps[n - 1]));
      ScanEntry(st, ps[n - 1]);
    }
  }

  lemma KeysOkSnoc(ps: seq<Pair>, p: Pair)
    requires KeysOk(ps) && IsKey(p.key) && p.key != "connect_timeout"
    ensures KeysOk(ps + [p])
  {
  }

  lemma KeysOkWith(ps: seq<Pair>, key: string, value: Option<string>)
    requires KeysOk(ps) && IsKey(key) && key != "connect_timeout"
    ensures KeysOk(With(ps, key, value))
  {
  }

  lemma HostKeysOk(c: Config, pton: string -> bool)
    ensures KeysOk(HostPairs(c, pton))
  {
    var raw := StripBrackets(c.host);
    assert IsKey("host") && IsKey("hostaddr");
    KeysOkSnoc([], Pair("host", raw));
    if c.ssl.serverHostname.Some? {
      KeysOkSnoc([], Pair("host", c.ssl.serverHostname.value));
      KeysOkSnoc([Pair("hostaddr", raw)], Pair("host", c.ssl.serverHostname.value));
    }
  }

  lemma LoginKeysOk(ps: seq<Pair>, c: Config)
    requires KeysOk(ps)
    ensures KeysOk(LoginPairs(ps, c))
  {
    assert IsKey("port") && IsKey("user") && IsKey("dbname") && IsKey("password");
    var p1 := ps + [Pair("port", c.port)];
    var p2 := p1 + [Pair("user", c.user)];
    var p3 := p2 + [Pair("dbname", c.dbname)];
    KeysOkSnoc(ps, Pair("port", c.port));
    KeysOkSnoc(p1, Pair("user", c.user));
    KeysOkSnoc(p2, Pair("dbname", c.dbname));
    KeysOkSnoc(p3, Pair("password", c.password));
  }

  lemma SslKeysOk(ps: seq<Pair>, ssl: Ssl)
    requires KeysOk(ps)
    ensures KeysOk(SslPairs(ps, ssl))
  {
    assert IsKey("sslmode") && IsKey("sslrootcert") && IsKey("sslcert") && IsKey("sslkey") && IsKey("sslcrl");
    var p1 := ps + [Pair("sslmode", ssl.mode)];
    var p2 := With(p1, "sslrootcert", ssl.rootCert);
    var p3 := With(p2, "sslcert", ssl.clientCert);
    KeysOkSnoc(ps, Pair("sslmode", ssl.mode));
    KeysOkWith(p1, "sslrootcert", ssl.rootCert);
    KeysOkWith(p2, "sslcert", ssl.clientCert);
    KeysOkWith(p3, "sslkey", ssl.clientKey);
    KeysOkWith(With(p3, "sslkey", ssl.clientKey), "sslcrl", ssl.crl);
  }

  lemma KeepaliveKeysOk(ps: seq<Pair>, on: string, idle: string, interval: string, count: string)
    requires KeysOk(ps)
    ensures KeysOk(KeepalivePairs(ps, on, idle, interval, count))
  {
    assert IsKey("keepalives") && IsKey("keepalives_idle");
    assert IsKey("keepalives_interval") && IsKey("keepalives_count");
    var p1 := ps + [Pair("keepalives", on)];
    var p2 := p1 + [Pair("keepalives_idle", idle)];
    var p3 := p2 + [Pair("keepalives_interval", interval)];
    KeysOkSnoc(ps, Pair("keepalives", on));
    KeysOkSnoc(p1, Pair("keepalives_idle", idle));
    KeysOkSnoc(p2, Pair("keepalives_interval", interval));
    KeysOkSnoc(p3, Pair("keepalives_count", count));
  }

  lemma ConfigKeysOk(c: Config, pton: string -> bool)
    ensures KeysOk(ConfigPairs(c, pton))
  {
    var host := HostPairs(c, pton);
    var login := LoginPairs(host, c);
    var k := c.keepalive;
    HostKeysOk(c, pton);
    LoginKeysOk(host, c);
    SslKeysOk(login, c.ssl);
    KeepaliveKeysOk(SslPairs(login, c.ssl), IntText(1), IntText(k.idle), IntText(k.interval), IntText(k.count));
  }

  /** The scanner visits exactly the keys make_conninfo wrote, with the values that
      were given, and finds no connect_timeout, whatever the values contain. */
  lemma ScannerAgreesWithBuilder(c: Config, pton: string -> bool)
    requires Rendered(ConfigPairs(c, pton)).Some?
    ensures var ps := ConfigPairs(c, pton);
            var ci := Rendered(ps).value;
            ScanAll(START, ci) == Scan(KeysTo(ps, |ps|), ValuesTo(ps, |ps|), [], Between) && !NamesTimeout(ci)
  {
    var ps := ConfigPairs(c, pton);
    ConfigKeysOk(c, pton);
    ScanRender(ps, |ps|);
  }

  // ---------- what the string says, key by key ----------

  /** The pairs give this key this value, and no other. */
  ghost predicate Says(ps: seq<Pair>, key: string, value: string) {
    (exists i | 0 <= i < |ps| :: ps[i] == Pair(key, value)) && forall i | 0 <= i < |ps| && ps[i].key == key :: ps[i].value == value
  }

  ghost predicate Silent(ps: seq<Pair>, key: string) { forall i | 0 <= i < |ps| :: ps[i].key != key }

  /** Says, or is silent about it when there is no value. */
  ghost predicate Tells(ps: seq<Pair>, key: string, value: Option<string>) {
    if value.Some? then Says(ps, key, value.value) else Silent(ps, key)
  }

  lemma TellsSnoc(ps: seq<Pair>, p: Pair, key: string, value: Option<string>)
    requires Tells(ps, key, value) && p.key != key
    ensures Tells(ps + [p], key, value)
  {
    if value.Some? {
      var i :| 0 <= i < |ps| && ps[i] == Pair(key, value.value);
      assert (ps + [p])[i] == Pair(key, value.value);
    }
  }

  lemma TellsWith(ps: seq<Pair>, k: string, v: Option<string>, key: string, value: Option<string>)
    requires Tells(ps, key, value) && k != key
    ensures Tells(With(ps, k, v), key, value)
  {
    if v.Some? { TellsSnoc(ps, Pair(k, v.value), key, value); }
  }

  lemma TellsNew(ps: seq<Pair>, key: string, value: Option<string>)
    requires Silent(ps, key)
    ensures Tells(With(ps, key, value), key, value)
  {
    if value.Some? { assert (ps + [Pair(key, value.value)])[|ps|] == Pair(key, value.value); }
  }

  /** The fields appended one after the other. */
  function Fields(ps: seq<Pair>, keys: seq<string>, values: seq<Option<string>>, n: nat): seq<Pair>
    requires n <= |keys| == |values|
  {
    if n == 0 then ps else With(Fields(ps, keys, values, n - 1), keys[n - 1], values[n - 1])
  }

  predicate Distinct(keys: seq<string>) { forall i, j | 0 <= i < j < |keys| :: keys[i] != keys[j] }

  lemma {:induction false} FieldsSilent(ps: seq<Pair>, keys: seq<string>, values: seq<Option<string>>, n: nat, i: nat)
    requires n <= i < |keys| == |values| && Distinct(keys) && Silent(ps, keys[i])
    ensures Silent(Fields(ps, keys, values, n), keys[i])
    decreases n
  {
    if n > 0 { FieldsSilent(ps, keys, values, n - 1, i); }
  }

  /** Each field is told as given. */
  lemma {:induction false} FieldsTell(ps: seq<Pair>, keys: seq<string>, values: seq<Option<string>>, n: nat, i: nat)
    requires i < n <= |keys| == |values| && Distinct(keys) && Silent(ps, keys[i])
    ensures Tells(Fields(ps, keys, values, n), keys[i], values[i])
    decreases n
  {
    if i == n - 1 {
      FieldsSilent(ps, keys, values, n - 1, i);
      TellsNew(Fields(ps, keys, values, n - 1), keys[i], values[i]);
    } else {
      FieldsTell(ps, keys, values, n - 1, i);
      TellsWith(Fields(ps, keys, values, n - 1), keys[n - 1], values[n - 1], keys[i], values[i]);
    }
  }

  const KEYS := ["hostaddr", "host", "port", "user", "dbname", "password", "sslmode", "sslrootcert", "sslcert", "sslkey",
                 "sslcrl", "keepalives", "keepalives_idle", "keepalives_interval", "keepalives_count"]

  /** The value of every key a connection string can have, None where it is left out. */
  function Settings(c: Config, pton: string -> bool): seq<Option<string>> {
    var raw, name, k := StripBrackets(c.host), c.ssl.serverHostname, c.keepalive;
    [if name.Some? && IsIpLiteral(raw, pton) then Some(raw) else None, Some(if name.Some? then name.value else raw),
     Some(c.port), Some(c.user), Some(c.dbname), Some(c.password), Some(c.ssl.mode), c.ssl.rootCert, c.ssl.clientCert,
     c.ssl.clientKey, c.ssl.crl]
    + if k.enabled then [Some(IntText(1)), Some(IntText(k.idle)), Some(IntText(k.interval)), Some(IntText(k.count))]
      else [None, None, None, None]
  }

  // Length, first and fourth character tell the keys apart.

  const LENGTHS := [8, 4, 4, 4, 6, 8, 7, 11, 7, 6, 6, 10, 15, 19, 16]
  const FIRSTS := ['h', 'h', 'p', 'u', 'd', 'p', 's', 's', 's', 's', 's', 'k', 'k', 'k', 'k']
  const FOURTHS := ['t', 't', 't', 'r', 'a', 's', 'm', 'r', 'c', 'k', 'c', 'p', 'p', 'p', 'p']

  lemma KeyShape(i: nat)
    requires i < |KEYS|
    ensures |KEYS[i]| == LENGTHS[i] && KEYS[i][0] == FIRSTS[i] && KEYS[i][3] == FOURTHS[i]
  {
  }

  lemma ShapesDiffer(i: nat, j: nat)
    requires i < j < |KEYS|
    ensures LENGTHS[i] != LENGTHS[j] || FIRSTS[i] != FIRSTS[j] || FOURTHS[i] != FOURTHS[j]
  {
  }

  lemma KeysDistinct()
    ensures Distinct(KEYS)
  {
    forall i, j | 0 <= i < j < |KEYS| ensures KEYS[i] != KEYS[j] {
      KeyShape(i);
      KeyShape(j);
      ShapesDiffer(i, j);
    }
  }

  function FirstFields(vs: seq<Option<string>>, n: nat): seq<Pair>
    requires n <= |KEYS| == |vs|
  {
    Fields([], KEYS, vs, n)
  }

  lemma OneField(vs: seq<Option<string>>, n: nat)
    requires n < |KEYS| == |vs|
    ensures FirstFields(vs, n + 1) == With(FirstFields(vs, n), KEYS[n], vs[n])
  {
  }

  lemma FourFields(vs: seq<Option<string>>, n: nat)
    requires n + 4 <= |KEYS| == |vs|
    ensures FirstFields(vs, n + 4)
         == With(With(With(With(FirstFields(vs, n), KEYS[n], vs[n]), KEYS[n + 1], vs[n + 1]), KEYS[n + 2], vs[n + 2]), KEYS[n + 3], vs[n + 3])
  {
    OneField(vs, n);
    OneField(vs, n + 1);
    OneField(vs, n + 2);
    OneField(vs, n + 3);
  }

  lemma HostIsFields(c: Config, pton: string -> bool)
    ensures HostPairs(c, pton) == FirstFields(Settings(c, pton), 2)
  {
    var vs := Settings(c, pton);
    OneField(vs, 0);
    OneField(vs, 1);
  }

  lemma LoginIsFields(c: Config, pton: string -> bool)
    ensures LoginPairs(HostPairs(c, pton), c) == FirstFields(Settings(c, pton), 6)
  {
    HostIsFields(c, pton);
    FourFields(Settings(c, pton), 2);
  }

  lemma SslIsFields(c: Config, pton: string -> bool)
    ensures SslPairs(LoginPairs(HostPairs(c, pton), c), c.ssl) == FirstFields(Settings(c, pton), 11)
  {
    LoginIsFields(c, pton);
    OneField(Settings(c, pton), 6);
    FourFields(Settings(c, pton), 7);
  }

  lemma ConfigIsFields(c: Config, pton: string -> bool)
    ensures ConfigPairs(c, pton) == FirstFields(Settings(c, pton), 15)
  {
    SslIsFields(c, pton);
    FourFields(Settings(c, pton), 11);
  }

  lemma SettingIsTold(c: Config, pton: string -> bool, i: nat)
    requires i < |KEYS|
    ensures Tells(ConfigPairs(c, pton), KEYS[i], Settings(c, pton)[i])
  {
    ConfigIsFields(c, pton);
    KeysDistinct();
    FieldsTell([], KEYS, Settings(c, pton), 15, i);
  }

  /** A reader of the string finds this value under the key, and nothing else under it. */
  ghost predicate Reads(st: Scan, key: string, value: Option<string>) {
    && |st.keys| == |st.values|
    && (value.Some? ==> exists i | 0 <= i < |st.keys| :: st.keys[i] == key && st.values[i] == value.value)
    && (value.Some? ==> forall i | 0 <= i < |st.keys| && st.keys[i] == key :: st.values[i] == value.value)
    && (value.None? ==> key !in st.keys)
  }

  lemma SettingIsRead(c: Config, pton: string -> bool, i: nat)
    requires Rendered(ConfigPairs(c, pton)).Some? && i < |KEYS|
    ensures Reads(ScanAll(START, Rendered(ConfigPairs(c, pton)).value), KEYS[i], Settings(c, pton)[i])
  {
    var ps := ConfigPairs(c, pton);
    var st := ScanAll(START, Rendered(ps).value);
    ScannerAgreesWithBuilder(c, pton);
    SettingIsTold(c, pton, i);
    if Settings(c, pton)[i].Some? {
      var j :| 0 <= j < |ps| && ps[j] == Pair(KEYS[i], Settings(c, pton)[i].value);
      assert st.keys[j] == KEYS[i];
    }
  }

  /** What the reader of a configuration's string comes to know. */
  function Scanned(c: Config, pton: string -> bool): Scan
    requires Rendered(ConfigPairs(c, pton)).Some?
  {
    ScanAll(START, Rendered(ConfigPairs(c, pton)).value)
  }

  lemma LoginIsRead(c: Config, pton: string -> bool)
    requires Rendered(ConfigPairs(c, pton)).Some?
    ensures var st := Scanned(c, pton);
            && Reads(st, "port", Some(c.port)) && Reads(st, "user", Some(c.user))
            && Reads(st, "dbname", Some(c.dbname)) && Reads(st, "password", Some(c.password))
  {
    SettingIsRead(c, pton, 2);
    SettingIsRead(c, pton, 3);
    SettingIsRead(c, pton, 4);
    SettingIsRead(c, pton, 5);
  }

  /** With a server name in the SSL settings that is the host, and an address goes to hostaddr. */
  lemma HostIsRead(c: Config, pton: string -> bool)
    requires Rendered(ConfigPairs(c, pton)).Some?
    ensures var st, raw := Scanned(c, pton), StripBrackets(c.host);
            && (c.ssl.serverHostname.None? ==> Reads(st, "host", Some(raw)) && Reads(st, "hostaddr", None))
            && (c.ssl.serverHostname.Some? ==>
                  && Reads(st, "host", c.ssl.serverHostname)
                  && Reads(st, "hostaddr", if '%' !in StripBrackets(raw) && pton(StripBrackets(raw)) then Some(raw) else None))
  {
    HostSettings(c, pton);
    SettingIsRead(c, pton, 0);
    SettingIsRead(c, pton, 1);
  }

  lemma HostSettings(c: Config, pton: string -> bool)
    ensures var vs, raw, name := Settings(c, pton), StripBrackets(c.host), c.ssl.serverHostname;
            && vs[0] == (if name.Some? && '%' !in StripBrackets(raw) && pton(StripBrackets(raw)) then Some(raw) else None)
            && vs[1] == (if name.Some? then name else Some(raw))
            && KEYS[0] == "hostaddr" && KEYS[1] == "host"
  {
  }

  /** A host written in brackets is passed on without them, any other as it is. */
  lemma BracketsGo(h: string)
    ensures StripBrackets(['['] + h + [']']) == h
    ensures |h| < 2 || h[0] != '[' || h[|h| - 1] != ']' ==> StripBrackets(h) == h
  {
  }

  lemma SslIsRead(c: Config, pton: string -> bool)
    requires Rendered(ConfigPairs(c, pton)).Some?
    ensures var st := Scanned(c, pton);
            && Reads(st, "sslmode", Some(c.ssl.mode)) && Reads(st, "sslrootcert", c.ssl.rootCert)
            && Reads(st, "sslcert", c.ssl.clientCert) && Reads(st, "sslkey", c.ssl.clientKey) && Reads(st, "sslcrl", c.ssl.crl)
  {
    SettingIsRead(c, pton, 6);
    SettingIsRead(c, pton, 7);
    SettingIsRead(c, pton, 8);
    SettingIsRead(c, pton, 9);
    SettingIsRead(c, pton, 10);
  }

  lemma KeepaliveIsRead(c: Config, pton: string -> bool)
    requires Rendered(ConfigPairs(c, pton)).Some?
    ensures var st, k := Scanned(c, pton), c.keepalive;
            && Reads(st, "keepalives", if k.enabled then Some("1") else None)
            && Reads(st, "keepalives_idle", if k.enabled then Some(IntText(k.idle)) else None)
            && Reads(st, "keepalives_interval", if k.enabled then Some(IntText(k.interval)) else None)
            && Reads(st, "keepalives_count", if k.enabled then Some(IntText(k.count)) else None)
  {
    assert IntText(1) == "1";
    SettingIsRead(c, pton, 11);
    SettingIsRead(c, pton, 12);
    SettingIsRead(c, pton, 13);
    SettingIsRead(c, pton, 14);
  }

  // ---------- numbers ----------

  function DigitValue(c: char): int { c as int - '0' as int }

  /** The number a text of digits stands for. */
  function NumberOf(s: string): int { if s == [] then 0 else 10 * NumberOf(s[..|s| - 1]) + DigitValue(s[|s| - 1]) }

  lemma {:induction false} NatTextReads(n: nat)
    ensures NatText(n) != [] && NumberOf(NatText(n)) == n
    ensures forall i | 0 <= i < |NatText(n)| :: '0' <= NatText(n)[i] <= '9'
    decreases n
  {
    if n >= 10 {
      NatTextReads(n / 10);
      assert NatText(n)[..|NatText(n)| - 1] == NatText(n / 10);
    } else {
      assert NatText(n)[..0] == [];
    }
  }

  lemma IntTextReads(n: int)
    ensures n >= 0 ==> NumberOf(IntText(n)) == n
    ensures n < 0 ==> IntText(n)[0] == '-' && NumberOf(IntText(n)[1..]) == -n
  {
    if n >= 0 { NatTextReads(n); } else { NatTextReads(-n); }
  }

  // ---------- the suffix ----------

  function TimeoutSuffix(secs: nat): string { " connect_timeout=" + NatText(secs) }

  predicate AllDigits(s: string) { forall i | 0 <= i < |s| :: '0' <= s[i] <= '9' }

  lemma {:induction false} NatTextDigits(n: nat)
    ensures NatText(n) != [] && AllDigits(NatText(n))
    decreases n
  {
    if n >= 10 { NatTextDigits(n / 10); }
  }

  lemma {:induction false} ScanDigits(st: Scan, d: string, n: nat)
    requires AllDigits(d) && n <= |d| && st.mode == AtValue && st.cur == []
    ensures ScanRange(st, d, 0, n) == if n == 0 then st else st.(cur := d[..n], mode := InBare)
    decreases n
  {
    if n > 0 {
      ScanDigits(st, d, n - 1);
      assert d[..n - 1] + [d[n - 1]] == d[..n];
    }
  }

  lemma SuffixParts(secs: nat)
    ensures TimeoutSuffix(secs) == [' '] + ("connect_timeout" + ['=']) + NatText(secs)
  {
    assert " connect_timeout=" == [' '] + ("connect_timeout" + ['=']);
  }

  lemma SuffixScanned(st: Scan, secs: nat)
    requires st.mode == Between && st.cur == []
    ensures ScanAll(st, TimeoutSuffix(secs)) == Scan(st.keys + ["connect_timeout"], st.values, NatText(secs), InBare)
  {
    var k, d := "connect_timeout", NatText(secs);
    SuffixParts(secs);
    Concat(ScanChar, st, [' '] + (k + ['=']), d);
    Concat(ScanChar, st, [' '], k + ['=']);
    One(ScanChar, st, ' ');
    ScanKeyEquals(st, k);
    NatTextDigits(secs);
    ScanDigits(Scan(st.keys + [k], st.values, [], AtValue), d, |d|);
    assert d[..|d|] == d;
  }

  /** The whole seconds of a connect budget, at least one; no budget means five seconds. */
  function Seconds(timeoutMs: int): nat {
    var budget := if timeoutMs <= 0 then 5000 else timeoutMs;
    if budget / 1000 == 0 then 1 else budget / 1000
  }

  /** At least one second, and otherwise the budget rounded down; five seconds without one. */
  lemma SecondsAre(timeoutMs: int)
    ensures timeoutMs <= 0 ==> Seconds(timeoutMs) == 5
    ensures 0 < timeoutMs < 1000 ==> Seconds(timeoutMs) == 1
    ensures timeoutMs >= 1000 ==> 1000 * Seconds(timeoutMs) <= timeoutMs < 1000 * Seconds(timeoutMs) + 1000
  {}

  /** connect_async adds a timeout to a string that does not name one. */
  method WithTimeout(ci: string, timeoutMs: int) returns (r: string)
    ensures r == if NamesTimeout(ci) then ci else ci + TimeoutSuffix(Seconds(timeoutMs))
  {
    r := ci;
    var has := HasConnectTimeout(ci);
    if !has {
      var secs := (if timeoutMs <= 0 then 5000 else timeoutMs) / 1000;
      if secs <= 0 {
        secs := 1;
      }
      r := r + " connect_timeout=" + NatText(secs);
      Assoc(ci, " connect_timeout=", NatText(secs));
    }
  }

  predicate NoEscapes(s: string) { forall i | 0 <= i < |s| :: s[i] != '\'' && s[i] != '\\' }

  /** Inside an open quote everything is value. */
  lemma {:induction false} ScanInsideQuotes(st: Scan, s: string, n: nat)
    requires n <= |s| && NoEscapes(s) && st.mode == InQuotes
    ensures ScanRange(st, s, 0, n).mode == InQuotes && ScanRange(st, s, 0, n).keys == st.keys
    decreases n
  {
    if n > 0 { ScanInsideQuotes(st, s, n - 1); }
  }

  lemma {:induction false} ScanBroken(st: Scan, s: string, n: nat)
    requires n <= |s| && st.mode == Broken
    ensures ScanRange(st, s, 0, n) == st
    decreases n
  {
    if n > 0 { ScanBroken(st, s, n - 1); }
  }

  /** Between entries, or in a value that a blank ends. */
  predicate TakesMore(m: Mode) { m == Between || m == AtValue || m == InBare }

  lemma SuffixSplit(secs: nat)
    ensures TimeoutSuffix(secs) == [' '] + TimeoutSuffix(secs)[1..] && TimeoutSuffix(secs)[0] == ' '
    ensures NoEscapes(TimeoutSuffix(secs)[1..])
  {
    var k, d := "connect_timeout=", NatText(secs);
    NatTextDigits(secs);
    assert TimeoutSuffix(secs)[1..] == k + d;
    assert NoEscapes(k) && NoEscapes(d);
  }

  /** What the suffix adds to the keys, from any state between characters. */
  lemma SuffixAdds(st: Scan, secs: nat)
    requires st.mode == Between ==> st.cur == []
    ensures ScanAll(st, TimeoutSuffix(secs)).keys == st.keys + if TakesMore(st.mode) then ["connect_timeout"] else []
  {
    var rest := TimeoutSuffix(secs)[1..];
    SuffixSplit(secs);
    Concat(ScanChar, st, [' '], rest);
    One(ScanChar, st, ' ');
    var after := ScanChar(st, ' ');
    match st.mode
    case Between => SuffixScanned(st, secs);
    case AtValue => SuffixFromValue(st, secs);
    case InBare => SuffixFromValue(st, secs);
    case InKey => ScanBroken(after, rest, |rest|);
    case Broken => ScanBroken(after, rest, |rest|);
    case InQuotes => ScanInsideQuotes(after, rest, |rest|);
    case AfterBackslash => ScanInsideQuotes(after, rest, |rest|);
  }

  lemma SuffixFromValue(st: Scan, secs: nat)
    requires st.mode == AtValue || st.mode == InBare
    ensures ScanAll(st, TimeoutSuffix(secs)).keys == st.keys + ["connect_timeout"]
  {
    var rest, between := TimeoutSuffix(secs)[1..], ValueRead(st);
    SuffixSplit(secs);
    Concat(ScanChar, st, [' '], rest);
    One(ScanChar, st, ' ');
    Concat(ScanChar, between, [' '], rest);
    One(ScanChar, between, ' ');
    SuffixScanned(between, secs);
  }

  /** For any string at all: what connect_async passes on names a timeout exactly
      when the string named one, or its end is a place where an entry can follow.
      After an open quote or a key without a value the suffix is lost. */
  lemma PassedOnNamesTimeoutIff(ci: string, secs: nat)
    ensures NamesTimeout(if NamesTimeout(ci) then ci else ci + TimeoutSuffix(secs))
            <==> NamesTimeout(ci) || TakesMore(ScanAll(START, ci).mode)
  {
    var st := ScanAll(START, ci);
    BetweenIsEmpty(ci, |ci|);
    Concat(ScanChar, START, ci, TimeoutSuffix(secs));
    SuffixAdds(st, secs);
    if TakesMore(st.mode) {
      assert (st.keys + ["connect_timeout"])[|st.keys|] == "connect_timeout";
    }
  }

  /** A string it fails for: after a key without a value nothing more is read, so the
      appended timeout is not seen. */
  lemma TimeoutIsLost(secs: nat)
    ensures !NamesTimeout("a") && !NamesTimeout("a" + TimeoutSuffix(secs))
  {
    One(ScanChar, START, 'a');
    assert ScanAll(START, "a") == START.(cur := ['a'], mode := InKey) by { assert [] + ['a'] == ['a']; }
    PassedOnNamesTimeoutIff("a", secs);
  }

  lemma SuffixIsFound(c: Config, pton: string -> bool, secs: nat)
    requires Rendered(ConfigPairs(c, pton)).Some?
    ensures var ps := ConfigPairs(c, pton);
            var st := ScanAll(START, Rendered(ps).value + TimeoutSuffix(secs));
            && st.keys == KeysTo(ps, |ps|) + ["connect_timeout"]
            && st.values + [st.cur] == ValuesTo(ps, |ps|) + [NatText(secs)]
            && NamesTimeout(Rendered(ps).value + TimeoutSuffix(secs))
  {
    var ps := ConfigPairs(c, pton);
    var ci := Rendered(ps).value;
    ScannerAgreesWithBuilder(c, pton);
    Concat(ScanChar, START, ci, TimeoutSuffix(secs));
    SuffixScanned(ScanAll(START, ci), secs);
    assert ScanAll(START, ci + TimeoutSuffix(secs)).keys[|ps|] == "connect_timeout";
  }

  /** What an entry looks like: the value in quotes, with backslashes before quotes and backslashes. */
  lemma SampleEntry()
    ensures Entry(Pair("user", "o'x")) == "user='o\\'x'"
    ensures Appended("a=''", Pair("user", "o'x")) == "a='' " + Entry(Pair("user", "o'x"))
  {
    var v := "o'x";
    assert EscapedTo(v, 1, QUOTE) == "o" && EscapedTo(v, 2, QUOTE) == "o\\'" && EscapedTo(v, 3, QUOTE) == "o\\'x";
  }
}
