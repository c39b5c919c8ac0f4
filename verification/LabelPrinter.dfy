/** Printing Traefik labels: middlewares, routers and services as the receiver writes them onto
    stub containers, and what the parser reads back from them. */
module LabelPrinter {
  import opened Strings
  import opened Model
  import opened LabelParser

  const TCP_ROUTERS := "traefik.tcp.routers."
  const TCP_SERVICES := "traefik.tcp.services."

  // ---------------------------------------------------------------- labels below a prefix

  /** The label set that holds every entry of `m` under `prefix`. */
  function Prefixed(prefix: string, m: map<string, string>): (r: Labels)
    ensures forall k :: k in r ==> prefix <= k && k[|prefix|..] in m
    ensures forall s :: Get(r, prefix + s) == Get(m, s)
  {
    var keys := set s | s in m :: prefix + s;
    var r := map k | k in keys :: m[k[|prefix|..]];
    assert forall s :: (prefix + s)[|prefix|..] == s;
    assert forall s :: prefix + s in r <==> s in m by {
      forall s | prefix + s in r ensures s in m {
        var s' :| s' in m && prefix + s' == prefix + s;
        assert (prefix + s')[|prefix|..] == s' && (prefix + s)[|prefix|..] == s;
      }
    }
    r
  }

  // ---------------------------------------------------------------- middlewares

  function Show(v: Value): string
  {
    match v
    case Text(s) => s
    case Flag(b) => FormatBool(b)
    case Number(n) => Itoa(n)
    case List(xs) => Join(xs, ',')
  }

  function MiddlewareSuffixes(mw: MiddlewareSpec): (r: map<string, string>)
    ensures forall f :: Get(r, FieldKey(f)) == if f in mw.fields then Some(Show(mw.fields[f])) else None
    ensures forall s :: s in r ==> Classify(s).Some? && Classify(s).value in mw.fields
  {
    hide FieldKey, Classify, Show;
    assert forall f :: Classify(FieldKey(f)) == Some(f) by {
      forall f ensures Classify(FieldKey(f)) == Some(f) {
        ClassifyFieldKey(f);
      }
    }
    var keys := set f | f in mw.fields :: FieldKey(f);
    map s | s in keys :: Show(mw.fields[Classify(s).value])
  }

  function MiddlewareLabels(name: string, mw: MiddlewareSpec): Labels
  {
    Prefixed(MIDDLEWARES + name + ".", MiddlewareSuffixes(mw))
  }

  /** What is left of a middleware once empty groups have become absent groups. */
  function Regrouped(name: string, mw: MiddlewareSpec): MiddlewareSpec
  {
    MiddlewareSpec(
      name,
      exists f :: f in mw.fields && InRedirect(f),
      exists f :: f in mw.fields && InHeaders(f),
      mw.fields)
  }

  lemma ShowParse(f: Field, v: Value)
    requires Canonical(f, v)
    ensures ParseValue(f, Show(v)) == Some(v)
  {
    match v
    case Text(s) =>
    case Flag(b) => BoolRoundTrip(b, false);
    case Number(n) => IntRoundTrip(n);
    case List(xs) => CsvJoin(xs);
  }

  /** Parsing the printed labels of a middleware gives it back, up to empty groups, in whatever
      label set these labels stand, as long as nothing else is below the middleware's name. */
  lemma MiddlewareRoundTrip(name: string, mw: MiddlewareSpec, labels: Labels)
    requires forall f :: f in mw.fields ==> Canonical(f, mw.fields[f])
    requires AgreeBelow(labels, MiddlewareLabels(name, mw), MIDDLEWARES + name + ".")
    ensures ParseMiddleware(labels, name) == Regrouped(name, mw)
  {
    hide ParseMiddleware, MiddlewareSuffixes, Canonical, MIDDLEWARES, FieldValue, FieldKey, IsRedirectSuffix;
    hide IsHeadersSuffix, InRedirect, InHeaders, SuffixOf, Prefixed;
    BelowPrefix(labels, MIDDLEWARES + name + ".", MiddlewareSuffixes(mw));
    ParsedGroups(labels, name);
    GroupsRoundTrip(mw, labels, MIDDLEWARES + name + ".");
    assert ParseMiddleware(labels, name).fields == mw.fields by {
      FieldsRoundTrip(name, mw, labels);
    }
  }

  lemma FieldsRoundTrip(name: string, mw: MiddlewareSpec, labels: Labels)
    requires forall f :: f in mw.fields ==> Canonical(f, mw.fields[f])
    requires forall s :: Get(labels, MIDDLEWARES + name + "." + s) == Get(MiddlewareSuffixes(mw), s)
    ensures ParseMiddleware(labels, name).fields == mw.fields
  {
    hide ParseMiddleware, MiddlewareSuffixes, Canonical, MIDDLEWARES, FieldValue;
    var got := ParseMiddleware(labels, name).fields;
    forall f ensures (f in got <==> f in mw.fields) && (f in got ==> got[f] == mw.fields[f]) {
      ParsedFields(labels, name, f);
      FieldRoundTrip(mw, labels, MIDDLEWARES + name + ".", f);
    }
  }

  lemma ParsedGroups(labels: Labels, name: string)
    ensures var p, mw := MIDDLEWARES + name + ".", ParseMiddleware(labels, name);
            && mw.name == name
            && mw.hasRedirect == (exists k :: k in labels && IsRedirectSuffix(SuffixOf(k, p)))
            && mw.hasHeaders == (exists k :: k in labels && IsHeadersSuffix(SuffixOf(k, p)))
  {
    hide Classify, IsRedirectSuffix, IsHeadersSuffix, MIDDLEWARES;
  }

  lemma BelowPrefix(labels: Labels, p: string, m: map<string, string>)
    requires AgreeBelow(labels, Prefixed(p, m), p)
    ensures forall s :: Get(labels, p + s) == Get(m, s)
  {
    forall s ensures Get(labels, p + s) == Get(m, s) {
      assert p <= p + s;
      assert Get(labels, p + s) == Get(Prefixed(p, m), p + s);
    }
  }

  lemma FieldRoundTrip(mw: MiddlewareSpec, labels: Labels, p: string, f: Field)
    requires forall f :: f in mw.fields ==> Canonical(f, mw.fields[f])
    requires forall s :: Get(labels, p + s) == Get(MiddlewareSuffixes(mw), s)
    ensures FieldValue(labels, p, f) == if f in mw.fields then Some(mw.fields[f]) else None
  {
    hide FieldKey, Classify, Show, ParseValue, Canonical;
    assert Get(labels, p + FieldKey(f)) == Get(MiddlewareSuffixes(mw), FieldKey(f));
    if f in mw.fields {
      ShowParse(f, mw.fields[f]);
    }
  }

  lemma GroupsRoundTrip(mw: MiddlewareSpec, labels: Labels, p: string)
    requires forall s :: Get(labels, p + s) == Get(MiddlewareSuffixes(mw), s)
    ensures (exists k :: k in labels && IsRedirectSuffix(SuffixOf(k, p)))
      <==> exists f :: f in mw.fields && InRedirect(f)
    ensures (exists k :: k in labels && IsHeadersSuffix(SuffixOf(k, p))) <==> exists f :: f in mw.fields && InHeaders(f)
  {
    hide FieldKey, Classify, Show, IsRedirectSuffix, IsHeadersSuffix;
    var printed := MiddlewareSuffixes(mw);
    forall f | f in mw.fields
      ensures var k := p + FieldKey(f); k in labels && SuffixOf(k, p) == FieldKey(f)
      ensures InRedirect(f) <==> IsRedirectSuffix(FieldKey(f))
      ensures InHeaders(f) <==> IsHeadersSuffix(FieldKey(f))
    {
      assert Get(labels, p + FieldKey(f)) == Get(printed, FieldKey(f));
      FieldGroups(f);
    }
    forall k | k in labels && (IsRedirectSuffix(SuffixOf(k, p)) || IsHeadersSuffix(SuffixOf(k, p)))
      ensures exists f :: f in mw.fields && SuffixOf(k, p) == FieldKey(f)
    {
      NoSuffix();
      assert p <= k && k == p + SuffixOf(k, p);
      assert Get(labels, k) == Get(printed, SuffixOf(k, p));
      FieldKeyOfClass(SuffixOf(k, p));
    }
  }

  lemma FieldGroups(f: Field)
    ensures InRedirect(f) <==> IsRedirectSuffix(FieldKey(f))
    ensures InHeaders(f) <==> IsHeadersSuffix(FieldKey(f))
  {
    hide HeaderKey;
    ClassifyFieldKey(f);
    if InHeaders(f) {
      assert FieldKey(f)[0] == 'h';
    }
  }

  /** Printing what was read from printed labels prints the same labels. */
  lemma MiddlewarePrintIsStable(name: string, mw: MiddlewareSpec)
    requires forall f :: f in mw.fields ==> Canonical(f, mw.fields[f])
    ensures MiddlewareLabels(name, ParseMiddleware(MiddlewareLabels(name, mw), name)) == MiddlewareLabels(name, mw)
  {
    hide FieldKey, Classify, Show, Canonical, ParseMiddleware, MIDDLEWARES;
    MiddlewareRoundTrip(name, mw, MiddlewareLabels(name, mw));
    var a, b := MiddlewareSuffixes(mw), MiddlewareSuffixes(Regrouped(name, mw));
    forall s ensures Get(a, s) == Get(b, s) {
      if s in a {
        FieldKeyOfClass(s);
        assert Get(a, FieldKey(Classify(s).value)) == Get(b, FieldKey(Classify(s).value));
      }
    }
    SameGets(a, b);
  }

  lemma SameGets(a: Labels, b: Labels)
    requires forall k :: Get(a, k) == Get(b, k)
    ensures a == b
  {
    forall k ensures k in a <==> k in b {
      assert Get(a, k) == Get(b, k);
    }
    forall k | k in a ensures a[k] == b[k] {
      assert Get(a, k) == Get(b, k);
    }
  }

  // ---------------------------------------------------------------- routers

  /** tcpRuleFromHTTPRule */
  function TcpRule(rule: string): string
  {
    var r := Trim(rule);
    if "Host(" <= r then "HostSNI(" + r[5..] else r
  }

  function With(m: map<string, string>, key: string, v: Option<string>): map<string, string>
  {
    if v.Some? then m[key := v.value] else m
  }

  function JoinedIfAny(xs: seq<string>): Option<string>
  {
    if xs == [] then None else Some(Join(xs, ','))
  }

  function TextIfAny(s: string): Option<string>
  {
    if s == "" then None else Some(s)
  }

  function Shown(n: Option<int>): Option<string>
  {
    if n.Some? then Some(Itoa(n.value)) else None
  }

  function ShownBool(b: Option<bool>): Option<string>
  {
    if b.Some? then Some(FormatBool(b.value)) else None
  }

  function HttpSuffixes(r: RouterSpec, service: string): (m: map<string, string>)
    ensures Get(m, "rule") == Some(r.rule) && Get(m, "service") == Some(service)
    ensures Get(m, "entrypoints") == JoinedIfAny(r.entryPoints)
    ensures Get(m, "middlewares") == JoinedIfAny(r.middlewares)
    ensures Get(m, "priority") == Shown(r.priority)
    ensures Get(m, "tls") == None && Get(m, "tls.certresolver") == None
  {
    assert "entrypoints"[0] == 'e' && "middlewares"[0] == 'm';
    var m := map["rule" := r.rule, "service" := service];
    var m := With(m, "entrypoints", JoinedIfAny(r.entryPoints));
    var m := With(m, "middlewares", JoinedIfAny(r.middlewares));
    With(m, "priority", Shown(r.priority))
  }

  function TcpSuffixes(r: RouterSpec, service: string): (m: map<string, string>)
    requires r.tls.Some?
    ensures Get(m, "rule") == Some(TcpRule(r.rule)) && Get(m, "service") == Some(service)
    ensures Get(m, "tls") == Some("true")
    ensures Get(m, "entrypoints") == JoinedIfAny(r.entryPoints)
    ensures Get(m, "tls.certresolver") == TextIfAny(r.tls.value.certResolver)
    ensures Get(m, "priority") == Shown(r.priority)
    ensures Get(m, "middlewares") == None
  {
    var m := TcpBasics(TcpRule(r.rule), service, TextIfAny(r.tls.value.certResolver));
    WithGet(m, "entrypoints", JoinedIfAny(r.entryPoints));
    var m' := With(m, "entrypoints", JoinedIfAny(r.entryPoints));
    WithGet(m', "priority", Shown(r.priority));
    assert "rule"[0] == 'r' && "tls"[0] == 't' && "service"[0] == 's' && "tls.certresolver"[0] == 't';
    assert "entrypoints"[0] == 'e' && "priority"[0] == 'p' && "middlewares"[0] == 'm';
    hide With, TcpBasics;
    With(m', "priority", Shown(r.priority))
  }

  lemma WithGet(m: map<string, string>, key: string, v: Option<string>)
    ensures forall k :: Get(With(m, key, v), k) == if k == key && v.Some? then v else Get(m, k)
  {
  }

  function TcpBasics(rule: string, service: string, resolver: Option<string>): (m: map<string, string>)
    ensures Get(m, "rule") == Some(rule) && Get(m, "service") == Some(service) && Get(m, "tls") == Some("true")
    ensures Get(m, "tls.certresolver") == resolver
    ensures forall k :: k in m ==> k != "" && k[0] in {'r', 't', 's'}
  {
    assert |"tls.certresolver"| != |"tls"|;
    assert "rule"[0] == 'r' && "tls"[0] == 't' && "service"[0] == 's' && "tls.certresolver"[0] == 't';
    With(map["rule" := rule, "tls" := "true", "service" := service], "tls.certresolver", resolver)
  }

  /** A TLS router, read back from its labels: all of it but the middlewares, the rule in its TCP form. */
  lemma TlsRouterRoundTrip(name: string, r: RouterSpec, service: string, labels: Labels)
    requires r.tls.Some? && Trimmed(r.rule) && CleanList(r.entryPoints) && Trimmed(r.tls.value.certResolver)
    requires r.priority.Some? ==> IsInt64(r.priority.value)
    requires AgreeBelow(labels, Prefixed(TCP_ROUTERS + name + ".", TcpSuffixes(r, service)), TCP_ROUTERS + name + ".")
    ensures RouterAt(labels, TCP_ROUTERS + name + ".", name)
         == r.(name := name, rule := TcpRule(r.rule), middlewares := [], service := Trim(service))
  {
    hide TCP_ROUTERS, TcpSuffixes, TcpRule, Csv, ParseBool, Atoi, Itoa;
    BelowPrefix(labels, TCP_ROUTERS + name + ".", TcpSuffixes(r, service));
    CsvJoin(r.entryPoints);
    BoolRoundTrip(true, false);
    TcpRuleIsTrimmed(r.rule);
    if r.priority.Some? {
      IntRoundTrip(r.priority.value);
    }
  }

  lemma TcpRuleIsTrimmed(rule: string)
    ensures Trimmed(TcpRule(rule)) && Trim(TcpRule(rule)) == TcpRule(rule)
  {
    var r := Trim(rule);
    if "Host(" <= r {
      assert TcpRule(rule)[0] == 'H' && "HostSNI("[7] == '(';
      assert |r| > 5 ==> TcpRule(rule)[|TcpRule(rule)| - 1] == r[|r| - 1];
    }
  }

  lemma RouterRoundTrip(name: string, r: RouterSpec, service: string, labels: Labels)
    requires r.tls.None? && Trimmed(r.rule) && CleanList(r.entryPoints) && CleanList(r.middlewares)
    requires r.priority.Some? ==> IsInt64(r.priority.value)
    requires AgreeBelow(labels, Prefixed(ROUTERS + name + ".", HttpSuffixes(r, service)), ROUTERS + name + ".")
    ensures ParseRouter(labels, name) == r.(name := name, service := Trim(service))
  {
    hide ROUTERS, Csv, ParseBool, Atoi, Itoa;
    BelowPrefix(labels, ROUTERS + name + ".", HttpSuffixes(r, service));
    CsvJoin(r.entryPoints);
    CsvJoin(r.middlewares);
    if r.priority.Some? {
      IntRoundTrip(r.priority.value);
    }
  }

  // ---------------------------------------------------------------- one stub

  function ServiceSuffixes(svc: ServiceSpec): (m: map<string, string>)
    ensures Get(m, "loadbalancer.server.port") == Some("18181")
    ensures Get(m, "loadbalancer.passhostheader") == ShownBool(svc.passHostHeader)
    ensures Get(m, "loadbalancer.sticky") == ShownBool(svc.sticky)
  {
    var m := map["loadbalancer.server.port" := "18181"];
    var m := With(m, "loadbalancer.passhostheader", ShownBool(svc.passHostHeader));
    With(m, "loadbalancer.sticky", ShownBool(svc.sticky))
  }

  lemma StubPort()
    ensures Atoi(Trim("18181")) == Some(18181)
  {
    var s := "18181";
    assert Trimmed(s) && AllDigits(s);
    assert s[..4] == "1818" && s[..4][..3] == "181" && s[..3][..2] == "18" && s[..2][..1] == "1" && s[..1][..0] == "";
    assert DecimalValue("1") == 1;
    assert DecimalValue("18") == 18;
    assert DecimalValue("181") == 181;
    assert DecimalValue("1818") == 1818;
  }
}
