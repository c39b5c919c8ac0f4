/** Reading Traefik labels: the parser the agent runs over a worker container. */
module LabelParser {
  import opened Strings
  import opened Model

  const SERVICES := "traefik.http.services."
  const ROUTERS := "traefik.http.routers."
  const MIDDLEWARES := "traefik.http.middlewares."

  function Get(labels: Labels, key: string): Option<string>
  {
    if key in labels then Some(labels[key]) else None
  }

  /** Two label sets that look the same to whoever only reads keys below `prefix`. */
  ghost predicate AgreeBelow(l: Labels, l': Labels, prefix: string)
  {
    forall k :: prefix <= k ==> Get(l, k) == Get(l', k)
  }

  // ---------------------------------------------------------------- names

  function NameIn(key: string, prefix: string): string
  {
    if prefix <= key then UpToDot(key[|prefix|..]) else ""
  }

  function CollectNames(labels: Labels, prefix: string): (r: set<string>)
    ensures forall n :: n in r ==> n != "" && '.' !in n
  {
    set k | k in labels && NameIn(k, prefix) != "" :: NameIn(k, prefix)
  }

  /** The loop of collectNames: the labels come in any order, the names come out sorted. */
  method CollectNamesLoop(labels: Labels, prefix: string) returns (names: seq<string>)
    ensures names == Sorted(CollectNames(labels, prefix))
  {
    var seen, todo := {}, labels.Keys;
    while todo != {}
      invariant todo <= labels.Keys
      invariant seen == set k | k in labels && k !in todo && NameIn(k, prefix) != "" :: NameIn(k, prefix)
      decreases todo
    {
      var k :| k in todo;
      todo := todo - {k};
      if prefix <= k {
        var name := UpToDot(k[|prefix|..]);
        if name != "" {
          seen := seen + {name};
        }
      }
    }
    assert seen == CollectNames(labels, prefix);
    names := Sorted(seen);
  }

  // ---------------------------------------------------------------- services and routers

  function OptTrim(o: Option<string>): string
  {
    if o.Some? then Trim(o.value) else ""
  }

  function OptCsv(o: Option<string>): (r: seq<string>)
    ensures CleanList(r)
  {
    if o.Some? then Csv(o.value) else []
  }

  function OptBool(o: Option<string>, default: bool): Option<bool>
  {
    if o.Some? then Some(ParseBool(o.value, default)) else None
  }

  function OptInt(o: Option<string>): Option<int>
  {
    if o.Some? then Atoi(Trim(o.value)) else None
  }

  function ParseService(labels: Labels, name: string): ServiceSpec
  {
    var p := SERVICES + name + ".";
    var port := OptInt(Get(labels, p + "loadbalancer.server.port"));
    ServiceSpec(name, if port.Some? && port.value > 0 then port.value else 0, "", "",
                OptBool(Get(labels, p + "loadbalancer.passhostheader"), true),
                OptBool(Get(labels, p + "loadbalancer.sticky"), false))
  }

  function ParseServices(labels: Labels): map<string, ServiceSpec>
  {
    map n | n in CollectNames(labels, SERVICES) :: ParseService(labels, n)
  }

  function ParseTls(flag: Option<string>, resolver: Option<string>): Option<TlsSpec>
  {
    if resolver.Some? then Some(TlsSpec(Trim(resolver.value)))
    else if flag.Some? && ParseBool(flag.value, false) then Some(TlsSpec(""))
    else None
  }

  /** A router whose labels are below `p`. */
  function RouterAt(labels: Labels, p: string, name: string): RouterSpec
  {
    RouterSpec(name,
               OptTrim(Get(labels, p + "rule")),
               OptCsv(Get(labels, p + "entrypoints")),
               ParseTls(Get(labels, p + "tls"), Get(labels, p + "tls.certresolver")),
               OptCsv(Get(labels, p + "middlewares")),
               OptTrim(Get(labels, p + "service")),
               OptInt(Get(labels, p + "priority")))
  }

  function ParseRouter(labels: Labels, name: string): RouterSpec
  {
    RouterAt(labels, ROUTERS + name + ".", name)
  }

  function ParseRouters(labels: Labels): map<string, RouterSpec>
  {
    map n | n in CollectNames(labels, ROUTERS) :: ParseRouter(labels, n)
  }

  // ---------------------------------------------------------------- middlewares

  /** The label suffix that sets a field. */
  function FieldKey(f: Field): string
  {
    match f
    case RedirectScheme => "redirectscheme.scheme"
    case RedirectPermanent => "redirectscheme.permanent"
    case BasicAuthUsers => "basicauth.users"
    case StripPrefixes => "stripprefix.prefixes"
    case _ => "headers." + HeaderKey(f)
  }

  function HeaderKey(f: Field): string
  {
    match f
    case CustomRequest(h) => "customrequestheaders." + h
    case CustomResponse(h) => "customresponseheaders." + h
    case SslRedirect => "sslredirect"
    case StsSeconds => "stsseconds"
    case StsIncludeSubdomains => "stsincludeddomains"
    case StsPreload => "stspreload"
    case ForceStsHeader => "forcestsheader"
    case BrowserXssFilter => "browserxssfilter"
    case ContentTypeNosniff => "contenttypenosniff"
    case FrameDeny => "framedeny"
    case AllowOriginList => "accesscontrolalloworiginlist"
    case AllowMethods => "accesscontrolallowmethods"
    case AllowHeaders => "accesscontrolallowheaders"
    case ExposeHeaders => "accesscontrolexposeheaders"
    case MaxAge => "accesscontrolmaxage"
    case AddVaryHeader => "addvaryheader"
    case _ => ""
  }

  predicate InRedirect(f: Field)
  {
    f.RedirectScheme? || f.RedirectPermanent?
  }

  predicate InHeaders(f: Field)
  {
    !InRedirect(f) && !f.BasicAuthUsers? && !f.StripPrefixes?
  }

  /** The switch over a middleware label's suffix. */
  function Classify(suffix: string): Option<Field>
  {
    if suffix == "redirectscheme.scheme" then Some(RedirectScheme)
    else if suffix == "redirectscheme.permanent" then Some(RedirectPermanent)
    else if suffix == "basicauth.users" then Some(BasicAuthUsers)
    else if suffix == "stripprefix.prefixes" then Some(StripPrefixes)
    else if "headers." <= suffix then ClassifyHeader(suffix[8..])
    else None
  }

  /** The switch of parseHeadersLabel. */
  function ClassifyHeader(key: string): Option<Field>
  {
    if "customrequestheaders." <= key then Some(CustomRequest(key[21..]))
    else if "customresponseheaders." <= key then Some(CustomResponse(key[22..]))
    else if key == "sslredirect" then Some(SslRedirect)
    else if key == "stsseconds" then Some(StsSeconds)
    else if key == "stsincludeddomains" then Some(StsIncludeSubdomains)
    else if key == "stspreload" then Some(StsPreload)
    else if key == "forcestsheader" then Some(ForceStsHeader)
    else if key == "browserxssfilter" then Some(BrowserXssFilter)
    else if key == "contenttypenosniff" then Some(ContentTypeNosniff)
    else if key == "framedeny" then Some(FrameDeny)
    else if key == "accesscontrolalloworiginlist" then Some(AllowOriginList)
    else if key == "accesscontrolallowmethods" then Some(AllowMethods)
    else if key == "accesscontrolallowheaders" then Some(AllowHeaders)
    else if key == "accesscontrolexposeheaders" then Some(ExposeHeaders)
    else if key == "accesscontrolmaxage" then Some(MaxAge)
    else if key == "addvaryheader" then Some(AddVaryHeader)
    else None
  }

  lemma ClassifyHeaderKey(f: Field)
    requires InHeaders(f)
    ensures ClassifyHeader(HeaderKey(f)) == Some(f)
  {
    var k := HeaderKey(f);
    if f.CustomRequest? {
      assert k[21..] == f.header;
    } else if f.CustomResponse? {
      assert "customrequestheaders."[8] == 'q';
      assert k[22..] == f.header && k[8] == 's';
    } else {
      PlainHeaderKey(f);
    }
  }

  lemma PlainHeaderKey(f: Field)
    requires InHeaders(f) && !f.CustomRequest? && !f.CustomResponse?
    ensures !("customrequestheaders." <= HeaderKey(f)) && !("customresponseheaders." <= HeaderKey(f))
  {
    var k := HeaderKey(f);
    assert "customrequestheaders."[2] == 's' && "customresponseheaders."[2] == 's';
    assert k[0] != 'c' || k[2] == 'n';
  }

  lemma HeaderKeyOfClass(key: string)
    requires ClassifyHeader(key).Some?
    ensures InHeaders(ClassifyHeader(key).value) && HeaderKey(ClassifyHeader(key).value) == key
  {
    if "customrequestheaders." <= key {
      assert key == "customrequestheaders." + key[21..];
    } else if "customresponseheaders." <= key {
      assert key == "customresponseheaders." + key[22..];
    } else {
      NamedHeaderKey(key);
    }
  }

  lemma NamedHeaderKey(key: string)
    requires !("customrequestheaders." <= key) && !("customresponseheaders." <= key)
    requires ClassifyHeader(key).Some?
    ensures InHeaders(ClassifyHeader(key).value) && HeaderKey(ClassifyHeader(key).value) == key
  {
    var f := ClassifyHeader(key).value;
    assert !f.CustomRequest? && !f.CustomResponse?;
  }

  lemma ClassifyFieldKey(f: Field)
    ensures Classify(FieldKey(f)) == Some(f)
    ensures InHeaders(f) ==> "headers." <= FieldKey(f)
    ensures "headers." <= FieldKey(f) ==> InHeaders(f)
  {
    hide HeaderKey, ClassifyHeader;
    if InHeaders(f) {
      var k := FieldKey(f);
      assert k == "headers." + HeaderKey(f);
      assert k[8..] == HeaderKey(f);
      assert k[0] == 'h';
      ClassifyHeaderKey(f);
    } else {
      assert "headers."[0] == 'h';
    }
  }

  lemma FieldKeyOfClass(suffix: string)
    requires Classify(suffix).Some?
    ensures FieldKey(Classify(suffix).value) == suffix
  {
    hide HeaderKey, ClassifyHeader;
    if "headers." <= suffix {
      assert suffix == suffix[..8] + suffix[8..];
      if suffix != "redirectscheme.scheme" && suffix != "redirectscheme.permanent" && suffix != "basicauth.users"
        && suffix != "stripprefix.prefixes" {
        HeaderKeyOfClass(suffix[8..]);
      }
    }
  }

  /** How a field's label value is read; None leaves the field unset. */
  function ParseValue(f: Field, v: string): (r: Option<Value>)
    ensures r.Some? ==> Canonical(f, r.value)
  {
    match f
    case RedirectScheme => NonEmpty(Trim(v))
    case MaxAge => NonEmpty(Trim(v))
    case CustomRequest(_) => Some(Text(v))
    case CustomResponse(_) => Some(Text(v))
    case StsSeconds => (var n := Atoi(Trim(v)); if n.Some? then Some(Number(n.value)) else None)
    case _ => if IsListField(f) then NonEmptyList(Csv(v)) else Some(Flag(ParseBool(v, false)))
  }

  predicate IsListField(f: Field)
  {
    || f.BasicAuthUsers? || f.StripPrefixes? || f.AllowOriginList? || f.AllowMethods?
    || f.AllowHeaders? || f.ExposeHeaders?
  }

  function NonEmpty(s: string): Option<Value>
  {
    if s == "" then None else Some(Text(s))
  }

  function NonEmptyList(xs: seq<string>): Option<Value>
  {
    if xs == [] then None else Some(List(xs))
  }

  /** The values the parser can produce for a field. */
  ghost predicate Canonical(f: Field, v: Value)
  {
    match f
    case RedirectScheme => v.Text? && v.text != "" && Trimmed(v.text)
    case MaxAge => v.Text? && v.text != "" && Trimmed(v.text)
    case CustomRequest(_) => v.Text?
    case CustomResponse(_) => v.Text?
    case StsSeconds => v.Number? && IsInt64(v.number)
    case _ => if IsListField(f) then v.List? && v.items != [] && CleanList(v.items) else v.Flag?
  }

  function FieldValue(labels: Labels, prefix: string, f: Field): Option<Value>
  {
    var v := Get(labels, prefix + FieldKey(f));
    if v.Some? then ParseValue(f, v.value) else None
  }

  function SuffixOf(k: string, prefix: string): string
  {
    if prefix <= k then k[|prefix|..] else ""
  }

  predicate IsRedirectSuffix(s: string)
  {
    s == "redirectscheme.scheme" || s == "redirectscheme.permanent"
  }

  predicate IsHeadersSuffix(s: string)
  {
    "headers." <= s
  }

  function ParseMiddleware(labels: Labels, name: string): MiddlewareSpec
  {
    var p := MIDDLEWARES + name + ".";
    var mentioned := set k | k in labels && Classify(SuffixOf(k, p)).Some? :: Classify(SuffixOf(k, p)).value;
    MiddlewareSpec(name,
                   exists k :: k in labels && IsRedirectSuffix(SuffixOf(k, p)),
                   exists k :: k in labels && IsHeadersSuffix(SuffixOf(k, p)),
                   map f | f in mentioned && FieldValue(labels, p, f).Some? :: FieldValue(labels, p, f).value)
  }

  /** A parsed middleware has exactly the fields whose own label is present and readable. */
  lemma ParsedFields(labels: Labels, name: string, f: Field)
    ensures var p, mw := MIDDLEWARES + name + ".", ParseMiddleware(labels, name);
            (if f in mw.fields then Some(mw.fields[f]) else None) == FieldValue(labels, p, f)
  {
    hide FieldKey, Classify, ParseValue, MIDDLEWARES;
    var p := MIDDLEWARES + name + ".";
    var k := p + FieldKey(f);
    if k in labels {
      assert SuffixOf(k, p) == FieldKey(f);
      ClassifyFieldKey(f);
      assert Classify(SuffixOf(k, p)).Some?;
    }
  }

  function ParseMiddlewares(labels: Labels): map<string, MiddlewareSpec>
  {
    map n | n in CollectNames(labels, MIDDLEWARES) :: ParseMiddleware(labels, n)
  }

  /** One round of the label loop of parseMiddlewares. */
  function ApplyLabel(mw: MiddlewareSpec, suffix: string, v: string): MiddlewareSpec
  {
    var f := Classify(suffix);
    var mw := mw.(hasRedirect := mw.hasRedirect || IsRedirectSuffix(suffix),
                  hasHeaders := mw.hasHeaders || IsHeadersSuffix(suffix));
    if f.None? then mw
    else
      var x := ParseValue(f.value, v);
      mw.(fields := if x.Some? then mw.fields[f.value := x.value] else mw.fields - {f.value})
  }

  /** Taking in one more label has the effect of that label alone. */
  lemma ApplyIsOneMore(labels: Labels, name: string, k: string, v: string)
    requires k !in labels && MIDDLEWARES + name + "." <= k
    ensures ParseMiddleware(labels[k := v], name) ==
            ApplyLabel(ParseMiddleware(labels, name), SuffixOf(k, MIDDLEWARES + name + "."), v)
  {
    hide FieldKey, Classify, ParseValue, MIDDLEWARES, IsRedirectSuffix, IsHeadersSuffix;
    var p := MIDDLEWARES + name + ".";
    var more := labels[k := v];
    var suffix := SuffixOf(k, p);
    assert k == p + suffix;
    var got, want := ParseMiddleware(more, name), ApplyLabel(ParseMiddleware(labels, name), suffix, v);
    assert got.hasRedirect == want.hasRedirect by {
      if IsRedirectSuffix(suffix) {
        assert k in more;
      }
      assert forall k' :: k' in labels ==> k' in more;
    }
    assert got.hasHeaders == want.hasHeaders by {
      if IsHeadersSuffix(suffix) {
        assert k in more;
      }
      assert forall k' :: k' in labels ==> k' in more;
    }
    forall f ensures (f in got.fields <==> f in want.fields) && (f in got.fields ==> got.fields[f] == want.fields[f]) {
      ParsedFields(labels, name, f);
      ParsedFields(more, name, f);
      if p + FieldKey(f) == k {
        assert SuffixOf(p + FieldKey(f), p) == FieldKey(f);
        ClassifyFieldKey(f);
      } else if Classify(suffix) == Some(f) {
        FieldKeyOfClass(suffix);
      }
    }
    assert got.fields == want.fields;
  }

  function Restrict(labels: Labels, keys: set<string>): Labels
  {
    map k | k in keys && k in labels :: labels[k]
  }

  lemma NoSuffix()
    ensures Classify("").None? && !IsRedirectSuffix("") && !IsHeadersSuffix("")
  {
  }

  /** A label that is not below the name's prefix is skipped. */
  lemma SkipIsHarmless(labels: Labels, name: string, k: string, v: string)
    requires k !in labels && !(MIDDLEWARES + name + "." <= k)
    ensures ParseMiddleware(labels[k := v], name) == ParseMiddleware(labels, name)
  {
    NoSuffix();
    hide FieldKey, Classify, ParseValue, MIDDLEWARES, IsRedirectSuffix, IsHeadersSuffix;
    var p := MIDDLEWARES + name + ".";
    var more := labels[k := v];
    assert SuffixOf(k, p) == "";
    var got, want := ParseMiddleware(more, name), ParseMiddleware(labels, name);
    assert forall k' :: k' in labels ==> k' in more && more[k'] == labels[k'];
    forall f ensures (f in got.fields <==> f in want.fields) && (f in got.fields ==> got.fields[f] == want.fields[f]) {
      ParsedFields(labels, name, f);
      ParsedFields(more, name, f);
      assert p <= p + FieldKey(f);
    }
    assert got.fields == want.fields;
  }

  lemma ParseNothing(name: string)
    ensures ParseMiddleware(map[], name) == MiddlewareSpec(name, false, false, map[])
  {
  }

  /** The label loop: whatever order the map hands out its labels, the result is the same. */
  method ParseMiddlewareLoop(labels: Labels, name: string) returns (mw: MiddlewareSpec)
    ensures mw == ParseMiddleware(labels, name)
  {
    ParseNothing(name);
    hide FieldKey, Classify, ParseValue, ParseMiddleware, ApplyLabel, MIDDLEWARES;
    var p := MIDDLEWARES + name + ".";
    var todo := labels.Keys;
    mw := MiddlewareSpec(name, false, false, map[]);
    assert Restrict(labels, {}) == map[];
    while todo != {}
      invariant todo <= labels.Keys
      invariant mw == ParseMiddleware(Restrict(labels, labels.Keys - todo), name)
      decreases todo
    {
      var k :| k in todo;
      ghost var before := Restrict(labels, labels.Keys - todo);
      todo := todo - {k};
      assert Restrict(labels, labels.Keys - todo) == before[k := labels[k]];
      if p <= k {
        ApplyIsOneMore(before, name, k, labels[k]);
        mw := ApplyLabel(mw, k[|p|..], labels[k]);
      } else {
        SkipIsHarmless(before, name, k, labels[k]);
      }
    }
    assert labels.Keys - todo == labels.Keys;
    assert Restrict(labels, labels.Keys) == labels;
  }

  method ParseMiddlewaresLoop(labels: Labels) returns (out: map<string, MiddlewareSpec>)
    ensures out == ParseMiddlewares(labels)
  {
    hide FieldKey, Classify, ParseValue, ParseMiddleware, MIDDLEWARES, Sorted, CollectNames;
    var names := CollectNamesLoop(labels, MIDDLEWARES);
    out := map[];
    for i := 0 to |names|
      invariant forall n :: n in out <==> n in names[..i]
      invariant forall n :: n in out ==> out[n] == ParseMiddleware(labels, n)
    {
      var mw := ParseMiddlewareLoop(labels, names[i]);
      out := out[names[i] := mw];
      assert names[..i + 1] == names[..i] + [names[i]];
    }
    assert names[..|names|] == names;
    assert out.Keys == ParseMiddlewares(labels).Keys;
  }
}
