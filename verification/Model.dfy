/** The records that travel between agent, receiver and disk. */
module Model {
  import opened Strings

  type Labels = map<string, string>

  /** The settings a Traefik middleware can carry. A Go struct with optional members is kept as
      a map from its members to their values; a member holding nil, "" or no elements is absent. */
  datatype Field =
    | RedirectScheme | RedirectPermanent
    | BasicAuthUsers | StripPrefixes
    | CustomRequest(header: string) | CustomResponse(header: string)
    | SslRedirect | StsSeconds | StsIncludeSubdomains | StsPreload | ForceStsHeader
    | BrowserXssFilter | ContentTypeNosniff | FrameDeny
    | AllowOriginList | AllowMethods | AllowHeaders | ExposeHeaders | MaxAge | AddVaryHeader

  datatype Value = Text(text: string) | Flag(flag: bool) | Number(number: int) | List(items: seq<string>)

  /** hasRedirect, hasHeaders: the RedirectScheme and Headers pointers are not nil. */
  datatype MiddlewareSpec = MiddlewareSpec(name: string, hasRedirect: bool, hasHeaders: bool, fields: map<Field, Value>)

  datatype TlsSpec = TlsSpec(certResolver: string)

  datatype RouterSpec = RouterSpec(
    name: string, rule: string, entryPoints: seq<string>, tls: Option<TlsSpec>,
    middlewares: seq<string>, service: string, priority: Option<int>)

  datatype ServiceSpec = ServiceSpec(
    name: string, port: int, backendUrl: string, backendSource: string,
    passHostHeader: Option<bool>, sticky: Option<bool>)

  datatype ContainerSpec = ContainerSpec(
    id: string, name: string, image: string,
    routers: map<string, RouterSpec>,
    services: map<string, ServiceSpec>,
    middlewares: map<string, MiddlewareSpec>)

  datatype Snapshot = Snapshot(
    workerId: string, advertiseAddr: string, proxyPort: int, capturedAt: int,
    version: string, hash: string, containers: seq<ContainerSpec>)
}
