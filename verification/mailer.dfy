/**
 * The records of the mailer package and the plain constructors that build
 * them (mailer.go:199-246, 348-386, 428-435).
 *
 * Go pointers to records become values here; a pointer that may be nil
 * becomes an `Option`.
 */
module Mailer {

  datatype Option<+T> = None | Some(value: T)

  // Constants exported by the package.
  const CharsetIso2022Jp: string := "iso-2022-jp"
  const CharsetUsAscii: string := "us-ascii"
  const CharsetUtf8: string := "UTF-8"
  const ContentTypeTextHtml: string := "text/html"
  const ContentTypeTextPlain: string := "text/plain"
  const ContentTypeTextRichtext: string := "text/richtext"
  const ContentTypeTextXWhatever: string := "text/x-whatever"
  const MimeVersion10: string := "1.0"

  /** The four header values of one message. */
  datatype Header = Header(from: string, mimeVersion: string, subject: string, to: string)

  /** One already rendered representation of the message content. */
  datatype Body = Body(contentType: string, charset: string, data: string)

  datatype CramMd5Auth = CramMd5Auth(userName: string, secret: string)

  datatype PlainAuth = PlainAuth(userName: string, password: string, host: string)

  /**
   * Both variants are nil-able pointers in the Go code, so a configuration may
   * carry none, one or both of them.
   */
  datatype AuthConfig = AuthConfig(cramMd5: Option<CramMd5Auth>, plain: Option<PlainAuth>)

  /**
   * Stand-in for a TLS client configuration. Send only tests whether one is
   * present and hands it to the dialer unchanged.
   */
  datatype TlsConfig = TlsConfig(serverName: string)

  /** Everything one call of Send needs. */
  datatype Params = Params(
    auth: Option<AuthConfig>,
    bodies: seq<Body>,
    header: Header,
    host: string,
    port: int,
    tls: Option<TlsConfig>)

  /** Exactly one of the two authentication variants is set. */
  predicate SingleMechanism(a: AuthConfig) {
    a.cramMd5.Some? != a.plain.Some?
  }

  function GenParams(host: string, port: int, header: Header, bodies: seq<Body>,
                     auth: Option<AuthConfig>, tls: Option<TlsConfig>): (p: Params)
    ensures p.host == host && p.port == port && p.header == header
    ensures p.bodies == bodies && p.auth == auth && p.tls == tls
  {
    Params(auth, bodies, header, host, port, tls)
  }

  /** The configuration for CRAM-MD5 only; the PLAIN variant stays unset. */
  function GenCramMd5Auth(userName: string, secret: string): (a: AuthConfig)
    ensures SingleMechanism(a)
    ensures a.cramMd5 == Some(CramMd5Auth(userName, secret)) && a.plain == None
  {
    AuthConfig(Some(CramMd5Auth(userName, secret)), None)
  }

  /** The configuration for PLAIN only; the CRAM-MD5 variant stays unset. */
  function GenPlainAuth(userName: string, password: string, host: string): (a: AuthConfig)
    ensures SingleMechanism(a)
    ensures a.plain == Some(PlainAuth(userName, password, host)) && a.cramMd5 == None
  {
    AuthConfig(None, Some(PlainAuth(userName, password, host)))
  }

  /**
   * The arguments come in the order from, to, subject, MIME version, which is
   * not the order of the record's fields; each lands in its own field.
   */
  function GenHeader(from: string, to: string, subject: string, mimeVersion: string): (h: Header)
    ensures h.from == from && h.to == to && h.subject == subject && h.mimeVersion == mimeVersion
  {
    Header(from, mimeVersion, subject, to)
  }
}
