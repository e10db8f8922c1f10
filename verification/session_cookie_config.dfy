/** The policy for the cookie that carries the session ID on the client side:
    its name, the `Domain`, `Path`, `Secure` and `HttpOnly` attributes of
    sections 4.1.2.3 to 4.1.2.6 of RFC 6265, the `SameSite` attribute, and
    whether the cookie is persistent (it carries the `Max-Age` attribute of
    section 4.1.2.2) or lives for one browser session.

    Every field has a default. The defaults are reached in two ways: by
    building the configuration from scratch (`DefaultConfig`), and by
    decoding a configuration document in which some fields are missing
    (`FromPartial`). Both ways use the same default helpers. */
module SessionConfig {
  import opened Wrappers
  import Cookie

  // ---------------------------------------------------------------------------
  // Data model
  // ---------------------------------------------------------------------------

  /** The kind of cookie used to store the session ID. */
  datatype SessionCookieKind =
    | /** Stored on the client with an expiry set through `Max-Age`. */
      Persistent
    | /** Dropped when the browser session ends. */
      Session

  /** The session cookie policy. */
  datatype SessionCookieConfig = SessionCookieConfig(
    name: string,
    domain: Option<string>,
    path: Option<string>,
    secure: bool,
    httpOnly: bool,
    sameSite: Option<Cookie.SameSite>,
    kind: SessionCookieKind
  )

  /** The fields of the configuration, as a configuration document names them. */
  datatype FieldName = Name | Domain | Path | Secure | HttpOnly | SameSite | Kind

  /** The key under which a field appears in a configuration document: the
      field names are written in snake_case. */
  function FieldKey(f: FieldName): string {
    match f
    case Name => "name"
    case Domain => "domain"
    case Path => "path"
    case Secure => "secure"
    case HttpOnly => "http_only"
    case SameSite => "same_site"
    case Kind => "kind"
  }

  /** The fields whose type is not optional: an explicit `null` for one of
      them cannot be decoded. */
  predicate Required(f: FieldName) {
    f in {Name, Secure, HttpOnly, Kind}
  }

  // ---------------------------------------------------------------------------
  // Defaults
  // ---------------------------------------------------------------------------

  /** A generic name that does not reveal the framework behind the session
      (the OWASP session-management advice on session ID name fingerprinting). */
  function DefaultName(): string {
    "id"
  }

  function DefaultSecure(): bool {
    true
  }

  function DefaultHttpOnly(): bool {
    true
  }

  function DefaultPath(): Option<string> {
    Some("/")
  }

  function DefaultSameSite(): Option<Cookie.SameSite> {
    Some(Cookie.Lax)
  }

  /** The variant marked as the enum's default: the persistent cookie, whose
      written name is `persistent`. */
  function DefaultKind(): (k: SessionCookieKind)
    ensures k == Persistent && KindName(k) == "persistent"
  {
    Persistent
  }

  /** The configuration built by the `Default` implementation: a restrictive
      baseline in which the cookie is sent only over secure connections, is
      hidden from scripts, is withheld from cross-site subrequests, is scoped
      to the whole site but to no wider domain, and persists. */
  function DefaultConfig(): (c: SessionCookieConfig)
    ensures c.name == "id"
    ensures c.domain == None
    ensures c.path == Some("/")
    ensures c.secure && c.httpOnly
    ensures c.sameSite == Some(Cookie.Lax)
    ensures c.kind == Persistent
  {
    SessionCookieConfig(
      name := DefaultName(),
      domain := None,
      path := DefaultPath(),
      secure := DefaultSecure(),
      httpOnly := DefaultHttpOnly(),
      sameSite := DefaultSameSite(),
      kind := DefaultKind()
    )
  }

  // ---------------------------------------------------------------------------
  // Wire names of the cookie kind
  // ---------------------------------------------------------------------------

  /** The name a kind is written as in a configuration document: the variant
      name in snake_case, one distinct lower-case word per variant. */
  function KindName(k: SessionCookieKind): (s: string)
    ensures |s| > 0 && forall i :: 0 <= i < |s| ==> 'a' <= s[i] <= 'z'
    ensures s == "persistent" || s == "session"
    ensures s == "persistent" <==> k.Persistent?
  {
    match k
    case Persistent => "persistent"
    case Session => "session"
  }

  /** Reads a kind back from its name; any other text names no kind. */
  function ParseKind(s: string): (r: Option<SessionCookieKind>)
    ensures r.Some? ==> KindName(r.value) == s
    ensures r.Some? <==> exists k :: KindName(k) == s
  {
    if s == "persistent" then Some(Persistent)
    else if s == "session" then Some(Session)
    else None
  }

  /** Writing a kind and reading it back returns the same kind, and the two
      kinds have different names. */
  lemma KindRoundTrip(k: SessionCookieKind, k': SessionCookieKind)
    ensures ParseKind(KindName(k)) == Some(k)
    ensures KindName(k) == KindName(k') ==> k == k'
  {
  }

  // ---------------------------------------------------------------------------
  // Decoding a configuration document
  // ---------------------------------------------------------------------------

  /** What a configuration document says about one field: nothing, an
      explicit `null`, or a value. */
  datatype Input<+T> = Absent | Null | Value(v: T)

  /** A configuration document, one entry per field. Keys that name no field
      are ignored by the decoder and so do not appear here. The kind is kept
      in its written form, since not every text names a kind. */
  datatype PartialConfig = PartialConfig(
    name: Input<string>,
    domain: Input<string>,
    path: Input<string>,
    secure: Input<bool>,
    httpOnly: Input<bool>,
    sameSite: Input<Cookie.SameSite>,
    kind: Input<string>
  )

  /** Why a document does not decode into a configuration. */
  datatype DecodeError =
    | /** A field whose type is not optional was given as `null`. */
      NullForRequired(field: FieldName)
    | /** The kind was given as a text that names no kind. */
      UnknownKind(text: string)

  /** The document that mentions no field at all. */
  function AllAbsent(): PartialConfig {
    PartialConfig(Absent, Absent, Absent, Absent, Absent, Absent, Absent)
  }

  /** Whether the document gives field `f` as `null`. */
  predicate IsNull(p: PartialConfig, f: FieldName) {
    match f
    case Name => p.name.Null?
    case Domain => p.domain.Null?
    case Path => p.path.Null?
    case Secure => p.secure.Null?
    case HttpOnly => p.httpOnly.Null?
    case SameSite => p.sameSite.Null?
    case Kind => p.kind.Null?
  }

  /** Whether the document decodes: no required field is `null`, and a kind,
      when given, names one. */
  predicate Decodable(p: PartialConfig) {
    && !p.name.Null? && !p.secure.Null? && !p.httpOnly.Null? && !p.kind.Null?
    && (p.kind.Value? ==> ParseKind(p.kind.v).Some?)
  }

  /** `got` is what a non-optional field decodes to from input `i`. */
  predicate TakesRequired<T(==)>(i: Input<T>, got: T, default: T) {
    (i.Absent? ==> got == default) && (i.Value? ==> got == i.v)
  }

  /** `got` is what an optional field decodes to from input `i`. */
  predicate TakesOptional<T(==)>(i: Input<T>, got: Option<T>, default: Option<T>) {
    && (i.Absent? ==> got == default)
    && (i.Null? ==> got == None)
    && (i.Value? ==> got == Some(i.v))
  }

  /** Decodes a non-optional field: a missing one takes its default, a `null`
      one is an error. */
  function DecodeRequired<T>(f: FieldName, i: Input<T>, default: T): Result<T, DecodeError> {
    match i
    case Absent => Success(default)
    case Null => Failure(NullForRequired(f))
    case Value(v) => Success(v)
  }

  /** Decodes an optional field: a missing one takes its default, a `null`
      one is `None`. */
  function DecodeOptional<T>(i: Input<T>, default: Option<T>): Option<T> {
    match i
    case Absent => default
    case Null => None
    case Value(v) => Some(v)
  }

  /** Decodes the kind from its written name. */
  function DecodeKind(i: Input<string>): Result<SessionCookieKind, DecodeError> {
    match i
    case Absent => Success(DefaultKind())
    case Null => Failure(NullForRequired(Kind))
    case Value(s) =>
      match ParseKind(s)
      case Some(k) => Success(k)
      case None => Failure(UnknownKind(s))
  }

  /** Decodes a configuration document. Each field the document gives is kept
      as given; each field it leaves out takes the same default as
      `DefaultConfig`. When several fields are invalid, which one is
      reported depends on their order in the document; this model reports
      the first in declaration order. */
  function FromPartial(p: PartialConfig): (r: Result<SessionCookieConfig, DecodeError>)
    ensures r.Success? <==> Decodable(p)
    ensures r.Success? ==>
      && TakesRequired(p.name, r.value.name, "id")
      && TakesOptional(p.domain, r.value.domain, None)
      && TakesOptional(p.path, r.value.path, Some("/"))
      && TakesRequired(p.secure, r.value.secure, true)
      && TakesRequired(p.httpOnly, r.value.httpOnly, true)
      && TakesOptional(p.sameSite, r.value.sameSite, Some(Cookie.Lax))
      && (p.kind.Absent? ==> r.value.kind == Persistent)
      && (p.kind.Value? ==> KindName(r.value.kind) == p.kind.v)
    ensures r.Failure? ==>
      match r.error
      case NullForRequired(f) => Required(f) && IsNull(p, f)
      case UnknownKind(s) => p.kind == Value(s) && ParseKind(s).None?
  {
    var name :- DecodeRequired(Name, p.name, DefaultName());
    var secure :- DecodeRequired(Secure, p.secure, DefaultSecure());
    var httpOnly :- DecodeRequired(HttpOnly, p.httpOnly, DefaultHttpOnly());
    var kind :- DecodeKind(p.kind);
    Success(SessionCookieConfig(
      name := name,
      domain := DecodeOptional(p.domain, None),
      path := DecodeOptional(p.path, DefaultPath()),
      secure := secure,
      httpOnly := httpOnly,
      sameSite := DecodeOptional(p.sameSite, DefaultSameSite()),
      kind := kind
    ))
  }

  /** Encodes a configuration as a document: every field is written, and an
      unset optional field is written as `null`. Decoding the document gives
      back the configuration. */
  function ToPartial(c: SessionCookieConfig): (p: PartialConfig)
    ensures !p.name.Absent? && !p.domain.Absent? && !p.path.Absent?
    ensures !p.secure.Absent? && !p.httpOnly.Absent? && !p.sameSite.Absent? && !p.kind.Absent?
    ensures forall f :: !IsNull(p, f) || f in {Domain, Path, SameSite}
    ensures p.domain.Null? <==> c.domain.None?
    ensures p.path.Null? <==> c.path.None?
    ensures p.sameSite.Null? <==> c.sameSite.None?
    ensures FromPartial(p) == Success(c)
  {
    PartialConfig(
      name := Value(c.name),
      domain := if c.domain.Some? then Value(c.domain.value) else Null,
      path := if c.path.Some? then Value(c.path.value) else Null,
      secure := Value(c.secure),
      httpOnly := Value(c.httpOnly),
      sameSite := if c.sameSite.Some? then Value(c.sameSite.value) else Null,
      kind := Value(KindName(c.kind))
    )
  }

  /** The document with every missing field written out as its default
      value (the optional `domain`, whose default is unset, as `null`). */
  function WithDefaultsWritten(p: PartialConfig): (q: PartialConfig)
    ensures forall f :: IsNull(q, f) ==> IsNull(p, f) || f == Domain
  {
    PartialConfig(
      name := if p.name.Absent? then Value("id") else p.name,
      domain := if p.domain.Absent? then Null else p.domain,
      path := if p.path.Absent? then Value("/") else p.path,
      secure := if p.secure.Absent? then Value(true) else p.secure,
      httpOnly := if p.httpOnly.Absent? then Value(true) else p.httpOnly,
      sameSite := if p.sameSite.Absent? then Value(Cookie.Lax) else p.sameSite,
      kind := if p.kind.Absent? then Value("persistent") else p.kind
    )
  }

  // ---------------------------------------------------------------------------
  // Properties
  // ---------------------------------------------------------------------------

  /** The two ways of reaching the defaults agree: decoding a document that
      mentions no field gives exactly the `Default` configuration. */
  lemma EmptyDocumentIsDefault()
    ensures FromPartial(AllAbsent()) == Success(DefaultConfig())
  {
  }

  /** Leaving a field out and writing its default value explicitly decode to
      the same result, for every document. */
  lemma AbsentMeansDefault(p: PartialConfig)
    ensures FromPartial(WithDefaultsWritten(p)) == FromPartial(p)
  {
  }

  /** The default configuration, written out, is the empty document with its
      defaults written. */
  lemma DefaultsWrittenOut()
    ensures WithDefaultsWritten(AllAbsent()) == ToPartial(DefaultConfig())
  {
  }

  /** Setting one field in a decodable document changes that field of the
      decoded configuration and nothing else. */
  lemma SetFieldChangesOnlyThatField(
    p: PartialConfig, name: string, domain: string, path: string,
    secure: bool, httpOnly: bool, sameSite: Cookie.SameSite, kind: SessionCookieKind)
    requires Decodable(p)
    ensures FromPartial(p.(name := Value(name))) == Success(FromPartial(p).value.(name := name))
    ensures FromPartial(p.(domain := Value(domain))) == Success(FromPartial(p).value.(domain := Some(domain)))
    ensures FromPartial(p.(domain := Null)) == Success(FromPartial(p).value.(domain := None))
    ensures FromPartial(p.(path := Value(path))) == Success(FromPartial(p).value.(path := Some(path)))
    ensures FromPartial(p.(path := Null)) == Success(FromPartial(p).value.(path := None))
    ensures FromPartial(p.(secure := Value(secure))) == Success(FromPartial(p).value.(secure := secure))
    ensures FromPartial(p.(httpOnly := Value(httpOnly))) == Success(FromPartial(p).value.(httpOnly := httpOnly))
    ensures FromPartial(p.(sameSite := Value(sameSite))) == Success(FromPartial(p).value.(sameSite := Some(sameSite)))
    ensures FromPartial(p.(sameSite := Null)) == Success(FromPartial(p).value.(sameSite := None))
    ensures FromPartial(p.(kind := Value(KindName(kind)))) == Success(FromPartial(p).value.(kind := kind))
  {
  }

  /** No two fields share a document key. */
  lemma FieldKeysDistinct(f: FieldName, g: FieldName)
    ensures FieldKey(f) == FieldKey(g) ==> f == g
  {
  }
}
