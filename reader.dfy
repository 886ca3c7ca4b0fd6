/**
 * The typed reader: a decoder handle plus the capability mask classified
 * from the database's declared type. Each of the eight query methods first
 * checks its category's bit; when the bit is clear it fails with an
 * InvalidMethodError and never consults the decoder, and when it is set it
 * returns whatever the decoder produces, a decode error passing through unchanged.
 */
module GeoReader {
  import opened Wrappers
  import opened GeoErrors
  import opened Capabilities
  import M = Models

  /** A network address as the decoder receives it (netip.Addr). */
  type Addr = seq<bv8>

  /** An error the external decoder reports (a corrupt data section, for one). */
  datatype DecodeError = DecodeError(reason: string)

  /** The external decoder's lookup-and-decode into one record type. */
  type Lookup<T> = Addr -> Result<T, DecodeError>

  /**
   * The external decoder, seen from the reader: the declared type in its
   * metadata, and one lookup per record type it can be asked to decode into.
   */
  datatype Decoder = Decoder(
    declaredType: string,
    city: Lookup<M.City>, country: Lookup<M.Country>, enterprise: Lookup<M.Enterprise>,
    asn: Lookup<M.ASN>, isp: Lookup<M.ISP>, domain: Lookup<M.Domain>,
    connectionType: Lookup<M.ConnectionType>, anonymousIP: Lookup<M.AnonymousIP>)

  datatype Reader = Reader(mmdbReader: Decoder, databaseType: DatabaseType)

  /** What a query method can fail with. */
  datatype ReaderError = InvalidMethod(invalid: InvalidMethodError) | DecodeFailure(cause: DecodeError)

  /** The query failed its capability check. */
  predicate Refused<T>(res: Result<T, ReaderError>) {
    res.Failure? && res.error.InvalidMethod?
  }

  /** The name of the query method that needs `c`. */
  function MethodName(c: Cap): string {
    match c
    case IsAnonymousIP => "AnonymousIP"
    case IsASN => "ASN"
    case IsCity => "City"
    case IsConnectionType => "ConnectionType"
    case IsCountry => "Country"
    case IsDomain => "Domain"
    case IsEnterprise => "Enterprise"
    case IsISP => "ISP"
  }

  /**
   * The contract every query method keeps: without the capability, the
   * InvalidMethodError naming the method and the declared type; with it,
   * exactly what the decoder returns.
   */
  ghost predicate Guarded<T>(r: Reader, tag: Cap, lookup: Lookup<T>, ip: Addr, res: Result<T, ReaderError>) {
    if tag !in Caps(r.databaseType) then
      res == Failure(InvalidMethod(InvalidMethodError(MethodName(tag), r.mmdbReader.declaredType)))
    else
      match lookup(ip)
      case Success(v) => res == Success(v)
      case Failure(e) => res == Failure(DecodeFailure(e))
  }

  /** Check the category's bit, then decode: the one body behind the eight query methods. */
  function Query<T>(r: Reader, tag: Cap, lookup: Lookup<T>, ip: Addr): (res: Result<T, ReaderError>)
    ensures Guarded(r, tag, lookup, ip, res)
    ensures Refused(res) <==> tag !in Caps(r.databaseType)
  {
    var caps := Caps(r.databaseType);
    assert tag in caps <==> r.databaseType & Bit(tag) != 0;
    if r.databaseType & Bit(tag) == 0 then
      Failure(InvalidMethod(InvalidMethodError(MethodName(tag), r.mmdbReader.declaredType)))
    else
      match lookup(ip)
      case Success(v) => Success(v)
      case Failure(e) => Failure(DecodeFailure(e))
  }

  function City(r: Reader, ip: Addr): (res: Result<M.City, ReaderError>)
    ensures Guarded(r, IsCity, r.mmdbReader.city, ip, res)
  {
    Query(r, IsCity, r.mmdbReader.city, ip)
  }

  function Country(r: Reader, ip: Addr): (res: Result<M.Country, ReaderError>)
    ensures Guarded(r, IsCountry, r.mmdbReader.country, ip, res)
  {
    Query(r, IsCountry, r.mmdbReader.country, ip)
  }

  function Enterprise(r: Reader, ip: Addr): (res: Result<M.Enterprise, ReaderError>)
    ensures Guarded(r, IsEnterprise, r.mmdbReader.enterprise, ip, res)
  {
    Query(r, IsEnterprise, r.mmdbReader.enterprise, ip)
  }

  function ASN(r: Reader, ip: Addr): (res: Result<M.ASN, ReaderError>)
    ensures Guarded(r, IsASN, r.mmdbReader.asn, ip, res)
  {
    Query(r, IsASN, r.mmdbReader.asn, ip)
  }

  function ISP(r: Reader, ip: Addr): (res: Result<M.ISP, ReaderError>)
    ensures Guarded(r, IsISP, r.mmdbReader.isp, ip, res)
  {
    Query(r, IsISP, r.mmdbReader.isp, ip)
  }

  function Domain(r: Reader, ip: Addr): (res: Result<M.Domain, ReaderError>)
    ensures Guarded(r, IsDomain, r.mmdbReader.domain, ip, res)
  {
    Query(r, IsDomain, r.mmdbReader.domain, ip)
  }

  function ConnectionType(r: Reader, ip: Addr): (res: Result<M.ConnectionType, ReaderError>)
    ensures Guarded(r, IsConnectionType, r.mmdbReader.connectionType, ip, res)
  {
    Query(r, IsConnectionType, r.mmdbReader.connectionType, ip)
  }

  function AnonymousIP(r: Reader, ip: Addr): (res: Result<M.AnonymousIP, ReaderError>)
    ensures Guarded(r, IsAnonymousIP, r.mmdbReader.anonymousIP, ip, res)
  {
    Query(r, IsAnonymousIP, r.mmdbReader.anonymousIP, ip)
  }

  /**
   * Binds an opened decoder to its classification. An unknown declared type
   * fails construction outright; no reader is returned for it.
   */
  function NewReader(d: Decoder): (res: Result<Reader, UnknownDatabaseTypeError>)
    ensures res.Failure? <==> d.declaredType !in DatabaseTypes
    ensures res.Failure? ==> res.error == UnknownDatabaseTypeError(d.declaredType)
    ensures res.Success? ==> res.value.mmdbReader == d && FamilyOf(d.declaredType) == Some(Caps(res.value.databaseType))
  {
    var c := GetDBType(d.declaredType);
    if c.err.Some? then Failure(c.err.value)
    else
      ClassifierFollowsFamilies(d.declaredType);
      Success(Reader(d, c.dbType))
  }

  // ---------------------------------------------------------------------------
  // Properties

  /**
   * Fail-fast: without the capability, the result does not depend on the
   * decoder at all, so no decode can have happened.
   */
  lemma FailFast<T>(r1: Reader, r2: Reader, tag: Cap, lookup1: Lookup<T>, lookup2: Lookup<T>, ip1: Addr, ip2: Addr)
    requires r1.databaseType == r2.databaseType && r1.mmdbReader.declaredType == r2.mmdbReader.declaredType
    requires tag !in Caps(r1.databaseType)
    ensures Query(r1, tag, lookup1, ip1) == Query(r2, tag, lookup2, ip2)
  {
  }

  /** With the capability, a failing decode surfaces as that decode error, never as InvalidMethodError. */
  lemma DecodeErrorPassesThrough<T>(r: Reader, tag: Cap, lookup: Lookup<T>, ip: Addr)
    requires tag in Caps(r.databaseType) && lookup(ip).Failure?
    ensures Query(r, tag, lookup, ip) == Failure(DecodeFailure(lookup(ip).error))
  {
  }

  /** The test suite's eight restricted calls: each fails with InvalidMethodError, whatever the decoder holds. */
  lemma MethodRestrictions(d: Decoder, ip: Addr)
    ensures Enterprise(Reader(d, Bit(IsCity)), ip) == Failure(InvalidMethod(InvalidMethodError("Enterprise", d.declaredType)))
    ensures City(Reader(d, Bit(IsASN)), ip) == Failure(InvalidMethod(InvalidMethodError("City", d.declaredType)))
    ensures Country(Reader(d, Bit(IsASN)), ip) == Failure(InvalidMethod(InvalidMethodError("Country", d.declaredType)))
    ensures AnonymousIP(Reader(d, Bit(IsCity)), ip) == Failure(InvalidMethod(InvalidMethodError("AnonymousIP", d.declaredType)))
    ensures ASN(Reader(d, Bit(IsCity)), ip) == Failure(InvalidMethod(InvalidMethodError("ASN", d.declaredType)))
    ensures ConnectionType(Reader(d, Bit(IsCity)), ip) == Failure(InvalidMethod(InvalidMethodError("ConnectionType", d.declaredType)))
    ensures Domain(Reader(d, Bit(IsCity)), ip) == Failure(InvalidMethod(InvalidMethodError("Domain", d.declaredType)))
    ensures ISP(Reader(d, Bit(IsCity)), ip) == Failure(InvalidMethod(InvalidMethodError("ISP", d.declaredType)))
  {
  }

  /**
   * A City database: City and Country queries reach the decoder, an ASN query
   * on the same reader is refused.
   */
  lemma CityDatabaseScenario(d: Decoder, ip: Addr)
    requires d.declaredType == "GeoIP2-City"
    ensures NewReader(d).Success?
    ensures !Refused(City(NewReader(d).value, ip)) && !Refused(Country(NewReader(d).value, ip))
    ensures ASN(NewReader(d).value, ip) == Failure(InvalidMethod(InvalidMethodError("ASN", "GeoIP2-City")))
  {
    var r := NewReader(d).value;
    assert Caps(r.databaseType) == {IsCity, IsCountry} by {
      assert r.databaseType == Mask({IsCity, IsCountry});
      CapsOfMask({IsCity, IsCountry});
    }
  }

  /**
   * On any reader the classifier built, a City query passes the capability
   * check exactly when a Country query does.
   */
  lemma CityAndCountryTogether(d: Decoder, ip: Addr)
    requires NewReader(d).Success?
    ensures Refused(City(NewReader(d).value, ip)) <==> Refused(Country(NewReader(d).value, ip))
  {
    CapabilityHierarchy(d.declaredType);
  }
}
