/**
 * The typed records the reader decodes into, and their `HasData` predicates.
 *
 * Each record's `HasData` is true exactly when the record differs from its
 * zero value (Go's `X{}`). A record that holds a list of subdivisions counts
 * that list only through elements that themselves have data: a list of empty
 * subdivisions is as good as no list.
 */
module Models {

  /** A `*float64` coordinate: only whether it is set matters here. */
  datatype FloatPointer = NilPointer | NonNilPointer

  /** Localized names, one field per language the database carries. */
  datatype Names = Names(
    german: string, english: string, spanish: string, french: string,
    japanese: string, brazilianPortuguese: string, russian: string, simplifiedChinese: string)
  {
    function HasData(): (b: bool)
      ensures b <==> this != ZeroNames
    {
      german != "" || english != "" || spanish != "" || french != "" ||
      japanese != "" || brazilianPortuguese != "" || russian != "" || simplifiedChinese != ""
    }
  }

  const ZeroNames := Names("", "", "", "", "", "", "", "")

  datatype Continent = Continent(names: Names, code: string, geoNameID: nat)
  {
    function HasData(): (b: bool)
      ensures b <==> this != ZeroContinent
    {
      names.HasData() || code != "" || geoNameID != 0
    }
  }

  const ZeroContinent := Continent(ZeroNames, "", 0)

  datatype Location = Location(
    latitude: FloatPointer, longitude: FloatPointer, timeZone: string, metroCode: nat, accuracyRadius: nat)
  {
    function HasData(): (b: bool)
      ensures b <==> this != ZeroLocation
    {
      latitude.NonNilPointer? || longitude.NonNilPointer? || timeZone != "" || metroCode != 0 || accuracyRadius != 0
    }

    /** Coordinates are present only when both latitude and longitude are set. */
    function HasCoordinates(): (b: bool)
      ensures b ==> this != ZeroLocation
    {
      latitude.NonNilPointer? && longitude.NonNilPointer?
    }
  }

  const ZeroLocation := Location(NilPointer, NilPointer, "", 0, 0)

  datatype RepresentedCountry = RepresentedCountry(
    names: Names, isoCode: string, countryType: string, geoNameID: nat, isInEuropeanUnion: bool)
  {
    function HasData(): (b: bool)
      ensures b <==> this != ZeroRepresentedCountry
    {
      names.HasData() || isoCode != "" || countryType != "" || geoNameID != 0 || isInEuropeanUnion
    }
  }

  const ZeroRepresentedCountry := RepresentedCountry(ZeroNames, "", "", 0, false)

  // ---------------------------------------------------------------------------
  // City and Country records

  datatype CityRecord = CityRecord(names: Names, geoNameID: nat)
  {
    function HasData(): (b: bool)
      ensures b <==> this != ZeroCityRecord
    {
      names.HasData() || geoNameID != 0
    }
  }

  const ZeroCityRecord := CityRecord(ZeroNames, 0)

  datatype CityPostal = CityPostal(code: string)
  {
    function HasData(): (b: bool)
      ensures b <==> this != ZeroCityPostal
    {
      code != ""
    }
  }

  const ZeroCityPostal := CityPostal("")

  datatype CitySubdivision = CitySubdivision(names: Names, isoCode: string, geoNameID: nat)
  {
    function HasData(): (b: bool)
      ensures b <==> this != ZeroCitySubdivision
    {
      names.HasData() || isoCode != "" || geoNameID != 0
    }
  }

  const ZeroCitySubdivision := CitySubdivision(ZeroNames, "", 0)

  datatype CountryRecord = CountryRecord(names: Names, isoCode: string, geoNameID: nat, isInEuropeanUnion: bool)
  {
    function HasData(): (b: bool)
      ensures b <==> this != ZeroCountryRecord
    {
      names.HasData() || isoCode != "" || geoNameID != 0 || isInEuropeanUnion
    }
  }

  const ZeroCountryRecord := CountryRecord(ZeroNames, "", 0, false)

  datatype CityTraits = CityTraits(isAnycast: bool)
  {
    function HasData(): (b: bool)
      ensures b <==> this != ZeroCityTraits
    {
      isAnycast
    }
  }

  const ZeroCityTraits := CityTraits(false)

  datatype CountryTraits = CountryTraits(isAnycast: bool)
  {
    function HasData(): (b: bool)
      ensures b <==> this != ZeroCountryTraits
    {
      isAnycast
    }
  }

  const ZeroCountryTraits := CountryTraits(false)

  datatype City = City(
    traits: CityTraits, postal: CityPostal, continent: Continent, city: CityRecord,
    subdivisions: seq<CitySubdivision>, representedCountry: RepresentedCountry,
    country: CountryRecord, registeredCountry: CountryRecord, location: Location)
  {
    /** Some field other than the subdivisions differs from zero, or some subdivision has data. */
    function HasData(): (b: bool)
      ensures b <==> this.(subdivisions := []) != ZeroCity || AnyHasData(subdivisions, (s: CitySubdivision) => s.HasData())
    {
      traits.HasData() || postal.HasData() || continent.HasData() || city.HasData() ||
      representedCountry.HasData() || country.HasData() || registeredCountry.HasData() ||
      location.HasData() || AnyHasData(subdivisions, (s: CitySubdivision) => s.HasData())
    }

    /** The search the reader runs over the subdivision list, stopping at the first one with data. */
    method HasSubdivisionsData() returns (found: bool)
      ensures found <==> AnyHasData(subdivisions, (s: CitySubdivision) => s.HasData())
    {
      for i := 0 to |subdivisions|
        invariant forall j :: 0 <= j < i ==> !subdivisions[j].HasData()
      {
        if subdivisions[i].HasData() {
          return true;
        }
      }
      return false;
    }
  }

  const ZeroCity := City(
    ZeroCityTraits, ZeroCityPostal, ZeroContinent, ZeroCityRecord, [], ZeroRepresentedCountry,
    ZeroCountryRecord, ZeroCountryRecord, ZeroLocation)

  /** Some element of the list has data, by the given test. */
  function AnyHasData<T>(subs: seq<T>, has: T -> bool): (b: bool)
    ensures b <==> exists i :: 0 <= i < |subs| && has(subs[i])
  {
    subs != [] && (has(subs[0]) || AnyHasData(subs[1..], has))
  }

  datatype Country = Country(
    traits: CountryTraits, continent: Continent, representedCountry: RepresentedCountry,
    country: CountryRecord, registeredCountry: CountryRecord)
  {
    function HasData(): (b: bool)
      ensures b <==> this != ZeroCountry
    {
      traits.HasData() || continent.HasData() || representedCountry.HasData() ||
      country.HasData() || registeredCountry.HasData()
    }
  }

  const ZeroCountry := Country(ZeroCountryTraits, ZeroContinent, ZeroRepresentedCountry, ZeroCountryRecord, ZeroCountryRecord)

  // ---------------------------------------------------------------------------
  // Enterprise records

  datatype EnterpriseCityRecord = EnterpriseCityRecord(names: Names, geoNameID: nat, confidence: nat)
  {
    function HasData(): (b: bool)
      ensures b <==> this != ZeroEnterpriseCityRecord
    {
      names.HasData() || geoNameID != 0 || confidence != 0
    }
  }

  const ZeroEnterpriseCityRecord := EnterpriseCityRecord(ZeroNames, 0, 0)

  datatype EnterprisePostal = EnterprisePostal(code: string, confidence: nat)
  {
    function HasData(): (b: bool)
      ensures b <==> this != ZeroEnterprisePostal
    {
      code != "" || confidence != 0
    }
  }

  const ZeroEnterprisePostal := EnterprisePostal("", 0)

  datatype EnterpriseSubdivision = EnterpriseSubdivision(names: Names, isoCode: string, geoNameID: nat, confidence: nat)
  {
    function HasData(): (b: bool)
      ensures b <==> this != ZeroEnterpriseSubdivision
    {
      names.HasData() || isoCode != "" || geoNameID != 0 || confidence != 0
    }
  }

  const ZeroEnterpriseSubdivision := EnterpriseSubdivision(ZeroNames, "", 0, 0)

  datatype EnterpriseCountryRecord = EnterpriseCountryRecord(
    names: Names, isoCode: string, geoNameID: nat, confidence: nat, isInEuropeanUnion: bool)
  {
    function HasData(): (b: bool)
      ensures b <==> this != ZeroEnterpriseCountryRecord
    {
      names.HasData() || isoCode != "" || geoNameID != 0 || confidence != 0 || isInEuropeanUnion
    }
  }

  const ZeroEnterpriseCountryRecord := EnterpriseCountryRecord(ZeroNames, "", 0, 0, false)

  datatype EnterpriseTraits = EnterpriseTraits(
    autonomousSystemOrganization: string, connectionType: string, domain: string, isp: string,
    mobileCountryCode: string, mobileNetworkCode: string, organization: string, userType: string,
    staticIPScore: real, autonomousSystemNumber: nat, isAnycast: bool, isLegitimateProxy: bool)
  {
    function HasData(): (b: bool)
      ensures b <==> this != ZeroEnterpriseTraits
    {
      autonomousSystemOrganization != "" || connectionType != "" || domain != "" || isp != "" ||
      mobileCountryCode != "" || mobileNetworkCode != "" || organization != "" || userType != "" ||
      staticIPScore != 0.0 || autonomousSystemNumber != 0 || isAnycast || isLegitimateProxy
    }
  }

  const ZeroEnterpriseTraits := EnterpriseTraits("", "", "", "", "", "", "", "", 0.0, 0, false, false)

  datatype Enterprise = Enterprise(
    continent: Continent, subdivisions: seq<EnterpriseSubdivision>, postal: EnterprisePostal,
    representedCountry: RepresentedCountry, country: EnterpriseCountryRecord,
    registeredCountry: EnterpriseCountryRecord, city: EnterpriseCityRecord, location: Location,
    traits: EnterpriseTraits)
  {
    /** Some field other than the subdivisions differs from zero, or some subdivision has data. */
    function HasData(): (b: bool)
      ensures b <==> this.(subdivisions := []) != ZeroEnterprise || AnyHasData(subdivisions, (s: EnterpriseSubdivision) => s.HasData())
    {
      continent.HasData() || postal.HasData() || representedCountry.HasData() || country.HasData() ||
      registeredCountry.HasData() || city.HasData() || location.HasData() || traits.HasData() ||
      AnyHasData(subdivisions, (s: EnterpriseSubdivision) => s.HasData())
    }

    /** The search the reader runs over the subdivision list, stopping at the first one with data. */
    method HasSubdivisionsData() returns (found: bool)
      ensures found <==> AnyHasData(subdivisions, (s: EnterpriseSubdivision) => s.HasData())
    {
      for i := 0 to |subdivisions|
        invariant forall j :: 0 <= j < i ==> !subdivisions[j].HasData()
      {
        if subdivisions[i].HasData() {
          return true;
        }
      }
      return false;
    }
  }

  const ZeroEnterprise := Enterprise(
    ZeroContinent, [], ZeroEnterprisePostal, ZeroRepresentedCountry, ZeroEnterpriseCountryRecord,
    ZeroEnterpriseCountryRecord, ZeroEnterpriseCityRecord, ZeroLocation, ZeroEnterpriseTraits)

  // ---------------------------------------------------------------------------
  // The flat trait records of the other database families

  datatype ASN = ASN(autonomousSystemOrganization: string, autonomousSystemNumber: nat)
  {
    function HasData(): (b: bool)
      ensures b <==> this != ZeroASN
    {
      autonomousSystemOrganization != "" || autonomousSystemNumber != 0
    }
  }

  const ZeroASN := ASN("", 0)

  datatype ISP = ISP(
    autonomousSystemOrganization: string, isp: string, mobileCountryCode: string,
    mobileNetworkCode: string, organization: string, autonomousSystemNumber: nat)
  {
    function HasData(): (b: bool)
      ensures b <==> this != ZeroISP
    {
      autonomousSystemOrganization != "" || isp != "" || mobileCountryCode != "" ||
      mobileNetworkCode != "" || organization != "" || autonomousSystemNumber != 0
    }
  }

  const ZeroISP := ISP("", "", "", "", "", 0)

  datatype Domain = Domain(domain: string)
  {
    function HasData(): (b: bool)
      ensures b <==> this != ZeroDomain
    {
      domain != ""
    }
  }

  const ZeroDomain := Domain("")

  datatype ConnectionType = ConnectionType(connectionType: string)
  {
    function HasData(): (b: bool)
      ensures b <==> this != ZeroConnectionType
    {
      connectionType != ""
    }
  }

  const ZeroConnectionType := ConnectionType("")

  datatype AnonymousIP = AnonymousIP(
    isAnonymous: bool, isAnonymousVPN: bool, isHostingProvider: bool,
    isPublicProxy: bool, isResidentialProxy: bool, isTorExitNode: bool)
  {
    function HasData(): (b: bool)
      ensures b <==> this != ZeroAnonymousIP
    {
      isAnonymous || isAnonymousVPN || isHostingProvider || isPublicProxy || isResidentialProxy || isTorExitNode
    }
  }

  const ZeroAnonymousIP := AnonymousIP(false, false, false, false, false, false)

  // ---------------------------------------------------------------------------
  // Properties

  /** Coordinates imply data, but a location can have data without coordinates. */
  lemma CoordinatesImplyData(l: Location)
    ensures l.HasCoordinates() ==> l.HasData()
    ensures ZeroLocation.(timeZone := "UTC").HasData() && !ZeroLocation.(timeZone := "UTC").HasCoordinates()
  {
  }

  /** Whether a location has coordinates depends on latitude and longitude alone. */
  lemma CoordinatesIgnoreOtherFields(l: Location, timeZone: string, metroCode: nat, accuracyRadius: nat)
    ensures l.(timeZone := timeZone, metroCode := metroCode, accuracyRadius := accuracyRadius).HasCoordinates()
            == l.HasCoordinates()
  {
  }

  /** The four presence combinations of latitude and longitude. */
  lemma CoordinatesTable(timeZone: string)
    ensures !Location(NilPointer, NilPointer, timeZone, 0, 0).HasCoordinates()
    ensures !Location(NonNilPointer, NilPointer, timeZone, 0, 0).HasCoordinates()
    ensures !Location(NilPointer, NonNilPointer, timeZone, 0, 0).HasCoordinates()
    ensures Location(NonNilPointer, NonNilPointer, timeZone, 0, 0).HasCoordinates()
  {
  }

  /** A City's subdivision list counts only through subdivisions that have data. */
  lemma CitySubdivisionRule(c: City, subs: seq<CitySubdivision>)
    ensures (forall i :: 0 <= i < |subs| ==> !subs[i].HasData()) ==>
              c.(subdivisions := subs).HasData() == c.(subdivisions := []).HasData()
    ensures (exists i :: 0 <= i < |subs| && subs[i].HasData()) ==> c.(subdivisions := subs).HasData()
  {
  }

  /** An Enterprise's subdivision list counts only through subdivisions that have data. */
  lemma EnterpriseSubdivisionRule(e: Enterprise, subs: seq<EnterpriseSubdivision>)
    ensures (forall i :: 0 <= i < |subs| ==> !subs[i].HasData()) ==>
              e.(subdivisions := subs).HasData() == e.(subdivisions := []).HasData()
    ensures (exists i :: 0 <= i < |subs| && subs[i].HasData()) ==> e.(subdivisions := subs).HasData()
  {
  }

  /** The zero records, and the one-field records, of the test table. */
  lemma HasDataTable()
    ensures !ZeroNames.HasData() && ZeroNames.(english := "A").HasData()
    ensures !ZeroContinent.HasData() && ZeroContinent.(code := "NA").HasData()
    ensures !ZeroLocation.HasData() && ZeroLocation.(timeZone := "UTC").HasData()
    ensures !ZeroEnterprise.HasData() && ZeroEnterprise.(city := ZeroEnterpriseCityRecord.(geoNameID := 1)).HasData()
    ensures !ZeroCity.HasData() && ZeroCity.(postal := CityPostal("123")).HasData()
    ensures !ZeroCountry.HasData() && ZeroCountry.(country := ZeroCountryRecord.(isoCode := "US")).HasData()
    ensures !ZeroASN.HasData() && ZeroASN.(autonomousSystemNumber := 123).HasData()
    ensures !ZeroISP.HasData() && ZeroISP.(isp := "Comcast").HasData()
    ensures !ZeroDomain.HasData() && Domain("google.com").HasData()
    ensures !ZeroConnectionType.HasData() && ConnectionType("Cable").HasData()
    ensures !ZeroAnonymousIP.HasData() && ZeroAnonymousIP.(isAnonymous := true).HasData()
    ensures ZeroCityRecord.(geoNameID := 1).HasData() && CityPostal("1").HasData()
    ensures ZeroCitySubdivision.(geoNameID := 1).HasData() && CityTraits(true).HasData()
    ensures ZeroCountryRecord.(geoNameID := 1).HasData() && CountryTraits(true).HasData()
    ensures ZeroRepresentedCountry.(geoNameID := 1).HasData()
    ensures ZeroEnterpriseCityRecord.(geoNameID := 1).HasData() && ZeroEnterprisePostal.(code := "1").HasData()
    ensures ZeroEnterpriseSubdivision.(geoNameID := 1).HasData()
    ensures ZeroEnterpriseCountryRecord.(geoNameID := 1).HasData()
    ensures ZeroEnterpriseTraits.(isp := "x").HasData()
  {
  }

  /** Two empty subdivisions leave a record empty; one populated subdivision fills it. */
  lemma SubdivisionTable()
    ensures !ZeroEnterprise.(subdivisions := [ZeroEnterpriseSubdivision, ZeroEnterpriseSubdivision]).HasData()
    ensures ZeroEnterprise.(subdivisions := [ZeroEnterpriseSubdivision, ZeroEnterpriseSubdivision.(geoNameID := 1)]).HasData()
    ensures !ZeroCity.(subdivisions := [ZeroCitySubdivision, ZeroCitySubdivision]).HasData()
    ensures ZeroCity.(subdivisions := [ZeroCitySubdivision.(geoNameID := 1)]).HasData()
  {
  }
}
