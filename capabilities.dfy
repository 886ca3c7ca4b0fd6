/**
 * The capability classifier: the fixed table that maps a database's declared
 * type (its metadata `DatabaseType` string) to the set of query categories
 * the reader will serve for it.
 *
 * The reader holds that set as a bitmask (`isCity | isCountry`); `Caps` and
 * `Mask` translate between the mask and a set of tags, and are inverse.
 */
module Capabilities {
  import opened Wrappers
  import opened GeoErrors

  /** One tag per query category, named after the reader's bit constants. */
  datatype Cap = IsAnonymousIP | IsASN | IsCity | IsConnectionType | IsCountry | IsDomain | IsEnterprise | IsISP

  const AllCaps: set<Cap> :=
    {IsAnonymousIP, IsASN, IsCity, IsConnectionType, IsCountry, IsDomain, IsEnterprise, IsISP}

  /** The capability set as the reader stores it: one bit per tag. */
  type DatabaseType = bv8

  function Bit(c: Cap): DatabaseType {
    match c
    case IsAnonymousIP => 1
    case IsASN => 2
    case IsCity => 4
    case IsConnectionType => 8
    case IsCountry => 16
    case IsDomain => 32
    case IsEnterprise => 64
    case IsISP => 128
  }

  /** The tags whose bit is set in `m`. */
  function Caps(m: DatabaseType): (s: set<Cap>)
    ensures forall c :: c in s <==> m & Bit(c) != 0
  {
    set c | c in AllCaps && m & Bit(c) != 0
  }

  /** The mask with exactly the bits of the tags in `s`. */
  function Mask(s: set<Cap>): DatabaseType {
    (if IsAnonymousIP in s then Bit(IsAnonymousIP) else 0) |
    (if IsASN in s then Bit(IsASN) else 0) |
    (if IsCity in s then Bit(IsCity) else 0) |
    (if IsConnectionType in s then Bit(IsConnectionType) else 0) |
    (if IsCountry in s then Bit(IsCountry) else 0) |
    (if IsDomain in s then Bit(IsDomain) else 0) |
    (if IsEnterprise in s then Bit(IsEnterprise) else 0) |
    (if IsISP in s then Bit(IsISP) else 0)
  }

  /** Reading the tags back out of a mask gives the set it was built from. */
  lemma CapsOfMask(s: set<Cap>)
    ensures Caps(Mask(s)) == s
  {
  }

  /** Every mask is the mask of its own tags: the bitmask and the set carry the same information. */
  lemma MaskOfCaps(m: DatabaseType)
    ensures Mask(Caps(m)) == m
  {
  }

  // ---------------------------------------------------------------------------
  // The classifier

  /** The declared types the reader recognises and the capability mask of each. */
  const DatabaseTypes: map<string, DatabaseType> := map[
    "GeoIP2-Anonymous-IP" := Mask({IsAnonymousIP}),
    "GeoLite2-ASN" := Mask({IsASN}),
    "GeoIP2-City" := Mask({IsCity, IsCountry}),
    "GeoIP2-Country" := Mask({IsCity, IsCountry}),
    "GeoIP2-Connection-Type" := Mask({IsConnectionType}),
    "GeoIP2-Domain" := Mask({IsDomain}),
    "GeoIP2-Enterprise" := Mask({IsEnterprise, IsCity, IsCountry}),
    "GeoIP2-ISP" := Mask({IsISP, IsASN})
  ]

  /** `getDBType`'s two results: the mask, and the error when the type is unknown. */
  datatype Classification = Classification(dbType: DatabaseType, err: Option<UnknownDatabaseTypeError>)

  /**
   * Classifies a declared database type. An unknown type yields the empty
   * mask and an UnknownDatabaseTypeError that carries the offending string.
   */
  function GetDBType(declared: string): (r: Classification)
    ensures r.err.None? <==> declared in DatabaseTypes
    ensures r.err.Some? ==> r.dbType == 0 && Caps(r.dbType) == {} && r.err.value.databaseType == declared
    ensures r.err.None? ==> Caps(r.dbType) != {}
  {
    if declared in DatabaseTypes then Classification(DatabaseTypes[declared], None)
    else Classification(0, Some(UnknownDatabaseTypeError(declared)))
  }

  // ---------------------------------------------------------------------------
  // An independent statement of the table, by identifier family

  /** The family of a vendor-prefixed identifier: what follows `GeoIP2-` or `GeoLite2-`. */
  function Family(declared: string): Option<string> {
    if |declared| >= 7 && declared[..7] == "GeoIP2-" then Some(declared[7..])
    else if |declared| >= 9 && declared[..9] == "GeoLite2-" then Some(declared[9..])
    else None
  }

  /**
   * What each family of database serves. A Country database also serves City
   * queries; Enterprise serves City and Country too; ISP serves ASN too.
   */
  function FamilyCaps(family: string): Option<set<Cap>> {
    if family == "City" || family == "Country" then Some({IsCity, IsCountry})
    else if family == "Enterprise" then Some({IsEnterprise, IsCity, IsCountry})
    else if family == "ASN" then Some({IsASN})
    else if family == "ISP" then Some({IsISP, IsASN})
    else if family == "Domain" then Some({IsDomain})
    else if family == "Connection-Type" then Some({IsConnectionType})
    else if family == "Anonymous-IP" then Some({IsAnonymousIP})
    else None
  }

  /** The capabilities a family promises, when `declared` has a known family. */
  function FamilyOf(declared: string): Option<set<Cap>> {
    var f := Family(declared);
    if f.Some? then FamilyCaps(f.value) else None
  }

  /** Every identifier the classifier knows gets exactly the capability set of its family. */
  lemma ClassifierFollowsFamilies(declared: string)
    requires declared in DatabaseTypes
    ensures FamilyOf(declared) == Some(Caps(GetDBType(declared).dbType))
  {
    if declared == "GeoLite2-ASN" || declared == "GeoIP2-Anonymous-IP" {
      TrafficRowsFollowFamilies(declared);
    } else if declared == "GeoIP2-City" || declared == "GeoIP2-Country" {
      LocationRowsFollowFamilies(declared);
    } else if declared == "GeoIP2-Connection-Type" || declared == "GeoIP2-Domain" {
      NetworkRowsFollowFamilies(declared);
    } else {
      SupersetRowsFollowFamilies(declared);
    }
  }

  lemma TrafficRowsFollowFamilies(declared: string)
    requires declared == "GeoLite2-ASN" || declared == "GeoIP2-Anonymous-IP"
    ensures FamilyOf(declared) == Some(Caps(GetDBType(declared).dbType))
  {
    if declared == "GeoLite2-ASN" {
      assert declared[..7][3] == 'L' && "GeoIP2-"[3] == 'I';
      FamilyIs(declared, 9, "ASN", {IsASN});
    } else {
      FamilyIs(declared, 7, "Anonymous-IP", {IsAnonymousIP});
    }
  }

  lemma LocationRowsFollowFamilies(declared: string)
    requires declared == "GeoIP2-City" || declared == "GeoIP2-Country"
    ensures FamilyOf(declared) == Some(Caps(GetDBType(declared).dbType))
  {
    if declared == "GeoIP2-City" {
      FamilyIs(declared, 7, "City", {IsCity, IsCountry});
    } else {
      FamilyIs(declared, 7, "Country", {IsCity, IsCountry});
    }
  }

  lemma NetworkRowsFollowFamilies(declared: string)
    requires declared == "GeoIP2-Connection-Type" || declared == "GeoIP2-Domain"
    ensures FamilyOf(declared) == Some(Caps(GetDBType(declared).dbType))
  {
    if declared == "GeoIP2-Connection-Type" {
      FamilyIs(declared, 7, "Connection-Type", {IsConnectionType});
    } else {
      FamilyIs(declared, 7, "Domain", {IsDomain});
    }
  }

  lemma SupersetRowsFollowFamilies(declared: string)
    requires declared == "GeoIP2-Enterprise" || declared == "GeoIP2-ISP"
    ensures FamilyOf(declared) == Some(Caps(GetDBType(declared).dbType))
  {
    if declared == "GeoIP2-Enterprise" {
      FamilyIs(declared, 7, "Enterprise", {IsEnterprise, IsCity, IsCountry});
    } else {
      FamilyIs(declared, 7, "ISP", {IsISP, IsASN});
    }
  }

  /** One row of the table agrees with its family. */
  lemma FamilyIs(declared: string, prefix: nat, family: string, caps: set<Cap>)
    requires declared in DatabaseTypes && DatabaseTypes[declared] == Mask(caps)
    requires prefix <= |declared| && declared[prefix..] == family && FamilyCaps(family) == Some(caps)
    requires Family(declared) == Some(declared[prefix..])
    ensures FamilyOf(declared) == Some(Caps(GetDBType(declared).dbType))
  {
    CapsOfMask(caps);
  }

  /**
   * The superset relations between categories hold for every classification:
   * City and Country always come together, Enterprise implies City, ISP implies ASN.
   */
  lemma CapabilityHierarchy(declared: string)
    ensures var caps := Caps(GetDBType(declared).dbType);
      && (IsCity in caps <==> IsCountry in caps)
      && (IsEnterprise in caps ==> IsCity in caps)
      && (IsISP in caps ==> IsASN in caps)
  {
  }

  /** The classifications the test suite lists, one per row, and the unknown type. */
  lemma GetDBTypeTable()
    ensures GetDBType("GeoIP2-Anonymous-IP") == Classification(Mask({IsAnonymousIP}), None)
    ensures GetDBType("GeoLite2-ASN") == Classification(Mask({IsASN}), None)
    ensures GetDBType("GeoIP2-City") == Classification(Mask({IsCity, IsCountry}), None)
    ensures GetDBType("GeoIP2-Country") == Classification(Mask({IsCity, IsCountry}), None)
    ensures GetDBType("GeoIP2-Connection-Type") == Classification(Mask({IsConnectionType}), None)
    ensures GetDBType("GeoIP2-Domain") == Classification(Mask({IsDomain}), None)
    ensures GetDBType("GeoIP2-Enterprise") == Classification(Mask({IsEnterprise, IsCity, IsCountry}), None)
    ensures GetDBType("GeoIP2-ISP") == Classification(Mask({IsISP, IsASN}), None)
    ensures GetDBType("Alien-Database") == Classification(0, Some(UnknownDatabaseTypeError("Alien-Database")))
  {
  }
}
