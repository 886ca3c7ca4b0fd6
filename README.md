# Capability-checked GeoIP reader — Dafny model

This project models the typed reader of `internal/geoip`: a reader over a
MaxMind-style database that classifies the database's declared type into a set
of query categories, refuses a query whose category that set lacks before any
decoding happens, and returns typed records whose `HasData` predicates tell a
populated record from an empty one.

The files that define `Reader`, `getDBType`, the error types and the record
types are not part of this model. Their behaviour is taken from the assertions
of `internal/geoip/reader_test.go`, which pin it case by case. Every row below
cites those assertions.

Modules:

- `Wrappers` (`wrappers.dfy`): `Option` and `Result`.
- `GeoErrors` (`errors.dfy`): `InvalidMethodError` and `UnknownDatabaseTypeError`
  with their exact `Error()` texts. It also models Go's `%q` quoting for ASCII
  text, with an inverse. Both messages are proved to read back as the error
  that produced them.
- `Capabilities` (`capabilities.dfy`): the eight category tags and the bitmask
  the reader stores them in. `Caps` and `Mask` convert between the mask and a
  set of tags, and are proved inverse. The module holds the table of known
  declared types and `GetDBType`. A second, independent table maps each
  identifier family (`City`, `ISP`, ...) to its capabilities, and every known
  identifier is proved to follow it.
- `Models` (`models.dfy`): every record and sub-record with its `HasData`.
  Each `HasData` is proved equivalent to "differs from the zero value".
  City and Enterprise are the exception: there, a subdivision counts only when
  it has data itself. The module also holds `Location.HasCoordinates`, and
  the subdivision search loops as methods.
- `GeoReader` (`reader.dfy`): the reader as a value: a decoder handle plus the
  capability mask. One generic check-then-decode function, `Query`, backs the
  eight query methods. `NewReader` binds a decoder to its classification.
- `ReaderOptions` (`options.dfy`): the options struct as a class, and
  `ApplyOptions` as a loop. The loop is proved against a fold that skips nil
  entries.

The external decoder is an oracle: for each record type, a function from an
address to a decoded record or a decode error (`GeoReader.Decoder`).

## Model

| member | source | states |
|---|---|---|
| `GeoErrors.InvalidMethodError.Error` | internal/geoip/reader_test.go:153-155 | the message opens with `geoip2: the `, the method name and ` method does not support the `, and is 50 characters longer than the two fields; the exact text is pinned by `InvalidMethodFormatting`, and `InvalidMethodMessageRoundTrip` reads both fields back from it |
| `GeoErrors.UnknownDatabaseTypeError.Error` | internal/geoip/reader_test.go:156-157 | the message opens with `geoip2: reader does not support the "`, closes with `" database type`, and holds at least the type's characters between them; the exact text is pinned by `UnknownDatabaseTypeFormatting`, and `UnknownDatabaseTypeMessageRoundTrip` reads the type back from it |
| `GeoErrors.Quote` | internal/geoip/reader_test.go:156-157 | the `%q` form starts and ends with a double quote and is at least two characters longer than its input; `QuoteRoundTrip` proves unquoting gives the input back, and `UnknownDatabaseTypeFormatting` that `BadDB` comes out as `"BadDB"` |
| `GeoErrors.InvalidMethodFormatting` | internal/geoip/reader_test.go:153-155 | the message is exactly `geoip2: the M method does not support the DB database` for method `M` and type `DB` |
| `GeoErrors.UnknownDatabaseTypeFormatting` | internal/geoip/reader_test.go:156-157 | the message is exactly `geoip2: reader does not support the "BadDB" database type` for type `BadDB` |
| `GeoErrors.InvalidMethodMessageRoundTrip` | internal/geoip/reader_test.go:154-155 | the method name and the database type can both be read back from the message, for any method name without a space (every query method's name) |
| `GeoErrors.UnknownDatabaseTypeMessageRoundTrip` | internal/geoip/reader_test.go:156-157 | the offending type string can be read back exactly from the message |
| `GeoErrors.QuoteRoundTrip` | internal/geoip/reader_test.go:157 | the `%q` quoting of the type loses nothing: unquoting gives back the original string |
| `Capabilities.Caps` | internal/geoip/reader_test.go:98 | a tag belongs to the set exactly when its bit is set in the mask |
| `Capabilities.CapsOfMask` | internal/geoip/reader_test.go:98-103 | building the mask from a set of tags and reading the tags back gives the same set |
| `Capabilities.MaskOfCaps` | internal/geoip/reader_test.go:98-103 | every mask equals the mask of its own tags, so mask and set carry the same information |
| `Capabilities.GetDBType` | internal/geoip/reader_test.go:107-120 | classification succeeds exactly for the known types and then yields a non-empty set; an unknown type yields the empty mask and an UnknownDatabaseTypeError carrying that exact string |
| `Capabilities.ClassifierFollowsFamilies` | internal/geoip/reader_test.go:96-103 | every known identifier gets exactly the capability set of its family: City and Country serve both City and Country; Enterprise adds Enterprise; ISP serves ISP and ASN; each other family serves only itself |
| `Capabilities.CapabilityHierarchy` | internal/geoip/reader_test.go:98-103 | for every declared type, City and Country come together, Enterprise implies City, and ISP implies ASN |
| `Capabilities.GetDBTypeTable` | internal/geoip/reader_test.go:96-104 | the nine rows of the test table: eight identifiers with their masks, and `Alien-Database` rejected |
| `Models.Names.HasData` | internal/geoip/reader_test.go:22-23 | true exactly when some language field is non-empty |
| `Models.Continent.HasData` | internal/geoip/reader_test.go:24-25 | true exactly when the continent differs from the zero value |
| `Models.Location.HasData` | internal/geoip/reader_test.go:26-27 | true exactly when the location differs from the zero value (either coordinate set, a time zone, a metro code or an accuracy radius) |
| `Models.Enterprise.HasData` | internal/geoip/reader_test.go:28-29 | true exactly when a field other than the subdivisions is non-zero or some subdivision has data |
| `Models.City.HasData` | internal/geoip/reader_test.go:30-31 | true exactly when a field other than the subdivisions is non-zero or some subdivision has data |
| `Models.Country.HasData` | internal/geoip/reader_test.go:32-33 | true exactly when the record differs from the zero value |
| `Models.ASN.HasData` | internal/geoip/reader_test.go:34-35 | true exactly when the organization or the number is non-zero |
| `Models.ISP.HasData` | internal/geoip/reader_test.go:36-37 | true exactly when the record differs from the zero value |
| `Models.Domain.HasData` | internal/geoip/reader_test.go:38-39 | true exactly when the domain is non-empty |
| `Models.ConnectionType.HasData` | internal/geoip/reader_test.go:40-41 | true exactly when the connection type is non-empty |
| `Models.AnonymousIP.HasData` | internal/geoip/reader_test.go:42-43 | true exactly when some anonymizer flag is true |
| `Models.CityRecord.HasData` | internal/geoip/reader_test.go:44 | true exactly when the record differs from the zero value |
| `Models.CityPostal.HasData` | internal/geoip/reader_test.go:45 | true exactly when the postal code is non-empty |
| `Models.CitySubdivision.HasData` | internal/geoip/reader_test.go:46 | true exactly when the subdivision differs from the zero value |
| `Models.CityTraits.HasData` | internal/geoip/reader_test.go:47 | true exactly when the anycast flag is set |
| `Models.CountryRecord.HasData` | internal/geoip/reader_test.go:48 | true exactly when the record differs from the zero value |
| `Models.CountryTraits.HasData` | internal/geoip/reader_test.go:49 | true exactly when the anycast flag is set |
| `Models.RepresentedCountry.HasData` | internal/geoip/reader_test.go:50 | true exactly when the record differs from the zero value |
| `Models.EnterpriseCityRecord.HasData` | internal/geoip/reader_test.go:51 | true exactly when the record differs from the zero value |
| `Models.EnterprisePostal.HasData` | internal/geoip/reader_test.go:52 | true exactly when the record differs from the zero value |
| `Models.EnterpriseSubdivision.HasData` | internal/geoip/reader_test.go:53 | true exactly when the subdivision differs from the zero value |
| `Models.EnterpriseCountryRecord.HasData` | internal/geoip/reader_test.go:54 | true exactly when the record differs from the zero value |
| `Models.EnterpriseTraits.HasData` | internal/geoip/reader_test.go:55 | true exactly when the traits differ from the zero value |
| `Models.AnyHasData` | internal/geoip/reader_test.go:70-86 | true exactly when some element of the list passes the data test; City and Enterprise apply it to their subdivisions with each subdivision's own `HasData` |
| `Models.City.HasSubdivisionsData` | internal/geoip/reader_test.go:79-86 | the search loop reports true exactly when some subdivision has data |
| `Models.Enterprise.HasSubdivisionsData` | internal/geoip/reader_test.go:70-77 | the search loop reports true exactly when some subdivision has data |
| `Models.CitySubdivisionRule` | internal/geoip/reader_test.go:79-86 | a list of empty subdivisions leaves a City's `HasData` as it is without the list; one subdivision with data makes it true |
| `Models.EnterpriseSubdivisionRule` | internal/geoip/reader_test.go:70-77 | a list of empty subdivisions leaves an Enterprise's `HasData` as it is without the list; one subdivision with data makes it true |
| `Models.SubdivisionTable` | internal/geoip/reader_test.go:70-86 | the test's cases: two empty subdivisions give false, one populated subdivision gives true, for City and Enterprise |
| `Models.HasDataTable` | internal/geoip/reader_test.go:22-55 | every zero record has no data, and every one-field record of the test table has data |
| `Models.Location.HasCoordinates` | internal/geoip/reader_test.go:64-68 | a location with coordinates is never the zero location; `CoordinatesTable` gives its value on each presence combination and `CoordinatesIgnoreOtherFields` shows it depends on latitude and longitude alone |
| `Models.CoordinatesTable` | internal/geoip/reader_test.go:64-68 | over the four presence combinations, coordinates exist only when latitude and longitude are both set, whatever the time zone |
| `Models.CoordinatesIgnoreOtherFields` | internal/geoip/reader_test.go:64-68 | `HasCoordinates` does not depend on time zone, metro code or accuracy radius |
| `Models.CoordinatesImplyData` | internal/geoip/reader_test.go:64-68 | a location with coordinates has data, and a location with only a time zone has data but no coordinates |
| `GeoReader.Query` | internal/geoip/reader_test.go:143-149 | without the tag in the capability set: the InvalidMethodError naming the method and the declared type; with it: the decoder's record or the decoder's error, never an InvalidMethodError |
| `GeoReader.Enterprise` | internal/geoip/reader_test.go:133 | the Enterprise query keeps the check-then-decode contract for the Enterprise tag |
| `GeoReader.City` | internal/geoip/reader_test.go:134 | the City query keeps the check-then-decode contract for the City tag |
| `GeoReader.Country` | internal/geoip/reader_test.go:135 | the Country query keeps the check-then-decode contract for the Country tag |
| `GeoReader.AnonymousIP` | internal/geoip/reader_test.go:136 | the AnonymousIP query keeps the check-then-decode contract for the AnonymousIP tag |
| `GeoReader.ASN` | internal/geoip/reader_test.go:137 | the ASN query keeps the check-then-decode contract for the ASN tag |
| `GeoReader.ConnectionType` | internal/geoip/reader_test.go:138 | the ConnectionType query keeps the check-then-decode contract for the ConnectionType tag |
| `GeoReader.Domain` | internal/geoip/reader_test.go:139 | the Domain query keeps the check-then-decode contract for the Domain tag |
| `GeoReader.ISP` | internal/geoip/reader_test.go:140 | the ISP query keeps the check-then-decode contract for the ISP tag |
| `GeoReader.MethodRestrictions` | internal/geoip/reader_test.go:124-151 | the test's eight refused calls each fail with InvalidMethodError, whatever the decoder holds |
| `GeoReader.FailFast` | internal/geoip/reader_test.go:143-149 | a refused query gives the same result for any decoder and any address, so no decode takes place |
| `GeoReader.DecodeErrorPassesThrough` | internal/geoip/reader_test.go:304-315 | with the capability present, a failing decode surfaces as that same decode error and not as InvalidMethodError |
| `GeoReader.NewReader` | internal/geoip/reader_test.go:280-281 | an unknown declared type fails construction with UnknownDatabaseTypeError; a known one gives a reader over the same decoder whose capabilities are those of its family |
| `GeoReader.CityDatabaseScenario` | internal/geoip/reader_test.go:177-196 | on a `GeoIP2-City` database, City and Country queries reach the decoder (neither is refused) and an ASN query fails with the invalid-method error naming `ASN` and `GeoIP2-City` |
| `GeoReader.CityAndCountryTogether` | internal/geoip/reader_test.go:98-99 | on any reader built by classification, a City query is refused exactly when a Country query is |
| `ReaderOptions.ApplyOptions` | internal/geoip/reader_test.go:160-166 | the returned decoder options are those of running every non-nil option in order on an empty struct, and exactly the non-nil entries are invoked |
| `ReaderOptions.Invoked` | internal/geoip/reader_test.go:162-165 | the invoked positions are exactly the non-nil entries, in increasing order |
| `ReaderOptions.NilOptionsIgnored` | internal/geoip/reader_test.go:163 | dropping the nil entries does not change the result |
| `ReaderOptions.ApplyOptionsExample` | internal/geoip/reader_test.go:160-166 | for one option followed by nil, the option runs once and the result is what it produces |
| `ReaderOptions.Options.Apply` | internal/geoip/reader_test.go:162 | an option updates the struct's decoder options in place, as its function says |

## Left out

- Opening a database from a path or from bytes, and closing it, are not modelled: they are file I/O and calls into the external maxminddb library. `NewReader` starts from an already opened decoder.
- The trie walk and data-section decoding belong to the external decoder. They are modelled as an oracle (`GeoReader.Lookup`). An address absent from the database is whatever the oracle returns; the model does not state it separately.
- The test-only overwrite of a reader's mask is not modelled: the reader is an immutable value. The guard lemmas hold for readers with any mask, including the single-bit masks the tests force.
- Only the eight identifiers the test table lists are in the classifier table. Other spellings the implementation may accept (lite and regional variants) are not shown, so they are not modelled.
- The bit position of each tag is a modelling choice. The file that declares the constants is not part of this model. No property depends on the positions.
- Latitude and longitude are modelled by presence only; their floating-point values are not.
- The `IPAddress` and `Network` trait fields are left out: no assertion of the test suite sets or reads them.
- Unsigned integer widths (`uint`, `uint8`, `uint16`) are modelled as `nat`. `HasData` depends only on zero versus non-zero, so nothing is lost.
- GeoErrors.QuoteRoundTrip: proved for ASCII strings only, because `%q` escapes non-printable non-ASCII runes with `\u` and `\U`, which needs Unicode printability tables; the model passes non-ASCII characters through unchanged.
- GeoErrors.UnknownDatabaseTypeMessageRoundTrip: stated for ASCII type strings, for the same reason.
- GeoErrors.InvalidMethodMessageRoundTrip: requires a method name without spaces, because the message format itself is ambiguous otherwise. All eight query method names qualify.
- The `TestReader_ForcedExecution` tests discard the error and assert nothing beyond a non-nil result, so no property models them.
- `internal/geoip/service.go` (a wrapper around the library's reader with a `sync.Pool`), the HTTP handlers, process bootstrap, benchmarks and the load script are outside the reader and not modelled.
- Concurrency is not modelled. The reader is immutable after construction, so there is nothing to coordinate.
