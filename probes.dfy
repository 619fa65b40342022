/**
 * The two network probes of an audit, reduced to the shapes of the records they return.
 * How a record is obtained (DNS, the geo-IP web service, the TLS handshake) is not modelled;
 * the report logic only ever reads these records through `dict.get`.
 */
module Probes {
  import opened Wrappers

  /** The record of the location probe: the resolved address and its geo-IP metadata, or the error text. */
  datatype GeoResult =
    | Located(ip: string, country: string, region: string, isp: string)
    | GeoError(error: string)

  /** The negotiated cipher as the TLS client reports it: (name, protocol version, secret bits). */
  datatype Cipher = Cipher(name: string, protocol: string, secretBits: int)

  /**
   * The record of the transport probe: a completed handshake, or a failure. The failure record
   * always carries the same fixed note, which the report never reads, so it is not kept here.
   * Both records carry the `ssl_valid` flag, and it is true exactly for `Secure`.
   */
  datatype SecurityResult =
    | Secure(cipher: Cipher, issuer: map<string, string>)
    | Insecure

  /** `geo.get("country")`: the country of a located server, nothing for an error record. */
  function CountryField(geo: GeoResult): (r: Option<string>)
    ensures r.Some? <==> geo.Located?
    ensures geo.Located? ==> r.value == geo.country
  {
    match geo
    case Located(_, country, _, _) => Some(country)
    case GeoError(_) => None
  }

  /** `geo.get("region")`: the region of a located server, nothing for an error record. */
  function RegionField(geo: GeoResult): (r: Option<string>)
    ensures r.Some? <==> geo.Located?
    ensures geo.Located? ==> r.value == geo.region
  {
    match geo
    case Located(_, _, region, _) => Some(region)
    case GeoError(_) => None
  }

  /** `security.get("cipher")`: the negotiated cipher, nothing when the handshake failed. */
  function CipherField(security: SecurityResult): (r: Option<Cipher>)
    ensures r.Some? <==> security.Secure?
    ensures security.Secure? ==> r.value == security.cipher
  {
    match security
    case Secure(cipher, _) => Some(cipher)
    case Insecure => None
  }
}
