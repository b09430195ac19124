/**
 * The uProtocol value types the streamer handles (from the `up_rust` crate,
 * which is not part of this model): URIs, status codes and messages.
 */
module UProtocol {
  import opened Wrappers

  type U8 = x: nat | x < 0x100
  type U16 = x: nat | x < 0x1_0000
  type U32 = x: nat | x < 0x1_0000_0000

  /** A uProtocol URI. The three numeric fields are 32-bit in `UUri`. */
  datatype Uri = Uri(authorityName: string, ueId: U32, ueVersionMajor: U32, resourceId: U32)

  /** `UUri::uentity_major_version`: the low 8 bits of the version field. */
  function UEntityMajorVersion(u: Uri): (v: U8)
    ensures u.ueVersionMajor < 0x100 ==> v == u.ueVersionMajor
  {
    u.ueVersionMajor % 0x100
  }

  /** `UUri::resource_id()`: the low 16 bits of the resource field. */
  function ResourceIdU16(u: Uri): (v: U16)
    ensures u.resourceId < 0x1_0000 ==> v == u.resourceId
  {
    u.resourceId % 0x1_0000
  }

  /**
   * The acceptance test of `UUri::try_from_parts` (authority syntax and the
   * like). Its rules live in `up_rust`, so the model takes it as a parameter.
   */
  type UriValidator = Uri -> bool

  /** `UUri::try_from_parts`: the URI built from the parts, if it validates. */
  function TryFromParts(valid: UriValidator, authority: string, ueId: U32, major: U8, resource: U16): (r: Option<Uri>)
    ensures r.Some? <==> valid(Uri(authority, ueId, major, resource))
    ensures r.Some? ==> r.value.authorityName == authority && r.value.ueId == ueId
                        && UEntityMajorVersion(r.value) == major && ResourceIdU16(r.value) == resource
  {
    var u := Uri(authority, ueId, major, resource);
    if valid(u) then Some(u) else None
  }

  /**
   * `uauthority_to_uuri`: the filter that matches every entity, version and
   * resource of one authority.
   */
  function UAuthorityToUuri(authority: string): (u: Uri)
    ensures u.authorityName == authority
    ensures u.ueId == 0xFFFF_FFFF && u.ueVersionMajor == 0xFF && u.resourceId == 0xFFFF
  {
    Uri(authority, 0xFFFF_FFFF, 0xFF, 0xFFFF)
  }

  /** Distinct authorities give distinct request filters. */
  lemma UAuthorityToUuriInjective(a: string, b: string)
    ensures UAuthorityToUuri(a) == UAuthorityToUuri(b) <==> a == b
  {
  }

  /** The subset of `UCode` that the modelled code returns. */
  datatype UCode = INVALID_ARGUMENT | NOT_FOUND | ALREADY_EXISTS | UNIMPLEMENTED

  /** A failed `UStatus`; its human-readable message is not modelled. */
  datatype UStatus = UStatus(code: UCode)

  /** The values of `UPayloadFormat`. */
  datatype UPayloadFormat =
    | UPAYLOAD_FORMAT_UNSPECIFIED
    | UPAYLOAD_FORMAT_PROTOBUF_WRAPPED_IN_ANY
    | UPAYLOAD_FORMAT_PROTOBUF
    | UPAYLOAD_FORMAT_JSON
    | UPAYLOAD_FORMAT_SOMEIP
    | UPAYLOAD_FORMAT_SOMEIP_TLV
    | UPAYLOAD_FORMAT_RAW
    | UPAYLOAD_FORMAT_TEXT
    | UPAYLOAD_FORMAT_SHM

  /** A protobuf enum field: a known value or a number the enum does not name. */
  datatype PayloadFormatField = Known(format: UPayloadFormat) | Unknown(number: int)

  /** `EnumOrUnknown::enum_value_or_default`: unknown numbers read as the default value. */
  function EnumValueOrDefault(f: PayloadFormatField): (r: UPayloadFormat)
    ensures f.Unknown? ==> r == UPAYLOAD_FORMAT_UNSPECIFIED
    ensures f.Known? ==> r == f.format
  {
    match f
    case Known(v) => v
    case Unknown(_) => UPAYLOAD_FORMAT_UNSPECIFIED
  }

  /** A message: its payload-format attribute and the rest, which the streamer never inspects. */
  datatype UMessage = UMessage(payloadFormat: PayloadFormatField, attributes: seq<bv8>, payload: seq<bv8>)
}
