/** SIP method names. */
module Sip {
  import opened Prelude

  /** "INVITE", "BYE", "CANCEL" */
  const INVITE: seq<byte> := [73, 78, 86, 73, 84, 69]
  const BYE: seq<byte> := [66, 89, 69]
  const CANCEL: seq<byte> := [67, 65, 78, 67, 69, 76]
}
