/** Go values: 32-bit integers, and string maps in which a missing key reads as the empty string. */
module GoMaps {

  type StringMap = map<string, string>

  type Int32 = n: int | -0x8000_0000 <= n < 0x8000_0000

  function Get(m: StringMap, key: string): string {
    if key in m then m[key] else ""
  }

  /** The mapped value, or the fallback when it is missing or empty. */
  function ValueOrDefault(m: StringMap, key: string, fallback: string): string {
    if Get(m, key) != "" then Get(m, key) else fallback
  }

  function OrDefault(value: string, fallback: string): string {
    if value != "" then value else fallback
  }

  /** The user's own value, or else the operator's. */
  function Overridden(user: StringMap, key: string, own: string): string {
    if key in user then user[key] else own
  }
}
