/**
 * The host configuration the sheet reads (`CONFIG.PARANOIA_XP`), injected as a value,
 * and the two JavaScript conversions the sheet relies on when a lookup misses.
 */
module HostConfig {
  import opened Wrappers

  /** The clearance-keyed tables: short label keys and CSS class names. */
  datatype Config = Config(securityLevelsShort: map<string, string>, securityLevelsCss: map<string, string>)

  /** Property access on a plain object: a missing key reads as `undefined`. */
  function Lookup(m: map<string, string>, key: string): (r: Option<string>)
    ensures r.Some? ==> r.value in m.Values
  {
    if key in m then Some(m[key]) else None
  }

  /** String conversion of a possibly-undefined string, as `+` and `classList.add` apply it. */
  function JsString(v: Option<string>): (r: string)
    ensures r == "" ==> v == Some("")
  {
    match v
    case Some(s) => s
    case None => "undefined"
  }
}
