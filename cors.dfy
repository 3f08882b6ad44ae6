/**
 * The `origin` callback of the CORS options in server.js: requests without an
 * Origin header (tools, curl) and requests from the shop's own sites pass;
 * every other origin is refused with an error.
 */
module Cors {
  import opened Wrappers

  /** What the callback hands to `cb`: `cb(null, true)` or `cb(new Error(..))`. */
  datatype Decision = Allow | Deny(reason: string)

  const AllowedOrigins: seq<string> := [
    "https://animekpdtshop.com",
    "https://www.animekpdtshop.com",
    "http://localhost:3000"
  ]

  const DenyReason: string := "Not allowed by CORS"

  /** `Array.prototype.includes` on strings: element-wise equality, front to back. */
  function Includes(list: seq<string>, x: string): (r: bool)
    ensures r <==> x in list
  {
    if list == [] then false
    else if list[0] == x then true
    else Includes(list[1..], x)
  }

  /**
   * The Origin header is either absent or a string; `!origin` holds for an
   * absent header and for the empty string alike.
   */
  function CheckOrigin(origin: Option<string>): (d: Decision)
    ensures d.Allow? <==> origin == None || origin == Some("") || origin.value in AllowedOrigins
    ensures d.Deny? ==> d.reason == DenyReason
  {
    if origin.None? || origin.value == "" then Allow
    else if Includes(AllowedOrigins, origin.value) then Allow
    else Deny(DenyReason)
  }

  /** Only the three listed sites pass among non-empty origins; matching is exact. */
  lemma OnlyListedSitesPass(o: string)
    requires o != ""
    ensures CheckOrigin(Some(o)).Allow? <==>
      o == "https://animekpdtshop.com" || o == "https://www.animekpdtshop.com" || o == "http://localhost:3000"
  {
  }

  /** A look-alike of an allowed origin (here with a trailing slash) is refused. */
  lemma NearMissIsRefused()
    ensures CheckOrigin(Some("http://localhost:3000/")) == Deny(DenyReason)
    ensures CheckOrigin(Some("https://animekpdtshop.com.evil.example")) == Deny(DenyReason)
  {
  }
}
