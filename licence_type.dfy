/** Which transmission a licence is issued for (src/application/utils/licence-type.ts). */
module LicenceType {

  import opened Wrappers

  const Manual: string := "Manual"
  const Automatic: string := "Automatic"

  /** The categories whose automatic tests without code 78 still give a manual licence. */
  const CategoriesToCheck: seq<string> := ["C", "D", "C+E", "D+E"]

  /** `xs.findIndex(cat => cat === x)`: the first index holding `x`, or -1. */
  function FindIndex(xs: seq<string>, x: string): (r: int)
    ensures -1 <= r < |xs|
    ensures r == -1 <==> x !in xs
    ensures r != -1 ==> xs[r] == x && x !in xs[..r]
  {
    if xs == [] then -1
    else if xs[0] == x then 0
    else
      var k := FindIndex(xs[1..], x);
      if k == -1 then -1
      else
        assert xs[..k + 1] == [xs[0]] + xs[1..][..k];
        k + 1
  }

  /**
   * `licenceToIssue(category, vehicleTransmission, code78Present)`; an omitted
   * `code78Present` is `None`.
   */
  function LicenceToIssue(category: string, vehicleTransmission: string, code78Present: Option<bool>): (r: string)
    ensures r == vehicleTransmission || r == Manual
    ensures code78Present.None? ==> r == vehicleTransmission
    ensures r != vehicleTransmission <==>
      category in {"C", "D", "C+E", "D+E"} && vehicleTransmission == Automatic && code78Present == Some(false)
  {
    if code78Present.None? then
      vehicleTransmission
    else if FindIndex(CategoriesToCheck, category) != -1
            && vehicleTransmission == Automatic && !code78Present.value then
      Manual
    else
      vehicleTransmission
  }

  /** Feeding the issued transmission back in changes nothing. */
  lemma LicenceToIssueIdempotent(category: string, vehicleTransmission: string, code78Present: Option<bool>)
    ensures var t := LicenceToIssue(category, vehicleTransmission, code78Present);
            LicenceToIssue(category, t, code78Present) == t
  {
  }

  /** Categories are matched by exact string equality: near misses never force Manual. */
  lemma NearMissCategories(vehicleTransmission: string, code78Present: Option<bool>)
    ensures LicenceToIssue("CE", vehicleTransmission, code78Present) == vehicleTransmission
    ensures LicenceToIssue("C1", vehicleTransmission, code78Present) == vehicleTransmission
    ensures LicenceToIssue("B", vehicleTransmission, code78Present) == vehicleTransmission
    ensures LicenceToIssue("c", vehicleTransmission, code78Present) == vehicleTransmission
  {
  }
}
