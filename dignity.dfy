/**
 * `getDignity` of services/astronomyService.ts: a switch on the planet whose
 * cases test signs in the order Domicilio, Exaltación, Detrimento, Caída and
 * return the first that matches.
 */
module Dignity {
  import opened Wrappers
  import opened Types

  function GetDignity(planetId: PlanetId, signId: SignId): Option<Dignity>
  {
    match planetId
    case Sun =>
      if signId == 4 then Some(Domicile)
      else if signId == 0 then Some(Exaltation)
      else if signId == 10 then Some(Detriment)
      else if signId == 6 then Some(Fall)
      else None
    case Moon =>
      if signId == 3 then Some(Domicile)
      else if signId == 1 then Some(Exaltation)
      else if signId == 9 then Some(Detriment)
      else if signId == 7 then Some(Fall)
      else None
    case Mercury =>
      if signId == 2 || signId == 5 then Some(Domicile)
      else if signId == 5 then Some(Exaltation)
      else if signId == 8 || signId == 11 then Some(Detriment)
      else if signId == 11 then Some(Fall)
      else None
    case Venus =>
      if signId == 1 || signId == 6 then Some(Domicile)
      else if signId == 11 then Some(Exaltation)
      else if signId == 7 || signId == 0 then Some(Detriment)
      else if signId == 5 then Some(Fall)
      else None
    case Mars =>
      if signId == 0 || signId == 7 then Some(Domicile)
      else if signId == 9 then Some(Exaltation)
      else if signId == 6 || signId == 1 then Some(Detriment)
      else if signId == 3 then Some(Fall)
      else None
    case Jupiter =>
      if signId == 8 || signId == 11 then Some(Domicile)
      else if signId == 3 then Some(Exaltation)
      else if signId == 2 || signId == 5 then Some(Detriment)
      else if signId == 9 then Some(Fall)
      else None
    case Saturn =>
      if signId == 9 || signId == 10 then Some(Domicile)
      else if signId == 6 then Some(Exaltation)
      else if signId == 3 || signId == 4 then Some(Detriment)
      else if signId == 0 then Some(Fall)
      else None
    case Uranus =>
      if signId == 10 then Some(Domicile)
      else if signId == 7 then Some(Exaltation)
      else if signId == 4 then Some(Detriment)
      else if signId == 1 then Some(Fall)
      else None
    case Neptune =>
      if signId == 11 then Some(Domicile)
      else if signId == 5 then Some(Detriment)
      else None
    case Pluto =>
      if signId == 7 then Some(Domicile)
      else if signId == 1 then Some(Detriment)
      else None
    case NorthNode =>
      if signId == 2 then Some(Exaltation)
      else if signId == 8 then Some(Fall)
      else None
    case SouthNode =>
      if signId == 8 then Some(Exaltation)
      else if signId == 2 then Some(Fall)
      else None
    case _ => None
  }

  /**
   * The table follows the traditional scheme: a body is in detriment in the sign
   * opposite each of its domiciles, and in fall in the sign opposite its exaltation.
   */
  lemma DignityOpposition(planetId: PlanetId, signId: SignId)
    ensures GetDignity(planetId, signId) == Some(Domicile) <==> GetDignity(planetId, (signId + 6) % 12) == Some(Detriment)
    ensures GetDignity(planetId, signId) == Some(Exaltation) <==> GetDignity(planetId, (signId + 6) % 12) == Some(Fall)
  {
  }

  /**
   * First match wins: Mercury in Virgo is in its domicile, never reported exalted, and
   * Mercury in Pisces is in detriment, never reported in fall; Mercury is never
   * reported exalted or fallen at all.
   */
  lemma MercuryFirstMatch(signId: SignId)
    ensures GetDignity(Mercury, 5) == Some(Domicile)
    ensures GetDignity(Mercury, 11) == Some(Detriment)
    ensures GetDignity(Mercury, signId) != Some(Exaltation) && GetDignity(Mercury, signId) != Some(Fall)
  {
  }

  /** Chiron, the ascendant and the midheaven have no listed dignity in any sign. */
  lemma UnlistedBodies(signId: SignId)
    ensures GetDignity(Chiron, signId) == None
    ensures GetDignity(Ascendant, signId) == None
    ensures GetDignity(Midheaven, signId) == None
  {
  }

  /** Neptune and Pluto have no listed exaltation or fall; the nodes have no domicile or detriment. */
  lemma PartialTables(signId: SignId)
    ensures GetDignity(Neptune, signId) != Some(Exaltation) && GetDignity(Neptune, signId) != Some(Fall)
    ensures GetDignity(Pluto, signId) != Some(Exaltation) && GetDignity(Pluto, signId) != Some(Fall)
    ensures GetDignity(NorthNode, signId) != Some(Domicile) && GetDignity(NorthNode, signId) != Some(Detriment)
    ensures GetDignity(SouthNode, signId) != Some(Domicile) && GetDignity(SouthNode, signId) != Some(Detriment)
  {
  }
}
