/** Goal detection (src/engine/entities/star.ts). */
module StarBehaviour {
  import opened Types
  import opened Collision

  /** The status the star asks for: CLEAR on contact, nothing otherwise (also when the
      level has no star). */
  function StarStep(star: Option<Entity>, p: PlayerRec): (r: Option<Status>)
    ensures star.None? ==> r.None?
    ensures r.Some? <==> star.Some? && Overlaps(p.Bounds(), star.value.Bounds())
    ensures r.Some? ==> r.value == CLEAR
  {
    match star
    case None => None
    case Some(s) => if Overlaps(p.Bounds(), s.Bounds()) then Some(CLEAR) else None
  }
}
