/** The stationary hazard (src/engine/entities/spike.ts). */
module SpikeBehaviour {
  import opened Types
  import opened Collision

  datatype SpikeOutcome = SpikeOutcome(spike: Entity, events: seq<Event>)

  /** The spike is returned as it is; contact with the full box is one damage call. */
  function SpikeStep(s: Entity, p: PlayerRec): (r: SpikeOutcome)
    ensures r.spike == s
    ensures r.events == [Damage(false)] <==> Overlaps(p.Bounds(), s.Bounds())
    ensures r.events == [] <==> !Overlaps(p.Bounds(), s.Bounds())
    ensures Damage(true) !in r.events
  {
    if Overlaps(p.Bounds(), s.Bounds()) then SpikeOutcome(s, [Damage(false)])
    else SpikeOutcome(s, [])
  }
}
