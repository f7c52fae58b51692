/** One-shot coin collection (src/engine/entities/coin.ts). */
module CoinBehaviour {
  import opened Types
  import opened Collision

  const COIN_VALUE: int := 100

  datatype CoinOutcome = CoinOutcome(coin: Entity, player: PlayerRec)

  function CoinStep(c: Entity, p: PlayerRec): (r: CoinOutcome)
    ensures c.isCollected ==> r == CoinOutcome(c, p)
    ensures !c.isCollected && Overlaps(p.Bounds(), c.Bounds()) ==>
              r.coin.isCollected && r.player.score == p.score + COIN_VALUE
    ensures !c.isCollected && !Overlaps(p.Bounds(), c.Bounds()) ==> r == CoinOutcome(c, p)
    ensures r.coin == c.(isCollected := r.coin.isCollected)
    ensures r.player == p.(score := r.player.score)
  {
    if c.isCollected then CoinOutcome(c, p)
    else if Overlaps(p.Bounds(), c.Bounds()) then
      CoinOutcome(c.(isCollected := true), p.(score := p.score + COIN_VALUE))
    else CoinOutcome(c, p)
  }

  /** A coin pays at most once: updating the collected coin again with the updated
      player changes nothing. */
  lemma CoinIdempotent(c: Entity, p: PlayerRec)
    ensures CoinStep(CoinStep(c, p).coin, CoinStep(c, p).player) == CoinStep(c, p)
    ensures CoinStep(c, p).player.score <= p.score + COIN_VALUE
  {
  }

  /** Returns the (possibly fresh) coin record and adds the coin value to the player's
      score in place. */
  method UpdateCoin(coin: Entity, player: Player) returns (result: Entity)
    modifies player
    ensures CoinStep(coin, old(player.Snapshot())) == CoinOutcome(result, player.Snapshot())
  {
    if coin.isCollected {
      return coin;
    }
    if Overlaps(player.Snapshot().Bounds(), coin.Bounds()) {
      player.score := player.score + COIN_VALUE;
      return coin.(isCollected := true);
    }
    return coin;
  }
}
