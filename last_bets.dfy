/**
 * The last bet of each chat user (`state.ts`): a map from a Twitch user id
 * or username to the bet, stamped with the time it was stored. The clock
 * `Date.now()` is the parameter `now`.
 */
module LastBets {
  import opened Common

  /** A bet as remembered: the side (1 or 2), the loser's score, the amount and when it was stored. */
  datatype LastBet = LastBet(choice: int, loserScore: real, amount: real, at: int)

  /** `lastBets.get(userKey)` on a map value. */
  function Lookup(bets: map<string, LastBet>, userKey: string): (r: Option<LastBet>)
    ensures r.Some? <==> userKey in bets
    ensures r.Some? ==> r.value == bets[userKey]
  {
    if userKey in bets then Some(bets[userKey]) else None
  }

  /** The map after `setLastBet(userKey, bet)` at time `now`. */
  function Stored(bets: map<string, LastBet>, userKey: string, bet: LastBet, now: int): map<string, LastBet>
  {
    bets[userKey := bet.(at := now)]
  }

  /** The map after `clearLastBet(userKey)`. */
  function Cleared(bets: map<string, LastBet>, userKey: string): map<string, LastBet>
  {
    bets - {userKey}
  }

  /** After a set, a get of the same key gives the bet back with `at` replaced by the time of the set. */
  lemma GetAfterSet(bets: map<string, LastBet>, userKey: string, bet: LastBet, now: int)
    ensures Lookup(Stored(bets, userKey, bet, now), userKey)
            == Some(LastBet(bet.choice, bet.loserScore, bet.amount, now))
  {
  }

  /** After a clear, a get of the same key finds nothing. */
  lemma GetAfterClear(bets: map<string, LastBet>, userKey: string)
    ensures Lookup(Cleared(bets, userKey), userKey).None?
  {
  }

  /** Setting or clearing one key leaves every other key as it was. */
  lemma OtherKeysUnchanged(bets: map<string, LastBet>, userKey: string, other: string, bet: LastBet, now: int)
    requires other != userKey
    ensures Lookup(Stored(bets, userKey, bet, now), other) == Lookup(bets, other)
    ensures Lookup(Cleared(bets, userKey), other) == Lookup(bets, other)
  {
  }

  /** A second set on the same key overwrites the first. */
  lemma SetOverwrites(bets: map<string, LastBet>, userKey: string, first: LastBet, second: LastBet, t1: int, t2: int)
    ensures Stored(Stored(bets, userKey, first, t1), userKey, second, t2) == Stored(bets, userKey, second, t2)
  {
  }

  /** The module-level `lastBets` map. */
  class LastBetStore {
    var bets: map<string, LastBet>

    constructor()
      ensures bets == map[]
    {
      bets := map[];
    }

    /** `setLastBet(userKey, bet)` */
    method SetLastBet(userKey: string, bet: LastBet, now: int)
      modifies this
      ensures bets == Stored(old(bets), userKey, bet, now)
      ensures Lookup(bets, userKey) == Some(bet.(at := now))
    {
      bets := bets[userKey := bet.(at := now)];
    }

    /** `getLastBet(userKey)` */
    method GetLastBet(userKey: string) returns (r: Option<LastBet>)
      ensures r.Some? <==> userKey in bets
      ensures r.Some? ==> r.value == bets[userKey]
    {
      if userKey in bets {
        r := Some(bets[userKey]);
      } else {
        r := None;
      }
    }

    /** `clearLastBet(userKey)` */
    method ClearLastBet(userKey: string)
      modifies this
      ensures bets == Cleared(old(bets), userKey)
      ensures userKey !in bets
    {
      bets := bets - {userKey};
    }
  }
}
