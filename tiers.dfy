/** The memory horizons the prompts, schemas and model outputs are organised by. */
module Tiers {
  /** The four memory horizons, in the order every consumer lists them. */
  datatype Tier = Short | Mid | Long | Reflection {
    /** The word the tier contributes to keys and headers (`short_memory_ids`). */
    function Name(): string {
      match this
      case Short => "short"
      case Mid => "mid"
      case Long => "long"
      case Reflection => "reflection"
    }
  }

  const AllTiers: seq<Tier> := [Short, Mid, Long, Reflection]

  /** The key under which a tier's cited ids travel, `short_memory_ids`. */
  function IdKey(t: Tier): string
  {
    t.Name() + "_memory_ids"
  }

  /** Different tiers travel under different keys. */
  lemma {:induction false} IdKeyInjective(t: Tier, u: Tier)
    ensures IdKey(t) == IdKey(u) <==> t == u
  {
    if t != u {
      assert IdKey(t)[0] != IdKey(u)[0];
    }
  }
}
