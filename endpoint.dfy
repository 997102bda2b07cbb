/** What an endpoint does with a validated answer: it removes the tiers whose cited ids
    open with the placeholder id -1 that the guardrail prompt plants for a tier without
    memories, and it answers with a failure record that holds or with a response
    record. */
module Endpoint {
  import opened Common
  import opened Tiers
  import opened Json
  import Portfolio

  /** Python truthiness of a JSON value. */
  predicate Truthy(v: Json)
  {
    match v
    case JNull => false
    case JStr(s) => s != []
    case JInt(n) => n != 0
    case JArr(items) => items != []
    case JObj(fields) => fields != []
  }

  /** A tier's answer that can be indexed the way the code indexes it: a list whose first
      item is a dictionary with a `memory_index`. */
  predicate Indexable(v: Json)
  {
    v.JArr? && v.items != [] && v.items[0].JObj? && "memory_index" in Keys(v.items[0].fields)
  }

  /** `value and value[0]["memory_index"] == -1`. A falsy value short-circuits to false;
      a truthy value that cannot be indexed that way raises. */
  function PlaceholderLed(v: Json): (r: Result<bool>)
    ensures !Truthy(v) ==> r == Ok(false)
    ensures r.Err? <==> Truthy(v) && !Indexable(v)
    ensures r == Ok(true) <==> Indexable(v) && Lookup(v.items[0].fields, "memory_index") == Some(JInt(-1))
  {
    if !Truthy(v) then Ok(false)
    else
      match v
      case JArr(items) =>
        (match items[0]
         case JObj(fields) =>
           (match Lookup(fields, "memory_index")
            case None => Err(KeyError("memory_index"))
            case Some(index) => Ok(index == JInt(-1)))
         case _ => Err(TypeError))
      case JObj(_) => Err(KeyError("0"))
      case _ => Err(TypeError)
  }

  /** What a call leaves behind: how it ended and the dictionary, which keeps the
      deletions made before an exception. */
  datatype Outcome = Outcome(status: Result<()>, entries: seq<(string, Json)>)

  /** One `if` block of `delete_placeholder_info` for tier `t`: when the tier's key is
      present and its value opens with the placeholder, the key `deleted` is removed,
      and a missing `deleted` is a `KeyError`. */
  function TierStep(d: seq<(string, Json)>, t: Tier, deleted: string): Outcome
  {
    match Lookup(d, IdKey(t))
    case None => Outcome(Ok(()), d)
    case Some(v) =>
      match PlaceholderLed(v)
      case Err(e) => Outcome(Err(e), d)
      case Ok(led) =>
        if !led then Outcome(Ok(()), d)
        else if deleted in Keys(d) then Outcome(Ok(()), Delete(d, deleted))
        else Outcome(Err(KeyError(deleted)), d)
  }

  /** The next block runs only when the previous ones raised nothing. */
  function Then(o: Outcome, t: Tier, deleted: string): Outcome
  {
    if o.status.Err? then o else TierStep(o.entries, t, deleted)
  }

  /** The four blocks in the order reflection, long, mid, short; the mid block deletes
      `midKey`. */
  function DeleteWith(d: seq<(string, Json)>, midKey: string): Outcome
  {
    Then(Then(Then(TierStep(d, Reflection, IdKey(Reflection)), Long, IdKey(Long)), Mid, midKey), Short, IdKey(Short))
  }

  /** `delete_placeholder_info` as written: the mid block deletes `middle_memory_ids`,
      a key no answer carries. */
  function DeletePlaceholdersAsWritten(d: seq<(string, Json)>): Outcome
  {
    DeleteWith(d, "middle_memory_ids")
  }

  /** `delete_placeholder_info` with the mid block deleting the mid tier's own key. */
  function DeletePlaceholders(d: seq<(string, Json)>): Outcome
  {
    DeleteWith(d, IdKey(Mid))
  }

  /** The tier's key is present and its value opens with the placeholder. */
  predicate Led(d: seq<(string, Json)>, t: Tier)
  {
    Lookup(d, IdKey(t)).Some? && PlaceholderLed(Lookup(d, IdKey(t)).value) == Ok(true)
  }

  /** The tier's key is present with a value the check cannot index. */
  predicate Malformed(d: seq<(string, Json)>, t: Tier)
  {
    Lookup(d, IdKey(t)).Some? && PlaceholderLed(Lookup(d, IdKey(t)).value).Err?
  }

  /** The exception a malformed tier raises. */
  function TierError(d: seq<(string, Json)>, t: Tier): Error
    requires Malformed(d, t)
  {
    PlaceholderLed(Lookup(d, IdKey(t)).value).error
  }

  /** The tier a key belongs to, if it is one of the four id keys. */
  function TierOf(key: string): (r: Option<Tier>)
    ensures r.Some? ==> IdKey(r.value) == key
    ensures forall t: Tier :: key == IdKey(t) ==> r == Some(t)
  {
    IdKeyInjective(Short, Mid);
    if key == IdKey(Short) then Some(Short)
    else if key == IdKey(Mid) then Some(Mid)
    else if key == IdKey(Long) then Some(Long)
    else if key == IdKey(Reflection) then Some(Reflection)
    else None
  }

  /** The key is a tier's id key whose value opens with the placeholder. */
  predicate Stripped(d: seq<(string, Json)>, key: string)
  {
    TierOf(key).Some? && Led(d, TierOf(key).value)
  }

  /** The tier's key without its placeholder-led entry. */
  function Remove(d: seq<(string, Json)>, t: Tier): seq<(string, Json)>
  {
    if Led(d, t) then Delete(d, IdKey(t)) else d
  }

  /** A block that deletes its own tier's key fails exactly on a malformed value, and
      otherwise removes the key exactly when its value opens with the placeholder. */
  lemma {:induction false} OwnStep(d: seq<(string, Json)>, t: Tier)
    ensures TierStep(d, t, IdKey(t)).status.Err? <==> Malformed(d, t)
    ensures Malformed(d, t) ==> TierStep(d, t, IdKey(t)) == Outcome(Err(TierError(d, t)), d)
    ensures !Malformed(d, t) ==> TierStep(d, t, IdKey(t)) == Outcome(Ok(()), Remove(d, t))
  {
  }

  /** Removing one tier changes the lookup of that tier's key alone. */
  lemma {:induction false} RemoveLookup(d: seq<(string, Json)>, t: Tier, key: string)
    ensures Lookup(Remove(d, t), key) == if key == IdKey(t) && Led(d, t) then None else Lookup(d, key)
  {
  }

  /** Removing one tier leaves the other tiers as they were. */
  lemma {:induction false} RemoveKeepsOthers(d: seq<(string, Json)>, t: Tier, u: Tier)
    requires t != u
    ensures Lookup(Remove(d, t), IdKey(u)) == Lookup(d, IdKey(u))
    ensures Led(Remove(d, t), u) == Led(d, u) && Malformed(Remove(d, t), u) == Malformed(d, u)
    ensures !Led(Remove(d, t), t) && !Malformed(Remove(d, t), t) <==> !Malformed(d, t)
  {
    IdKeyInjective(t, u);
    RemoveLookup(d, t, IdKey(u));
    RemoveLookup(d, t, IdKey(t));
  }

  /** The dictionary after all four tiers are removed. */
  function RemoveAll(d: seq<(string, Json)>): seq<(string, Json)>
  {
    Remove(Remove(Remove(Remove(d, Reflection), Long), Mid), Short)
  }

  /** The corrected call fails exactly when a tier is present with a value it cannot
      index, with that tier's exception. Otherwise it ends with every tier removed whose
      value opens with the placeholder. */
  lemma {:induction false} DeletePlaceholdersSteps(d: seq<(string, Json)>)
    ensures DeletePlaceholders(d).status.Ok? <==>
      !Malformed(d, Reflection) && !Malformed(d, Long) && !Malformed(d, Mid) && !Malformed(d, Short)
    ensures DeletePlaceholders(d).status.Err? ==>
      exists t: Tier :: Malformed(d, t) && DeletePlaceholders(d).status == Err(TierError(d, t))
    ensures DeletePlaceholders(d).status.Ok? ==> DeletePlaceholders(d).entries == RemoveAll(d)
  {
    var d1 := Remove(d, Reflection);
    var d2 := Remove(d1, Long);
    var d3 := Remove(d2, Mid);
    OwnStep(d, Reflection);
    RemoveKeepsOthers(d, Reflection, Long);
    RemoveKeepsOthers(d, Reflection, Mid);
    RemoveKeepsOthers(d, Reflection, Short);
    if !Malformed(d, Reflection) {
      OwnStep(d1, Long);
      RemoveKeepsOthers(d1, Long, Mid);
      RemoveKeepsOthers(d1, Long, Short);
      if !Malformed(d, Long) {
        OwnStep(d2, Mid);
        RemoveKeepsOthers(d2, Mid, Short);
        if !Malformed(d, Mid) {
          OwnStep(d3, Short);
          if Malformed(d, Short) {
            assert TierError(d3, Short) == TierError(d, Short);
          }
        } else {
          assert TierError(d2, Mid) == TierError(d, Mid);
        }
      } else {
        assert TierError(d1, Long) == TierError(d, Long);
      }
    }
  }

  /** After all four removals, a key is absent when it was a placeholder-led tier and
      looks up as before otherwise. */
  lemma {:induction false} RemoveAllLookup(d: seq<(string, Json)>, key: string)
    ensures Lookup(RemoveAll(d), key) == if Stripped(d, key) then None else Lookup(d, key)
  {
    var d1 := Remove(d, Reflection);
    var d2 := Remove(d1, Long);
    var d3 := Remove(d2, Mid);
    RemoveLookup(d, Reflection, key);
    RemoveLookup(d1, Long, key);
    RemoveLookup(d2, Mid, key);
    RemoveLookup(d3, Short, key);
    RemoveKeepsOthers(d, Reflection, Long);
    RemoveKeepsOthers(d, Reflection, Mid);
    RemoveKeepsOthers(d, Reflection, Short);
    RemoveKeepsOthers(d1, Long, Mid);
    RemoveKeepsOthers(d1, Long, Short);
    RemoveKeepsOthers(d2, Mid, Short);
  }

  /** The corrected call removes exactly the placeholder-led tiers: every other key keeps
      its value, and the tiers it removes are gone. */
  lemma {:induction false} DeletePlaceholdersExact(d: seq<(string, Json)>, key: string)
    requires DeletePlaceholders(d).status.Ok?
    ensures Lookup(DeletePlaceholders(d).entries, key) == if Stripped(d, key) then None else Lookup(d, key)
    ensures key in Keys(DeletePlaceholders(d).entries) <==> key in Keys(d) && !Stripped(d, key)
  {
    DeletePlaceholdersSteps(d);
    RemoveAllLookup(d, key);
  }

  /** An answer none of whose tiers opens with the placeholder comes back as it was. */
  lemma {:induction false} DeletePlaceholdersNoOp(d: seq<(string, Json)>)
    requires forall t: Tier :: !Led(d, t) && !Malformed(d, t)
    ensures DeletePlaceholders(d) == Outcome(Ok(()), d)
  {
    DeletePlaceholdersSteps(d);
    assert !Led(d, Reflection) && !Led(d, Long) && !Led(d, Mid) && !Led(d, Short);
  }

  /** Stripping twice is stripping once. */
  lemma {:induction false} DeletePlaceholdersIdempotent(d: seq<(string, Json)>)
    requires DeletePlaceholders(d).status.Ok?
    ensures DeletePlaceholders(DeletePlaceholders(d).entries) == DeletePlaceholders(d)
  {
    var e := DeletePlaceholders(d).entries;
    DeletePlaceholdersSteps(d);
    forall t: Tier
      ensures !Led(e, t) && !Malformed(e, t)
    {
      DeletePlaceholdersExact(d, IdKey(t));
      assert TierOf(IdKey(t)) == Some(t);
    }
    DeletePlaceholdersNoOp(e);
  }

  /** The code as written behaves as the corrected call unless the mid tier opens with
      the placeholder. */
  lemma {:induction false} AsWrittenAgreesOffMid(d: seq<(string, Json)>)
    ensures !Led(d, Mid) ==> DeletePlaceholdersAsWritten(d) == DeletePlaceholders(d)
  {
    var o1 := Then(TierStep(d, Reflection, IdKey(Reflection)), Long, IdKey(Long));
    if !Led(d, Mid) && o1.status.Ok? {
      DeletePlaceholdersSteps(d);
      OwnStep(d, Reflection);
      OwnStep(Remove(d, Reflection), Long);
      RemoveKeepsOthers(d, Reflection, Mid);
      RemoveKeepsOthers(Remove(d, Reflection), Long, Mid);
      assert !Led(o1.entries, Mid);
    }
  }

  /** When the mid tier opens with the placeholder and the earlier blocks pass, the code
      as written raises `KeyError('middle_memory_ids')` and leaves the mid tier in place,
      where the corrected call removes it. */
  lemma {:induction false} AsWrittenMidFails(d: seq<(string, Json)>)
    requires Led(d, Mid) && !Malformed(d, Reflection) && !Malformed(d, Long)
    requires "middle_memory_ids" !in Keys(d)
    ensures DeletePlaceholdersAsWritten(d).status == Err(KeyError("middle_memory_ids"))
    ensures Lookup(DeletePlaceholdersAsWritten(d).entries, IdKey(Mid)) == Lookup(d, IdKey(Mid))
    ensures DeletePlaceholders(d).status.Ok? ==> Lookup(DeletePlaceholders(d).entries, IdKey(Mid)) == None
  {
    var d1 := Remove(d, Reflection);
    var d2 := Remove(d1, Long);
    OwnStep(d, Reflection);
    OwnStep(d1, Long);
    RemoveKeepsOthers(d, Reflection, Mid);
    RemoveKeepsOthers(d1, Long, Mid);
    RemoveKeepsOthers(d, Reflection, Long);
    RemoveLookup(d, Reflection, "middle_memory_ids");
    RemoveLookup(d1, Long, "middle_memory_ids");
    assert "middle_memory_ids" !in Keys(d2);
    if DeletePlaceholders(d).status.Ok? {
      DeletePlaceholdersExact(d, IdKey(Mid));
      assert TierOf(IdKey(Mid)) == Some(Mid);
    }
  }

  /** An answer citing only the placeholder for the mid tier. */
  const MidPlaceholderAnswer: seq<(string, Json)> :=
    [("summary_reason", JStr("hold")), ("mid_memory_ids", JArr([JObj([("memory_index", JInt(-1))])]))]

  /** On that answer the code as written raises where the corrected call strips the
      tier. */
  lemma {:induction false} MidPlaceholderCounterexample()
    ensures var d := MidPlaceholderAnswer;
      DeletePlaceholdersAsWritten(d) == Outcome(Err(KeyError("middle_memory_ids")), d)
      && DeletePlaceholders(d) == Outcome(Ok(()), [("summary_reason", JStr("hold"))])
  {
    MidPlaceholderKeys();
    MidPlaceholderAsWritten();
    MidPlaceholderCorrected();
  }

  lemma {:induction false} MidPlaceholderKeys()
    ensures Keys(MidPlaceholderAnswer) == ["summary_reason", "mid_memory_ids"]
    ensures IdKey(Mid) == "mid_memory_ids"
    ensures Lookup(MidPlaceholderAnswer, IdKey(Reflection)) == None
    ensures Lookup(MidPlaceholderAnswer, IdKey(Long)) == None
  {
    assert Keys(MidPlaceholderAnswer) == ["summary_reason", "mid_memory_ids"];
  }

  lemma {:induction false} MidPlaceholderAsWritten()
    requires Keys(MidPlaceholderAnswer) == ["summary_reason", "mid_memory_ids"]
    requires IdKey(Mid) == "mid_memory_ids"
    requires Lookup(MidPlaceholderAnswer, IdKey(Reflection)) == None
    requires Lookup(MidPlaceholderAnswer, IdKey(Long)) == None
    ensures DeletePlaceholdersAsWritten(MidPlaceholderAnswer)
         == Outcome(Err(KeyError("middle_memory_ids")), MidPlaceholderAnswer)
  {
  }

  lemma {:induction false} MidPlaceholderCorrected()
    requires Keys(MidPlaceholderAnswer) == ["summary_reason", "mid_memory_ids"]
    requires IdKey(Mid) == "mid_memory_ids"
    requires Lookup(MidPlaceholderAnswer, IdKey(Reflection)) == None
    requires Lookup(MidPlaceholderAnswer, IdKey(Long)) == None
    ensures DeletePlaceholders(MidPlaceholderAnswer) == Outcome(Ok(()), [("summary_reason", JStr("hold"))])
  {
    assert Delete(MidPlaceholderAnswer, IdKey(Mid)) == [("summary_reason", JStr("hold"))];
    assert Lookup([("summary_reason", JStr("hold"))], IdKey(Short)) == None;
  }

  /** The validated answer, which `delete_placeholder_info` edits in place. */
  class ValidatedOutput {
    var entries: seq<(string, Json)>

    constructor (entries: seq<(string, Json)>)
      ensures this.entries == entries
    {
      this.entries := entries;
    }

    /** One `if` block, deleting `deleted` when tier `t` opens with the placeholder. */
    method DeleteTierPlaceholder(t: Tier, deleted: string) returns (r: Result<()>)
      modifies this
      ensures Outcome(r, entries) == TierStep(old(entries), t, deleted)
    {
      var value := Lookup(entries, IdKey(t));
      if value.None? {
        return Ok(());
      }
      var led := PlaceholderLed(value.value);
      if led.Err? {
        return Err(led.error);
      }
      if !led.value {
        return Ok(());
      }
      if deleted !in Keys(entries) {
        return Err(KeyError(deleted));
      }
      entries := Delete(entries, deleted);
      r := Ok(());
    }

    /** `delete_placeholder_info` with the mid block deleting the mid tier's own key. */
    method DeletePlaceholderInfo() returns (r: Result<()>)
      modifies this
      ensures Outcome(r, entries) == DeletePlaceholders(old(entries))
    {
      r := DeleteTierPlaceholder(Reflection, IdKey(Reflection));
      if r.Err? {
        return;
      }
      r := DeleteTierPlaceholder(Long, IdKey(Long));
      if r.Err? {
        return;
      }
      r := DeleteTierPlaceholder(Mid, IdKey(Mid));
      if r.Err? {
        return;
      }
      r := DeleteTierPlaceholder(Short, IdKey(Short));
    }
  }

  // ---------------------------------------------------------------------------------
  // Response records

  /** `SingleAssetStructureGenerationFailure`. */
  datatype SingleFailure = SingleFailure(investmentDecision: Portfolio.TradeAction)

  /** Validating a failure record: the decision defaults to HOLD and may be nothing
      else. */
  function MakeSingleFailure(decision: Option<Portfolio.TradeAction>): (r: Result<SingleFailure>)
    ensures r.Ok? <==> decision.None? || decision == Some(Portfolio.Hold)
    ensures r.Ok? ==> r.value.investmentDecision == Portfolio.Hold
    ensures r.Err? ==> r.error == ValidationError("investment_decision")
  {
    match decision
    case None => Ok(SingleFailure(Portfolio.Hold))
    case Some(a) => if a == Portfolio.Hold then Ok(SingleFailure(a)) else Err(ValidationError("investment_decision"))
  }

  /** `SingleAssetStructureOutputResponse`. */
  datatype SingleResponse = SingleResponse(
    investmentDecision: Option<Portfolio.TradeAction>,
    summaryReason: string,
    shortMemoryIds: Option<seq<int>>,
    midMemoryIds: Option<seq<int>>,
    longMemoryIds: Option<seq<int>>,
    reflectionMemoryIds: Option<seq<int>>)

  /** Validating a response record: the summary reason must have at least one character;
      every other field is taken as given. */
  function MakeSingleResponse(decision: Option<Portfolio.TradeAction>, summary: string,
                              short: Option<seq<int>>, mid: Option<seq<int>>,
                              long: Option<seq<int>>, reflection: Option<seq<int>>): (r: Result<SingleResponse>)
    ensures r.Ok? <==> |summary| >= 1
    ensures r.Ok? ==> r.value == SingleResponse(decision, summary, short, mid, long, reflection)
    ensures r.Err? ==> r.error == ValidationError("summary_reason")
  {
    if summary == [] then Err(ValidationError("summary_reason"))
    else Ok(SingleResponse(decision, summary, short, mid, long, reflection))
  }

  /** `MultiAssetsStructureGenerationFailure`: a decision per symbol. */
  datatype MultiFailure = MultiFailure(investmentDecision: map<string, Portfolio.TradeAction>)

  /** Validating a multi-asset failure record: every symbol's decision must be HOLD. */
  function MakeMultiFailure(decisions: map<string, Portfolio.TradeAction>): (r: Result<MultiFailure>)
    ensures r.Ok? <==> forall s :: s in decisions ==> decisions[s] == Portfolio.Hold
    ensures r.Ok? ==> r.value.investmentDecision == decisions
    ensures r.Err? ==> r.error == ValidationError("investment_decision")
  {
    if forall s :: s in decisions ==> decisions[s] == Portfolio.Hold then Ok(MultiFailure(decisions))
    else Err(ValidationError("investment_decision"))
  }

  /** `MultiAssetsStructureOutputResponse`: every field a dictionary keyed by symbol. */
  datatype MultiResponse = MultiResponse(
    investmentDecision: map<string, Option<Portfolio.TradeAction>>,
    summaryReason: map<string, string>,
    shortMemoryIds: map<string, Option<seq<int>>>,
    midMemoryIds: map<string, Option<seq<int>>>,
    longMemoryIds: map<string, Option<seq<int>>>,
    reflectionMemoryIds: map<string, Option<seq<int>>>)

  /** Validating a multi-asset response record: every symbol's summary reason must have
      at least one character. */
  function MakeMultiResponse(decisions: map<string, Option<Portfolio.TradeAction>>, summaries: map<string, string>,
                             short: map<string, Option<seq<int>>>, mid: map<string, Option<seq<int>>>,
                             long: map<string, Option<seq<int>>>, reflection: map<string, Option<seq<int>>>)
    : (r: Result<MultiResponse>)
    ensures r.Ok? <==> forall s :: s in summaries ==> |summaries[s]| >= 1
    ensures r.Ok? ==> r.value == MultiResponse(decisions, summaries, short, mid, long, reflection)
    ensures r.Err? ==> r.error == ValidationError("summary_reason")
  {
    if forall s :: s in summaries ==> summaries[s] != [] then Ok(MultiResponse(decisions, summaries, short, mid, long, reflection))
    else Err(ValidationError("summary_reason"))
  }
}
