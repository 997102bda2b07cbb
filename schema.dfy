/** The JSON schemas the vLLM endpoint's structured generation must follow: the answer's
    summary (and, in a test run, its decision) plus, per memory tier that has ids, the
    ids the answer may cite. */
module StructureSchema {
  import opened Common
  import opened Text
  import opened Tiers
  import opened Json

  /** The schema dictionary. Its title (`OutputValidateModel`) and type (`object`) never
      change; what the builders change are its properties and its `required` list. */
  datatype Schema = Schema(properties: seq<(string, Json)>, required: seq<string>)
  {
    function ToJson(): Json
    {
      JObj([("properties", JObj(properties)), ("required", JArr(Strings(required))),
            ("title", JStr("OutputValidateModel")), ("type", JStr("object"))])
    }
  }

  function Strings(xs: seq<string>): (r: seq<Json>)
    ensures |r| == |xs|
    ensures forall k :: 0 <= k < |xs| ==> r[k] == JStr(xs[k])
  {
    if xs == [] then [] else [JStr(xs[0])] + Strings(xs[1..])
  }

  const ReasonText: string :=
    "Given the information of text and the summary of the stock price movement. Please explain the detailed reason why you make the investment decision."
  const DecisionText: string :=
    "Given the information, please make an investment decision: buy the stock, sell, and hold the stock"

  /** The three decisions an answer may give. */
  const Decisions: seq<Json> := [JStr("buy"), JStr("sell"), JStr("hold")]

  const SummaryReason: Json :=
    JObj([("description", JStr(ReasonText)), ("title", JStr("Summary Reason")), ("type", JStr("string"))])

  const InvestmentDecision: Json :=
    JObj([("description", JStr(DecisionText)), ("enum", JArr(Decisions)),
          ("title", JStr("Investment Decision")), ("type", JStr("string"))])

  /** The ids an answer may cite, as the strings of the enum. */
  function IdTexts(ids: seq<int>): (r: seq<string>)
    ensures |r| == |ids|
    ensures forall k :: 0 <= k < |ids| ==> r[k] == IntToString(ids[k])
  {
    if ids == [] then [] else [IntToString(ids[0])] + IdTexts(ids[1..])
  }

  /** Every enum entry reads back as the id it was made from, in the same order. */
  lemma {:induction false} IdTextsRoundTrip(ids: seq<int>)
    ensures forall k :: 0 <= k < |ids| ==> IsIntText(IdTexts(ids)[k]) && ParseInt(IdTexts(ids)[k]) == ids[k]
  {
    forall k | 0 <= k < |ids|
      ensures IsIntText(IdTexts(ids)[k]) && ParseInt(IdTexts(ids)[k]) == ids[k]
    {
      IntRoundTrip(ids[k]);
    }
  }

  /** The property for a list of cited ids: an array of strings drawn from `ids`. */
  function IdsProperty(ids: seq<int>, minItems: nat, title: string): Json
  {
    JObj([("items", JObj([("enum", JArr(Strings(IdTexts(ids)))), ("type", JStr("string"))])),
          ("minItems", JInt(minItems)), ("title", JStr(title)), ("type", JStr("array"))])
  }

  // ---------------------------------------------------------------------------------
  // Single asset

  /** The four optional id lists of a single-asset schema. */
  datatype IdLists = IdLists(short: Option<seq<int>>, mid: Option<seq<int>>,
                             long: Option<seq<int>>, reflection: Option<seq<int>>)
  {
    function Get(t: Tier): Option<seq<int>>
    {
      match t
      case Short => short
      case Mid => mid
      case Long => long
      case Reflection => reflection
    }
  }

  /** Python truthiness of an optional id list. */
  predicate NonEmpty(ids: Option<seq<int>>)
  {
    ids.Some? && |ids.value| > 0
  }

  /** At least one long-term id must be cited; the other tiers may be left out. */
  function MinItems(t: Tier): nat
  {
    if t == Long then 1 else 0
  }

  function Title(t: Tier): string
  {
    match t
    case Short => "Short Memory Ids"
    case Mid => "Mid Memory Ids"
    case Long => "Long Memory Ids"
    case Reflection => "Reflection Memory Ids"
  }

  function BaseRequired(mode: RunMode): seq<string>
  {
    if mode == Warmup then ["summary_reason"] else ["investment_decision", "summary_reason"]
  }

  /** The literal schema a single-asset run starts from. */
  function BaseSchema(mode: RunMode): Schema
  {
    if mode == Warmup then Schema([("summary_reason", SummaryReason)], BaseRequired(mode))
    else Schema([("investment_decision", InvestmentDecision), ("summary_reason", SummaryReason)], BaseRequired(mode))
  }

  /** One `if <tier>_memory_ids:` block: a non-empty list adds its property and its
      `required` entry. */
  function AddTier(s: Schema, t: Tier, ids: Option<seq<int>>): Schema
  {
    if NonEmpty(ids) then
      Schema(Put(s.properties, IdKey(t), IdsProperty(ids.value, MinItems(t), Title(t))), s.required + [IdKey(t)])
    else s
  }

  /** `SingleAssetVLLMStructureGenerationSchema.__call__`. */
  function SingleAssetSchema(mode: RunMode, ids: IdLists): Schema
  {
    AddTier(AddTier(AddTier(AddTier(BaseSchema(mode), Short, ids.short), Mid, ids.mid), Long, ids.long),
            Reflection, ids.reflection)
  }

  /** The keys of the tiers, among `ts`, whose lists are non-empty, in the order of `ts`. */
  function PresentKeys(ts: seq<Tier>, ids: IdLists): seq<string>
  {
    if ts == [] then []
    else (if NonEmpty(ids.Get(ts[0])) then [IdKey(ts[0])] else []) + PresentKeys(ts[1..], ids)
  }

  /** `required` is the run mode's base list followed by the keys of the non-empty
      tiers in the order short, mid, long, reflection. */
  lemma {:induction false} SingleRequired(mode: RunMode, ids: IdLists)
    ensures SingleAssetSchema(mode, ids).required == BaseRequired(mode) + PresentKeys(AllTiers, ids)
  {
    var s0 := BaseSchema(mode);
    var s1 := AddTier(s0, Short, ids.short);
    var s2 := AddTier(s1, Mid, ids.mid);
    var s3 := AddTier(s2, Long, ids.long);
    var k1, k2, k3, k4 := KeyIf(Short, ids), KeyIf(Mid, ids), KeyIf(Long, ids), KeyIf(Reflection, ids);
    AddTierRequired(s0, Short, ids);
    AddTierRequired(s1, Mid, ids);
    AddTierRequired(s2, Long, ids);
    AddTierRequired(s3, Reflection, ids);
    PresentKeysAll(ids);
    var b := s0.required;
    SeqAssoc(b + k1 + k2, k3, k4);
    SeqAssoc(b + k1, k2, k3 + k4);
    SeqAssoc(b, k1, k2 + (k3 + k4));
  }

  /** The key a tier contributes to `required`, if its list is non-empty. */
  function KeyIf(t: Tier, ids: IdLists): seq<string>
  {
    if NonEmpty(ids.Get(t)) then [IdKey(t)] else []
  }

  lemma {:induction false} AddTierRequired(s: Schema, t: Tier, ids: IdLists)
    ensures AddTier(s, t, ids.Get(t)).required == s.required + KeyIf(t, ids)
  {
  }

  lemma {:induction false} PresentKeysAll(ids: IdLists)
    ensures PresentKeys(AllTiers, ids)
         == KeyIf(Short, ids) + (KeyIf(Mid, ids) + (KeyIf(Long, ids) + KeyIf(Reflection, ids)))
  {
    var ts := AllTiers;
    assert PresentKeys(ts[4..], ids) == [];
    assert PresentKeys(ts[3..], ids) == KeyIf(Reflection, ids) by { assert ts[3..][1..] == ts[4..]; }
    assert PresentKeys(ts[2..], ids) == KeyIf(Long, ids) + KeyIf(Reflection, ids) by { assert ts[2..][1..] == ts[3..]; }
    assert ts[1..][1..] == ts[2..];
  }

  lemma {:induction false} SeqAssoc<T>(a: seq<T>, b: seq<T>, c: seq<T>)
    ensures a + b + c == a + (b + c)
  {
  }

  /** The tier keys are distinct from each other and from the base properties. */
  lemma {:induction false} TierKeysDistinct(t: Tier, u: Tier)
    ensures IdKey(t) == IdKey(u) <==> t == u
    ensures IdKey(t) != "summary_reason" && IdKey(t) != "investment_decision"
  {
    IdKeyInjective(t, u);
    assert IdKey(t)[0] != 's' || IdKey(t)[1] != 'u';
  }

  /** One tier block writes only its own key, and writes it exactly when its list is
      non-empty. */
  lemma {:induction false} AddTierLookup(s: Schema, t: Tier, ids: Option<seq<int>>, key: string)
    ensures Lookup(AddTier(s, t, ids).properties, key)
         == if NonEmpty(ids) && key == IdKey(t) then Some(IdsProperty(ids.value, MinItems(t), Title(t)))
            else Lookup(s.properties, key)
  {
  }

  /** Each tier has its property exactly when its list is non-empty: an enum of the
      ids as strings and a minimum of one item for the long tier, none otherwise. The
      base properties are kept. */
  lemma {:induction false} SingleProperties(mode: RunMode, ids: IdLists, t: Tier)
    ensures Lookup(SingleAssetSchema(mode, ids).properties, IdKey(t))
         == if NonEmpty(ids.Get(t)) then Some(IdsProperty(ids.Get(t).value, MinItems(t), Title(t))) else None
    ensures Lookup(SingleAssetSchema(mode, ids).properties, "summary_reason") == Some(SummaryReason)
    ensures Lookup(SingleAssetSchema(mode, ids).properties, "investment_decision")
         == (if mode == Warmup then None else Some(InvestmentDecision))
  {
    SingleTierLookup(mode, ids, t);
    BaseProperties(mode, t);
    forall u: Tier
      ensures IdKey(u) != "summary_reason" && IdKey(u) != "investment_decision"
    {
      TierKeysDistinct(u, u);
    }
    SingleOtherLookup(mode, ids, "summary_reason");
    SingleOtherLookup(mode, ids, "investment_decision");
  }

  /** A tier's key is found in the single-asset schema exactly when its list is
      non-empty. */
  lemma {:induction false} SingleTierLookup(mode: RunMode, ids: IdLists, t: Tier)
    ensures Lookup(SingleAssetSchema(mode, ids).properties, IdKey(t))
         == if NonEmpty(ids.Get(t)) then Some(IdsProperty(ids.Get(t).value, MinItems(t), Title(t))) else None
  {
    var s0 := BaseSchema(mode);
    var s1 := AddTier(s0, Short, ids.short);
    var s2 := AddTier(s1, Mid, ids.mid);
    var s3 := AddTier(s2, Long, ids.long);
    BaseProperties(mode, t);
    forall u: Tier
      ensures IdKey(u) == IdKey(t) <==> u == t
    {
      TierKeysDistinct(u, t);
    }
    AddTierLookup(s0, Short, ids.short, IdKey(t));
    AddTierLookup(s1, Mid, ids.mid, IdKey(t));
    AddTierLookup(s2, Long, ids.long, IdKey(t));
    AddTierLookup(s3, Reflection, ids.reflection, IdKey(t));
  }

  /** A key that belongs to no tier is looked up in the base schema. */
  lemma {:induction false} SingleOtherLookup(mode: RunMode, ids: IdLists, key: string)
    requires forall u: Tier :: IdKey(u) != key
    ensures Lookup(SingleAssetSchema(mode, ids).properties, key) == Lookup(BaseSchema(mode).properties, key)
  {
    var s0 := BaseSchema(mode);
    var s1 := AddTier(s0, Short, ids.short);
    var s2 := AddTier(s1, Mid, ids.mid);
    var s3 := AddTier(s2, Long, ids.long);
    AddTierLookup(s0, Short, ids.short, key);
    AddTierLookup(s1, Mid, ids.mid, key);
    AddTierLookup(s2, Long, ids.long, key);
    AddTierLookup(s3, Reflection, ids.reflection, key);
  }

  /** The base schema has the summary reason and, in a test run, the decision, and no
      tier key. */
  lemma {:induction false} BaseProperties(mode: RunMode, t: Tier)
    ensures Lookup(BaseSchema(mode).properties, "summary_reason") == Some(SummaryReason)
    ensures Lookup(BaseSchema(mode).properties, "investment_decision")
         == (if mode == Warmup then None else Some(InvestmentDecision))
    ensures Lookup(BaseSchema(mode).properties, IdKey(t)) == None
  {
    TierKeysDistinct(t, t);
  }

  // ---------------------------------------------------------------------------------
  // Multi asset

  function ReasonKey(symbol: string): string
  {
    symbol + "_summary_reason"
  }

  function DecisionKey(symbol: string): string
  {
    symbol + "_investment_decision"
  }

  /** `[f"{s}_summary_reason" for s in symbols]`. */
  function ReasonKeys(symbols: seq<string>): (r: seq<string>)
    ensures |r| == |symbols|
    ensures forall k :: 0 <= k < |symbols| ==> r[k] == ReasonKey(symbols[k])
  {
    if symbols == [] then [] else [ReasonKey(symbols[0])] + ReasonKeys(symbols[1..])
  }

  /** `[f"{s}_investment_decision" for s in symbols]`. */
  function DecisionKeys(symbols: seq<string>): (r: seq<string>)
    ensures |r| == |symbols|
    ensures forall k :: 0 <= k < |symbols| ==> r[k] == DecisionKey(symbols[k])
  {
    if symbols == [] then [] else [DecisionKey(symbols[0])] + DecisionKeys(symbols[1..])
  }

  /** The fixed wording of a symbol's summary reason. */
  const SymbolReasonLead: string := "Given the information of text and the summary of the stock price movement of "
  const SymbolReasonTail: string := ". Please explain the detailed reason why you make the investment decision."
  const SymbolReasonTitle: string := " Summary Reason"

  function SymbolReasonDescription(symbol: string): string
  {
    SymbolReasonLead + symbol + SymbolReasonTail
  }

  /** A symbol's summary reason in a warmup schema (type, title, description). */
  function WarmupSymbolReason(symbol: string): Json
  {
    JObj([("type", JStr("string")), ("title", JStr(symbol + SymbolReasonTitle)),
          ("description", JStr(SymbolReasonDescription(symbol)))])
  }

  /** A symbol's summary reason in a test schema (description, title, type). */
  function TestSymbolReason(symbol: string): Json
  {
    JObj([("description", JStr(SymbolReasonDescription(symbol))), ("title", JStr(symbol + SymbolReasonTitle)),
          ("type", JStr("string"))])
  }

  /** The dictionary comprehension of the warmup schema; a repeated symbol writes its
      entry again in place. */
  function WarmupReasons(symbols: seq<string>): seq<(string, Json)>
  {
    if symbols == [] then []
    else
      var last := symbols[|symbols| - 1];
      Put(WarmupReasons(symbols[..|symbols| - 1]), ReasonKey(last), WarmupSymbolReason(last))
  }

  /** `temp_properties` after the test loop has merged the given symbols. */
  function TestEntries(symbols: seq<string>): seq<(string, Json)>
  {
    if symbols == [] then []
    else
      var last := symbols[|symbols| - 1];
      Put(Put(TestEntries(symbols[..|symbols| - 1]), DecisionKey(last), InvestmentDecision),
          ReasonKey(last), TestSymbolReason(last))
  }

  /** The `symbols_summary` property's `required`: every symbol's summary reason, and in
      a test run then every symbol's decision, each in the order of `symbols`. */
  function SummaryRequired(mode: RunMode, symbols: seq<string>): (r: seq<string>)
    ensures mode == Warmup ==> |r| == |symbols|
    ensures mode != Warmup ==> |r| == 2 * |symbols|
    ensures forall k :: 0 <= k < |symbols| ==> r[k] == symbols[k] + "_summary_reason"
    ensures mode != Warmup ==> forall k :: 0 <= k < |symbols| ==> r[|symbols| + k] == symbols[k] + "_investment_decision"
  {
    if mode == Warmup then ReasonKeys(symbols) else ReasonKeys(symbols) + DecisionKeys(symbols)
  }

  function SymbolsSummary(mode: RunMode, entries: seq<(string, Json)>, symbols: seq<string>): Json
  {
    JObj([("description", JStr(ReasonText)), ("title", JStr("Symbols Summary Reasons")), ("type", JStr("object")),
          ("properties", JObj(entries)), ("required", JArr(Strings(SummaryRequired(mode, symbols))))])
  }

  /** The schema a multi-asset run starts from: only `symbols_summary`. */
  function MultiBase(mode: RunMode, symbols: seq<string>): Schema
  {
    var entries := if mode == Warmup then WarmupReasons(symbols) else TestEntries(symbols);
    Schema([("symbols_summary", SymbolsSummary(mode, entries, symbols))], ["symbols_summary"])
  }

  function SymbolKey(symbol: string, t: Tier): string
  {
    symbol + "_" + t.Name() + "_memory_ids"
  }

  function MultiTitle(symbol: string, t: Tier): string
  {
    match t
    case Short => symbol + " Short Memory Ids"
    case Mid => symbol + " Mid Memory Ids"
    case Long => symbol + " long Memory Ids"
    case Reflection => symbol + " reflection Memory Ids"
  }

  /** One symbol of a tier loop: a symbol the tier's dictionary lacks is a `KeyError`;
      a given list, even an empty one, adds the symbol's property and `required` entry. */
  function SymbolStep(s: Schema, t: Tier, table: map<string, Option<seq<int>>>, symbol: string): (r: Result<Schema>)
    ensures r.Err? <==> symbol !in table
  {
    if symbol !in table then Err(KeyError(symbol))
    else match table[symbol]
      case None => Ok(s)
      case Some(ids) =>
        Ok(Schema(Put(s.properties, SymbolKey(symbol, t), IdsProperty(ids, 0, MultiTitle(symbol, t))),
                  s.required + [SymbolKey(symbol, t)]))
  }

  /** A tier loop over the given symbols, stopping at the first failure. */
  function SymbolSteps(s: Schema, t: Tier, table: map<string, Option<seq<int>>>, symbols: seq<string>): Result<Schema>
  {
    if symbols == [] then Ok(s)
    else
      match SymbolSteps(s, t, table, symbols[..|symbols| - 1])
      case Err(e) => Err(e)
      case Ok(s') => SymbolStep(s', t, table, symbols[|symbols| - 1])
  }

  /** One `if <tier>_memory_ids:` block of the multi-asset schema; an empty dictionary
      adds nothing. */
  function AddSymbolTier(s: Schema, t: Tier, table: map<string, Option<seq<int>>>, symbols: seq<string>): Result<Schema>
  {
    if |table| == 0 then Ok(s) else SymbolSteps(s, t, table, symbols)
  }

  /** The four id dictionaries of a multi-asset schema. */
  datatype IdTables = IdTables(short: map<string, Option<seq<int>>>, mid: map<string, Option<seq<int>>>,
                               long: map<string, Option<seq<int>>>, reflection: map<string, Option<seq<int>>>)
  {
    function Get(t: Tier): map<string, Option<seq<int>>>
    {
      match t
      case Short => short
      case Mid => mid
      case Long => long
      case Reflection => reflection
    }
  }

  /** `MultiAssetsVLLMStructureGenerationSchema.__call__`. */
  function MultiAssetsSchema(mode: RunMode, symbols: seq<string>, tables: IdTables): Result<Schema>
  {
    AddTierTables(MultiBase(mode, symbols), symbols, tables)
  }

  /** The four tier blocks in order, the first failure ending the call. */
  function AddTierTables(s: Schema, symbols: seq<string>, tables: IdTables): Result<Schema>
  {
    match AddSymbolTier(s, Short, tables.short, symbols)
    case Err(e) => Err(e)
    case Ok(s1) =>
      match AddSymbolTier(s1, Mid, tables.mid, symbols)
      case Err(e) => Err(e)
      case Ok(s2) =>
        match AddSymbolTier(s2, Long, tables.long, symbols)
        case Err(e) => Err(e)
        case Ok(s3) => AddSymbolTier(s3, Reflection, tables.reflection, symbols)
  }

  /** A tier loop fails exactly when a symbol is missing from the dictionary, with a
      `KeyError` for the first such symbol. */
  lemma {:induction false} SymbolStepsOutcome(s: Schema, t: Tier, table: map<string, Option<seq<int>>>,
                                              symbols: seq<string>)
    ensures var n := CoveredPrefix(symbols, table);
      SymbolSteps(s, t, table, symbols).Err? <==> n < |symbols|
    ensures var n := CoveredPrefix(symbols, table);
      n < |symbols| ==> SymbolSteps(s, t, table, symbols) == Err(KeyError(symbols[n]))
  {
    if symbols != [] {
      var init := symbols[..|symbols| - 1];
      SymbolStepsOutcome(s, t, table, init);
      var m := CoveredPrefix(init, table);
      var n := CoveredPrefix(symbols, table);
      if m < |init| {
        assert symbols[m] == init[m];
        assert init[m] !in table;
        assert n == m;
      } else {
        assert forall k :: 0 <= k < |init| ==> symbols[k] in table;
        assert n >= |init|;
      }
    }
  }

  /** A loop that got past the first `i` symbols and meets a missing one fails with
      that symbol. */
  lemma {:induction false} FirstMissing(s: Schema, t: Tier, table: map<string, Option<seq<int>>>, symbols: seq<string>, i: nat)
    requires i < |symbols| && symbols[i] !in table
    requires SymbolSteps(s, t, table, symbols[..i]).Ok?
    ensures SymbolSteps(s, t, table, symbols) == Err(KeyError(symbols[i]))
  {
    SymbolStepsOutcome(s, t, table, symbols[..i]);
    SymbolStepsOutcome(s, t, table, symbols);
    assert forall k :: 0 <= k < i ==> symbols[..i][k] == symbols[k];
    assert CoveredPrefix(symbols, table) == i;
  }

  /** Extending the covered prefix by one symbol takes one more step. */
  lemma {:induction false} SymbolStepsNext(s: Schema, t: Tier, table: map<string, Option<seq<int>>>,
                                           symbols: seq<string>, i: nat, done: Schema)
    requires i < |symbols| && SymbolSteps(s, t, table, symbols[..i]) == Ok(done)
    ensures SymbolSteps(s, t, table, symbols[..i + 1]) == SymbolStep(done, t, table, symbols[i])
  {
    assert symbols[..i + 1][..i] == symbols[..i];
  }

  /** A tier loop keeps what was required and appends, for every symbol whose entry is
      given (even as an empty list), that symbol's key; a symbol whose entry is `None`
      adds nothing. */
  lemma {:induction false} SymbolStepsRequired(s: Schema, t: Tier, table: map<string, Option<seq<int>>>,
                                               symbols: seq<string>)
    requires SymbolSteps(s, t, table, symbols).Ok?
    ensures s.required <= SymbolSteps(s, t, table, symbols).value.required
    ensures forall k :: 0 <= k < |symbols| ==> symbols[k] in table
    ensures forall k :: 0 <= k < |symbols| && symbols[k] in table && table[symbols[k]].Some? ==>
      SymbolKey(symbols[k], t) in SymbolSteps(s, t, table, symbols).value.required
    ensures forall k :: 0 <= k < |symbols| && symbols[k] in table && table[symbols[k]].Some? ==>
      SymbolKey(symbols[k], t) in Keys(SymbolSteps(s, t, table, symbols).value.properties)
  {
    if symbols != [] {
      var init := symbols[..|symbols| - 1];
      var last := symbols[|symbols| - 1];
      SymbolStepsRequired(s, t, table, init);
      var s' := SymbolSteps(s, t, table, init).value;
      var r := SymbolSteps(s, t, table, symbols).value;
      assert s'.required <= r.required;
      assert forall k :: 0 <= k < |init| ==> init[k] == symbols[k];
      forall k | 0 <= k < |symbols| && symbols[k] in table && table[symbols[k]].Some?
        ensures SymbolKey(symbols[k], t) in r.required
        ensures SymbolKey(symbols[k], t) in Keys(r.properties)
      {
        if k < |init| {
          assert symbols[k] == init[k];
          var key := SymbolKey(symbols[k], t);
          assert key in s'.required;
          assert key in Keys(s'.properties);
          if table[last].Some? && key != SymbolKey(last, t) {
            assert Lookup(r.properties, key) == Lookup(s'.properties, key);
          }
        }
      }
    }
  }

  /** One tier block keeps what was required and requires every symbol whose entry is
      given. */
  lemma {:induction false} AddSymbolTierRequired(s: Schema, t: Tier, table: map<string, Option<seq<int>>>,
                                                 symbols: seq<string>)
    requires AddSymbolTier(s, t, table, symbols).Ok?
    ensures s.required <= AddSymbolTier(s, t, table, symbols).value.required
    ensures forall k :: 0 <= k < |symbols| && symbols[k] in table && table[symbols[k]].Some? ==>
      SymbolKey(symbols[k], t) in AddSymbolTier(s, t, table, symbols).value.required
  {
    if |table| > 0 {
      SymbolStepsRequired(s, t, table, symbols);
    }
  }

  /** What a prefix holds, the longer sequence holds. */
  lemma {:induction false} InPrefix(key: string, a: seq<string>, b: seq<string>)
    requires key in a && a <= b
    ensures key in b
  {
    var i :| 0 <= i < |a| && a[i] == key;
    assert b[i] == key;
  }

  /** Every symbol whose entry in some tier's id dictionary is given, even as an empty
      list, ends up among the required keys of the multi-asset schema. */
  lemma {:induction false} MultiAssetsRequired(mode: RunMode, symbols: seq<string>, tables: IdTables)
    requires MultiAssetsSchema(mode, symbols, tables).Ok?
    ensures forall t: Tier, k :: 0 <= k < |symbols| && symbols[k] in tables.Get(t) && tables.Get(t)[symbols[k]].Some? ==>
      SymbolKey(symbols[k], t) in MultiAssetsSchema(mode, symbols, tables).value.required
  {
    var s0 := MultiBase(mode, symbols);
    var s1 := AddSymbolTier(s0, Short, tables.short, symbols).value;
    var s2 := AddSymbolTier(s1, Mid, tables.mid, symbols).value;
    var s3 := AddSymbolTier(s2, Long, tables.long, symbols).value;
    var s4 := AddSymbolTier(s3, Reflection, tables.reflection, symbols).value;
    assert MultiAssetsSchema(mode, symbols, tables).value == s4;
    AddSymbolTierRequired(s0, Short, tables.short, symbols);
    AddSymbolTierRequired(s1, Mid, tables.mid, symbols);
    AddSymbolTierRequired(s2, Long, tables.long, symbols);
    AddSymbolTierRequired(s3, Reflection, tables.reflection, symbols);
    forall t: Tier, k | 0 <= k < |symbols| && symbols[k] in tables.Get(t) && tables.Get(t)[symbols[k]].Some?
      ensures SymbolKey(symbols[k], t) in s4.required
    {
      var key := SymbolKey(symbols[k], t);
      match t
      case Short =>
        InPrefix(key, s1.required, s2.required);
        InPrefix(key, s2.required, s3.required);
        InPrefix(key, s3.required, s4.required);
      case Mid =>
        InPrefix(key, s2.required, s3.required);
        InPrefix(key, s3.required, s4.required);
      case Long =>
        InPrefix(key, s3.required, s4.required);
      case Reflection =>
    }
  }

  /** The multi-asset schema fails exactly when some non-empty id dictionary lacks one
      of the symbols. */
  lemma {:induction false} MultiAssetsOutcome(mode: RunMode, symbols: seq<string>, tables: IdTables)
    ensures MultiAssetsSchema(mode, symbols, tables).Err? <==>
      Missing(tables.short, symbols) || Missing(tables.mid, symbols)
      || Missing(tables.long, symbols) || Missing(tables.reflection, symbols)
  {
    TablesOutcome(MultiBase(mode, symbols), symbols, tables);
  }

  lemma {:induction false} TablesOutcome(s: Schema, symbols: seq<string>, tables: IdTables)
    ensures AddTierTables(s, symbols, tables).Err? <==>
      Missing(tables.short, symbols) || Missing(tables.mid, symbols)
      || Missing(tables.long, symbols) || Missing(tables.reflection, symbols)
  {
    AddSymbolTierOutcome(s, Short, tables.short, symbols);
    var r1 := AddSymbolTier(s, Short, tables.short, symbols);
    if r1.Ok? {
      AddSymbolTierOutcome(r1.value, Mid, tables.mid, symbols);
      var r2 := AddSymbolTier(r1.value, Mid, tables.mid, symbols);
      if r2.Ok? {
        AddSymbolTierOutcome(r2.value, Long, tables.long, symbols);
        var r3 := AddSymbolTier(r2.value, Long, tables.long, symbols);
        if r3.Ok? {
          AddSymbolTierOutcome(r3.value, Reflection, tables.reflection, symbols);
        }
      }
    }
  }

  /** A non-empty id dictionary that lacks one of the symbols. */
  predicate Missing(table: map<string, Option<seq<int>>>, symbols: seq<string>)
  {
    |table| > 0 && CoveredPrefix(symbols, table) < |symbols|
  }

  /** One tier block fails exactly when its dictionary is non-empty and lacks a symbol. */
  lemma {:induction false} AddSymbolTierOutcome(s: Schema, t: Tier, table: map<string, Option<seq<int>>>, symbols: seq<string>)
    ensures AddSymbolTier(s, t, table, symbols).Err? <==> Missing(table, symbols)
  {
    SymbolStepsOutcome(s, t, table, symbols);
  }

  // The builders as the source writes them, with loops.

  /** The test run's loop that merges every symbol's decision and reason into
      `temp_properties`. */
  method MergeTestEntries(symbols: seq<string>) returns (entries: seq<(string, Json)>)
    ensures entries == TestEntries(symbols)
  {
    entries := [];
    var i := 0;
    while i < |symbols|
      invariant 0 <= i <= |symbols|
      invariant entries == TestEntries(symbols[..i])
    {
      assert symbols[..i + 1][..i] == symbols[..i];
      entries := Put(Put(entries, DecisionKey(symbols[i]), InvestmentDecision), ReasonKey(symbols[i]),
                     TestSymbolReason(symbols[i]));
      i := i + 1;
    }
    assert symbols[..i] == symbols;
  }

  /** One tier's loop over the symbols. */
  method AddSymbolTierLoop(s: Schema, t: Tier, table: map<string, Option<seq<int>>>, symbols: seq<string>)
    returns (r: Result<Schema>)
    ensures r == AddSymbolTier(s, t, table, symbols)
  {
    if |table| == 0 {
      return Ok(s);
    }
    var properties, required := s.properties, s.required;
    var i := 0;
    while i < |symbols|
      invariant 0 <= i <= |symbols|
      invariant SymbolSteps(s, t, table, symbols[..i]) == Ok(Schema(properties, required))
    {
      SymbolStepsNext(s, t, table, symbols, i, Schema(properties, required));
      var symbol := symbols[i];
      if symbol !in table {
        FirstMissing(s, t, table, symbols, i);
        return Err(KeyError(symbol));
      }
      ghost var next := SymbolStep(Schema(properties, required), t, table, symbol).value;
      if table[symbol].Some? {
        properties := Put(properties, SymbolKey(symbol, t), IdsProperty(table[symbol].value, 0, MultiTitle(symbol, t)));
        required := required + [SymbolKey(symbol, t)];
      }
      assert Schema(properties, required) == next;
      i := i + 1;
    }
    assert symbols[..i] == symbols;
    r := Ok(Schema(properties, required));
  }

  method BuildMultiAssetsSchema(mode: RunMode, symbols: seq<string>, tables: IdTables) returns (r: Result<Schema>)
    ensures r == MultiAssetsSchema(mode, symbols, tables)
  {
    var entries: seq<(string, Json)>;
    if mode == Warmup {
      entries := WarmupReasons(symbols);
    } else {
      entries := MergeTestEntries(symbols);
    }
    var s := Schema([("symbols_summary", SymbolsSummary(mode, entries, symbols))], ["symbols_summary"]);
    r := AddSymbolTierLoop(s, Short, tables.short, symbols);
    if r.Err? { return; }
    r := AddSymbolTierLoop(r.value, Mid, tables.mid, symbols);
    if r.Err? { return; }
    r := AddSymbolTierLoop(r.value, Long, tables.long, symbols);
    if r.Err? { return; }
    r := AddSymbolTierLoop(r.value, Reflection, tables.reflection, symbols);
  }
}
