/** The prompts of the vLLM endpoint. The single-asset prompt shows only the tiers that
    have memories and the momentum only when it is non-zero; the multi-asset prompt
    walks the symbols in order and shows each one's memories and momentum. */
module VllmPrompt {
  import opened Common
  import opened Text
  import opened Tiers
  import opened PromptParts

  /** Python truthiness of an optional list: given and not empty. */
  predicate Given<T>(xs: Option<seq<T>>)
  {
    xs.Some? && |xs.value| > 0
  }

  /** A single-asset tier is shown when both its texts and its ids are non-empty. */
  predicate Shown(m: TierMemory)
  {
    Given(m.texts) && Given(m.ids)
  }

  /** What follows a tier's lines: the sentiment explanation after the short tier, a
      blank line after mid and long, nothing after the reflection tier. */
  function Closing(t: Tier, sentimentExplanation: string): string
  {
    match t
    case Short => sentimentExplanation + "\n\n"
    case Mid => "\n\n"
    case Long => "\n\n"
    case Reflection => ""
  }

  /** One tier of the single-asset prompt; reflection lines keep their spacing. */
  function Section(t: Tier, m: TierMemory, w: Wording): (r: string)
    ensures r != [] <==> Shown(m)
    ensures Shown(m) ==> OccursAt(r, Header(t), 0)
  {
    if Shown(m) then
      var lines := Join("\n", MemoryLines(m.ids.value, m.texts.value, t != Reflection)) + Closing(t, w.sentimentExplanation);
      OccursBetween("", Header(t), lines);
      assert "" + Header(t) + lines == Header(t) + lines;
      Header(t) + lines
    else ""
  }

  /** How the vLLM prompt calls the analysed asset in a test run. */
  function TestNoun(a: AssetType): string
  {
    match a
    case Stock => "stock"
    case Crypto => "cryptocurrency"
    case Etf => "stock"
  }

  function Opening(a: AssetType, mode: RunMode, date: Date, symbol: string, futureRecord: Option<string>): string
  {
    if mode == Warmup then WarmupPrefix(a, DateText(date), symbol, RecordText(futureRecord))
    else TestPrefix(TestNoun(a), if a == Etf then EtfName else symbol, DateText(date))
  }

  /** The momentum explanation and sentence, for a momentum that is given and not 0. */
  function MomentumBlock(momentum: Option<int>, w: Wording): string
  {
    if momentum.Some? && momentum.value != 0 then AddMomentumInfo(momentum.value, w.momentumExplanation) else ""
  }

  /** `SingleAssetVLLMPromptConstructor.__call__`. An unknown symbol is a `ValueError`;
      nothing else fails, since a tier is only zipped when both its lists are given. */
  function SingleAssetPrompt(date: Date, symbol: string, mode: RunMode, futureRecord: Option<string>,
                             memories: Memories, momentum: Option<int>, c: Catalogue): (r: Result<string>)
    ensures r.Err? <==> Classify(symbol).Err?
    ensures r.Err? ==> r.error == ValueError("Invalid symbol: " + symbol)
  {
    match Classify(symbol)
    case Err(e) => Err(e)
    case Ok(a) =>
      var w := c.For(a);
      var info := Opening(a, mode, date, symbol, futureRecord)
                  + Section(Short, memories.short, w) + Section(Mid, memories.mid, w)
                  + Section(Long, memories.long, w) + Section(Reflection, memories.reflection, w);
      var info' := if momentum.Some? && momentum.value != 0
                   then AddMomentumInfo(momentum.value, info + w.momentumExplanation) else info;
      Ok(if mode == Warmup then info' + w.warmupPrompt else info' + w.testPrompt)
  }

  /** The single-asset prompt is the opening, the shown tiers in order, the momentum
      block and the closing prompt of the run mode. */
  lemma {:induction false} SingleAssetLayout(date: Date, symbol: string, mode: RunMode, futureRecord: Option<string>,
                          memories: Memories, momentum: Option<int>, c: Catalogue)
    requires Classify(symbol).Ok?
    ensures var a := Classify(symbol).value;
      var w := c.For(a);
      SingleAssetPrompt(date, symbol, mode, futureRecord, memories, momentum, c)
      == Ok(Opening(a, mode, date, symbol, futureRecord)
            + Section(Short, memories.short, w) + Section(Mid, memories.mid, w)
            + Section(Long, memories.long, w) + Section(Reflection, memories.reflection, w)
            + MomentumBlock(momentum, w)
            + (if mode == Warmup then w.warmupPrompt else w.testPrompt))
  {
    var a := Classify(symbol).value;
    var w := c.For(a);
    var info := Opening(a, mode, date, symbol, futureRecord)
                + Section(Short, memories.short, w) + Section(Mid, memories.mid, w)
                + Section(Long, memories.long, w) + Section(Reflection, memories.reflection, w);
    if momentum.Some? && momentum.value != 0 {
      AddMomentumAppends(momentum.value, info, w.momentumExplanation);
    } else {
      ConcatEmpty(info);
    }
  }

  /** The prompt ends with the warmup closing prompt in a warmup run and with the test
      one otherwise. */
  lemma {:induction false} SingleAssetClosesByMode(date: Date, symbol: string, mode: RunMode, futureRecord: Option<string>,
                                memories: Memories, momentum: Option<int>, c: Catalogue)
    requires Classify(symbol).Ok?
    ensures var w := c.For(Classify(symbol).value);
      var prompt := SingleAssetPrompt(date, symbol, mode, futureRecord, memories, momentum, c).value;
      var closing := if mode == Warmup then w.warmupPrompt else w.testPrompt;
      |closing| <= |prompt| && prompt[|prompt| - |closing|..] == closing
  {
    var w := c.For(Classify(symbol).value);
    var closing := if mode == Warmup then w.warmupPrompt else w.testPrompt;
    var a := Classify(symbol).value;
    var head := Opening(a, mode, date, symbol, futureRecord)
                + Section(Short, memories.short, w) + Section(Mid, memories.mid, w)
                + Section(Long, memories.long, w) + Section(Reflection, memories.reflection, w)
                + MomentumBlock(momentum, w);
    SingleAssetLayout(date, symbol, mode, futureRecord, memories, momentum, c);
    EndsWith(head, closing);
  }

  lemma {:induction false} EndsWith(head: string, tail: string)
    ensures (head + tail)[|head + tail| - |tail|..] == tail
  {
  }

  /** A momentum of 0 is falsy, so it is treated as no momentum at all: the "zero"
      sentence never reaches a vLLM single-asset prompt. */
  lemma {:induction false} ZeroMomentumIgnored(date: Date, symbol: string, mode: RunMode, futureRecord: Option<string>,
                            memories: Memories, c: Catalogue)
    ensures SingleAssetPrompt(date, symbol, mode, futureRecord, memories, Some(0), c)
         == SingleAssetPrompt(date, symbol, mode, futureRecord, memories, None, c)
  {
  }

  // ---------------------------------------------------------------------------------
  // Multi-asset prompt

  /** One tier's memories for every symbol: the texts and the ids, each a dictionary
      from symbol to an optional list. */
  datatype TierTable = TierTable(texts: map<string, Option<seq<string>>>, ids: map<string, Option<seq<int>>>)

  datatype MultiMemories = MultiMemories(short: TierTable, mid: TierTable, long: TierTable, reflection: TierTable)
  {
    function Get(t: Tier): TierTable
    {
      match t
      case Short => short
      case Mid => mid
      case Long => long
      case Reflection => reflection
    }
  }

  /** A piece of a closing prompt: literal text or one of its two placeholders. */
  datatype Piece = Lit(text: string) | TradingSymbols | CurDate

  /** `template.format(trading_symbols=..., cur_date=...)`. */
  function Render(template: seq<Piece>, symbols: string, date: string): string
  {
    if template == [] then ""
    else
      (match template[0]
       case Lit(text) => text
       case TradingSymbols => symbols
       case CurDate => date)
      + Render(template[1..], symbols, date)
  }

  /** The prose of the multi-asset prompt, taken as given. */
  datatype MultiWording = MultiWording(sentimentExplanation: string, momentumExplanation: string,
                                       warmupPrompt: seq<Piece>, testPrompt: seq<Piece>)

  /** The header of one tier of one symbol, `The short-term information for BTC:`. */
  function SymbolHeader(t: Tier, symbol: string): string
  {
    HeaderLead + t.Name() + SymbolHeaderTail + symbol + ":\n"
  }

  const SymbolHeaderTail: string := "-term information for "

  /** One tier of one symbol. The tier is skipped when its texts dictionary is empty or
      the symbol's ids are missing or empty; looking up a symbol the dictionaries lack
      is a `KeyError`, zipping a missing text list a `TypeError`. */
  function SymbolSection(t: Tier, table: TierTable, symbol: string, w: MultiWording): Result<string>
  {
    if |table.texts| == 0 then Ok("")
    else if symbol !in table.ids then Err(KeyError(symbol))
    else if !Given(table.ids[symbol]) then Ok("")
    else if symbol !in table.texts then Err(KeyError(symbol))
    else if table.texts[symbol].None? then Err(TypeError)
    else
      var lines := MemoryLines(table.ids[symbol].value, table.texts[symbol].value, t != Reflection);
      Ok(SymbolHeader(t, symbol) + Join("\n", lines) + Closing(t, w.sentimentExplanation))
  }

  /** A symbol's tier text is non-empty exactly when the tier's dictionaries are non-empty
      and both its ids and its texts are given; it fails exactly on a missing entry. */
  lemma {:induction false} SymbolSectionOutcome(t: Tier, table: TierTable, symbol: string, w: MultiWording)
    ensures var r := SymbolSection(t, table, symbol, w);
      r.Ok? && r.value != [] <==>
        |table.texts| > 0 && symbol in table.ids && Given(table.ids[symbol])
        && symbol in table.texts && table.texts[symbol].Some?
    ensures SymbolSection(t, table, symbol, w).Err? <==>
      |table.texts| > 0 && (symbol !in table.ids || (Given(table.ids[symbol])
      && (symbol !in table.texts || table.texts[symbol].None?)))
  {
    if |table.texts| > 0 && symbol in table.ids && Given(table.ids[symbol])
       && symbol in table.texts && table.texts[symbol].Some? {
      assert |SymbolHeader(t, symbol)| > 0;
    }
  }

  /** The momentum of one symbol: nothing when the momentum dictionary is empty, else
      the explanation and, when the symbol's momentum is -1, 0 or 1, its sentence. */
  function SymbolMomentum(momentum: map<string, Option<int>>, symbol: string, w: MultiWording): (r: Result<string>)
    ensures r.Err? <==> |momentum| > 0 && symbol !in momentum
  {
    if |momentum| == 0 then Ok("")
    else if symbol !in momentum then Err(KeyError(symbol))
    else
      match momentum[symbol]
      case None => Ok(w.momentumExplanation)
      case Some(m) => Ok(AddMomentumInfo(m, w.momentumExplanation))
  }

  /** Two steps one after the other: the first failure is the outcome. */
  function Then(a: Result<string>, b: Result<string>): Result<string>
  {
    if a.Err? then a else if b.Err? then b else Ok(a.value + b.value)
  }

  /** Everything the loop adds for one symbol. */
  function SymbolBlock(symbol: string, memories: MultiMemories, momentum: map<string, Option<int>>,
                       w: MultiWording): Result<string>
  {
    Then(Then(Then(Then(SymbolSection(Short, memories.short, symbol, w),
                        SymbolSection(Mid, memories.mid, symbol, w)),
                   SymbolSection(Long, memories.long, symbol, w)),
              SymbolSection(Reflection, memories.reflection, symbol, w)),
         SymbolMomentum(momentum, symbol, w))
  }

  /** The blocks of the given symbols, in their order; the first failing one decides. */
  function Blocks(symbols: seq<string>, memories: MultiMemories, momentum: map<string, Option<int>>,
                  w: MultiWording): Result<string>
  {
    if symbols == [] then Ok("")
    else Then(Blocks(symbols[..|symbols| - 1], memories, momentum, w),
              SymbolBlock(symbols[|symbols| - 1], memories, momentum, w))
  }

  /** The blocks of two runs of symbols are the blocks of the first followed by the
      blocks of the second. */
  lemma {:induction false} BlocksAppend(xs: seq<string>, ys: seq<string>, memories: MultiMemories,
                                        momentum: map<string, Option<int>>, w: MultiWording)
    ensures Blocks(xs + ys, memories, momentum, w)
         == Then(Blocks(xs, memories, momentum, w), Blocks(ys, memories, momentum, w))
    decreases |ys|
  {
    if ys == [] {
      assert xs + ys == xs;
      ConcatEmpty(if Blocks(xs, memories, momentum, w).Ok? then Blocks(xs, memories, momentum, w).value else "");
    } else {
      var last := ys[|ys| - 1];
      assert (xs + ys)[..|xs + ys| - 1] == xs + ys[..|ys| - 1];
      BlocksAppend(xs, ys[..|ys| - 1], memories, momentum, w);
      var a, b, c := Blocks(xs, memories, momentum, w), Blocks(ys[..|ys| - 1], memories, momentum, w),
                     SymbolBlock(last, memories, momentum, w);
      if a.Ok? && b.Ok? && c.Ok? {
        ConcatAssoc(a.value, b.value, c.value);
      }
    }
  }

  /** The blocks of the first `n` symbols, counted by position: the loop's view of
      `Blocks`. */
  function BlocksUpTo(symbols: seq<string>, n: nat, memories: MultiMemories, momentum: map<string, Option<int>>,
                      w: MultiWording): Result<string>
    requires n <= |symbols|
  {
    if n == 0 then Ok("")
    else Then(BlocksUpTo(symbols, n - 1, memories, momentum, w), SymbolBlock(symbols[n - 1], memories, momentum, w))
  }

  lemma {:induction false} BlocksUpToStep(symbols: seq<string>, i: nat, memories: MultiMemories,
                                          momentum: map<string, Option<int>>, w: MultiWording)
    requires i < |symbols|
    ensures BlocksUpTo(symbols, i + 1, memories, momentum, w)
         == Then(BlocksUpTo(symbols, i, memories, momentum, w), SymbolBlock(symbols[i], memories, momentum, w))
  {
  }

  lemma {:induction false} BlocksLast(xs: seq<string>, memories: MultiMemories,
                                      momentum: map<string, Option<int>>, w: MultiWording)
    requires xs != []
    ensures Blocks(xs, memories, momentum, w)
         == Then(Blocks(xs[..|xs| - 1], memories, momentum, w), SymbolBlock(xs[|xs| - 1], memories, momentum, w))
  {
  }

  /** Counting by position gives the blocks of the prefix. */
  lemma {:induction false} BlocksUpToPrefix(symbols: seq<string>, n: nat, memories: MultiMemories,
                                            momentum: map<string, Option<int>>, w: MultiWording)
    requires n <= |symbols|
    ensures BlocksUpTo(symbols, n, memories, momentum, w) == Blocks(symbols[..n], memories, momentum, w)
  {
    if n > 0 {
      BlocksUpToPrefix(symbols, n - 1, memories, momentum, w);
      BlocksUpToStep(symbols, n - 1, memories, momentum, w);
      BlocksLast(symbols[..n], memories, momentum, w);
      assert symbols[..n][..n - 1] == symbols[..n - 1];
      assert symbols[..n][n - 1] == symbols[n - 1];
    }
  }

  lemma {:induction false} BlocksUpToAll(symbols: seq<string>, memories: MultiMemories,
                                         momentum: map<string, Option<int>>, w: MultiWording)
    ensures BlocksUpTo(symbols, |symbols|, memories, momentum, w) == Blocks(symbols, memories, momentum, w)
  {
    BlocksUpToPrefix(symbols, |symbols|, memories, momentum, w);
    assert symbols[..|symbols|] == symbols;
  }

  /** Where the loop stops, at the end or at a failure, it has the blocks of all symbols. */
  lemma {:induction false} BlocksUpToFinal(symbols: seq<string>, n: nat, memories: MultiMemories,
                                           momentum: map<string, Option<int>>, w: MultiWording)
    requires n <= |symbols|
    requires n == |symbols| || BlocksUpTo(symbols, n, memories, momentum, w).Err?
    ensures Blocks(symbols, memories, momentum, w) == BlocksUpTo(symbols, n, memories, momentum, w)
  {
    if n == |symbols| {
      BlocksUpToAll(symbols, memories, momentum, w);
    } else {
      BlocksUpToFails(symbols, n, memories, momentum, w);
    }
  }

  lemma {:induction false} BlocksUpToFails(symbols: seq<string>, n: nat, memories: MultiMemories,
                                           momentum: map<string, Option<int>>, w: MultiWording)
    requires n <= |symbols|
    requires BlocksUpTo(symbols, n, memories, momentum, w).Err?
    ensures Blocks(symbols, memories, momentum, w) == BlocksUpTo(symbols, n, memories, momentum, w)
  {
    BlocksUpToPrefix(symbols, n, memories, momentum, w);
    BlocksFailEarly(symbols, n, memories, momentum, w);
  }

  /** Once a prefix of the symbols fails, the whole walk fails the same way. */
  lemma {:induction false} BlocksFailEarly(symbols: seq<string>, i: nat, memories: MultiMemories,
                                           momentum: map<string, Option<int>>, w: MultiWording)
    requires i <= |symbols|
    requires Blocks(symbols[..i], memories, momentum, w).Err?
    ensures Blocks(symbols, memories, momentum, w) == Blocks(symbols[..i], memories, momentum, w)
  {
    assert symbols == symbols[..i] + symbols[i..];
    BlocksAppend(symbols[..i], symbols[i..], memories, momentum, w);
  }

  /** The opening of the multi-asset prompt, which names the symbols joined by commas. */
  function AssetOpening(mode: RunMode, symbols: string, date: string): string
  {
    if mode == Warmup then DateLead + date + FactsLead + symbols + ".\n\n"
    else AssetTickerLead + symbols + DateJoin + date + "."
  }

  const AssetTickerLead: string := "The ticker of the asset to be analyzed is "

  /** `MultiAssetsVLLMPromptConstructor.__call__`. A warmup run first looks up every
      symbol's future record (the formatted price difference is then discarded), so a
      missing one is a `KeyError`; then each symbol's block is added in order, and the
      closing prompt of the run mode ends the text. */
  function MultiAssetPrompt(date: Date, symbols: seq<string>, mode: RunMode,
                            futureRecord: map<string, Option<string>>, memories: MultiMemories,
                            momentum: map<string, Option<int>>, w: MultiWording): (r: Result<string>)
  {
    var listed, day := SymbolListRepr(symbols), DateText(date);
    var n := CoveredPrefix(symbols, futureRecord);
    if mode == Warmup && n < |symbols| then Err(KeyError(symbols[n]))
    else
      match Blocks(symbols, memories, momentum, w)
      case Err(e) => Err(e)
      case Ok(body) =>
        Ok(AssetOpening(mode, listed, day) + body
           + Render(if mode == Warmup then w.warmupPrompt else w.testPrompt, listed, day))
  }

  /** A multi-asset prompt fails exactly when a warmup run lacks a symbol's future record
      or a symbol's block fails; a prompt that is produced opens with the opening of the
      run mode and ends with that mode's closing prompt, filled with the symbol list and
      the date. */
  lemma {:induction false} MultiAssetOutcome(date: Date, symbols: seq<string>, mode: RunMode,
                          futureRecord: map<string, Option<string>>, memories: MultiMemories,
                          momentum: map<string, Option<int>>, w: MultiWording)
    ensures MultiAssetPrompt(date, symbols, mode, futureRecord, memories, momentum, w).Err? <==>
      (mode == Warmup && CoveredPrefix(symbols, futureRecord) < |symbols|)
      || Blocks(symbols, memories, momentum, w).Err?
    ensures var r := MultiAssetPrompt(date, symbols, mode, futureRecord, memories, momentum, w);
      var listed, day := SymbolListRepr(symbols), DateText(date);
      var opening := AssetOpening(mode, listed, day);
      var closing := Render(if mode == Warmup then w.warmupPrompt else w.testPrompt, listed, day);
      r.Ok? ==>
        |opening| + |closing| <= |r.value| && r.value[..|opening|] == opening
        && r.value[|r.value| - |closing|..] == closing
  {
    var r := MultiAssetPrompt(date, symbols, mode, futureRecord, memories, momentum, w);
    if r.Ok? {
      var listed, day := SymbolListRepr(symbols), DateText(date);
      var opening := AssetOpening(mode, listed, day);
      var closing := Render(if mode == Warmup then w.warmupPrompt else w.testPrompt, listed, day);
      Bracketed(opening, Blocks(symbols, memories, momentum, w).value, closing);
    }
  }

  /** A text made of an opening, a body and a closing starts with the opening and ends
      with the closing. */
  lemma {:induction false} Bracketed(opening: string, body: string, closing: string)
    ensures var t := opening + body + closing;
      |opening| + |closing| <= |t| && t[..|opening|] == opening && t[|t| - |closing|..] == closing
  {
    var t := opening + body + closing;
    assert t[..|opening|] == opening;
    assert t[|t| - |closing|..] == closing;
  }

  /** The future records never reach the text: only which symbols have one matters. */
  lemma {:induction false} FutureRecordDiscarded(date: Date, symbols: seq<string>, mode: RunMode,
                              fr1: map<string, Option<string>>, fr2: map<string, Option<string>>,
                              memories: MultiMemories, momentum: map<string, Option<int>>, w: MultiWording)
    requires fr1.Keys == fr2.Keys
    ensures MultiAssetPrompt(date, symbols, mode, fr1, memories, momentum, w)
         == MultiAssetPrompt(date, symbols, mode, fr2, memories, momentum, w)
  {
  }

  /** The symbols' blocks appear in the order of `symbols`: the text for a list of
      symbols is the text for its first part followed by the text for the rest. */
  lemma {:induction false} SymbolOrder(date: Date, xs: seq<string>, ys: seq<string>, memories: MultiMemories,
                    momentum: map<string, Option<int>>, w: MultiWording)
    requires Blocks(xs + ys, memories, momentum, w).Ok?
    ensures Blocks(xs, memories, momentum, w).Ok? && Blocks(ys, memories, momentum, w).Ok?
    ensures Blocks(xs + ys, memories, momentum, w).value
         == Blocks(xs, memories, momentum, w).value + Blocks(ys, memories, momentum, w).value
  {
    BlocksAppend(xs, ys, memories, momentum, w);
  }

  /** The warmup loop that looks every symbol's future record up: it stops at the
      first symbol without one. */
  method LookUpFutureRecords(symbols: seq<string>, futureRecord: map<string, Option<string>>) returns (n: nat)
    ensures n == CoveredPrefix(symbols, futureRecord)
  {
    n := 0;
    while n < |symbols|
      invariant 0 <= n <= |symbols|
      invariant forall k :: 0 <= k < n ==> symbols[k] in futureRecord
    {
      if symbols[n] !in futureRecord {
        return;
      }
      n := n + 1;
    }
  }

  /** One turn of the loop: the next symbol's block after what is written so far. */
  method AppendBlock(symbols: seq<string>, i: nat, body: string, memories: MultiMemories,
                     momentum: map<string, Option<int>>, w: MultiWording) returns (r: Result<string>)
    requires i < |symbols| && BlocksUpTo(symbols, i, memories, momentum, w) == Ok(body)
    ensures r == BlocksUpTo(symbols, i + 1, memories, momentum, w)
  {
    BlocksUpToStep(symbols, i, memories, momentum, w);
    var block := SymbolBlock(symbols[i], memories, momentum, w);
    if block.Err? {
      return Err(block.error);
    }
    r := Ok(body + block.value);
  }

  /** The loop that appends each symbol's block to the text, stopping at the first
      failure. */
  method AppendBlocks(symbols: seq<string>, memories: MultiMemories, momentum: map<string, Option<int>>,
                      w: MultiWording) returns (r: Result<string>)
    ensures r == Blocks(symbols, memories, momentum, w)
  {
    r := Ok("");
    var i := 0;
    while i < |symbols| && r.Ok?
      invariant 0 <= i <= |symbols|
      invariant r == BlocksUpTo(symbols, i, memories, momentum, w)
    {
      r := AppendBlock(symbols, i, r.value, memories, momentum, w);
      i := i + 1;
    }
    BlocksUpToFinal(symbols, i, memories, momentum, w);
  }


  /** The constructor as the source writes it: in a warmup run a loop over the symbols'
      future records, then a loop that appends each symbol's block, then the closing
      prompt. */
  method BuildMultiAssetPrompt(date: Date, symbols: seq<string>, mode: RunMode,
                               futureRecord: map<string, Option<string>>, memories: MultiMemories,
                               momentum: map<string, Option<int>>, w: MultiWording) returns (r: Result<string>)
    ensures r == MultiAssetPrompt(date, symbols, mode, futureRecord, memories, momentum, w)
  {
    var listed, day := SymbolListRepr(symbols), DateText(date);
    var opening := AssetOpening(mode, listed, day);
    if mode == Warmup {
      var n := LookUpFutureRecords(symbols, futureRecord);
      if n < |symbols| {
        return Err(KeyError(symbols[n]));
      }
    }
    var body := AppendBlocks(symbols, memories, momentum, w);
    if body.Err? {
      return Err(body.error);
    }
    r := Ok(opening + body.value + Render(if mode == Warmup then w.warmupPrompt else w.testPrompt, listed, day));
  }
}
