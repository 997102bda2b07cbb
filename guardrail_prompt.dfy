/** The prompt of the guardrail endpoint for one asset: every tier is shown, a tier
    without memories as two placeholder lines, followed by the momentum when it is
    known; the instruction prompt is the warmup or the test one. */
module GuardrailPrompt {
  import opened Common
  import opened Text
  import opened Tiers
  import opened PromptParts

  /** What a tier without memories shows: `No short-term information.` */
  function Placeholder(t: Tier): string
  {
    "No " + t.Name() + "-term information."
  }

  /** A tier with exactly one memory and one id. */
  predicate Single(m: TierMemory)
  {
    m.texts.Some? && m.ids.Some? && |m.texts.value| == 1 && |m.ids.value| == 1
  }

  /** Texts and ids are either both given or both missing. */
  predicate Consistent(m: TierMemory)
  {
    m.texts.None? == m.ids.None?
  }

  /** `_format_memories` for one tier: a tier with neither list gets two placeholder
      lines citing id -1, a single memory is shown twice, anything else is kept. */
  function FormatTier(t: Tier, m: TierMemory): (r: TierMemory)
    ensures r.texts.Some? && r.ids.Some? <==> Consistent(m)
    ensures !Single(r)
  {
    if m.texts.None? && m.ids.None? then
      TierMemory(Some([Placeholder(t), Placeholder(t)]), Some([-1, -1]))
    else if Single(m) then
      TierMemory(Some([m.texts.value[0], m.texts.value[0]]), Some([m.ids.value[0], m.ids.value[0]]))
    else m
  }

  /** The three cases of `_format_memories`, tier by tier. */
  lemma {:induction false} FormatTierCases(t: Tier, m: TierMemory)
    ensures m.texts.None? && m.ids.None? ==>
      FormatTier(t, m) == TierMemory(Some([Placeholder(t), Placeholder(t)]), Some([-1, -1]))
    ensures Single(m) ==>
      FormatTier(t, m).texts == Some([m.texts.value[0], m.texts.value[0]])
      && FormatTier(t, m).ids == Some([m.ids.value[0], m.ids.value[0]])
    ensures !(m.texts.None? && m.ids.None?) && !Single(m) ==> FormatTier(t, m) == m
  {
  }

  /** Formatting twice is formatting once: placeholders and doubled memories are left
      alone. */
  lemma {:induction false} FormatTierIdempotent(t: Tier, m: TierMemory)
    ensures FormatTier(t, FormatTier(t, m)) == FormatTier(t, m)
  {
  }

  /** `_format_memories`: each tier is formatted on its own. */
  function FormatMemories(m: Memories): (r: Memories)
    ensures forall t: Tier :: r.Get(t) == FormatTier(t, m.Get(t))
  {
    Memories(FormatTier(Short, m.short), FormatTier(Mid, m.mid),
             FormatTier(Long, m.long), FormatTier(Reflection, m.reflection))
  }

  predicate AllConsistent(m: Memories)
  {
    Consistent(m.short) && Consistent(m.mid) && Consistent(m.long) && Consistent(m.reflection)
  }

  predicate Complete(m: TierMemory)
  {
    m.texts.Some? && m.ids.Some?
  }

  /** A tier's section: its header and one stripped line per memory. */
  function Section(t: Tier, m: TierMemory): string
    requires Complete(m)
  {
    Header(t) + Join("\n", MemoryLines(m.ids.value, m.texts.value, true))
  }

  /** The four sections in tier order, the sentiment explanation after the short one. */
  function MemoryBlock(f: Memories, w: Wording): string
    requires Complete(f.short) && Complete(f.mid) && Complete(f.long) && Complete(f.reflection)
  {
    Section(Short, f.short) + w.sentimentExplanation + "\n\n"
    + Section(Mid, f.mid) + "\n\n"
    + Section(Long, f.long) + "\n\n"
    + Section(Reflection, f.reflection) + "\n\n"
  }

  /** How the guardrail prompt calls the analysed asset in a test run. */
  function TestNoun(a: AssetType): string
  {
    match a
    case Stock => "stock"
    case Crypto => "cryptocurrency"
    case Etf => EtfName
  }

  /** The opening: the warmup one carries the next day's price change. */
  function Opening(a: AssetType, mode: RunMode, date: Date, symbol: string, futureRecord: Option<string>): string
  {
    if mode == Warmup then WarmupPrefix(a, DateText(date), symbol, RecordText(futureRecord))
    else TestPrefix(TestNoun(a), if a == Etf then EtfName else symbol, DateText(date))
  }

  /** `GuardrailPromptConstructor.__call__`: the investment information and the prompt
      that validates the answer. An unknown symbol is a `ValueError`; a tier given only
      texts or only ids cannot be zipped, a `TypeError`. */
  function Construct(date: Date, symbol: string, mode: RunMode, futureRecord: Option<string>,
                     memories: Memories, momentum: Option<int>, c: Catalogue): (r: Result<(string, string)>)
    ensures r.Ok? <==> Classify(symbol).Ok? && AllConsistent(memories)
    ensures Classify(symbol).Err? ==> r == Err(ValueError("Invalid symbol: " + symbol))
    ensures r.Ok? ==> r.value.1 == (if mode == Warmup then c.For(Classify(symbol).value).warmupPrompt
                                    else c.For(Classify(symbol).value).testPrompt)
  {
    match Classify(symbol)
    case Err(e) => Err(e)
    case Ok(a) =>
      var w := c.For(a);
      var f := FormatMemories(memories);
      if !(Complete(f.short) && Complete(f.mid) && Complete(f.long) && Complete(f.reflection)) then
        Err(TypeError)
      else
        var info := Opening(a, mode, date, symbol, futureRecord) + MemoryBlock(f, w);
        var info' := if momentum.Some? then AddMomentumInfo(momentum.value, info + w.momentumExplanation) else info;
        Ok((info', if mode == Warmup then w.warmupPrompt else w.testPrompt))
  }

  /** The information is the opening, the memory sections and the momentum block, in
      that order. */
  lemma {:induction false} InformationLayout(date: Date, symbol: string, mode: RunMode, futureRecord: Option<string>,
                          memories: Memories, momentum: Option<int>, c: Catalogue)
    requires Construct(date, symbol, mode, futureRecord, memories, momentum, c).Ok?
    ensures var a := Classify(symbol).value;
      var f := FormatMemories(memories);
      Complete(f.short) && Complete(f.mid) && Complete(f.long) && Complete(f.reflection)
      && Construct(date, symbol, mode, futureRecord, memories, momentum, c).value.0
         == Opening(a, mode, date, symbol, futureRecord) + MemoryBlock(f, c.For(a))
            + MomentumBlock(momentum, c.For(a))
  {
    var a := Classify(symbol).value;
    var w := c.For(a);
    var f := FormatMemories(memories);
    var o, body := Opening(a, mode, date, symbol, futureRecord), MemoryBlock(f, w);
    if momentum.Some? {
      AddMomentumAppends(momentum.value, o + body, w.momentumExplanation);
    } else {
      ConcatEmpty(o + body);
    }
  }

  /** What follows the last section: the momentum explanation and sentence, or nothing
      when the momentum is unknown. */
  function MomentumBlock(momentum: Option<int>, w: Wording): string
  {
    match momentum
    case None => ""
    case Some(m) => AddMomentumInfo(m, w.momentumExplanation)
  }

  /** The information opens with the warmup opening in a warmup run and with the test
      opening otherwise. */
  lemma {:induction false} OpensByMode(date: Date, symbol: string, mode: RunMode, futureRecord: Option<string>,
                    memories: Memories, momentum: Option<int>, c: Catalogue)
    requires Construct(date, symbol, mode, futureRecord, memories, momentum, c).Ok?
    ensures var a := Classify(symbol).value;
      var info := Construct(date, symbol, mode, futureRecord, memories, momentum, c).value.0;
      (mode == Warmup ==> WarmupPrefix(a, DateText(date), symbol, RecordText(futureRecord)) <= info)
      && (mode != Warmup ==> TestPrefix(TestNoun(a), if a == Etf then EtfName else symbol, DateText(date)) <= info)
  {
    InformationLayout(date, symbol, mode, futureRecord, memories, momentum, c);
    var a := Classify(symbol).value;
    PrefixOfThree(Opening(a, mode, date, symbol, futureRecord), MemoryBlock(FormatMemories(memories), c.For(a)),
                  MomentumBlock(momentum, c.For(a)));
  }

  lemma {:induction false} PrefixOfThree(o: string, body: string, tail: string)
    ensures o <= o + body + tail
  {
    assert (o + body + tail)[..|o|] == o;
  }

  /** The momentum only adds its explanation and sentence at the very end: the
      information with a momentum is the information without one followed by them,
      so a momentum of 0 does show the "zero" sentence. */
  lemma {:induction false} MomentumOnlyAppends(date: Date, symbol: string, mode: RunMode, futureRecord: Option<string>,
                            memories: Memories, momentum: int, c: Catalogue)
    requires Construct(date, symbol, mode, futureRecord, memories, None, c).Ok?
    ensures var without := Construct(date, symbol, mode, futureRecord, memories, None, c).value;
      var with := Construct(date, symbol, mode, futureRecord, memories, Some(momentum), c);
      with.Ok?
      && with.value.0 == without.0 + AddMomentumInfo(momentum, c.For(Classify(symbol).value).momentumExplanation)
      && with.value.1 == without.1
  {
    var a := Classify(symbol).value;
    var w := c.For(a);
    var f := FormatMemories(memories);
    var info := Opening(a, mode, date, symbol, futureRecord) + MemoryBlock(f, w);
    AddMomentumAppends(momentum, info, w.momentumExplanation);
  }

  /** A warmup prompt cites the next day's price change. */
  lemma {:induction false} WarmupCitesFutureRecord(date: Date, symbol: string, futureRecord: Option<string>,
                                memories: Memories, momentum: Option<int>, c: Catalogue)
    requires Construct(date, symbol, Warmup, futureRecord, memories, momentum, c).Ok?
    ensures exists at: nat :: OccursAt(Construct(date, symbol, Warmup, futureRecord, memories, momentum, c).value.0,
                                       RecordText(futureRecord), at)
  {
    InformationLayout(date, symbol, Warmup, futureRecord, memories, momentum, c);
    var a := Classify(symbol).value;
    var record := RecordText(futureRecord);
    var p := WarmupPrefix(a, DateText(date), symbol, record);
    OccursAmid(p, record, |p| - |record| - 2,
               MemoryBlock(FormatMemories(memories), c.For(a)), MomentumBlock(momentum, c.For(a)));
  }

  /** Text found in the first of three pieces is found at the same place in all three. */
  lemma {:induction false} OccursAmid(s: string, sub: string, at: nat, body: string, tail: string)
    requires OccursAt(s, sub, at)
    ensures OccursAt(s + body + tail, sub, at)
  {
    OccursInExtension(s, sub, at, body);
    OccursInExtension(s + body, sub, at, tail);
  }

  lemma {:induction false} SectionOpensWithHeader(t: Tier, m: TierMemory)
    requires Complete(m)
    ensures OccursAt(Section(t, m), Header(t), 0)
  {
    OccursBetween("", Header(t), Join("\n", MemoryLines(m.ids.value, m.texts.value, true)));
    assert "" + Header(t) + Join("\n", MemoryLines(m.ids.value, m.texts.value, true)) == Section(t, m);
  }

  /** The short header opens the memory sections. */
  lemma {:induction false} ShortHeaderAt(f: Memories, w: Wording)
    requires Complete(f.short) && Complete(f.mid) && Complete(f.long) && Complete(f.reflection)
    ensures OccursAt(MemoryBlock(f, w), Header(Short), 0)
  {
    var s1 := Section(Short, f.short);
    SectionOpensWithHeader(Short, f.short);
    assert s1 <= MemoryBlock(f, w);
    OccursInLonger(s1, Header(Short), 0, MemoryBlock(f, w));
  }

  /** A section that follows `head` in the memory sections shows its header where it
      starts. */
  lemma {:induction false} HeaderAfter(block: string, head: string, t: Tier, m: TierMemory)
    requires Complete(m) && head + Section(t, m) <= block
    ensures OccursAt(block, Header(t), |head|)
  {
    var s := Section(t, m);
    SectionOpensWithHeader(t, m);
    OccursShifted(head, s, Header(t), 0);
    OccursInLonger(head + s, Header(t), |head|, block);
  }

  /** Where the four headers stand in the memory sections. */
  lemma {:induction false} SectionHeaders(f: Memories, w: Wording)
    requires Complete(f.short) && Complete(f.mid) && Complete(f.long) && Complete(f.reflection)
    ensures var s1, s2, s3 := Section(Short, f.short), Section(Mid, f.mid), Section(Long, f.long);
      var i2 := |s1 + w.sentimentExplanation + "\n\n"|;
      var i3 := |s1 + w.sentimentExplanation + "\n\n" + s2 + "\n\n"|;
      var i4 := |s1 + w.sentimentExplanation + "\n\n" + s2 + "\n\n" + s3 + "\n\n"|;
      0 < i2 < i3 < i4
      && OccursAt(MemoryBlock(f, w), Header(Short), 0) && OccursAt(MemoryBlock(f, w), Header(Mid), i2)
      && OccursAt(MemoryBlock(f, w), Header(Long), i3) && OccursAt(MemoryBlock(f, w), Header(Reflection), i4)
  {
    var block := MemoryBlock(f, w);
    var s1, s2, s3, s4 := Section(Short, f.short), Section(Mid, f.mid), Section(Long, f.long), Section(Reflection, f.reflection);
    var p2 := s1 + w.sentimentExplanation + "\n\n";
    var p3 := p2 + s2 + "\n\n";
    var p4 := p3 + s3 + "\n\n";
    assert block == p4 + s4 + "\n\n";
    ShortHeaderAt(f, w);
    HeaderAfter(block, p2, Mid, f.mid);
    HeaderAfter(block, p3, Long, f.long);
    HeaderAfter(block, p4, Reflection, f.reflection);
  }

  /** Headers found in the memory sections are found, shifted, once the opening is put
      before them and the momentum block after them. */
  lemma {:induction false} HeadersCarried(o: string, body: string, tail: string, i2: nat, i3: nat, i4: nat)
    requires OccursAt(body, Header(Short), 0) && OccursAt(body, Header(Mid), i2)
    requires OccursAt(body, Header(Long), i3) && OccursAt(body, Header(Reflection), i4)
    ensures OccursAt(o + body + tail, Header(Short), |o|) && OccursAt(o + body + tail, Header(Mid), |o| + i2)
    ensures OccursAt(o + body + tail, Header(Long), |o| + i3) && OccursAt(o + body + tail, Header(Reflection), |o| + i4)
  {
    OccursInMiddle(o, body, tail, Header(Short), 0);
    OccursInMiddle(o, body, tail, Header(Mid), i2);
    OccursInMiddle(o, body, tail, Header(Long), i3);
    OccursInMiddle(o, body, tail, Header(Reflection), i4);
  }

  /** Text found in the middle of three pieces is found shifted by the first. */
  lemma {:induction false} OccursInMiddle(o: string, body: string, tail: string, sub: string, at: nat)
    requires OccursAt(body, sub, at)
    ensures OccursAt(o + body + tail, sub, |o| + at)
  {
    OccursShifted(o, body, sub, at);
    OccursInExtension(o + body, sub, |o| + at, tail);
  }

  /** The four tier headers appear after the opening, short, mid, long and reflection in
      that order, whatever memories were given. */
  lemma {:induction false} HeadersInOrder(date: Date, symbol: string, mode: RunMode, futureRecord: Option<string>,
                       memories: Memories, momentum: Option<int>, c: Catalogue)
    requires Construct(date, symbol, mode, futureRecord, memories, momentum, c).Ok?
    ensures var info := Construct(date, symbol, mode, futureRecord, memories, momentum, c).value.0;
      exists i1: nat, i2: nat, i3: nat, i4: nat ::
        |Opening(Classify(symbol).value, mode, date, symbol, futureRecord)| == i1 < i2 < i3 < i4
        && OccursAt(info, Header(Short), i1) && OccursAt(info, Header(Mid), i2)
        && OccursAt(info, Header(Long), i3) && OccursAt(info, Header(Reflection), i4)
  {
    InformationLayout(date, symbol, mode, futureRecord, memories, momentum, c);
    var a := Classify(symbol).value;
    HeadersAround(Opening(a, mode, date, symbol, futureRecord), FormatMemories(memories), c.For(a),
                  MomentumBlock(momentum, c.For(a)));
  }

  /** The headers of the memory sections, between any opening and any tail. */
  lemma {:induction false} HeadersAround(o: string, f: Memories, w: Wording, tail: string)
    requires Complete(f.short) && Complete(f.mid) && Complete(f.long) && Complete(f.reflection)
    ensures var info := o + MemoryBlock(f, w) + tail;
      exists i1: nat, i2: nat, i3: nat, i4: nat ::
        |o| == i1 < i2 < i3 < i4
        && OccursAt(info, Header(Short), i1) && OccursAt(info, Header(Mid), i2)
        && OccursAt(info, Header(Long), i3) && OccursAt(info, Header(Reflection), i4)
  {
    var body := MemoryBlock(f, w);
    SectionHeaders(f, w);
    var s1, s2, s3 := Section(Short, f.short), Section(Mid, f.mid), Section(Long, f.long);
    var i2 := |s1 + w.sentimentExplanation + "\n\n"|;
    var i3 := |s1 + w.sentimentExplanation + "\n\n" + s2 + "\n\n"|;
    var i4 := |s1 + w.sentimentExplanation + "\n\n" + s2 + "\n\n" + s3 + "\n\n"|;
    HeadersCarried(o, body, tail, i2, i3, i4);
    assert OccursAt(o + body + tail, Header(Short), |o|);
  }
}
