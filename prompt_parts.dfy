/** What the guardrail and the vLLM prompt constructors share: the symbol
    classification, the momentum sentence, the `"<id>. <text>"` memory lines, the
    memory lists handed to a single-asset constructor and the prose each asset type's
    prompts are written in. */
module PromptParts {
  import opened Common
  import opened Text
  import opened Tiers

  datatype AssetType = Stock | Etf | Crypto

  const StockSymbols: set<string> := {"MSFT", "JNJ", "UVV", "HON", "TSLA", "AAPL", "NIO"}
  const CryptoSymbols: set<string> := {"BTC", "ETH"}
  const EtfSymbols: set<string> := {"ETF"}

  /** The asset type a symbol's prompt is written for; any other symbol is rejected
      with a `ValueError` naming it. */
  function Classify(symbol: string): (r: Result<AssetType>)
    ensures r.Ok? <==> symbol in StockSymbols + CryptoSymbols + EtfSymbols
    ensures r == Ok(Stock) <==> symbol in StockSymbols
    ensures r == Ok(Crypto) <==> symbol in CryptoSymbols
    ensures r == Ok(Etf) <==> symbol in EtfSymbols
    ensures r.Err? ==> r.error == ValueError("Invalid symbol: " + symbol)
  {
    if symbol in StockSymbols then Ok(Stock)
    else if symbol in CryptoSymbols then Ok(Crypto)
    else if symbol in EtfSymbols then Ok(Etf)
    else Err(ValueError("Invalid symbol: " + symbol))
  }

  /** The three sentences `_add_momentum_info` knows, for momentum -1, 0 and 1. */
  function MomentumSentence(momentum: int): string
    requires -1 <= momentum <= 1
  {
    if momentum == -1 then "The cumulative return of past 3 days is negative."
    else if momentum == 0 then "The cumulative return of past 3 days is zero."
    else "The cumulative return of past 3 days is positive."
  }

  /** `_add_momentum_info`: the sentence for -1, 0 or 1 is appended; any other value
      leaves the text as it was. */
  function AddMomentumInfo(momentum: int, info: string): (r: string)
    ensures info <= r
    ensures -1 <= momentum <= 1 ==> r == info + MomentumSentence(momentum)
    ensures r == info <==> !(-1 <= momentum <= 1)
  {
    if -1 <= momentum <= 1 then info + MomentumSentence(momentum) else info
  }

  /** The appended sentence tells the three momentum values apart. */
  lemma {:induction false} MomentumSentenceInjective(m1: int, m2: int)
    requires -1 <= m1 <= 1 && -1 <= m2 <= 1
    ensures MomentumSentence(m1) == MomentumSentence(m2) <==> m1 == m2
  {
    var s1, s2 := MomentumSentence(m1), MomentumSentence(m2);
    if m1 != m2 {
      assert s1[40] != s2[40];
    }
  }

  /** Appending the momentum sentence to a longer text appends it to its tail. */
  lemma {:induction false} AddMomentumAppends(momentum: int, head: string, tail: string)
    ensures AddMomentumInfo(momentum, head + tail) == head + AddMomentumInfo(momentum, tail)
  {
  }

  /** One memory line, `f"{id}. {text.strip()}"`, or without the strip. */
  function MemoryLine(id: int, text: string, strip: bool): string
  {
    IntToString(id) + ". " + (if strip then Strip(text) else text)
  }

  /** The memory lines of `zip(ids, texts)`: as many as the shorter list has items. */
  function MemoryLines(ids: seq<int>, texts: seq<string>, strip: bool): (r: seq<string>)
    ensures |r| == if |ids| <= |texts| then |ids| else |texts|
    ensures forall k :: 0 <= k < |r| ==> r[k] == MemoryLine(ids[k], texts[k], strip)
  {
    if ids == [] || texts == [] then []
    else [MemoryLine(ids[0], texts[0], strip)] + MemoryLines(ids[1..], texts[1..], strip)
  }

  /** A memory line starts with its id, which reads back as the same number. */
  lemma {:induction false} MemoryLineCitesId(id: int, text: string, strip: bool)
    ensures var n := |IntToString(id)|;
      n <= |MemoryLine(id, text, strip)|
      && IsIntText(MemoryLine(id, text, strip)[..n])
      && ParseInt(MemoryLine(id, text, strip)[..n]) == id
  {
    var line := MemoryLine(id, text, strip);
    assert line[..|IntToString(id)|] == IntToString(id);
    IntRoundTrip(id);
  }

  /** The fixed wording around a tier's name in its header. */
  const HeaderLead: string := "The "
  const HeaderTail: string := "-term information:\n"

  /** The header that opens a tier's memory section, `The short-term information:`. */
  function Header(t: Tier): string
  {
    HeaderLead + t.Name() + HeaderTail
  }

  lemma {:induction false} ConcatAssoc(a: string, b: string, c: string)
    ensures a + b + c == a + (b + c)
  {
  }

  lemma {:induction false} ConcatEmpty(a: string)
    ensures a + "" == a
  {
  }

  /** Text that occurs in a prefix occurs at the same place in the whole. */
  lemma {:induction false} OccursInExtension(s: string, sub: string, at: nat, tail: string)
    requires OccursAt(s, sub, at)
    ensures OccursAt(s + tail, sub, at)
  {
    assert (s + tail)[at..at + |sub|] == s[at..at + |sub|];
  }

  /** Text that occurs in a prefix occurs at the same place in anything the prefix
      begins. */
  lemma {:induction false} OccursInLonger(s: string, sub: string, at: nat, whole: string)
    requires OccursAt(s, sub, at) && s <= whole
    ensures OccursAt(whole, sub, at)
  {
    assert whole[at..at + |sub|] == s[at..at + |sub|];
  }

  /** Text that occurs in a suffix occurs shifted by the length of what precedes it. */
  lemma {:induction false} OccursShifted(head: string, s: string, sub: string, at: nat)
    requires OccursAt(s, sub, at)
    ensures OccursAt(head + s, sub, |head| + at)
  {
    assert (head + s)[|head| + at..|head| + at + |sub|] == s[at..at + |sub|];
  }

  /** A piece of a concatenation occurs where it was put. */
  lemma {:induction false} OccursBetween(head: string, sub: string, tail: string)
    ensures OccursAt(head + sub + tail, sub, |head|)
  {
    assert (head + sub + tail)[|head|..|head| + |sub|] == sub;
  }

  /** `str(future_record)` for a float that may be missing: the float's rendering is
      given, a missing one prints as `None`. */
  function RecordText(futureRecord: Option<string>): string
  {
    match futureRecord
    case None => "None"
    case Some(text) => text
  }

  /** The memory texts and ids of one tier as a single-asset constructor receives them;
      either may be missing. */
  datatype TierMemory = TierMemory(texts: Option<seq<string>>, ids: Option<seq<int>>)

  /** The four tiers' memories of one single-asset prompt. */
  datatype Memories = Memories(short: TierMemory, mid: TierMemory, long: TierMemory, reflection: TierMemory)
  {
    function Get(t: Tier): TierMemory
    {
      match t
      case Short => short
      case Mid => mid
      case Long => long
      case Reflection => reflection
    }
  }

  /** The prose of one asset type's prompts, taken as given: the sentiment and momentum
      explanations and the prompt that closes a warmup or a test run. */
  datatype Wording = Wording(sentimentExplanation: string, momentumExplanation: string,
                             warmupPrompt: string, testPrompt: string)

  /** The prose of the stock, cryptocurrency and ETF prompts. */
  datatype Catalogue = Catalogue(stock: Wording, crypto: Wording, etf: Wording)
  {
    function For(a: AssetType): Wording
    {
      match a
      case Stock => stock
      case Crypto => crypto
      case Etf => etf
    }
  }

  /** The fixed wording of the warmup and test openings. */
  const DateLead: string := "The current date is "
  const FactsLead: string := ". Here are the observed financial market facts: for "
  const DiffLead: string := ", the price difference between the next trading day and the current trading day is: "
  const TickerLead: string := "The ticker of the "
  const AnalyzedLead: string := " to be analyzed is "
  const DateJoin: string := " and the current date is "
  const EtfName: string := "SPDR S&P 500 ETF Trust"

  /** The warmup opening of a single-asset prompt: the date and the next day's price
      change, which only a warmup run knows. The ETF prompt names the fund instead of
      the symbol. */
  function WarmupPrefix(a: AssetType, date: string, symbol: string, record: string): (r: string)
    ensures |r| >= |record| + 2 && OccursAt(r, record, |r| - |record| - 2)
  {
    var head := DateLead + date + FactsLead
                + (if a == Etf then EtfName else symbol)
                + DiffLead;
    assert (head + record + "\n\n")[|head|..|head| + |record|] == record;
    head + record + "\n\n"
  }

  /** The test opening of a single-asset prompt, which names what is analysed as `noun`. */
  function TestPrefix(noun: string, name: string, date: string): string
  {
    TickerLead + noun + AnalyzedLead + name + DateJoin + date
  }
}
