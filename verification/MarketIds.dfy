/** Market ids: a base and a quote asset and which of them is the collateral, printed as one string. A plus
    marks the collateral where it is not the default one. */
module MarketIds {
  import opened Wrappers

  datatype MarketType = CollateralIsQuote | CollateralIsBase

  datatype MarketId = MarketId(base: string, quote: string, marketType: MarketType)

  predicate IsFiat(s: string) {
    s == "USD" || s == "EUR"
  }

  /** `make_encoded` */
  function Encode(id: MarketId): string {
    var fiat := IsFiat(id.quote);
    var basePlus := if id.marketType.CollateralIsBase? && !fiat then "+" else "";
    var quotePlus := if id.marketType.CollateralIsQuote? && fiat then "+" else "";
    id.base + basePlus + "_" + id.quote + quotePlus
  }

  /** `split_once` on an underscore. */
  function SplitOnce(s: string): Option<(string, string)> {
    if s == [] then None
    else if s[0] == '_' then Some(([], s[1..]))
    else
      match SplitOnce(s[1..])
      case None => None
      case Some((before, after)) => Some(([s[0]] + before, after))
  }

  predicate EndsWithPlus(s: string) {
    s != [] && s[|s| - 1] == '+'
  }

  /** `strip_suffix('+')` */
  function StripPlus(s: string): Option<string> {
    if EndsWithPlus(s) then Some(s[..|s| - 1]) else None
  }

  function ParseType(basePlus: bool, quotePlus: bool, quote: string): Option<MarketType> {
    if basePlus && quotePlus then None
    else if basePlus then Some(CollateralIsBase)
    else if quotePlus then Some(CollateralIsQuote)
    else Some(if IsFiat(quote) then CollateralIsBase else CollateralIsQuote)
  }

  function ParseParts(rawBase: string, rawQuote: string): Option<MarketId> {
    var base, quote := StripPlus(rawBase), StripPlus(rawQuote);
    if base.Some? && IsFiat(rawQuote) then None
    else if quote.Some? && !IsFiat(quote.value) then None
    else
      var quoteName := if quote.Some? then quote.value else rawQuote;
      match ParseType(base.Some?, quote.Some?, quoteName)
      case None => None
      case Some(marketType) =>
        Some(MarketId(if base.Some? then base.value else rawBase, quoteName, marketType))
  }

  /** `MarketId::parse` */
  function Parse(s: string): Option<MarketId> {
    match SplitOnce(s)
    case None => None
    case Some((rawBase, rawQuote)) => ParseParts(rawBase, rawQuote)
  }

  lemma {:induction false} SplitJoins(s: string)
    requires SplitOnce(s).Some?
    ensures var (before, after) := SplitOnce(s).value;
            s == before + "_" + after && '_' !in before
  {
    if s[0] != '_' {
      SplitJoins(s[1..]);
      var (before, after) := SplitOnce(s[1..]).value;
      assert s == [s[0]] + s[1..] == [s[0]] + before + "_" + after;
    }
  }

  lemma {:induction false} JoinSplits(before: string, after: string)
    requires '_' !in before
    ensures SplitOnce(before + "_" + after) == Some((before, after))
  {
    var s := before + "_" + after;
    if before == [] {
      assert s[1..] == after;
    } else {
      JoinSplits(before[1..], after);
      assert s[1..] == before[1..] + "_" + after;
      assert before == [before[0]] + before[1..];
    }
  }

  lemma FiatEndsPlain(s: string)
    ensures IsFiat(s) ==> !EndsWithPlus(s)
  {
  }

  lemma PartsPrinted(rawBase: string, rawQuote: string)
    requires ParseParts(rawBase, rawQuote).Some?
    ensures Encode(ParseParts(rawBase, rawQuote).value) == rawBase + "_" + rawQuote
  {
    hide IsFiat;
    var id := ParseParts(rawBase, rawQuote).value;
    FiatEndsPlain(rawQuote);
    if EndsWithPlus(rawBase) {
      assert rawBase == id.base + "+";
    } else {
      assert rawBase == id.base + "";
    }
    if EndsWithPlus(rawQuote) {
      assert rawQuote == id.quote + "+";
    } else {
      assert rawQuote == id.quote + "";
    }
  }

  /** Whatever parses is printed back as it was, so the parser's own assertion never fails. */
  lemma PrintParsed(s: string)
    requires Parse(s).Some?
    ensures Encode(Parse(s).value) == s
  {
    hide Encode, ParseParts;
    SplitJoins(s);
    var (rawBase, rawQuote) := SplitOnce(s).value;
    PartsPrinted(rawBase, rawQuote);
  }

  /** The ids that survive printing. */
  predicate Printable(id: MarketId) {
    && '_' !in id.base
    && !EndsWithPlus(id.quote)
    && (EndsWithPlus(id.base) ==> id.marketType.CollateralIsBase? && !IsFiat(id.quote))
  }

  lemma PlusIsStripped(s: string)
    ensures StripPlus(s + "+") == Some(s)
  {
    assert (s + "+")[..|s|] == s;
  }

  lemma PrintedSplits(id: MarketId)
    requires '_' !in id.base
    ensures var rawBase := if id.marketType.CollateralIsBase? && !IsFiat(id.quote) then id.base + "+" else id.base;
            var rawQuote := if id.marketType.CollateralIsQuote? && IsFiat(id.quote) then id.quote + "+" else id.quote;
            SplitOnce(Encode(id)) == Some((rawBase, rawQuote))
  {
    var rawBase := if id.marketType.CollateralIsBase? && !IsFiat(id.quote) then id.base + "+" else id.base;
    var rawQuote := if id.marketType.CollateralIsQuote? && IsFiat(id.quote) then id.quote + "+" else id.quote;
    JoinSplits(rawBase, rawQuote);
    assert Encode(id) == rawBase + "_" + rawQuote;
  }

  /** An id is parsed back from its print if and only if its base holds no underscore, its quote does not end
      in a plus, and its base does so only where the print appends another plus to it. */
  lemma ParsePrinted(id: MarketId)
    ensures Parse(Encode(id)) == Some(id) <==> Printable(id)
  {
    hide IsFiat, SplitOnce, Encode;
    PlusIsStripped(id.base);
    PlusIsStripped(id.quote);
    FiatEndsPlain(id.quote);
    FiatEndsPlain(id.quote + "+");
    if '_' in id.base {
      if Parse(Encode(id)) == Some(id) {
        ParsedBaseHasNoUnderscore(Encode(id));
      }
    } else {
      PrintedSplits(id);
    }
  }

  lemma ParsedBaseHasNoUnderscore(s: string)
    requires Parse(s).Some?
    ensures '_' !in Parse(s).value.base
  {
    SplitJoins(s);
  }

  /** Printing is injective on the ids it preserves, and they are exactly what parsing yields. */
  lemma PrintInjective(a: MarketId, b: MarketId)
    requires Printable(a) && Printable(b) && Encode(a) == Encode(b)
    ensures a == b
  {
    ParsePrinted(a);
    ParsePrinted(b);
  }

  lemma ParsedIsPrintable(s: string)
    requires Parse(s).Some?
    ensures Printable(Parse(s).value)
  {
    PrintParsed(s);
    ParsePrinted(Parse(s).value);
  }

  /** The print says which asset is the collateral: by default the base against a fiat quote and the quote against
      any other, and with a plus behind it else. */
  lemma PrintsByDefault()
    ensures Encode(MarketId("ATOM", "USD", CollateralIsBase)) == "ATOM_USD"
    ensures Encode(MarketId("ATOM", "USD", CollateralIsQuote)) == "ATOM_USD+"
    ensures Encode(MarketId("ATOM", "EUR", CollateralIsBase)) == "ATOM_EUR"
    ensures Encode(MarketId("ATOM", "EUR", CollateralIsQuote)) == "ATOM_EUR+"
    ensures forall quote: string | quote != "USD" && quote != "EUR" ::
              && Encode(MarketId("ATOM", quote, CollateralIsQuote)) == "ATOM_" + quote
              && Encode(MarketId("ATOM", quote, CollateralIsBase)) == "ATOM+_" + quote
  {
    forall quote: string | quote != "USD" && quote != "EUR"
      ensures && Encode(MarketId("ATOM", quote, CollateralIsQuote)) == "ATOM_" + quote
              && Encode(MarketId("ATOM", quote, CollateralIsBase)) == "ATOM+_" + quote
    {
      assert "ATOM" + "" + "_" + quote + "" == "ATOM_" + quote;
      assert "ATOM" + "+" + "_" + quote + "" == "ATOM+_" + quote;
    }
    assert "ATOM" + "" + "_" + "USD" + "" == "ATOM_USD" && "ATOM" + "" + "_" + "USD" + "+" == "ATOM_USD+";
    assert "ATOM" + "" + "_" + "EUR" + "" == "ATOM_EUR" && "ATOM" + "" + "_" + "EUR" + "+" == "ATOM_EUR+";
  }

  /** Outside them two ids can print alike. */
  lemma PrintsCanCollide(base: string, quote: string)
    requires !IsFiat(quote)
    ensures Encode(MarketId(base + "+", quote, CollateralIsQuote)) == Encode(MarketId(base, quote, CollateralIsBase))
  {
  }
}
