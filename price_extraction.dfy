/**
 * The price heuristic of app/agents/negotiation_agent.py
 * (`_extract_price_from_response`): three regular expressions tried in
 * order, a sanity bound on the parsed number, then a discount-keyword
 * fallback whose random draw is a parameter.
 */
module PriceExtraction {
  import opened Wrappers
  import opened Text

  /**
   * Regular-expression `\d` on a `str` pattern: the ASCII digits and the
   * full-width digits U+FF10 to U+FF19 that Chinese input methods produce.
   */
  predicate IsDigit(c: char) {
    '0' <= c <= '9' || '\U{FF10}' <= c <= '\U{FF19}'
  }

  /** The end of the run of digits that starts at `i`. */
  function DigitRunEnd(s: string, i: nat): (j: nat)
    requires i <= |s|
    ensures i <= j <= |s|
    ensures forall k :: i <= k < j ==> IsDigit(s[k])
    ensures j == |s| || !IsDigit(s[j])
    decreases |s| - i
  {
    if i < |s| && IsDigit(s[i]) then DigitRunEnd(s, i + 1) else i
  }

  /** Where `\d+\.?\d*` stops when it starts on the digit at `i`: all three parts are greedy. */
  function NumberEnd(s: string, i: nat): (k: nat)
    requires i < |s| && IsDigit(s[i])
    ensures i < k <= |s|
  {
    var j := DigitRunEnd(s, i);
    if j < |s| && s[j] == '.' then DigitRunEnd(s, j + 1) else j
  }

  /** The three patterns `(\d+\.?\d*)元`, `(\d+\.?\d*)块` and `(\d+\.?\d*)`. */
  datatype Pattern = YuanSuffixed | KuaiSuffixed | BareNumber {
    /** The character that must follow the number, if any. */
    function Suffix(): Option<char> {
      match this
      case YuanSuffixed => Some('元')
      case KuaiSuffixed => Some('块')
      case BareNumber => None
    }
  }

  /** The order in which the patterns are tried. */
  const PricePatterns: seq<Pattern> := [YuanSuffixed, KuaiSuffixed, BareNumber]

  /**
   * The captured group of a match of `pattern` starting at `i`, or None
   * when the pattern does not match there. Backtracking cannot help a
   * suffixed pattern: a shorter number is followed by a digit or by '.',
   * never by the suffix, so the greedy number is the only candidate.
   */
  function MatchAt(s: string, i: nat, pattern: Pattern): (m: Option<string>)
    ensures m.Some? ==> i < |s| && IsDigit(s[i]) && m.value == s[i..NumberEnd(s, i)]
    ensures m.Some? && pattern.Suffix().Some? ==> NumberEnd(s, i) < |s| && s[NumberEnd(s, i)] == pattern.Suffix().value
  {
    if i < |s| && IsDigit(s[i]) then
      var k := NumberEnd(s, i);
      match pattern.Suffix()
      case None => Some(s[i..k])
      case Some(c) => if k < |s| && s[k] == c then Some(s[i..k]) else None
    else None
  }

  /** `re.findall(pattern, s)[0]` when the list is not empty: the match with the smallest start at or after `i`. */
  function FirstMatch(s: string, pattern: Pattern, i: nat): Option<string>
    decreases |s| - i
  {
    if i >= |s| then None
    else match MatchAt(s, i, pattern)
      case Some(m) => Some(m)
      case None => FirstMatch(s, pattern, i + 1)
  }

  /** `FirstMatch` is the leftmost match: nothing matches before it, and no match at all means none anywhere. */
  lemma {:induction false} FirstMatchIsLeftmost(s: string, pattern: Pattern, i: nat)
    ensures FirstMatch(s, pattern, i).None? ==> forall k :: i <= k < |s| ==> MatchAt(s, k, pattern).None?
    ensures FirstMatch(s, pattern, i).Some? ==>
      exists j :: i <= j < |s| && MatchAt(s, j, pattern) == FirstMatch(s, pattern, i) &&
        forall k :: i <= k < j ==> MatchAt(s, k, pattern).None?
    decreases |s| - i
  {
    if i < |s| && MatchAt(s, i, pattern).None? {
      FirstMatchIsLeftmost(s, pattern, i + 1);
      if FirstMatch(s, pattern, i).Some? {
        var j :| i + 1 <= j < |s| && MatchAt(s, j, pattern) == FirstMatch(s, pattern, i + 1) &&
          forall k :: i + 1 <= k < j ==> MatchAt(s, k, pattern).None?;
        assert forall k :: i <= k < j ==> MatchAt(s, k, pattern).None?;
      }
    } else if i < |s| {
      assert MatchAt(s, i, pattern) == FirstMatch(s, pattern, i);
    }
  }

  /** The value `float` gives a digit of either width. */
  function DigitValue(c: char): int {
    if '0' <= c <= '9' then c as int - '0' as int else c as int - '\U{FF10}' as int
  }

  /** The integer a string of digits denotes. */
  function DigitsValue(ds: string): int {
    if ds == [] then 0 else DigitsValue(ds[..|ds| - 1]) * 10 + DigitValue(ds[|ds| - 1])
  }

  function Pow10(n: nat): (p: nat)
    ensures p >= 1
  {
    if n == 0 then 1 else 10 * Pow10(n - 1)
  }

  /** `float(tok)` for a token `digits` or `digits.digits` (the fraction may be empty). */
  function ParseDecimal(tok: string): real {
    var j := DigitRunEnd(tok, 0);
    var frac := if j < |tok| then tok[j + 1..] else [];
    DigitsValue(tok[..j]) as real + DigitsValue(frac) as real / Pow10(|frac|) as real
  }

  /** The sanity bound: a parsed number is believed only strictly between 0 and twice the current price. */
  predicate Plausible(price: real, current: real) {
    0.0 < price < current * 2.0
  }

  /** What `pattern` contributes: its first match, parsed, when that passes the sanity bound. */
  function Candidate(response: string, current: real, pattern: Pattern): Option<real> {
    match FirstMatch(response, pattern, 0)
    case Some(tok) => if Plausible(ParseDecimal(tok), current) then Some(ParseDecimal(tok)) else None
    case None => None
  }

  /** The pattern loop: the first pattern whose candidate is plausible wins; an implausible one falls through. */
  function TryPatterns(response: string, current: real, patterns: seq<Pattern>): (r: Option<real>)
    ensures r.Some? ==> Plausible(r.value, current)
    ensures r.None? <==> forall k :: 0 <= k < |patterns| ==> Candidate(response, current, patterns[k]).None?
  {
    if patterns == [] then None
    else match Candidate(response, current, patterns[0])
      case Some(p) => Some(p)
      case None => TryPatterns(response, current, patterns[1..])
  }

  /** The discount keywords 优惠 ("discount"), 便宜 ("cheap") and 减 ("reduce"). */
  const DiscountKeywords: seq<string> := ["优惠", "便宜", "减"]

  predicate HasDiscountKeyword(response: string) {
    exists k :: 0 <= k < |DiscountKeywords| && Contains(response, DiscountKeywords[k])
  }

  function Max(a: real, b: real): real {
    if a >= b then a else b
  }

  /**
   * `_extract_price_from_response(response, current_price)` with the
   * `random.uniform(5, 15)` draw passed in as `discount`. With a positive
   * current price the result is always positive and below twice that price.
   */
  function ExtractPrice(response: string, current: real, discount: real): (r: real)
    requires 5.0 <= discount <= 15.0
    ensures current > 0.0 ==> 0.0 < r < 2.0 * current
  {
    match TryPatterns(response, current, PricePatterns)
    case Some(p) => p
    case None =>
      if HasDiscountKeyword(response) then Max(current - discount, current * 0.8)
      else current
  }

  /** The cascade: the first pattern, in the order 元, 块, bare, whose first match is plausible decides the price. */
  lemma FirstPlausiblePatternWins(response: string, current: real, discount: real, k: nat)
    requires 5.0 <= discount <= 15.0
    requires k < |PricePatterns| && Candidate(response, current, PricePatterns[k]).Some?
    requires forall j :: 0 <= j < k ==> Candidate(response, current, PricePatterns[j]).None?
    ensures ExtractPrice(response, current, discount) == Candidate(response, current, PricePatterns[k]).value
  {
    assert PricePatterns[1..][1..] == [BareNumber];
    if k == 0 {
    } else if k == 1 {
      assert Candidate(response, current, PricePatterns[0]).None?;
      assert PricePatterns[1..][0] == KuaiSuffixed;
      assert TryPatterns(response, current, PricePatterns) == TryPatterns(response, current, PricePatterns[1..]);
    } else {
      assert Candidate(response, current, PricePatterns[0]).None?;
      assert Candidate(response, current, PricePatterns[1]).None?;
      assert PricePatterns[1..][0] == KuaiSuffixed && PricePatterns[1..][1..][0] == BareNumber;
      assert TryPatterns(response, current, PricePatterns) == TryPatterns(response, current, PricePatterns[1..]);
      assert TryPatterns(response, current, PricePatterns[1..]) == TryPatterns(response, current, PricePatterns[1..][1..]);
    }
  }

  /**
   * With no plausible number but a discount keyword, the price drops by the
   * drawn amount, never below 80% of the current price: the result lies in
   * [0.8·current, current) and is either the 80% floor or at least 5 lower.
   */
  lemma DiscountFallbackBounds(response: string, current: real, discount: real)
    requires 5.0 <= discount <= 15.0
    requires current > 0.0
    requires TryPatterns(response, current, PricePatterns).None? && HasDiscountKeyword(response)
    ensures var r := ExtractPrice(response, current, discount);
      0.8 * current <= r < current && (r == 0.8 * current || r <= current - 5.0)
  {
  }

  /** With neither a plausible number nor a discount keyword the current price comes back unchanged. */
  lemma NoCueKeepsPrice(response: string, current: real, discount: real)
    requires 5.0 <= discount <= 15.0
    requires TryPatterns(response, current, PricePatterns).None? && !HasDiscountKeyword(response)
    ensures ExtractPrice(response, current, discount) == current
  {
  }

  /** "可以优惠10元" ("10 yuan off is fine") is read as a price of 10, not as a discount of 10. */
  lemma NumberBeatsDiscountWord(discount: real, current: real)
    requires 5.0 <= discount <= 15.0
    requires current > 5.0
    ensures ExtractPrice("可以优惠10元", current, discount) == 10.0
  {
    var s := "可以优惠10元";
    assert MatchAt(s, 0, YuanSuffixed).None? && MatchAt(s, 1, YuanSuffixed).None?;
    assert MatchAt(s, 2, YuanSuffixed).None? && MatchAt(s, 3, YuanSuffixed).None?;
    assert DigitRunEnd(s, 4) == 6;
    assert NumberEnd(s, 4) == 6;
    assert s[4..6] == "10";
    assert MatchAt(s, 4, YuanSuffixed) == Some("10");
    assert FirstMatch(s, YuanSuffixed, 0) == Some("10");
    assert DigitRunEnd("10", 0) == 2;
    assert ParseDecimal("10") == 10.0;
  }

  /**
   * Full-width digits are digits too: "便宜到８００元" ("down to ８００ yuan")
   * is read as the price 800 rather than through the 便宜 fallback.
   */
  lemma FullWidthPriceRead(discount: real)
    requires 5.0 <= discount <= 15.0
    ensures ExtractPrice("便宜到\U{FF18}\U{FF10}\U{FF10}元", 1000.0, discount) == 800.0
  {
    var s := "便宜到\U{FF18}\U{FF10}\U{FF10}元";
    var tok := "\U{FF18}\U{FF10}\U{FF10}";
    assert MatchAt(s, 0, YuanSuffixed).None? && MatchAt(s, 1, YuanSuffixed).None? && MatchAt(s, 2, YuanSuffixed).None?;
    assert DigitRunEnd(s, 6) == 6 && DigitRunEnd(s, 5) == 6 && DigitRunEnd(s, 4) == 6 && DigitRunEnd(s, 3) == 6;
    assert NumberEnd(s, 3) == 6;
    assert s[3..6] == tok;
    assert MatchAt(s, 3, YuanSuffixed) == Some(tok);
    assert FirstMatch(s, YuanSuffixed, 0) == Some(tok);
    assert DigitRunEnd(tok, 0) == 3 by {
      assert DigitRunEnd(tok, 3) == 3 && DigitRunEnd(tok, 2) == 3 && DigitRunEnd(tok, 1) == 3;
    }
    assert tok[..3] == tok && tok[..2] == "\U{FF18}\U{FF10}" && tok[..2][..1] == "\U{FF18}" && "\U{FF18}"[..0] == [];
    assert DigitsValue(tok) == 800;
    assert ParseDecimal(tok) == 800.0;
  }

  /** Positions where the pattern does not match are skipped by `FirstMatch`. */
  lemma {:induction false} FirstMatchSkips(s: string, pattern: Pattern, i: nat, j: nat)
    requires i <= j <= |s|
    requires forall k :: i <= k < j ==> MatchAt(s, k, pattern).None?
    ensures FirstMatch(s, pattern, i) == FirstMatch(s, pattern, j)
    decreases j - i
  {
    if i < j {
      FirstMatchSkips(s, pattern, i + 1, j);
    }
  }

  /** The third canned seller reply: "that's already cheap, at most 10 kuai cheaper". */
  const TenKuaiReply: string := "这个价格已经很便宜了，最多再便宜10块"

  lemma TenKuaiReplyShape()
    ensures |TenKuaiReply| == 19 && TenKuaiReply[16..18] == "10" && TenKuaiReply[18] == '块'
    ensures forall k :: 0 <= k < 16 ==> !IsDigit(TenKuaiReply[k])
    ensures NumberEnd(TenKuaiReply, 16) == 18 && NumberEnd(TenKuaiReply, 17) == 18
  {
    var s := TenKuaiReply;
    assert DigitRunEnd(s, 17) == 18 && DigitRunEnd(s, 16) == 18;
  }

  /** The reply holds no 元-suffixed number. */
  lemma TenKuaiReplyNoYuan()
    ensures FirstMatch(TenKuaiReply, YuanSuffixed, 0).None?
  {
    var s := TenKuaiReply;
    TenKuaiReplyShape();
    assert MatchAt(s, 16, YuanSuffixed).None? && MatchAt(s, 17, YuanSuffixed).None?;
    assert MatchAt(s, 18, YuanSuffixed).None?;
    FirstMatchSkips(s, YuanSuffixed, 0, 19);
  }

  /** Its first 块-suffixed number is "10". */
  lemma TenKuaiReplyKuai()
    ensures FirstMatch(TenKuaiReply, KuaiSuffixed, 0) == Some("10")
  {
    var s := TenKuaiReply;
    TenKuaiReplyShape();
    FirstMatchSkips(s, KuaiSuffixed, 0, 16);
    assert MatchAt(s, 16, KuaiSuffixed) == Some("10");
  }

  /** The token "10" parses as 10. */
  lemma ParseTen()
    ensures ParseDecimal("10") == 10.0
  {
    var tok := "10";
    assert DigitRunEnd(tok, 0) == 2 by {
      assert DigitRunEnd(tok, 2) == 2;
      assert DigitRunEnd(tok, 1) == 2;
    }
    assert tok[..2] == tok && tok[..1] == "1" && "1"[..0] == [];
    assert DigitsValue(tok) == 10;
  }

  /**
   * The third canned seller reply is read as a price of 10 for any current
   * price above 5, although it also holds the discount keyword 便宜.
   */
  lemma CannedDiscountReplyReadsAsTen(discount: real, current: real)
    requires 5.0 <= discount <= 15.0
    requires current > 5.0
    ensures ExtractPrice(TenKuaiReply, current, discount) == 10.0
  {
    TenKuaiReplyNoYuan();
    TenKuaiReplyKuai();
    ParseTen();
    assert Candidate(TenKuaiReply, current, PricePatterns[0]).None?;
    assert Candidate(TenKuaiReply, current, PricePatterns[1]) == Some(10.0);
    FirstPlausiblePatternWins(TenKuaiReply, current, discount, 1);
  }
}
