/**
  The parameters the tool selector reads out of the user's message: the price
  ceiling after "under"/"below"/"max", the coarse search query, the postal
  code token `\b\d{5,6}\b` and the order-id token `\b[A-Z]\d+\b` (ASCII
  letters and digits).
 */
module Tokens {
  import opened Wrappers
  import opened Text

  // ===== price ceiling =====

  const DefaultPriceMax := 1000
  const PriceWords := ["under", "below", "max"]

  /** `word.replace("$", "").replace(",", "")`. */
  function PriceText(word: string): string {
    RemoveChar(RemoveChar(word, '$'), ',')
  }

  /** Word `i` is a price keyword followed by a word that parses as an integer once "$" and "," are gone. */
  predicate PriceAt(words: seq<string>, i: int) {
    0 <= i && i + 1 < |words| && words[i] in PriceWords && ParseInt(PriceText(words[i + 1])).Some?
  }

  function PriceCeilingFrom(words: seq<string>, i: nat): int
    decreases |words| - i
  {
    if i >= |words| then DefaultPriceMax
    else if PriceAt(words, i) then ParseInt(PriceText(words[i + 1])).value
    else PriceCeilingFrom(words, i + 1)
  }

  /** The price ceiling the tool selector reads from the message. */
  function PriceCeiling(userInput: string): int {
    PriceCeilingFrom(Words(Lower(userInput)), 0)
  }

  lemma {:induction false} PriceCeilingFromFirst(words: seq<string>, i: nat, j: nat)
    requires i <= j && PriceAt(words, j)
    requires forall m :: i <= m < j ==> !PriceAt(words, m)
    ensures PriceCeilingFrom(words, i) == ParseInt(PriceText(words[j + 1])).value
    decreases j - i
  {
    if i < j {
      PriceCeilingFromFirst(words, i + 1, j);
    }
  }

  lemma {:induction false} PriceCeilingFromNone(words: seq<string>, i: nat)
    requires forall m :: i <= m ==> !PriceAt(words, m)
    ensures PriceCeilingFrom(words, i) == DefaultPriceMax
    decreases |words| - i
  {
    if i < |words| {
      PriceCeilingFromNone(words, i + 1);
    }
  }

  /**
    The ceiling is the value after the first price keyword whose successor parses
    (failed parses are skipped), and 1000 when there is none.
   */
  lemma PriceCeilingIsFirstParsable(words: seq<string>)
    ensures (forall m :: !PriceAt(words, m)) ==> PriceCeilingFrom(words, 0) == DefaultPriceMax
    ensures forall j :: PriceAt(words, j) && (forall m :: 0 <= m < j ==> !PriceAt(words, m)) ==>
      PriceCeilingFrom(words, 0) == ParseInt(PriceText(words[j + 1])).value
  {
    if forall m :: !PriceAt(words, m) {
      PriceCeilingFromNone(words, 0);
    }
    forall j | PriceAt(words, j) && (forall m :: 0 <= m < j ==> !PriceAt(words, m))
      ensures PriceCeilingFrom(words, 0) == ParseInt(PriceText(words[j + 1])).value
    {
      PriceCeilingFromFirst(words, 0, j);
    }
  }

  /** The price loop of tool_selector_node: `break` on the first parse, `continue` past a ValueError. */
  method ScanPriceCeiling(words: seq<string>) returns (priceMax: int)
    ensures priceMax == PriceCeilingFrom(words, 0)
    ensures (forall m :: !PriceAt(words, m)) ==> priceMax == DefaultPriceMax
  {
    priceMax := DefaultPriceMax;
    var i := 0;
    while i < |words|
      invariant 0 <= i <= |words|
      invariant priceMax == DefaultPriceMax
      invariant PriceCeilingFrom(words, i) == PriceCeilingFrom(words, 0)
    {
      if words[i] in PriceWords && i + 1 < |words| {
        var parsed := ParseInt(PriceText(words[i + 1]));
        if parsed.Some? {
          priceMax := parsed.value;
          break;
        }
      }
      i := i + 1;
    }
  }

  // ===== search query =====

  const QueryKeywords := ["wedding", "midi", "party"]
  const DefaultQuery := "dress"

  /** The keywords present in the lower-cased message, in the fixed order wedding, midi, party. */
  function QueryTerms(inputLower: string): (terms: seq<string>)
    ensures forall w :: w in terms <==> w in QueryKeywords && Contains(inputLower, w)
    ensures forall a, b, i, j ::
      (0 <= a < b < |terms| && 0 <= i < |QueryKeywords| && 0 <= j < |QueryKeywords|
       && terms[a] == QueryKeywords[i] && terms[b] == QueryKeywords[j]) ==> i < j
  {
    (if Contains(inputLower, "wedding") then ["wedding"] else [])
    + (if Contains(inputLower, "midi") then ["midi"] else [])
    + (if Contains(inputLower, "party") then ["party"] else [])
  }

  /** The product_search query: the present keywords joined by single spaces, or "dress". */
  function SearchQuery(userInput: string): (q: string)
    ensures q == DefaultQuery <==> QueryTerms(Lower(userInput)) == []
    ensures QueryTerms(Lower(userInput)) != [] ==> q == Join(" ", QueryTerms(Lower(userInput)))
  {
    var terms := QueryTerms(Lower(userInput));
    if terms == [] then DefaultQuery
    else
      JoinStartsWithFirst(" ", terms);
      assert Join(" ", terms)[0] == terms[0][0] != 'd';
      Join(" ", terms)
  }

  /**
    Several keywords form one query, in the fixed order and separated by single
    spaces, which product_search then looks for as one substring.
   */
  lemma WeddingMidiQuery(userInput: string)
    requires Contains(Lower(userInput), "wedding") && Contains(Lower(userInput), "midi")
    requires !Contains(Lower(userInput), "party")
    ensures SearchQuery(userInput) == "wedding midi"
  {
    var terms := QueryTerms(Lower(userInput));
    assert terms == ["wedding", "midi"];
    assert terms[..1] == ["wedding"];
    assert Join(" ", terms) == "wedding" + " " + "midi";
  }

  // ===== word boundaries (ASCII \w) =====

  predicate IsWordChar(c: char) {
    IsDigit(c) || 'a' <= c <= 'z' || 'A' <= c <= 'Z' || c == '_'
  }

  /** `\b` just before a word character at position i. */
  predicate BoundaryBefore(s: string, i: int)
    requires 0 <= i <= |s|
  {
    i == 0 || !IsWordChar(s[i - 1])
  }

  /** `\b` just after a word character at position j - 1. */
  predicate BoundaryAfter(s: string, j: int)
    requires 0 <= j <= |s|
  {
    j == |s| || !IsWordChar(s[j])
  }

  // ===== postal code: \b\d{5,6}\b =====

  /** `\b\d{5,6}\b` matches `s[i..i + n]`. */
  predicate ZipAt(s: string, i: int, n: int) {
    (n == 5 || n == 6) && 0 <= i && i + n <= |s|
    && BoundaryBefore(s, i) && AllDigits(s[i..i + n]) && BoundaryAfter(s, i + n)
  }

  predicate ZipStartsAt(s: string, i: int) {
    ZipAt(s, i, 6) || ZipAt(s, i, 5)
  }

  function FirstZipFrom(s: string, i: nat): (k: nat)
    requires i <= |s|
    ensures i <= k <= |s|
    ensures forall j :: i <= j < k ==> !ZipStartsAt(s, j)
    ensures k < |s| ==> ZipStartsAt(s, k)
    decreases |s| - i
  {
    if i == |s| then |s|
    else if ZipStartsAt(s, i) then i
    else FirstZipFrom(s, i + 1)
  }

  /** `re.search(r'\b\d{5,6}\b', s)`: the leftmost match, six digits tried before five. */
  function ZipToken(s: string): (r: Option<string>)
    ensures r.Some? <==> exists i :: ZipStartsAt(s, i)
    ensures r.Some? ==> (|r.value| == 5 || |r.value| == 6) && AllDigits(r.value)
    ensures r.Some? ==>
      exists i ::
        && ZipAt(s, i, |r.value|) && r.value == s[i..i + |r.value|]
        && (ZipAt(s, i, 6) ==> |r.value| == 6)
        && forall j :: 0 <= j < i ==> !ZipStartsAt(s, j)
  {
    var k := FirstZipFrom(s, 0);
    if k == |s| then None
    else if ZipAt(s, k, 6) then Some(s[k..k + 6])
    else Some(s[k..k + 5])
  }

  // ===== order id: \b[A-Z]\d+\b =====

  function DigitRunEnd(s: string, i: nat): (j: nat)
    requires i <= |s|
    ensures i <= j <= |s|
    ensures forall k :: i <= k < j ==> IsDigit(s[k])
    ensures j == |s| || !IsDigit(s[j])
    decreases |s| - i
  {
    if i < |s| && IsDigit(s[i]) then DigitRunEnd(s, i + 1) else i
  }

  lemma {:induction false} DigitRunEndIsUnique(s: string, i: nat, j: nat)
    requires i <= j <= |s|
    requires forall k :: i <= k < j ==> IsDigit(s[k])
    requires j == |s| || !IsDigit(s[j])
    ensures DigitRunEnd(s, i) == j
    decreases j - i
  {
    if i < j {
      DigitRunEndIsUnique(s, i + 1, j);
    }
  }

  /** `\b[A-Z]\d+\b` matches `s[i..j]`. */
  predicate OrderIdAt(s: string, i: int, j: int) {
    0 <= i && i + 2 <= j <= |s|
    && BoundaryBefore(s, i) && 'A' <= s[i] <= 'Z' && AllDigits(s[i + 1..j]) && BoundaryAfter(s, j)
  }

  /** The regular expression can match at i: only the full digit run can end at a boundary. */
  predicate OrderIdStartsAt(s: string, i: int) {
    0 <= i < |s| && BoundaryBefore(s, i) && 'A' <= s[i] <= 'Z'
    && var j := DigitRunEnd(s, i + 1); j >= i + 2 && BoundaryAfter(s, j)
  }

  lemma OrderIdStartsAtIff(s: string, i: int)
    ensures OrderIdStartsAt(s, i) <==> exists j :: OrderIdAt(s, i, j)
  {
    if OrderIdStartsAt(s, i) {
      assert OrderIdAt(s, i, DigitRunEnd(s, i + 1));
    }
    if exists j :: OrderIdAt(s, i, j) {
      var j :| OrderIdAt(s, i, j);
      forall k | i + 1 <= k < j ensures IsDigit(s[k]) {
        assert s[i + 1..j][k - i - 1] == s[k];
      }
      DigitRunEndIsUnique(s, i + 1, j);
    }
  }

  function FirstOrderIdFrom(s: string, i: nat): (k: nat)
    requires i <= |s|
    ensures i <= k <= |s|
    ensures forall j :: i <= j < k ==> !OrderIdStartsAt(s, j)
    ensures k < |s| ==> OrderIdStartsAt(s, k)
    decreases |s| - i
  {
    if i == |s| then |s|
    else if OrderIdStartsAt(s, i) then i
    else FirstOrderIdFrom(s, i + 1)
  }

  /** `re.search(r'\b[A-Z]\d+\b', s)`: the leftmost capital letter followed by its whole digit run. */
  function OrderIdToken(s: string): (r: Option<string>)
    ensures r.Some? ==> |r.value| >= 2 && 'A' <= r.value[0] <= 'Z' && AllDigits(r.value[1..])
    ensures r.Some? ==>
      exists i, j ::
        && OrderIdAt(s, i, j) && r.value == s[i..j]
        && forall m :: 0 <= m < i ==> !OrderIdStartsAt(s, m)
  {
    var k := FirstOrderIdFrom(s, 0);
    if k == |s| then None
    else
      var j := DigitRunEnd(s, k + 1);
      assert OrderIdAt(s, k, j);
      Some(s[k..j])
  }

  /** An order-id token is found exactly when the pattern matches somewhere in the message. */
  lemma OrderIdTokenFound(s: string)
    ensures OrderIdToken(s).Some? <==> exists i, j :: OrderIdAt(s, i, j)
  {
    var k := FirstOrderIdFrom(s, 0);
    if k < |s| {
      OrderIdStartsAtIff(s, k);
      var j :| OrderIdAt(s, k, j);
    }
    if exists i, j :: OrderIdAt(s, i, j) {
      var i, j :| OrderIdAt(s, i, j);
      OrderIdStartsAtIff(s, i);
    }
  }
}
