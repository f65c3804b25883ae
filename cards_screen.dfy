/**
 * The cards screen: the cards of an expansion sorted in place by their number,
 * the first 50 shown, and a name search over them.
 */
module CardsScreen {
  import opened Common
  import opened Text
  import opened Lists
  import opened Entities

  /** How many cards `loadCards` keeps. */
  const ShownLimit := 50

  /** `min(50, n)`. */
  function ShownCount(n: nat): nat {
    if n <= ShownLimit then n else ShownLimit
  }

  /**
   * `parseInt(card.localId) || 0`: the value of the leading digits of the
   * local number, 0 when it has none.
   */
  function CardNumber(c: Card): (r: nat)
    ensures c.localId.None? || c.localId.value == [] || !IsDigit(c.localId.value[0]) ==> r == 0
    ensures c.localId.Some? && c.localId.value != [] && IsDigit(c.localId.value[0]) ==>
      r == DigitsValue(DigitPrefix(c.localId.value))
  {
    if c.localId.Some? && ParseInt(c.localId.value).Some? then ParseInt(c.localId.value).value else 0
  }

  /** A local number such as `"12"` or `"12a"` sorts as 12; a missing or non-numeric one as 0. */
  lemma CardNumberValues(c: Card, n: nat, rest: string)
    ensures c.localId == Some(NatDigits(n) + rest) && (rest == [] || !IsDigit(rest[0])) ==> CardNumber(c) == n
    ensures c.localId.None? || c.localId.value == [] || !IsDigit(c.localId.value[0]) ==> CardNumber(c) == 0
  {
    if c.localId == Some(NatDigits(n) + rest) && (rest == [] || !IsDigit(rest[0])) {
      ParseIntOfDigitsThen(n, rest);
    }
  }

  /**
   * `loadCards` after the fetch: sorts `cards` in place by number and returns
   * the first `min(50, n)` of them.
   */
  method LoadCards(cards: array<Card>) returns (shown: seq<Card>)
    modifies cards
    ensures cards[..] == SortSpec(old(cards[..]), CardNumber)
    ensures shown == cards[..ShownCount(cards.Length)]
  {
    SortByKey(cards, CardNumber);
    shown := cards[..ShownCount(cards.Length)];
  }

  /** The shown cards: at most 50, in ascending number order, drawn from the fetched cards. */
  lemma ShownCards(fetched: seq<Card>)
    ensures var sorted := SortSpec(fetched, CardNumber);
      var shown := sorted[..ShownCount(|fetched|)];
      multiset(sorted) == multiset(fetched)
      && |shown| == ShownCount(|fetched|)
      && SortedBy(shown, CardNumber)
      && multiset(shown) <= multiset(fetched)
  {
    SortSpecPermutes(fetched, CardNumber);
    SortSpecSorted(fetched, CardNumber);
    SortedPrefix(SortSpec(fetched, CardNumber), CardNumber, ShownCount(|fetched|));
  }

  lemma SortedPrefix<T>(s: seq<T>, key: T -> int, n: nat)
    requires n <= |s| && SortedBy(s, key)
    ensures SortedBy(s[..n], key)
    ensures multiset(s[..n]) <= multiset(s)
  {
    assert s == s[..n] + s[n..];
  }

  /** Cards with the same number keep their fetched order. */
  lemma SameNumberKeepsOrder(fetched: seq<Card>, n: nat)
    ensures Filter(SortSpec(fetched, CardNumber), HasKey(CardNumber, n)) == Filter(fetched, HasKey(CardNumber, n))
  {
    SortSpecStable(fetched, CardNumber, n);
  }

  function NameContains(query: string): Card -> bool {
    (c: Card) => Contains(ToLower(c.name), query)
  }

  /** `filterCards`: all cards for a blank search, else those whose name contains the text, ignoring case. */
  function FilterCards(cards: seq<Card>, searchText: string): (r: seq<Card>)
    ensures AllSpace(searchText) ==> r == cards
    ensures !AllSpace(searchText) ==>
      (forall i :: 0 <= i < |r| ==> r[i] in cards && Contains(ToLower(r[i].name), ToLower(searchText)))
      && (forall i :: 0 <= i < |cards| && Contains(ToLower(cards[i].name), ToLower(searchText)) ==> cards[i] in r)
      && forall c :: multiset(r)[c] == if Contains(ToLower(c.name), ToLower(searchText)) then multiset(cards)[c] else 0
    ensures IsSubseq(r, cards) && |r| <= |cards|
  {
    if Trim(searchText) == [] then
      SubseqRefl(cards);
      cards
    else
      FilterIsSubseq(cards, NameContains(ToLower(searchText)));
      FilterCounts(cards, NameContains(ToLower(searchText)));
      Filter(cards, NameContains(ToLower(searchText)))
  }

  lemma {:induction false} SubseqRefl<T>(s: seq<T>)
    ensures IsSubseq(s, s)
  {
    if s != [] {
      SubseqRefl(s[1..]);
    }
  }

  /**
   * The search text is lowered but not trimmed: a text with a space around
   * a name does not match that name.
   */
  lemma UntrimmedSearch(c: Card)
    requires c.name == "pikachu"
    ensures FilterCards([c], " pikachu") == []
    ensures FilterCards([c], "PIKA") == [c]
  {
    var q := ToLower(" pikachu");
    assert q == " pikachu";
    assert |q| > |ToLower(c.name)|;
    NoLongerContains(ToLower(c.name), q);
    var p := ToLower("PIKA");
    assert p == "pika";
    assert ToLower(c.name) == "pikachu";
    assert StartsWith("pikachu", "pika");
    assert !AllSpace("PIKA") by { assert !IsSpace("PIKA"[0]); }
    assert !AllSpace(" pikachu") by { assert !IsSpace(" pikachu"[1]); }
  }

  lemma {:induction false} NoLongerContains(s: string, t: string)
    requires |t| > |s|
    ensures !Contains(s, t)
    decreases |s|
  {
    if |s| > 0 {
      NoLongerContains(s[1..], t);
    }
  }
}
