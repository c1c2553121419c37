/** Camel-cards ranking (src/day07.rs): each line holds a hand of cards and a
    bid; hands are classified, packed into an integer whose numeric order is
    the hand order, stably sorted by that integer, and the answer is the sum of
    bid times rank. */
module CamelCards {
  import opened Options
  import opened Text

  /** `HandType`, weakest first. */
  datatype HandType = HighCard | OnePair | TwoPair | ThreeOfAKind | FullHouse | FourOfAKind | FiveOfAKind

  /** The discriminant the source gives each hand type (`HighCard = 0` .. `FiveOfAKind = 6`). */
  function Strength(t: HandType): (d: nat)
    ensures d < 7
  {
    match t
    case HighCard => 0
    case OnePair => 1
    case TwoPair => 2
    case ThreeOfAKind => 3
    case FullHouse => 4
    case FourOfAKind => 5
    case FiveOfAKind => 6
  }

  /** The cards from weakest to strongest; with jokers `J` is the weakest. */
  function CardOrder(withJoker: bool): string {
    if withJoker then "J23456789TQKA" else "23456789TJQKA"
  }

  // ---------------------------------------------------------------------------
  // Cards

  /** `card_to_ordinal`: the rank of a card; `None` where the source panics. */
  function CardToOrdinal(card: char, withJoker: bool): (r: Option<nat>)
    ensures r.Some? ==> (if withJoker then 1 else 2) <= r.value <= 14
  {
    match card
    case '2' => Some(2)
    case '3' => Some(3)
    case '4' => Some(4)
    case '5' => Some(5)
    case '6' => Some(6)
    case '7' => Some(7)
    case '8' => Some(8)
    case '9' => Some(9)
    case 'T' => Some(10)
    case 'J' => Some(if withJoker then 1 else 11)
    case 'Q' => Some(12)
    case 'K' => Some(13)
    case 'A' => Some(14)
    case _ => None
  }

  /** Exactly the thirteen cards of the card order have an ordinal. */
  lemma {:induction false} KnownCards(card: char, withJoker: bool)
    ensures CardToOrdinal(card, withJoker).Some? <==> card in CardOrder(withJoker)
  {
  }

  /** Number cards count their face value; the jack counts 11, or 1 as a joker. */
  lemma {:induction false} FaceValues(card: char, withJoker: bool)
    ensures '2' <= card <= '9' ==> CardToOrdinal(card, withJoker) == Some(DigitOf(card))
    ensures card == 'J' ==> CardToOrdinal(card, withJoker) == Some(if withJoker then 1 else 11)
  {
  }

  /** The ordinal of the card at position i of the card order. */
  lemma {:induction false} OrdinalAt(withJoker: bool, i: nat)
    requires i < |CardOrder(withJoker)|
    ensures CardToOrdinal(CardOrder(withJoker)[i], withJoker)
         == Some(if withJoker && i < 10 then i + 1 else i + 2)
  {
    if withJoker {
      var order := "J23456789TQKA";
      assert CardOrder(withJoker) == order;
      if i == 0 { assert order[i] == 'J'; }
      else if i < 9 { assert order[i] == ('0' as int + i + 1) as char; }
      else if i == 9 { assert order[i] == 'T'; }
      else if i == 10 { assert order[i] == 'Q'; }
      else if i == 11 { assert order[i] == 'K'; }
      else { assert order[i] == 'A'; }
    } else {
      var order := "23456789TJQKA";
      assert CardOrder(withJoker) == order;
      if i < 8 { assert order[i] == ('0' as int + i + 2) as char; }
      else if i == 8 { assert order[i] == 'T'; }
      else if i == 9 { assert order[i] == 'J'; }
      else if i == 10 { assert order[i] == 'Q'; }
      else if i == 11 { assert order[i] == 'K'; }
      else { assert order[i] == 'A'; }
    }
  }

  /** Ordinals strictly increase along the card order, for either joker rule. */
  lemma {:induction false} OrdinalsAscend(withJoker: bool, i: nat, j: nat)
    requires i < j < |CardOrder(withJoker)|
    ensures CardToOrdinal(CardOrder(withJoker)[i], withJoker).Some?
    ensures CardToOrdinal(CardOrder(withJoker)[j], withJoker).Some?
    ensures CardToOrdinal(CardOrder(withJoker)[i], withJoker).value
          < CardToOrdinal(CardOrder(withJoker)[j], withJoker).value
  {
    OrdinalAt(withJoker, i);
    OrdinalAt(withJoker, j);
  }

  predicate ValidCards(cards: string, withJoker: bool) {
    forall i :: 0 <= i < |cards| ==> CardToOrdinal(cards[i], withJoker).Some?
  }

  function Ordinals(cards: string, withJoker: bool): (ords: seq<nat>)
    requires ValidCards(cards, withJoker)
    ensures |ords| == |cards|
    ensures forall i :: 0 <= i < |cards| ==> ords[i] == CardToOrdinal(cards[i], withJoker).value
    ensures forall i :: 0 <= i < |ords| ==> 1 <= ords[i] <= 14
  {
    seq(|cards|, i requires 0 <= i < |cards| => CardToOrdinal(cards[i], withJoker).value)
  }

  lemma {:induction false} OrdinalsSnoc(cards: string, i: nat, withJoker: bool)
    requires i < |cards| && ValidCards(cards[..i], withJoker)
    requires CardToOrdinal(cards[i], withJoker).Some?
    ensures ValidCards(cards[..i + 1], withJoker)
    ensures Ordinals(cards[..i + 1], withJoker)
         == Ordinals(cards[..i], withJoker) + [CardToOrdinal(cards[i], withJoker).value]
  {
    assert cards[..i + 1] == cards[..i] + [cards[i]];
  }

  // ---------------------------------------------------------------------------
  // Classification

  /** `count_by_ordinal`: slot k holds how many cards have ordinal k. */
  function Tally(ords: seq<nat>): seq<nat>
  {
    seq(15, k => multiset(ords)[k])
  }

  lemma {:induction false} TallySnoc(ords: seq<nat>, o: nat)
    requires o < 15
    ensures Tally(ords + [o]) == Tally(ords)[o := Tally(ords)[o] + 1]
  {
    assert multiset(ords + [o]) == multiset(ords) + multiset{o};
  }

  /** `iter().max()`: the largest entry (0 for an empty table). */
  function MaxCount(counts: seq<nat>): (m: nat)
    ensures forall i :: 0 <= i < |counts| ==> counts[i] <= m
    ensures |counts| > 0 ==> m in counts
  {
    if |counts| == 0 then 0
    else
      var m := MaxCount(counts[..|counts| - 1]);
      if counts[|counts| - 1] > m then counts[|counts| - 1] else m
  }

  /** `iter().filter(|&&count| count == v).count()`. */
  function Occurrences(counts: seq<nat>, v: nat): (n: nat)
    ensures n == multiset(counts)[v]
  {
    if |counts| == 0 then 0
    else
      assert counts == counts[..|counts| - 1] + [counts[|counts| - 1]];
      Occurrences(counts[..|counts| - 1], v) + if counts[|counts| - 1] == v then 1 else 0
  }

  /** The source's chain of tests on the largest count and on how many slots
      hold exactly two cards. */
  function ChainType(top: nat, twos: nat): HandType {
    if top == 5 then FiveOfAKind
    else if top == 4 then FourOfAKind
    else if top == 3 then (if twos == 1 then FullHouse else ThreeOfAKind)
    else if top == 2 then (if twos == 2 then TwoPair else OnePair)
    else HighCard
  }

  /** The type read off a count table. */
  function TypeOfCounts(counts: seq<nat>): HandType {
    ChainType(MaxCount(counts), Occurrences(counts, 2))
  }

  /** The slot the max-finding loop settles on after slots 2..n-1: the first
      of them with the largest count, or 0 when all of them are empty. */
  function BestSlot(counts: seq<nat>, n: nat): (b: nat)
    requires 2 <= n <= |counts|
    ensures b == 0 <==> forall k :: 2 <= k < n ==> counts[k] == 0
    ensures b != 0 ==> 2 <= b < n && counts[b] > 0
    ensures b != 0 ==> forall k :: 2 <= k < n ==> counts[k] <= counts[b]
    ensures b != 0 ==> forall k :: 2 <= k < b ==> counts[k] < counts[b]
  {
    if n == 2 then 0
    else
      var b := BestSlot(counts, n - 1);
      var best := if b == 0 then 0 else counts[b];
      if counts[n - 1] > best then n - 1 else b
  }

  /** The jokers (slot 1) join the slot `best`, and slot 1 is emptied. */
  function JokersMoved(counts: seq<nat>, best: nat): (moved: seq<nat>)
    requires 2 <= best < |counts|
  {
    counts[best := counts[best] + counts[1]][1 := 0]
  }

  /** The type of a hand given the ordinals of its cards. */
  function HandTypeOf(ords: seq<nat>): HandType
    requires forall i :: 0 <= i < |ords| ==> ords[i] < 15
  {
    var counts := Tally(ords);
    var best := BestSlot(counts, 15);
    if best == 0 then FiveOfAKind else TypeOfCounts(JokersMoved(counts, best))
  }

  /** What `classify_hand_type` returns; `None` where it panics on an unknown card. */
  function Classification(cards: string, withJoker: bool): Option<HandType> {
    if ValidCards(cards, withJoker) then Some(HandTypeOf(Ordinals(cards, withJoker))) else None
  }

  lemma {:induction false} ClassificationByTally(cards: string, withJoker: bool, tally: seq<nat>)
    requires ValidCards(cards, withJoker) && tally == Tally(Ordinals(cards, withJoker))
    ensures var best := BestSlot(tally, 15);
            Classification(cards, withJoker)
              == Some(if best == 0 then FiveOfAKind else TypeOfCounts(JokersMoved(tally, best)))
  {
  }

  /** The first loop of `classify_hand_type`: slot k of a fresh 15-slot array
      counts the cards of ordinal k; `None` where an unknown card panics. */
  method CountByOrdinal(cards: string, withJoker: bool) returns (r: Option<array<nat>>)
    ensures r.Some? <==> ValidCards(cards, withJoker)
    ensures r.Some? ==> fresh(r.value) && r.value.Length == 15
                        && r.value[..] == Tally(Ordinals(cards, withJoker))
  {
    var countByOrdinal := new nat[15](_ => 0);
    for i := 0 to |cards|
      invariant ValidCards(cards[..i], withJoker)
      invariant countByOrdinal[..] == Tally(Ordinals(cards[..i], withJoker))
    {
      var ordinal := CardToOrdinal(cards[i], withJoker);
      if ordinal.None? {
        return None;
      }
      ghost var before := Ordinals(cards[..i], withJoker);
      OrdinalsSnoc(cards, i, withJoker);
      TallySnoc(before, ordinal.value);
      countByOrdinal[ordinal.value] := countByOrdinal[ordinal.value] + 1;
    }
    assert cards[..|cards|] == cards;
    return Some(countByOrdinal);
  }

  /** The second loop of `classify_hand_type`: the first of slots 2..14 with
      the largest nonzero count, or 0 when they are all empty. */
  method MostFrequentOrdinal(countByOrdinal: array<nat>) returns (maxCountI: nat)
    requires countByOrdinal.Length == 15
    ensures maxCountI == BestSlot(countByOrdinal[..], 15)
  {
    var maxCount := 0;
    maxCountI := 0;
    for i := 2 to 15
      invariant maxCountI == BestSlot(countByOrdinal[..], i)
      invariant maxCount == if maxCountI == 0 then 0 else countByOrdinal[maxCountI]
    {
      if countByOrdinal[i] > maxCount {
        maxCount := countByOrdinal[i];
        maxCountI := i;
      }
    }
  }

  /** The jokers join slot `best` and slot 1 is emptied, in place. */
  method MoveJokers(countByOrdinal: array<nat>, best: nat, jokerCount: nat)
    requires countByOrdinal.Length == 15 && 2 <= best < 15
    requires jokerCount == countByOrdinal[1]
    modifies countByOrdinal
    ensures countByOrdinal[..] == JokersMoved(old(countByOrdinal[..]), best)
  {
    countByOrdinal[best] := countByOrdinal[best] + jokerCount;
    countByOrdinal[1] := 0;
  }

  /** `classify_hand_type`: tallies the ordinals in a 15-slot array, finds the
      most frequent non-joker ordinal, moves the jokers onto it and reads the
      type off the largest count and the number of pairs. */
  method ClassifyHandType(cards: string, withJoker: bool) returns (r: Option<HandType>)
    ensures r == Classification(cards, withJoker)
  {
    var tallied := CountByOrdinal(cards, withJoker);
    if tallied.None? {
      return None;
    }
    var countByOrdinal := tallied.value;
    ghost var tally := countByOrdinal[..];
    ClassificationByTally(cards, withJoker, tally);

    var jokerCount := countByOrdinal[1];
    var maxCountI := MostFrequentOrdinal(countByOrdinal);
    if maxCountI == 0 {
      return Some(FiveOfAKind);
    }
    MoveJokers(countByOrdinal, maxCountI, jokerCount);
    return Some(TypeOfCounts(countByOrdinal[..]));
  }

  /** The nonzero entries of a count table: how often each card that occurs occurs. */
  function Shape(counts: seq<nat>): multiset<nat> {
    multiset(counts)[0 := 0]
  }

  lemma {:induction false} MaxOfShape(counts: seq<nat>, top: nat)
    requires top in Shape(counts)
    requires forall v :: v in Shape(counts) ==> v <= top
    ensures MaxCount(counts) == top
  {
    assert top in multiset(counts);
    var m := MaxCount(counts);
    assert m in multiset(counts);
    if m != 0 {
      assert m in Shape(counts);
    }
    var i :| 0 <= i < |counts| && counts[i] == top;
  }

  /** The type read off a count table depends only on its largest entry and
      on how many entries are two. */
  lemma {:induction false} TypeByShape(counts: seq<nat>, top: nat)
    requires top in Shape(counts)
    requires forall v :: v in Shape(counts) ==> v <= top
    ensures TypeOfCounts(counts) == ChainType(top, Shape(counts)[2])
  {
    MaxOfShape(counts, top);
    assert Occurrences(counts, 2) == Shape(counts)[2];
  }

  /** The puzzle's table of hand types, by how often each card that occurs
      occurs; `None` for a shape that no five-card hand has. */
  function TableType(shape: multiset<nat>): Option<HandType> {
    if shape == multiset{5} then Some(FiveOfAKind)
    else if shape == multiset{4, 1} then Some(FourOfAKind)
    else if shape == multiset{3, 2} then Some(FullHouse)
    else if shape == multiset{3, 1, 1} then Some(ThreeOfAKind)
    else if shape == multiset{2, 2, 1} then Some(TwoPair)
    else if shape == multiset{2, 1, 1, 1} then Some(OnePair)
    else if shape == multiset{1, 1, 1, 1, 1} then Some(HighCard)
    else None
  }

  /** Every shape the table lists has an entry. */
  lemma {:induction false} TableNonEmpty(shape: multiset<nat>)
    requires TableType(shape).Some?
    ensures 1 in shape || 2 in shape || 3 in shape || 4 in shape || 5 in shape
  {
  }

  /** Every row of the table is what the chain of tests gives for that row's
      largest entry and number of twos. */
  lemma {:induction false} TableChain(shape: multiset<nat>, top: nat)
    requires TableType(shape).Some?
    requires top in shape && forall v :: v in shape ==> v <= top
    ensures TableType(shape).value == ChainType(top, shape[2])
  {
    if shape == multiset{5} {
    } else if shape == multiset{4, 1} {
      assert 4 in shape;
    } else if shape == multiset{3, 2} {
      assert 3 in shape && shape[2] == 1;
    } else if shape == multiset{3, 1, 1} {
      assert 3 in shape && shape[2] == 0;
    } else if shape == multiset{2, 2, 1} {
      assert 2 in shape && shape[2] == 2;
    } else if shape == multiset{2, 1, 1, 1} {
      assert 2 in shape && shape[2] == 1;
    } else {
      assert shape[2] == 0;
    }
  }

  /** The source's chain of tests agrees with the table on every shape the
      table lists. */
  lemma {:induction false} TypeTable(counts: seq<nat>)
    ensures TableType(Shape(counts)).Some? ==> TypeOfCounts(counts) == TableType(Shape(counts)).value
  {
    var shape := Shape(counts);
    if TableType(shape).Some? {
      TableNonEmpty(shape);
      var v :| v in shape;
      assert v in counts;
      var top := MaxCount(counts);
      assert top in shape;
      TableChain(shape, top);
      TypeByShape(counts, top);
    }
  }

  /** Without jokers a non-empty hand is classified by its own count table. */
  lemma {:induction false} WithoutJokers(cards: string)
    requires ValidCards(cards, false) && |cards| > 0
    ensures Classification(cards, false) == Some(TypeOfCounts(Tally(Ordinals(cards, false))))
  {
    var ords := Ordinals(cards, false);
    var counts := Tally(ords);
    assert 1 !in multiset(ords);
    assert ords[0] in multiset(ords);
    assert counts[ords[0]] > 0;
    var best := BestSlot(counts, 15);
    assert JokersMoved(counts, best) == counts;
  }

  function Sum(counts: seq<nat>): nat {
    if |counts| == 0 then 0 else Sum(counts[..|counts| - 1]) + counts[|counts| - 1]
  }

  lemma {:induction false} SumUpdate(counts: seq<nat>, i: nat, v: nat)
    requires i < |counts|
    ensures Sum(counts[i := v]) + counts[i] == Sum(counts) + v
  {
    var n := |counts|;
    var updated := counts[i := v];
    if i < n - 1 {
      assert updated[..n - 1] == counts[..n - 1][i := v];
      SumUpdate(counts[..n - 1], i, v);
    } else {
      assert updated[..n - 1] == counts[..n - 1];
    }
  }

  /** The count table of a hand adds up to the number of cards. */
  lemma {:induction false} TallySum(ords: seq<nat>)
    requires forall i :: 0 <= i < |ords| ==> ords[i] < 15
    ensures Sum(Tally(ords)) == |ords|
  {
    if |ords| > 0 {
      var front := ords[..|ords| - 1];
      var o := ords[|ords| - 1];
      assert ords == front + [o];
      TallySum(front);
      TallySnoc(front, o);
      SumUpdate(Tally(front), o, Tally(front)[o] + 1);
    } else {
      assert Tally(ords) == seq(15, k => 0);
      ZeroSum(15);
    }
  }

  lemma {:induction false} ZeroSum(n: nat)
    ensures Sum(seq(n, k => 0)) == 0
  {
    if n > 0 {
      assert seq(n, k => 0)[..n - 1] == seq(n - 1, k => 0);
      ZeroSum(n - 1);
    }
  }

  /** Moving one entry onto another keeps the total. */
  lemma {:induction false} SumMove(counts: seq<nat>, from: nat, to: nat)
    requires from < |counts| && to < |counts| && from != to
    ensures Sum(counts[to := counts[to] + counts[from]][from := 0]) == Sum(counts)
  {
    var raised := counts[to := counts[to] + counts[from]];
    SumUpdate(counts, to, counts[to] + counts[from]);
    assert raised[from] == counts[from];
    SumUpdate(raised, from, 0);
  }

  /** Moving the jokers keeps the number of cards. */
  lemma {:induction false} JokersMovedSum(counts: seq<nat>, best: nat)
    requires 2 <= best < |counts|
    ensures Sum(JokersMoved(counts, best)) == Sum(counts)
  {
    var moved := counts[best := counts[best] + counts[1]][1 := 0];
    assert JokersMoved(counts, best) == moved;
    SumMove(counts, 1, best);
  }

  /** With jokers, a hand of jokers only is five of a kind. */
  lemma {:induction false} AllJokers(cards: string)
    requires forall i :: 0 <= i < |cards| ==> cards[i] == 'J'
    ensures Classification(cards, true) == Some(FiveOfAKind)
  {
    var ords := Ordinals(cards, true);
    var counts := Tally(ords);
    forall k | 2 <= k < 15
      ensures counts[k] == 0
    {
      assert k !in multiset(ords);
    }
  }

  /** With jokers and at least one other card, the jokers count for the most
      frequent other ordinal, the lowest one on a tie, and the hand still holds
      as many cards as before. */
  lemma {:induction false} JokersJoinBest(cards: string)
    requires ValidCards(cards, true)
    requires exists i :: 0 <= i < |cards| && cards[i] != 'J'
    ensures var counts := Tally(Ordinals(cards, true));
            var best := BestSlot(counts, 15);
            && 2 <= best < 15
            && (forall k :: 2 <= k < 15 ==> counts[k] <= counts[best])
            && (forall k :: 2 <= k < best ==> counts[k] < counts[best])
            && Classification(cards, true) == Some(TypeOfCounts(JokersMoved(counts, best)))
            && Sum(JokersMoved(counts, best)) == |cards|
  {
    var ords := Ordinals(cards, true);
    var counts := Tally(ords);
    var i :| 0 <= i < |cards| && cards[i] != 'J';
    assert ords[i] in multiset(ords);
    assert 2 <= ords[i] && counts[ords[i]] > 0;
    var best := BestSlot(counts, 15);
    JokersMovedSum(counts, best);
    TallySum(ords);
  }

  // ---------------------------------------------------------------------------
  // The integer proxy

  /** A key read as a base-16 numeral, most significant entry first. */
  function Base16(key: seq<nat>): nat {
    if |key| == 0 then 0 else Base16(key[..|key| - 1]) * 16 + key[|key| - 1]
  }

  /** Reads a number back as n base-16 digits below a leading entry holding the rest. */
  function FromBase16(p: nat, n: nat): (key: seq<nat>)
    ensures |key| == n + 1
  {
    if n == 0 then [p] else FromBase16(p / 16, n - 1) + [p % 16]
  }

  predicate HexDigitsAfterFirst(key: seq<nat>) {
    forall i :: 1 <= i < |key| ==> key[i] < 16
  }

  lemma {:induction false} FromBase16Base16(key: seq<nat>)
    requires |key| >= 1 && HexDigitsAfterFirst(key)
    ensures FromBase16(Base16(key), |key| - 1) == key
  {
    if |key| > 1 {
      var front := key[..|key| - 1];
      FromBase16Base16(front);
      assert front + [key[|key| - 1]] == key;
    } else {
      assert key[..0] == [];
    }
  }

  /** The sort key of a hand: the hand type's strength, then its first five cards. */
  function ProxyKey(cards: string, t: HandType, withJoker: bool): (key: seq<nat>)
    requires |cards| >= 5 && ValidCards(cards[..5], withJoker)
    ensures |key| == 6 && HexDigitsAfterFirst(key)
  {
    [Strength(t)] + Ordinals(cards[..5], withJoker)
  }

  lemma {:induction false} Base16Six(a: nat, b: nat, c: nat, d: nat, e: nat, f: nat)
    ensures Base16([a, b, c, d, e, f])
         == a * 0x10_0000 + b * 0x1_0000 + c * 0x1000 + d * 0x100 + e * 0x10 + f
  {
    assert [a][..0] == [];
    assert Base16([a]) == a;
    assert [a, b][..1] == [a];
    assert Base16([a, b]) == a * 0x10 + b;
    assert [a, b, c][..2] == [a, b];
    assert Base16([a, b, c]) == a * 0x100 + b * 0x10 + c;
    assert [a, b, c, d][..3] == [a, b, c];
    assert Base16([a, b, c, d]) == a * 0x1000 + b * 0x100 + c * 0x10 + d;
    assert [a, b, c, d, e][..4] == [a, b, c, d];
    assert Base16([a, b, c, d, e]) == a * 0x1_0000 + b * 0x1000 + c * 0x100 + d * 0x10 + e;
    assert [a, b, c, d, e, f][..5] == [a, b, c, d, e];
  }

  lemma {:induction false} FirstFiveOrdinals(cards: string, withJoker: bool)
    requires |cards| >= 5 && ValidCards(cards[..5], withJoker)
    ensures forall i :: 0 <= i < 5 ==> CardToOrdinal(cards[i], withJoker).Some?
    ensures Ordinals(cards[..5], withJoker)
         == [CardToOrdinal(cards[0], withJoker).value, CardToOrdinal(cards[1], withJoker).value,
             CardToOrdinal(cards[2], withJoker).value, CardToOrdinal(cards[3], withJoker).value,
             CardToOrdinal(cards[4], withJoker).value]
  {
    var five := cards[..5];
    assert five[0] == cards[0] && five[1] == cards[1] && five[2] == cards[2];
    assert five[3] == cards[3] && five[4] == cards[4];
    var ords := Ordinals(five, withJoker);
    assert ords == [ords[0], ords[1], ords[2], ords[3], ords[4]];
  }

  /** `Hand::hand_to_integer_proxy`: the strength times 2^20 plus the five
      first cards as four-bit fields, the first card most significant. */
  function HandToIntegerProxy(cards: string, t: HandType, withJoker: bool): (p: nat)
    requires |cards| >= 5 && ValidCards(cards[..5], withJoker)
    ensures p == Base16(ProxyKey(cards, t, withJoker))
    ensures p < 7 * 0x10_0000
  {
    var o0 := CardToOrdinal(cards[0], withJoker).value;
    var o1 := CardToOrdinal(cards[1], withJoker).value;
    var o2 := CardToOrdinal(cards[2], withJoker).value;
    var o3 := CardToOrdinal(cards[3], withJoker).value;
    var o4 := CardToOrdinal(cards[4], withJoker).value;
    FirstFiveOrdinals(cards, withJoker);
    assert ProxyKey(cards, t, withJoker) == [Strength(t)] + [o0, o1, o2, o3, o4];
    Base16Six(Strength(t), o0, o1, o2, o3, o4);
    assert [Strength(t)] + [o0, o1, o2, o3, o4] == [Strength(t), o0, o1, o2, o3, o4];
    assert Base16(ProxyKey(cards, t, withJoker)) == Strength(t) * 0x10_0000 + o0 * 0x1_0000 + o1 * 0x1000 + o2 * 0x100 + o3 * 0x10 + o4;
    Strength(t) * 0x10_0000 + o0 * 0x1_0000 + o1 * 0x1000 + o2 * 0x100 + o3 * 0x10 + o4
  }

  /** Dividing by powers of 16 and taking remainders recovers the hand type's
      strength and the five card ordinals. */
  lemma {:induction false} ProxyRoundTrip(cards: string, t: HandType, withJoker: bool)
    requires |cards| >= 5 && ValidCards(cards[..5], withJoker)
    ensures FromBase16(HandToIntegerProxy(cards, t, withJoker), 5) == ProxyKey(cards, t, withJoker)
  {
    FromBase16Base16(ProxyKey(cards, t, withJoker));
  }

  /** Lexicographic order on sequences: equal up to some index, smaller there. */
  ghost predicate LexLess(a: seq<nat>, b: seq<nat>) {
    exists i :: 0 <= i < |a| && i < |b| && a[..i] == b[..i] && a[i] < b[i]
  }

  lemma {:induction false} LexLessSnoc(a: seq<nat>, x: nat, b: seq<nat>, y: nat)
    requires |a| == |b|
    ensures LexLess(a + [x], b + [y]) <==> LexLess(a, b) || (a == b && x < y)
  {
    var a', b' := a + [x], b + [y];
    if LexLess(a', b') {
      var i :| 0 <= i < |a'| && i < |b'| && a'[..i] == b'[..i] && a'[i] < b'[i];
      if i < |a| {
        assert a'[..i] == a[..i] && b'[..i] == b[..i];
        assert LexLess(a, b);
      } else {
        assert a'[..i] == a && b'[..i] == b;
      }
    }
    if LexLess(a, b) {
      var i :| 0 <= i < |a| && i < |b| && a[..i] == b[..i] && a[i] < b[i];
      assert a'[..i] == a[..i] && b'[..i] == b[..i];
    }
    if a == b && x < y {
      assert a'[..|a|] == a && b'[..|b|] == b;
    }
  }

  /** Numeric order of base-16 keys is their lexicographic order, and equal
      values mean equal keys. */
  lemma {:induction false} Base16Order(a: seq<nat>, b: seq<nat>)
    requires |a| == |b| && HexDigitsAfterFirst(a) && HexDigitsAfterFirst(b)
    ensures Base16(a) < Base16(b) <==> LexLess(a, b)
    ensures Base16(a) == Base16(b) <==> a == b
    decreases |a|
  {
    if |a| == 0 {
      assert !LexLess(a, b);
    } else {
      var n := |a|;
      var a', b' := a[..n - 1], b[..n - 1];
      var x, y := a[n - 1], b[n - 1];
      assert a == a' + [x] && b == b' + [y];
      Base16Order(a', b');
      LexLessSnoc(a', x, b', y);
      if n == 1 {
        assert a' == [] && b' == [];
        assert !LexLess(a', b');
      } else {
        assert x < 16 && y < 16;
        if LexLess(a', b') {
          assert !LexLess(b', a') by {
            Base16Order(b', a');
          }
        }
      }
    }
  }

  /** One hand's proxy is below another's exactly when its key (strength,
      then the five cards in order) is lexicographically smaller. */
  lemma {:induction false} ProxyOrder(c1: string, t1: HandType, c2: string, t2: HandType, withJoker: bool)
    requires |c1| >= 5 && ValidCards(c1[..5], withJoker)
    requires |c2| >= 5 && ValidCards(c2[..5], withJoker)
    ensures HandToIntegerProxy(c1, t1, withJoker) < HandToIntegerProxy(c2, t2, withJoker)
        <==> LexLess(ProxyKey(c1, t1, withJoker), ProxyKey(c2, t2, withJoker))
    ensures HandToIntegerProxy(c1, t1, withJoker) == HandToIntegerProxy(c2, t2, withJoker)
        <==> ProxyKey(c1, t1, withJoker) == ProxyKey(c2, t2, withJoker)
  {
    Base16Order(ProxyKey(c1, t1, withJoker), ProxyKey(c2, t2, withJoker));
  }

  /** A stronger hand type always has the larger proxy, whatever the cards. */
  lemma {:induction false} StrongerTypeWins(c1: string, t1: HandType, c2: string, t2: HandType, withJoker: bool)
    requires |c1| >= 5 && ValidCards(c1[..5], withJoker)
    requires |c2| >= 5 && ValidCards(c2[..5], withJoker)
    requires Strength(t1) < Strength(t2)
    ensures HandToIntegerProxy(c1, t1, withJoker) < HandToIntegerProxy(c2, t2, withJoker)
  {
    var k1, k2 := ProxyKey(c1, t1, withJoker), ProxyKey(c2, t2, withJoker);
    assert k1[..0] == k2[..0];
    assert LexLess(k1, k2);
    ProxyOrder(c1, t1, c2, t2, withJoker);
  }

  // ---------------------------------------------------------------------------
  // Hands

  /** `Hand`. */
  datatype Hand = Hand(cards: string, bid: nat, handType: HandType, integerProxy: nat)

  /** The hand `Hand::new` builds; `None` where it panics (an unknown card,
      or fewer than five cards for the proxy). */
  function MakeHand(cards: string, bid: nat, withJoker: bool): Option<Hand> {
    if !ValidCards(cards, withJoker) || |cards| < 5 then None
    else
      var t := HandTypeOf(Ordinals(cards, withJoker));
      assert ValidCards(cards[..5], withJoker);
      Some(Hand(cards, bid, t, HandToIntegerProxy(cards, t, withJoker)))
  }

  /** `Hand::new`: classifies the cards, then packs the proxy. */
  method NewHand(cards: string, bid: nat, withJoker: bool) returns (r: Option<Hand>)
    ensures r.Some? <==> ValidCards(cards, withJoker) && |cards| >= 5
    ensures r.Some? ==> r.value.cards == cards && r.value.bid == bid
    ensures r.Some? ==> Some(r.value.handType) == Classification(cards, withJoker)
    ensures r.Some? ==> r.value.integerProxy == HandToIntegerProxy(cards, r.value.handType, withJoker)
    ensures r == MakeHand(cards, bid, withJoker)
  {
    var handType := ClassifyHandType(cards, withJoker);
    if handType.None? {
      return None;
    }
    if |cards| < 5 {
      return None;
    }
    assert ValidCards(cards[..5], withJoker);
    var proxy := HandToIntegerProxy(cards, handType.value, withJoker);
    return Some(Hand(cards, bid, handType.value, proxy));
  }

  // ---------------------------------------------------------------------------
  // Parsing a line

  /** 2^128: `u128` holds the values below it. */
  const U128Limit: nat := 0x1_0000_0000_0000_0000_0000_0000_0000_0000

  /** `str::parse::<u128>`: an optional `+` and at least one decimal digit,
      with a value that fits in 128 bits. */
  function ParseU128(s: string): (r: Option<nat>)
    ensures r.Some? ==> r.value < U128Limit
  {
    var digits := if |s| > 0 && s[0] == '+' then s[1..] else s;
    if |digits| == 0 || !AllDigits(digits) || DecimalValue(digits) >= U128Limit then None
    else Some(DecimalValue(digits))
  }

  /** Every value of 128 bits is read back from its numeral, with or without a `+`. */
  lemma {:induction false} ParseU128Numeral(n: nat)
    requires n < U128Limit
    ensures ParseU128(DecimalString(n)) == Some(n)
    ensures ParseU128("+" + DecimalString(n)) == Some(n)
  {
    assert ("+" + DecimalString(n))[1..] == DecimalString(n);
  }

  /** The two fields `solve_day07` takes from a line split at spaces: the
      first part (the cards) and the second part (the bid); `None` where the
      source panics (no second part, or a bid that does not parse). */
  function ParseLine(line: string): Option<(string, nat)> {
    var parts := Split(line, ' ');
    if |parts| < 2 then None
    else
      match ParseU128(parts[1])
      case None => None
      case Some(bid) => Some((parts[0], bid))
  }

  /** A line written as cards, a space and the bid's numeral reads back. */
  lemma {:induction false} ParseLineRoundTrip(cards: string, bid: nat)
    requires ' ' !in cards && bid < U128Limit
    ensures ParseLine(cards + " " + DecimalString(bid)) == Some((cards, bid))
  {
    var numeral := DecimalString(bid);
    assert ' ' !in numeral by {
      forall i | 0 <= i < |numeral| ensures numeral[i] != ' ' {
        assert IsDigit(numeral[i]);
      }
    }
    SplitJoin([cards, numeral], ' ');
    assert Join([cards, numeral], ' ') == cards + " " + numeral by {
      assert [cards, numeral][1..] == [numeral];
    }
    ParseU128Numeral(bid);
  }

  /** The hands of all lines, in input order; `None` if any line makes the source panic. */
  function ParseHands(lines: seq<string>, withJoker: bool): Option<seq<Hand>> {
    if |lines| == 0 then Some([])
    else
      match ParseHands(lines[..|lines| - 1], withJoker)
      case None => None
      case Some(hands) =>
        match ParseLine(lines[|lines| - 1])
        case None => None
        case Some((cards, bid)) =>
          match MakeHand(cards, bid, withJoker)
          case None => None
          case Some(hand) => Some(hands + [hand])
  }

  lemma {:induction false} ParseHandsFails(lines: seq<string>, k: nat, withJoker: bool)
    requires k <= |lines|
    requires ParseHands(lines[..k], withJoker).None?
    ensures ParseHands(lines, withJoker).None?
  {
    if k < |lines| {
      var front := lines[..|lines| - 1];
      assert front[..k] == lines[..k];
      ParseHandsFails(front, k, withJoker);
      assert ParseHands(front, withJoker).None?;
    } else {
      assert lines[..k] == lines;
    }
  }

  // ---------------------------------------------------------------------------
  // Sorting and ranking

  /** Ascending by proxy. */
  ghost predicate SortedByProxy(hands: seq<Hand>) {
    forall i, j :: 0 <= i < j < |hands| ==> hands[i].integerProxy <= hands[j].integerProxy
  }

  /** The hands with proxy k, in the order they appear. */
  function WithProxy(hands: seq<Hand>, k: nat): seq<Hand> {
    if |hands| == 0 then []
    else (if hands[0].integerProxy == k then [hands[0]] else []) + WithProxy(hands[1..], k)
  }

  /** Inserts a hand in front of the first hand with a proxy not below its own. */
  function InsertByProxy(hand: Hand, sorted: seq<Hand>): seq<Hand> {
    if |sorted| == 0 || hand.integerProxy <= sorted[0].integerProxy then [hand] + sorted
    else [sorted[0]] + InsertByProxy(hand, sorted[1..])
  }

  lemma {:induction false} InsertKeepsHands(hand: Hand, sorted: seq<Hand>)
    ensures multiset(InsertByProxy(hand, sorted)) == multiset(sorted) + multiset{hand}
  {
    if |sorted| > 0 && hand.integerProxy > sorted[0].integerProxy {
      InsertKeepsHands(hand, sorted[1..]);
      assert sorted == [sorted[0]] + sorted[1..];
    }
  }

  lemma {:induction false} InsertKeepsOrder(hand: Hand, sorted: seq<Hand>, k: nat)
    ensures WithProxy(InsertByProxy(hand, sorted), k)
         == (if hand.integerProxy == k then [hand] else []) + WithProxy(sorted, k)
  {
    var r := InsertByProxy(hand, sorted);
    if |sorted| == 0 || hand.integerProxy <= sorted[0].integerProxy {
      assert r[1..] == sorted;
    } else {
      var rest := InsertByProxy(hand, sorted[1..]);
      assert r[1..] == rest;
      InsertKeepsOrder(hand, sorted[1..], k);
      var mine := if hand.integerProxy == k then [hand] else [];
      var first := if sorted[0].integerProxy == k then [sorted[0]] else [];
      assert WithProxy(r, k) == first + (mine + WithProxy(sorted[1..], k));
      assert WithProxy(sorted, k) == first + WithProxy(sorted[1..], k);
      assert mine == [] || first == [];
    }
  }

  lemma {:induction false} InsertKeepsSorted(hand: Hand, sorted: seq<Hand>)
    requires SortedByProxy(sorted)
    ensures SortedByProxy(InsertByProxy(hand, sorted))
  {
    if |sorted| > 0 && hand.integerProxy > sorted[0].integerProxy {
      var rest := InsertByProxy(hand, sorted[1..]);
      var r := [sorted[0]] + rest;
      InsertKeepsSorted(hand, sorted[1..]);
      InsertKeepsHands(hand, sorted[1..]);
      forall j | 0 < j < |r| ensures sorted[0].integerProxy <= r[j].integerProxy {
        assert r[j] == rest[j - 1];
        assert rest[j - 1] in multiset(rest);
        if r[j] != hand {
          assert r[j] in multiset(sorted[1..]);
          var m :| 0 <= m < |sorted[1..]| && sorted[1..][m] == r[j];
          assert sorted[m + 1] == r[j];
        }
      }
    }
  }

  /** The model of the standard library's stable `sort_by_key` on the proxy:
      a permutation, ascending, and hands with equal proxies keep their order. */
  function SortByProxy(hands: seq<Hand>): (sorted: seq<Hand>)
    ensures multiset(sorted) == multiset(hands)
    ensures SortedByProxy(sorted)
    ensures forall k :: WithProxy(sorted, k) == WithProxy(hands, k)
  {
    if |hands| == 0 then []
    else
      var rest := SortByProxy(hands[1..]);
      assert hands == [hands[0]] + hands[1..];
      InsertKeepsHands(hands[0], rest);
      InsertKeepsSorted(hands[0], rest);
      assert forall k :: WithProxy(InsertByProxy(hands[0], rest), k) == WithProxy(hands, k) by {
        forall k ensures WithProxy(InsertByProxy(hands[0], rest), k) == WithProxy(hands, k) {
          InsertKeepsOrder(hands[0], rest, k);
        }
      }
      InsertByProxy(hands[0], rest)
  }

  lemma {:induction false} WithProxyEmpty(hands: seq<Hand>)
    ensures (forall k :: WithProxy(hands, k) == []) ==> hands == []
  {
    if |hands| > 0 {
      assert WithProxy(hands, hands[0].integerProxy) != [];
    }
  }

  lemma {:induction false} WithProxyMember(hands: seq<Hand>, k: nat)
    requires WithProxy(hands, k) != []
    ensures exists j :: 0 <= j < |hands| && hands[j].integerProxy == k
  {
    if hands[0].integerProxy != k {
      WithProxyMember(hands[1..], k);
      var j :| 0 <= j < |hands[1..]| && hands[1..][j].integerProxy == k;
      assert hands[j + 1].integerProxy == k;
    }
  }

  /** Two non-empty ascending arrangements with the same hands in the same
      order for every proxy start with the same hand. */
  lemma {:induction false} SameFirstHand(s: seq<Hand>, t: seq<Hand>)
    requires |s| > 0 && |t| > 0
    requires SortedByProxy(s) && SortedByProxy(t)
    requires forall k :: WithProxy(s, k) == WithProxy(t, k)
    ensures s[0] == t[0]
  {
    var ks, kt := s[0].integerProxy, t[0].integerProxy;
    assert WithProxy(s, ks) != [];
    WithProxyMember(t, ks);
    assert WithProxy(t, kt) != [];
    WithProxyMember(s, kt);
    assert ks == kt;
    assert WithProxy(s, ks)[0] == s[0] && WithProxy(t, ks)[0] == t[0];
  }

  /** Removing the same first hand keeps the hands of every proxy equal. */
  lemma {:induction false} SameRest(s: seq<Hand>, t: seq<Hand>)
    requires |s| > 0 && |t| > 0 && s[0] == t[0]
    requires forall k :: WithProxy(s, k) == WithProxy(t, k)
    ensures forall k :: WithProxy(s[1..], k) == WithProxy(t[1..], k)
  {
    forall k ensures WithProxy(s[1..], k) == WithProxy(t[1..], k) {
      var first := if s[0].integerProxy == k then [s[0]] else [];
      assert WithProxy(s, k) == first + WithProxy(s[1..], k);
      assert WithProxy(t, k) == first + WithProxy(t[1..], k);
      assert WithProxy(s[1..], k) == WithProxy(s, k)[|first|..];
    }
  }

  /** Sorted and stable pins the order down: two ascending arrangements with
      the same hands in the same order for every proxy are equal. */
  lemma {:induction false} StableOrderUnique(s: seq<Hand>, t: seq<Hand>)
    requires SortedByProxy(s) && SortedByProxy(t)
    requires forall k :: WithProxy(s, k) == WithProxy(t, k)
    ensures s == t
  {
    if |s| == 0 || |t| == 0 {
      WithProxyEmpty(s);
      WithProxyEmpty(t);
    } else {
      SameFirstHand(s, t);
      SameRest(s, t);
      assert SortedByProxy(s[1..]) && SortedByProxy(t[1..]);
      StableOrderUnique(s[1..], t[1..]);
      assert s == [s[0]] + s[1..] && t == [t[0]] + t[1..];
    }
  }

  /** Sum of bid times rank, rank i + 1 for the hand at position i. */
  function Winnings(ranked: seq<Hand>): nat {
    if |ranked| == 0 then 0
    else Winnings(ranked[..|ranked| - 1]) + ranked[|ranked| - 1].bid * |ranked|
  }

  /** The answer does not depend on how the stable sort is carried out: any
      ascending arrangement that keeps equal proxies in input order gives it. */
  lemma {:induction false} WinningsOfStableOrder(hands: seq<Hand>, ranked: seq<Hand>)
    requires SortedByProxy(ranked)
    requires forall k :: WithProxy(ranked, k) == WithProxy(hands, k)
    ensures Winnings(ranked) == Winnings(SortByProxy(hands))
  {
    StableOrderUnique(ranked, SortByProxy(hands));
  }

  /** One more line extends the parsed hands by that line's hand. */
  lemma {:induction false} ParseHandsStep(lines: seq<string>, k: nat, withJoker: bool)
    requires k < |lines|
    ensures ParseHands(lines[..k + 1], withJoker)
         == match ParseHands(lines[..k], withJoker)
            case None => None
            case Some(hands) =>
              match ParseLine(lines[k])
              case None => None
              case Some((cards, bid)) =>
                match MakeHand(cards, bid, withJoker)
                case None => None
                case Some(hand) => Some(hands + [hand])
  {
    assert lines[..k + 1][..k] == lines[..k];
  }

  /** The last loop of `solve_day07`: bid times rank, summed over the ranked hands. */
  method TotalWinning(ranked: seq<Hand>) returns (totalWinning: nat)
    ensures totalWinning == Winnings(ranked)
  {
    totalWinning := 0;
    for i := 0 to |ranked|
      invariant totalWinning == Winnings(ranked[..i])
    {
      assert ranked[..i + 1][..i] == ranked[..i];
      totalWinning := totalWinning + ranked[i].bid * (i + 1);
    }
    assert ranked[..|ranked|] == ranked;
  }

  /** `solve_day07`: parses every line into a hand, sorts the hands by proxy
      and adds up bid times rank; `None` where the source panics. */
  method SolveDay07(input: string, withJoker: bool) returns (r: Option<nat>)
    ensures r.None? <==> ParseHands(Lines(input), withJoker).None?
    ensures r.Some? ==> r.value == Winnings(SortByProxy(ParseHands(Lines(input), withJoker).value))
  {
    var lines := Lines(input);
    var allHands: seq<Hand> := [];
    for k := 0 to |lines|
      invariant ParseHands(lines[..k], withJoker) == Some(allHands)
    {
      ParseHandsStep(lines, k, withJoker);
      var parsed := ParseLine(lines[k]);
      if parsed.None? {
        ParseHandsFails(lines, k + 1, withJoker);
        return None;
      }
      var hand := NewHand(parsed.value.0, parsed.value.1, withJoker);
      if hand.None? {
        ParseHandsFails(lines, k + 1, withJoker);
        return None;
      }
      allHands := allHands + [hand.value];
    }
    assert lines[..|lines|] == lines;
    allHands := SortByProxy(allHands);
    var totalWinning := TotalWinning(allHands);
    return Some(totalWinning);
  }
}
