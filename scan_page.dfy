/**
 * The scan page's "Add all items" step: the reviewed receipt items become stored items
 * in one batch, their quantities read off the recognised quantity text.
 */
module ScanPage {
  import opened Wrappers
  import opened Storage
  import opened ParsedItems
  import Seqs

  predicate IsDigit(c: char) {
    '0' <= c <= '9'
  }

  /** The first position at or after `i` holding a digit, or `|s|` when there is none. */
  function FirstDigit(s: string, i: nat): (j: nat)
    requires i <= |s|
    ensures i <= j <= |s|
    ensures forall k :: i <= k < j ==> !IsDigit(s[k])
    ensures j < |s| ==> IsDigit(s[j])
    decreases |s| - i
  {
    if i < |s| && !IsDigit(s[i]) then FirstDigit(s, i + 1) else i
  }

  /** The end of the run of digits starting at `i`. */
  function DigitsEnd(s: string, i: nat): (j: nat)
    requires i <= |s|
    ensures i <= j <= |s|
    ensures forall k :: i <= k < j ==> IsDigit(s[k])
    ensures j < |s| ==> !IsDigit(s[j])
    decreases |s| - i
  {
    if i < |s| && IsDigit(s[i]) then DigitsEnd(s, i + 1) else i
  }

  /**
   * Where the pattern `\d+(?:\.\d+)?` matches in a text: the whole part is `s[start..point]`;
   * the fraction, when `end != point`, is `s[point + 1..end]`.
   */
  datatype Span = Span(start: nat, point: nat, end: nat)

  /**
   * `m` is the leftmost, longest match of `\d+(?:\.\d+)?` in `s`: no digit comes before it,
   * the whole part is all the digits there, a fraction is taken exactly when a point and a
   * digit come next, and the fraction is all the digits after the point.
   */
  predicate IsQuantityMatch(s: string, m: Span) {
    m.start < m.point <= m.end <= |s|
    && (forall k :: 0 <= k < m.start ==> !IsDigit(s[k]))
    && (forall k :: m.start <= k < m.point ==> IsDigit(s[k]))
    && (m.point < |s| ==> !IsDigit(s[m.point]))
    && (m.end == m.point ==> !(m.point + 1 < |s| && s[m.point] == '.' && IsDigit(s[m.point + 1])))
    && (m.end != m.point ==>
          m.point + 1 < m.end && s[m.point] == '.'
          && (forall k :: m.point + 1 <= k < m.end ==> IsDigit(s[k]))
          && (m.end < |s| ==> !IsDigit(s[m.end])))
  }

  /** `text.match(/(\d+(?:\.\d+)?)/)`: the first numeral in the text, if there is one. */
  function MatchQuantity(s: string): (r: Option<Span>)
    ensures r.None? <==> forall k :: 0 <= k < |s| ==> !IsDigit(s[k])
    ensures r.Some? ==> IsQuantityMatch(s, r.value)
  {
    var i := FirstDigit(s, 0);
    if i == |s| then None
    else
      var j := DigitsEnd(s, i);
      if j + 1 < |s| && s[j] == '.' && IsDigit(s[j + 1]) then Some(Span(i, j, DigitsEnd(s, j + 1)))
      else Some(Span(i, j, j))
  }

  /** A text has at most one leftmost, longest match. */
  lemma MatchUnique(s: string, a: Span, b: Span)
    requires IsQuantityMatch(s, a) && IsQuantityMatch(s, b)
    ensures a == b
  {
    assert IsDigit(s[a.start]) && IsDigit(s[b.start]);
  }

  function Pow10(n: nat): (p: nat)
    ensures p >= 1
  {
    if n == 0 then 1 else 10 * Pow10(n - 1)
  }

  /** The number the digits `s[i..j]` denote. */
  function DigitsValue(s: string, i: nat, j: nat): nat
    requires i <= j <= |s|
    requires forall k :: i <= k < j ==> IsDigit(s[k])
    decreases j - i
  {
    if i == j then 0 else assert IsDigit(s[j - 1]); 10 * DigitsValue(s, i, j - 1) + ((s[j - 1] as int) - ('0' as int))
  }

  /** `parseFloat` of the matched numeral, as an exact decimal. */
  function MatchValue(s: string, m: Span): (v: real)
    requires IsQuantityMatch(s, m)
    ensures v >= 0.0
  {
    var whole := DigitsValue(s, m.start, m.point) as real;
    if m.end == m.point then whole
    else
      var fraction := Fraction(DigitsValue(s, m.point + 1, m.end), Pow10(m.end - m.point - 1));
      whole + fraction
  }

  /** `n / d` as a real, which is never negative. */
  function Fraction(n: nat, d: nat): (f: real)
    requires d >= 1
    ensures f >= 0.0
  {
    n as real / d as real
  }

  /** The quantity saved for a recognised quantity text: the value of its first numeral, or 1 when it has none. */
  function Quantity(s: string): (q: real)
    ensures q >= 0.0
    ensures (forall k :: 0 <= k < |s| ==> !IsDigit(s[k])) ==> q == 1.0
    ensures forall m :: IsQuantityMatch(s, m) ==> q == MatchValue(s, m)
  {
    var r := MatchQuantity(s);
    if r.None? then 1.0
    else
      assert forall m :: IsQuantityMatch(s, m) ==> m == r.value by {
        forall m | IsQuantityMatch(s, m) ensures m == r.value {
          MatchUnique(s, m, r.value);
        }
      }
      MatchValue(s, r.value)
  }

  /** A whole number followed by a unit. */
  lemma QuantityOfWhole()
    ensures Quantity("1 pack") == 1.0
  {
    assert IsQuantityMatch("1 pack", Span(0, 1, 1));
  }

  /** A decimal quantity keeps its fraction. */
  lemma QuantityOfDecimal()
    ensures Quantity("1.2 kg") == 1.2
  {
    var s, m := "1.2 kg", Span(0, 1, 3);
    assert IsQuantityMatch(s, m);
    assert DigitsValue(s, 0, 1) == 1;
    assert DigitsValue(s, 2, 3) == 2;
    assert Fraction(2, Pow10(1)) == 0.2;
  }

  /** A point with no digit after it ends the numeral. */
  lemma QuantityOfTrailingPoint()
    ensures Quantity("2.kg") == 2.0
  {
    assert IsQuantityMatch("2.kg", Span(0, 1, 1));
  }

  /** A text without digits gives 1. */
  lemma QuantityWithoutDigits()
    ensures Quantity("dozen") == 1.0
  {
    assert !IsDigit("dozen"[0]);
  }

  /** The stored-item input a reviewed receipt item becomes. */
  function ToInput(p: ParsedItem): ItemInput {
    ItemInput(p.name, p.category, Quantity(p.quantity), "pieces", p.interval, None, None)
  }

  /** `itemsToSave`: one input per parsed item, in order. */
  function ItemsToSave(parsed: seq<ParsedItem>): (r: seq<ItemInput>)
    ensures |r| == |parsed|
  {
    if parsed == [] then [] else [ToInput(parsed[0])] + ItemsToSave(parsed[1..])
  }

  /**
   * What each input of `itemsToSave` holds: the parsed item's name, category and interval, the
   * quantity extracted from its text, the unit "pieces" and no reminder dates.
   */
  lemma {:induction false} ItemsToSaveFields(parsed: seq<ParsedItem>)
    ensures forall k :: 0 <= k < |parsed| ==>
      var r := ItemsToSave(parsed)[k];
      && r.name == parsed[k].name && r.category == parsed[k].category
      && r.interval == parsed[k].interval && r.unit == "pieces"
      && r.quantity == Quantity(parsed[k].quantity)
      && r.lastReminder.None? && r.nextReminder.None?
  {
    if parsed != [] {
      ItemsToSaveFields(parsed[1..]);
      forall k | 1 <= k < |parsed| ensures ItemsToSave(parsed)[k] == ItemsToSave(parsed[1..])[k - 1] {
      }
    }
  }

  /** What `handleAddAllItems` reports. */
  datatype AddOutcome = NothingToAdd | Added(count: nat) | Failed

  class ScanPageState {
    const store: StorageService
    /** The reviewed receipt items. */
    var parsedItems: seq<ParsedItem>
    var isSubmitting: bool

    constructor(store: StorageService)
      ensures this.store == store && parsedItems == [] && !isSubmitting
    {
      this.store := store;
      parsedItems := [];
      isSubmitting := false;
    }

    /** The recognised items arrive, or the list is edited (`setParsedItems`). */
    method SetParsedItems(items: seq<ParsedItem>)
      modifies this`parsedItems
      ensures parsedItems == items
    {
      parsedItems := items;
    }

    /**
     * `handleAddAllItems`: nothing happens for an empty list; otherwise the items are saved in
     * one batch and the list is cleared, or, when saving throws, the list stays for another try.
     * Saving writes the item list once and then each reminder in turn, and stops at the first
     * write that throws.
     */
    method HandleAddAllItems(itemGen: seq<Fresh>, reminderGen: seq<Fresh>) returns (outcome: AddOutcome)
      requires |itemGen| == |parsedItems| && |reminderGen| == |parsedItems|
      modifies this`parsedItems, this`isSubmitting, store`itemsEntry, store`remindersEntry, store`writes
      ensures old(parsedItems) == [] ==> outcome == NothingToAdd && unchanged(this) && unchanged(store)
      ensures old(parsedItems) != [] && store.fails(old(store.writes)) ==>
        && outcome == Failed && parsedItems == old(parsedItems) && !isSubmitting
        && store.itemsEntry == old(store.itemsEntry) && store.remindersEntry == old(store.remindersEntry)
        && store.writes == old(store.writes) + 1
      ensures old(parsedItems) != [] && !store.fails(old(store.writes)) ==>
        var n := |old(parsedItems)|;
        var news := NewItems(ItemsToSave(old(parsedItems)), itemGen);
        var j := Run(store.fails, old(store.writes) + 1, n);
        && !isSubmitting
        && (if j == n then outcome == Added(n) && parsedItems == [] else outcome == Failed && parsedItems == old(parsedItems))
        && store.itemsEntry == Some(old(store.GetItems()) + news)
        && store.remindersEntry
           == (if j == 0 then old(store.remindersEntry)
               else Some(old(store.GetReminders()) + NewReminders(news[..j], reminderGen[..j])))
        && store.writes == old(store.writes) + 1 + (if j == n then j else j + 1)
      ensures old(store.Valid()) && UnusedIds(old(store.GetItems()), old(store.GetReminders()), itemGen, reminderGen)
              ==> (store.Valid() <==> outcome != Failed || store.fails(old(store.writes)))
    {
      if parsedItems == [] {
        return NothingToAdd;
      }
      isSubmitting := true;
      var result := store.SaveMultipleItems(ItemsToSave(parsedItems), itemGen, reminderGen);
      if result.Threw? {
        outcome := Failed;
      } else {
        outcome := Added(|parsedItems|);
        parsedItems := [];
      }
      isSubmitting := false;
    }
  }
}
