/**
 * Order lines as the order form holds them, and the order total the form
 * derives from them: the sum over all lines of unit price times quantity,
 * where a line without a price adds nothing and a line without a quantity
 * counts once. Money is held in integer cents, so every sum is exact.
 */
module OrderTotals {
  import opened Wrappers

  type ProductId = nat

  /** An amount of money in cents. */
  type Cents = int

  /** The quantity a new line starts with. */
  const DefaultQuantity: int := 1

  /** The smallest quantity the quantity input accepts. */
  const MinQuantity: int := 1

  /**
   * One row of the items repeater. Every field may be empty while the form
   * is being edited: no product chosen yet, no price captured yet, the
   * quantity input cleared.
   */
  datatype LineItem = LineItem(productId: Option<ProductId>, price: Option<Cents>, quantity: Option<int>)

  /** The row the repeater adds: nothing chosen, quantity at its default. */
  const NewLine: LineItem := LineItem(None, None, Some(DefaultQuantity))

  /** A line whose price is not negative and whose quantity, if given, is at least the minimum. */
  predicate WellFormed(line: LineItem) {
    line.price.GetOr(0) >= 0 && line.quantity.GetOr(DefaultQuantity) >= MinQuantity
  }

  /** What one line adds to the order total. */
  function LineAmount(line: LineItem): (r: Cents)
    ensures line.price.None? ==> r == 0
    ensures line.quantity.None? ==> r == line.price.GetOr(0)
    ensures line.price.Some? && line.quantity.Some? ==> r == line.price.value * line.quantity.value
    ensures WellFormed(line) ==> r >= 0
  {
    line.price.GetOr(0) * line.quantity.GetOr(1)
  }

  /**
   * The order total of a list of lines. Lines that carry no price, such as
   * freshly added ones, add nothing; well-formed lines never make it negative.
   */
  function Total(lines: seq<LineItem>): (r: Cents)
    ensures (forall k | 0 <= k < |lines| :: lines[k].price.None?) ==> r == 0
    ensures (forall k | 0 <= k < |lines| :: WellFormed(lines[k])) ==> r >= 0
  {
    if lines == [] then 0 else LineAmount(lines[0]) + Total(lines[1..])
  }

  /** The total of two lists of lines placed one after the other is the sum of their totals. */
  lemma {:induction false} TotalConcat(a: seq<LineItem>, b: seq<LineItem>)
    ensures Total(a + b) == Total(a) + Total(b)
    decreases |a|
  {
    if a == [] {
      assert a + b == b;
    } else {
      assert (a + b)[0] == a[0];
      assert (a + b)[1..] == a[1..] + b;
      TotalConcat(a[1..], b);
    }
  }

  /** Adding one line at the end raises the total by exactly that line's amount. */
  lemma {:induction false} TotalAppend(lines: seq<LineItem>, line: LineItem)
    ensures Total(lines + [line]) == Total(lines) + LineAmount(line)
  {
    TotalConcat(lines, [line]);
    assert [line][1..] == [];
  }

  /** Adding a well-formed line never lowers the total. */
  lemma TotalGrowsOnAppend(lines: seq<LineItem>, line: LineItem)
    requires WellFormed(line)
    ensures Total(lines) <= Total(lines + [line])
  {
    TotalAppend(lines, line);
  }

  /** Replacing one line changes the total by the difference of the two lines' amounts. */
  lemma TotalUpdate(lines: seq<LineItem>, i: nat, line: LineItem)
    requires i < |lines|
    ensures Total(lines[i := line]) == Total(lines) - LineAmount(lines[i]) + LineAmount(line)
  {
    var before, after := lines[..i], lines[i + 1..];
    assert lines == before + ([lines[i]] + after);
    assert lines[i := line] == before + ([line] + after);
    TotalConcat(before, [lines[i]] + after);
    TotalConcat(before, [line] + after);
  }

  /** Removing one line lowers the total by exactly that line's amount. */
  lemma TotalRemove(lines: seq<LineItem>, i: nat)
    requires i < |lines|
    ensures Total(lines[..i] + lines[i + 1..]) == Total(lines) - LineAmount(lines[i])
  {
    var before, after := lines[..i], lines[i + 1..];
    var rest := [lines[i]] + after;
    assert lines == before + rest;
    assert rest[0] == lines[i] && rest[1..] == after;
    TotalConcat(before, rest);
    TotalConcat(before, after);
  }

  /** Reordering the lines (any permutation of them) leaves the total unchanged. */
  lemma {:induction false} TotalPermutation(a: seq<LineItem>, b: seq<LineItem>)
    requires multiset(a) == multiset(b)
    ensures Total(a) == Total(b)
    decreases |a|
  {
    if a == [] {
      assert |b| == |multiset(b)| == 0;
    } else {
      var x := a[0];
      assert x in multiset(b);
      var j :| 0 <= j < |b| && b[j] == x;
      var rest := b[..j] + b[j + 1..];
      assert b == b[..j] + [x] + b[j + 1..];
      assert multiset(b) == multiset(rest) + multiset{x};
      assert a == [x] + a[1..];
      assert multiset(a) == multiset{x} + multiset(a[1..]);
      assert multiset(a[1..]) == multiset(a) - multiset{x};
      assert multiset(rest) == multiset(b) - multiset{x};
      TotalPermutation(a[1..], rest);
      TotalRemove(b, j);
    }
  }

  /**
   * The loop of the items repeater's update callback: start from zero and
   * add price times quantity for each line in turn, reading a missing price
   * as 0 and a missing quantity as 1.
   */
  method ComputeTotal(lines: seq<LineItem>) returns (total: Cents)
    ensures total == Total(lines)
  {
    total := 0;
    for k := 0 to |lines|
      invariant total == Total(lines[..k])
    {
      assert lines[..k + 1] == lines[..k] + [lines[k]];
      TotalAppend(lines[..k], lines[k]);
      total := total + lines[k].price.GetOr(0) * lines[k].quantity.GetOr(1);
    }
    assert lines[..|lines|] == lines;
  }
}
