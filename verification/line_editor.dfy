/**
 The positional line-item editor the purchase, sale and credit-voucher forms
 share: a line has no identity but its index, and the three operations are
 append-blank (`[...lines, blank]`), remove-at (`splice(index, 1)` on a copy)
 and update-at (assigning a field of `copy[index]`). Totals over the lines are
 the left fold `lines.reduce((sum, line) => sum + amount(line), 0)`.
 */
module LineEditor {
  import opened JsValues

  /** `[...lines, blank]` */
  function Append<T>(lines: seq<T>, blank: T): (r: seq<T>)
    ensures |r| == |lines| + 1
    ensures r[..|lines|] == lines && r[|lines|] == blank
  {
    lines + [blank]
  }

  /** `copy.splice(i, 1)`: removes line `i`; an index past the end removes nothing. */
  function RemoveAt<T>(lines: seq<T>, i: nat): (r: seq<T>)
    ensures |r| == if i < |lines| then |lines| - 1 else |lines|
    ensures forall k :: 0 <= k < i && k < |r| ==> r[k] == lines[k]
    ensures forall k :: i <= k < |r| ==> r[k] == lines[k + 1]
  {
    if i < |lines| then lines[..i] + lines[i + 1..] else lines
  }

  /** `copy[i] = line`, where `line` is line `i` with one field assigned. */
  function UpdateAt<T>(lines: seq<T>, i: nat, line: T): (r: seq<T>)
    requires i < |lines|
    ensures |r| == |lines| && r[i] == line
    ensures forall k :: 0 <= k < |lines| && k != i ==> r[k] == lines[k]
  {
    lines[i := line]
  }

  /** Removing the line just appended gives back the lines as they were. */
  lemma RemoveUndoesAppend<T>(lines: seq<T>, blank: T)
    ensures RemoveAt(Append(lines, blank), |lines|) == lines
  {
    assert Append(lines, blank)[..|lines|] == lines;
  }

  /** Removal keeps every other line, each exactly once. */
  lemma RemoveAtMultiset<T>(lines: seq<T>, i: nat)
    requires i < |lines|
    ensures multiset(RemoveAt(lines, i)) + multiset{lines[i]} == multiset(lines)
  {
    assert lines == lines[..i] + [lines[i]] + lines[i + 1..];
  }

  /** The surviving lines keep their relative order: two lines at positions
      `j < k`, neither of them `i`, are still in that order afterwards. */
  lemma RemoveAtKeepsOrder<T>(lines: seq<T>, i: nat, j: nat, k: nat)
    requires i < |lines| && j < k < |lines| && j != i && k != i
    ensures var r := RemoveAt(lines, i);
            var j' := if j < i then j else j - 1;
            var k' := if k < i then k else k - 1;
            j' < k' < |r| && r[j'] == lines[j] && r[k'] == lines[k]
  {
  }

  /** An edit to a line that is then removed leaves no trace. */
  lemma RemoveForgetsUpdate<T>(lines: seq<T>, i: nat, line: T)
    requires i < |lines|
    ensures RemoveAt(UpdateAt(lines, i, line), i) == RemoveAt(lines, i)
  {
    var u := UpdateAt(lines, i, line);
    assert u[..i] == lines[..i];
    assert u[i + 1..] == lines[i + 1..];
  }

  // ---------------------------------------------------------------------------
  // Totals over the lines

  /** The reference sum of `amount` over the lines. */
  function Sum<T>(lines: seq<T>, amount: T -> real): real {
    if lines == [] then 0.0 else amount(lines[0]) + Sum(lines[1..], amount)
  }

  /** `lines.reduce((sum, line) => sum + amount(line), acc)`: a left fold. */
  function Reduce<T>(lines: seq<T>, amount: T -> real, acc: real): real
    decreases |lines|
  {
    if lines == [] then acc else Reduce(lines[1..], amount, acc + amount(lines[0]))
  }

  /** The left fold from `acc` is `acc` plus the sum. */
  lemma {:induction false} ReduceIsSum<T>(lines: seq<T>, amount: T -> real, acc: real)
    ensures Reduce(lines, amount, acc) == acc + Sum(lines, amount)
    decreases |lines|
  {
    if lines != [] {
      ReduceIsSum(lines[1..], amount, acc + amount(lines[0]));
    }
  }

  /** The same left fold over JavaScript numbers: `acc + amount(line)` for
      each line, where one NaN amount makes the total NaN. */
  function Total<T>(lines: seq<T>, amount: T -> Num, acc: Num): Num
    decreases |lines|
  {
    if lines == [] then acc else Total(lines[1..], amount, Add(acc, amount(lines[0])))
  }

  /** Every line's amount is a number. */
  predicate AllReal<T>(lines: seq<T>, amount: T -> Num) {
    forall k :: 0 <= k < |lines| ==> amount(lines[k]).Real?
  }

  /** `amount` with NaN read as 0, for summing. */
  function Finite<T>(amount: T -> Num): T -> real {
    (line: T) => Or0(amount(line))
  }

  /** The numeric fold is the real sum when every amount is a number, and
      NaN otherwise. */
  lemma {:induction false} TotalIsSum<T>(lines: seq<T>, amount: T -> Num, acc: real)
    ensures AllReal(lines, amount) ==> Total(lines, amount, Real(acc)) == Real(acc + Sum(lines, Finite(amount)))
    ensures !AllReal(lines, amount) ==> Total(lines, amount, Real(acc)) == NaN
    decreases |lines|
  {
    if lines != [] {
      var a := amount(lines[0]);
      assert forall k :: 1 <= k < |lines| ==> lines[1..][k - 1] == lines[k];
      if a.Real? {
        TotalIsSum(lines[1..], amount, acc + a.r);
      } else {
        TotalNaN(lines[1..], amount);
      }
    }
  }

  /** Once NaN, the running total stays NaN. */
  lemma {:induction false} TotalNaN<T>(lines: seq<T>, amount: T -> Num)
    ensures Total(lines, amount, NaN) == NaN
    decreases |lines|
  {
    if lines != [] {
      TotalNaN(lines[1..], amount);
    }
  }

  lemma {:induction false} SumConcat<T>(a: seq<T>, b: seq<T>, amount: T -> real)
    ensures Sum(a + b, amount) == Sum(a, amount) + Sum(b, amount)
    decreases |a|
  {
    if a == [] {
      assert a + b == b;
    } else {
      assert (a + b)[1..] == a[1..] + b;
      SumConcat(a[1..], b, amount);
    }
  }

  /** Two sequences whose elements have pairwise equal amounts have equal sums. */
  lemma {:induction false} SumPointwise<T, U>(a: seq<T>, f: T -> real, b: seq<U>, g: U -> real)
    requires |a| == |b|
    requires forall k :: 0 <= k < |a| ==> f(a[k]) == g(b[k])
    ensures Sum(a, f) == Sum(b, g)
    decreases |a|
  {
    if a != [] {
      assert f(a[0]) == g(b[0]);
      SumPointwise(a[1..], f, b[1..], g);
    }
  }

  /** Appending a line adds its amount to the total. */
  lemma SumAppend<T>(lines: seq<T>, blank: T, amount: T -> real)
    ensures Sum(Append(lines, blank), amount) == Sum(lines, amount) + amount(blank)
  {
    SumConcat(lines, [blank], amount);
  }

  /** Removing line `i` takes exactly its amount off the total. */
  lemma SumRemoveAt<T>(lines: seq<T>, i: nat, amount: T -> real)
    requires i < |lines|
    ensures Sum(RemoveAt(lines, i), amount) == Sum(lines, amount) - amount(lines[i])
  {
    var front, back := lines[..i], lines[i + 1..];
    assert lines == front + ([lines[i]] + back);
    assert RemoveAt(lines, i) == front + back;
    SumConcat(front, [lines[i]] + back, amount);
    SumConcat([lines[i]], back, amount);
    SumConcat(front, back, amount);
  }

  /** Replacing line `i` changes the total by the difference of the two amounts. */
  lemma SumUpdateAt<T>(lines: seq<T>, i: nat, line: T, amount: T -> real)
    requires i < |lines|
    ensures Sum(UpdateAt(lines, i, line), amount) == Sum(lines, amount) - amount(lines[i]) + amount(line)
  {
    var u := UpdateAt(lines, i, line);
    assert lines == lines[..i] + ([lines[i]] + lines[i + 1..]);
    assert u == lines[..i] + ([line] + lines[i + 1..]);
    SumConcat(lines[..i], [lines[i]] + lines[i + 1..], amount);
    SumConcat([lines[i]], lines[i + 1..], amount);
    SumConcat(lines[..i], [line] + lines[i + 1..], amount);
    SumConcat([line], lines[i + 1..], amount);
  }

  /** Appending a line adds its amount to the numeric total. */
  lemma {:induction false} TotalAppend<T>(lines: seq<T>, blank: T, amount: T -> Num, acc: Num)
    ensures Total(Append(lines, blank), amount, acc) == Add(Total(lines, amount, acc), amount(blank))
    decreases |lines|
  {
    if lines == [] {
      assert Append(lines, blank) == [blank];
    } else {
      assert Append(lines, blank)[1..] == Append(lines[1..], blank);
      TotalAppend(lines[1..], blank, amount, Add(acc, amount(lines[0])));
    }
  }

  /** On numeric amounts, removing line `i` takes its amount off the numeric total. */
  lemma TotalRemoveAt<T>(lines: seq<T>, i: nat, amount: T -> Num)
    requires i < |lines| && AllReal(lines, amount)
    ensures AllReal(RemoveAt(lines, i), amount)
    ensures Total(RemoveAt(lines, i), amount, Real(0.0)) == Sub(Total(lines, amount, Real(0.0)), amount(lines[i]))
  {
    var r := RemoveAt(lines, i);
    assert forall k :: 0 <= k < |r| ==> amount(r[k]) == amount(lines[if k < i then k else k + 1]);
    TotalIsSum(lines, amount, 0.0);
    TotalIsSum(r, amount, 0.0);
    SumRemoveAt(lines, i, Finite(amount));
  }

  /** On numeric amounts, replacing line `i` changes the numeric total by the
      difference of the two amounts. */
  lemma TotalUpdateAt<T>(lines: seq<T>, i: nat, line: T, amount: T -> Num)
    requires i < |lines| && AllReal(lines, amount) && amount(line).Real?
    ensures AllReal(UpdateAt(lines, i, line), amount)
    ensures Total(UpdateAt(lines, i, line), amount, Real(0.0))
            == Add(Sub(Total(lines, amount, Real(0.0)), amount(lines[i])), amount(line))
  {
    var r := UpdateAt(lines, i, line);
    assert forall k :: 0 <= k < |r| ==> amount(r[k]) == if k == i then amount(line) else amount(lines[k]);
    TotalIsSum(lines, amount, 0.0);
    TotalIsSum(r, amount, 0.0);
    SumUpdateAt(lines, i, line, Finite(amount));
  }
}
