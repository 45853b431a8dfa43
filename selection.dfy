/**
 Choosing the questions of a session.

 `random.sample` followed by `random.shuffle` (and, for the full quiz, a copy
 followed by a shuffle) is modelled by the set of results it can produce: a
 draw is a sequence of distinct positions of the question bank, and the
 session asks the bank entries at those positions, in draw order. Which draw
 the random generator makes is left open.
 */
module Selection {

  /** Every drawn position is a position of a bank of `size` entries. */
  predicate InRange(draw: seq<nat>, size: nat) {
    forall i :: 0 <= i < |draw| ==> draw[i] < size
  }

  /** No position is drawn twice: sampling is without replacement. */
  predicate Distinct(draw: seq<nat>) {
    forall i, j :: 0 <= i < j < |draw| ==> draw[i] != draw[j]
  }

  /** `draw` is a possible outcome of sampling `k` of `size` positions and shuffling them. */
  predicate IsDraw(draw: seq<nat>, size: nat, k: nat) {
    |draw| == k && InRange(draw, size) && Distinct(draw)
  }

  /** The bank entries at the drawn positions, in draw order. */
  function Pick<T>(bank: seq<T>, draw: seq<nat>): seq<T>
    requires InRange(draw, |bank|)
  {
    seq(|draw|, i requires 0 <= i < |draw| => bank[draw[i]])
  }

  /** The positions 0, 1, ..., k - 1 in order: the draw that keeps the bank's order. */
  function Positions(k: nat): (r: seq<nat>)
    ensures IsDraw(r, k, k)
    ensures forall i :: 0 <= i < k ==> r[i] == i
  {
    if k == 0 then [] else Positions(k - 1) + [k - 1]
  }

  /** Picking along two draws one after the other asks the two picks one after the other. */
  lemma PickAppend<T>(bank: seq<T>, a: seq<nat>, b: seq<nat>)
    requires InRange(a, |bank|) && InRange(b, |bank|)
    ensures InRange(a + b, |bank|)
    ensures Pick(bank, a + b) == Pick(bank, a) + Pick(bank, b)
  {
  }

  /** A draw that avoids the bank's later entries picks from the bank's prefix alone. */
  lemma PickFromPrefix<T>(bank: seq<T>, n: nat, draw: seq<nat>)
    requires n <= |bank| && InRange(draw, n)
    ensures InRange(draw, |bank|) && Pick(bank, draw) == Pick(bank[..n], draw)
  {
  }

  /** Removing the drawn position `j` leaves a draw of the other positions. */
  lemma RemoveDrawn(draw: seq<nat>, j: nat, size: nat)
    requires j < |draw| && InRange(draw, size + 1) && Distinct(draw) && draw[j] == size
    ensures draw == draw[..j] + [size] + draw[j + 1..]
    ensures InRange(draw[..j], size) && InRange(draw[j + 1..], size)
    ensures InRange(draw[..j] + draw[j + 1..], size) && Distinct(draw[..j] + draw[j + 1..])
  {
  }

  /** Drawing without replacement never asks an entry more often than the bank holds it. */
  lemma {:induction false} DrawIsSubBag<T>(bank: seq<T>, draw: seq<nat>)
    requires InRange(draw, |bank|) && Distinct(draw)
    ensures multiset(Pick(bank, draw)) <= multiset(bank)
    decreases |bank|
  {
    if bank != [] {
      var last := |bank| - 1;
      var rest := bank[..last];
      assert bank == rest + [bank[last]];
      if j :| 0 <= j < |draw| && draw[j] == last {
        var before, after := draw[..j], draw[j + 1..];
        RemoveDrawn(draw, j, last);
        PickAppend(bank, before + [last], after);
        PickAppend(bank, before, [last]);
        PickAppend(rest, before, after);
        PickFromPrefix(bank, last, before);
        PickFromPrefix(bank, last, after);
        assert Pick(bank, draw) == Pick(rest, before) + [bank[last]] + Pick(rest, after);
        DrawIsSubBag(rest, before + after);
      } else {
        PickFromPrefix(bank, last, draw);
        DrawIsSubBag(rest, draw);
      }
    }
  }

  /** Drawing as many positions as the bank has reorders the whole bank: a permutation. */
  lemma FullDrawIsPermutation<T>(bank: seq<T>, draw: seq<nat>)
    requires IsDraw(draw, |bank|, |bank|)
    ensures multiset(Pick(bank, draw)) == multiset(bank)
  {
    var asked, held := multiset(Pick(bank, draw)), multiset(bank);
    DrawIsSubBag(bank, draw);
    assert held == asked + (held - asked);
    assert |held - asked| == 0;
  }
}
