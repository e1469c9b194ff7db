/**
 * The keyboard navigation both autocomplete inputs share: the highlighted
 * suggestion's index moves down or up through a list of `n` suggestions,
 * wrapping at either end, with -1 meaning "none highlighted".
 */
module ListNavigation {

  /** The keys the inputs react to; any other key changes nothing. */
  datatype Key = ArrowDown | ArrowUp | Enter | Escape | OtherKey

  /** `prev < n - 1 ? prev + 1 : 0`. */
  function Down(idx: int, n: int): int {
    if idx < n - 1 then idx + 1 else 0
  }

  /** `prev > 0 ? prev - 1 : n - 1`. */
  function Up(idx: int, n: int): int {
    if idx > 0 then idx - 1 else n - 1
  }

  /** From "none" or any suggestion, an arrow key lands on a suggestion:
      down from "none" on the first, up from "none" on the last, and each
      end wraps to the other. */
  lemma ArrowsStayInList(idx: int, n: int)
    requires n > 0 && -1 <= idx < n
    ensures 0 <= Down(idx, n) < n && 0 <= Up(idx, n) < n
    ensures idx == -1 ==> Down(idx, n) == 0 && Up(idx, n) == n - 1
    ensures idx == n - 1 ==> Down(idx, n) == 0
    ensures idx == 0 ==> Up(idx, n) == n - 1
  {
  }

  /** On a highlighted suggestion, up undoes down and down undoes up. */
  lemma UpUndoesDown(idx: int, n: int)
    requires 0 <= idx < n
    ensures Up(Down(idx, n), n) == idx && Down(Up(idx, n), n) == idx
  {
  }

  /** `k` presses of the down arrow from `idx`. */
  function DownTimes(idx: int, n: int, k: nat): int {
    if k == 0 then idx else Down(DownTimes(idx, n, k - 1), n)
  }

  /** Fewer than `n` presses from the first suggestion walk straight down
      the list to suggestion `k`. */
  lemma {:induction false} DownTimesWithinList(n: int, k: nat)
    requires 0 <= k < n
    ensures DownTimes(0, n, k) == k
  {
    if k > 0 {
      DownTimesWithinList(n, k - 1);
    }
  }

  /** Presses compose: `a` presses then `b` presses are `a + b` presses. */
  lemma {:induction false} DownTimesCompose(idx: int, n: int, a: nat, b: nat)
    ensures DownTimes(DownTimes(idx, n, a), n, b) == DownTimes(idx, n, a + b)
  {
    if b > 0 {
      DownTimesCompose(idx, n, a, b - 1);
    }
  }

  /** `n` presses from the first suggestion come back to it, and so the
      highlight cycles with period `n`. */
  lemma FullCycle(n: int, k: nat)
    requires n > 0
    ensures DownTimes(0, n, n) == 0
    ensures DownTimes(0, n, k + n) == DownTimes(0, n, k)
  {
    DownTimesWithinList(n, n - 1);
    assert DownTimes(0, n, n) == Down(n - 1, n);
    DownTimesCompose(0, n, n, k);
    DownTimesCompose(0, n, 0, k);
  }
}
