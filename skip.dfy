/**
 * How far `skip` moves the cursor, common to both bots. A request to skip k
 * songs, with the number read as intended, asks for an amount of k-1: the
 * cursor moves by the amount and the stopped track's completion callback
 * then advances it by one more.
 */
module Skipping {
  import opened PyList

  /**
   * The clamp as written: an amount above the length of `playlist[cursor-1:]`
   * becomes that length minus one. That slice starts one slot before the
   * playing one, so the clamp lets the cursor move past the last slot.
   */
  function ClampSkip(amount: int, n: nat, cursor: int): (a: int)
    ensures a <= amount
    ensures amount <= 0 ==> a == amount
  {
    var rest := PySliceLen(n, cursor - 1);
    if rest < amount && amount > 0 then rest - 1 else amount
  }

  /**
   * From the second slot on, the clamp as written can leave the cursor up to
   * two places past the last slot.
   */
  lemma ClampSkipOvershoot(amount: int, n: nat, cursor: int)
    requires 1 <= cursor <= n - 1
    ensures cursor + ClampSkip(amount, n, cursor) <= n + 1
    ensures cursor + ClampSkip(n + 1 - cursor, n, cursor) == n + 1
  {
  }

  /**
   * Three slots, the second playing, amount 3 (`!skip 4` with the number
   * read as intended): it passes the clamp and the cursor reaches 4. Four
   * slots, the first playing, amount 2: `playlist[-1:]` has length 1, so the
   * amount is cut to 0.
   */
  lemma ClampSkipCounterexample()
    ensures ClampSkip(3, 3, 1) == 3 && 1 + ClampSkip(3, 3, 1) > 3 - 1
    ensures ClampSkip(2, 4, 0) == 0 && ClampSkipIntended(2, 4, 0) == 2
  {
  }

  /**
   * From the second slot on, while the skip stays inside the queue, the
   * clamp as written and the clamp as intended both keep the amount.
   */
  lemma ClampsAgreeInsideQueue(amount: int, n: nat, cursor: int)
    requires 1 <= cursor <= n - 1 && cursor + amount + 1 <= n - 1
    ensures ClampSkip(amount, n, cursor) == ClampSkipIntended(amount, n, cursor) == amount
  {
  }

  /**
   * The clamp as intended: bound the amount by the slots after the playing
   * one, so that skipping past the end lands on the last slot.
   */
  function ClampSkipIntended(amount: int, n: nat, cursor: int): (a: int)
    ensures a <= amount
    ensures amount <= 0 ==> a == amount
    ensures -1 <= cursor <= n - 1 ==> cursor + a <= n - 1
    ensures -1 <= cursor <= n - 1 && amount > 0 ==> 0 <= a && (a > 0 ==> cursor + a + 1 <= n - 1)
    ensures -1 <= cursor <= n - 1 && amount > 0 && cursor + amount + 1 <= n - 1 ==> a == amount
  {
    var after := PySliceLen(n, cursor + 1);
    if amount > 0 && amount >= after then Max(after - 1, 0) else amount
  }
}
