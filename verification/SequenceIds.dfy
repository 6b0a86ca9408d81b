/** The 32-bit sequence id generator (rpc_sequence_id.cpp). */
module SequenceIds {
  const WORD: nat := 0x1_0000_0000

  /** Number of distinct ids handed out before the counter repeats: every word but 0. */
  const CYCLE: nat := WORD - 1

  /** The id handed out by the n-th call of `get` after a reset. */
  function IdOf(n: nat): (id: nat)
    requires n > 0
    ensures 0 < id < WORD
  {
    (n - 1) % CYCLE + 1
  }

  /** Two calls get the same id exactly when they are a whole number of cycles apart. */
  lemma SameIdIffWholeCycles(m: nat, n: nat)
    requires 0 < m && 0 < n
    ensures IdOf(m) == IdOf(n) <==> (m - n) % CYCLE == 0
  {
    var a, b := m - 1, n - 1;
    assert a == CYCLE * (a / CYCLE) + a % CYCLE;
    assert b == CYCLE * (b / CYCLE) + b % CYCLE;
    if (m - n) % CYCLE == 0 {
      var q := (m - n) / CYCLE;
      assert m - n == CYCLE * q;
    }
  }

  /** Calls less than one cycle apart never share an id. */
  lemma RecentIdsDiffer(m: nat, n: nat)
    requires 0 < m < n && n - m < CYCLE
    ensures IdOf(m) != IdOf(n)
  {
    SameIdIffWholeCycles(n, m);
  }

  /** After the largest word the counter skips the invalid id 0 and starts again at 1. */
  lemma NextId(n: nat)
    requires n > 0
    ensures IdOf(n + 1) == if IdOf(n) == CYCLE then 1 else IdOf(n) + 1
  {
    var q, r := (n - 1) / CYCLE, (n - 1) % CYCLE;
    assert n == CYCLE * q + (r + 1);
    if r + 1 == CYCLE {
      assert n == CYCLE * (q + 1);
      assert n % CYCLE == 0;
    } else {
      Remainder(n, q, r + 1);
    }
  }

  lemma Remainder(n: nat, q: nat, r: nat)
    requires n == CYCLE * q + r && r < CYCLE
    ensures n % CYCLE == r
  {
  }

  /** `++` on a 32-bit word. */
  function Increment(word: nat): nat {
    if word + 1 == WORD then 0 else word + 1
  }

  class RpcSequenceId {
    var sequenceId: nat
    ghost var calls: nat

    ghost predicate Valid()
      reads this
    {
      sequenceId == if calls == 0 then 0 else IdOf(calls)
    }

    constructor ()
      ensures Valid() && calls == 0
    {
      sequenceId, calls := 0, 0;
    }

    method Get() returns (id: nat)
      requires Valid()
      modifies this
      ensures Valid() && calls == old(calls) + 1
      ensures id == IdOf(calls) == sequenceId
      ensures id == if old(sequenceId) == 0xFFFF_FFFF then 1 else old(sequenceId) + 1
    {
      if calls > 0 {
        NextId(calls);
      }
      sequenceId := Increment(sequenceId);
      if sequenceId == 0 {
        sequenceId := Increment(sequenceId);
      }
      calls := calls + 1;
      id := sequenceId;
    }

    method Reset()
      modifies this
      ensures Valid() && calls == 0
    {
      sequenceId, calls := 0, 0;
    }
  }
}
