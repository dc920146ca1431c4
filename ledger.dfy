/**
 * One customer's statement list: the entries the deposit and withdraw
 * handlers append, the balance folded over them, and the per-day view.
 */
module Ledger {

  /** The `type` of an entry: deposits write 'credit', withdrawals 'withdraw'. */
  datatype Kind = Credit | Withdrawal

  /**
   * One statement entry. `createdAt` is the moment the request was handled,
   * in milliseconds of local wall-clock time (the service's time zone is
   * already applied).
   */
  datatype Operation = Operation(description: string, amount: int, createdAt: int, kind: Kind)

  const MillisPerDay: int := 86_400_000

  /** The calendar day a local timestamp falls on, counted in whole days from the epoch day. */
  function DayOf(t: int): int
  {
    t / MillisPerDay
  }

  /** What one entry contributes to the running total: credits add, every other entry subtracts. */
  function Signed(op: Operation): int
  {
    if op.kind == Credit then op.amount else -op.amount
  }

  /** `getBalance`: a left fold from 0 over the entries in recorded order. */
  function Balance(s: seq<Operation>): int
  {
    if s == [] then 0 else Balance(s[..|s| - 1]) + Signed(s[|s| - 1])
  }

  /** Reference definition: the sum of the amounts of the credit entries. */
  function Credits(s: seq<Operation>): int
  {
    if s == [] then 0 else (if s[0].kind == Credit then s[0].amount else 0) + Credits(s[1..])
  }

  /** Reference definition: the sum of the amounts of all other entries. */
  function Debits(s: seq<Operation>): int
  {
    if s == [] then 0 else (if s[0].kind == Credit then 0 else s[0].amount) + Debits(s[1..])
  }

  /** Appending one entry moves the fold by exactly that entry's signed amount. */
  lemma BalanceAppend(s: seq<Operation>, op: Operation)
    ensures Balance(s + [op]) == Balance(s) + Signed(op)
  {
    assert (s + [op])[..|s + [op]| - 1] == s;
  }

  lemma {:induction false} CreditsAppend(s: seq<Operation>, op: Operation)
    ensures Credits(s + [op]) == Credits(s) + (if op.kind == Credit then op.amount else 0)
  {
    if s != [] {
      assert (s + [op])[1..] == s[1..] + [op];
      CreditsAppend(s[1..], op);
    } else {
      assert [op][1..] == [];
    }
  }

  lemma {:induction false} DebitsAppend(s: seq<Operation>, op: Operation)
    ensures Debits(s + [op]) == Debits(s) + (if op.kind == Credit then 0 else op.amount)
  {
    if s != [] {
      assert (s + [op])[1..] == s[1..] + [op];
      DebitsAppend(s[1..], op);
    } else {
      assert [op][1..] == [];
    }
  }

  /** The balance is the credits minus the debits, whatever the interleaving. */
  lemma {:induction false} BalanceIsCreditsMinusDebits(s: seq<Operation>)
    ensures Balance(s) == Credits(s) - Debits(s)
  {
    if s != [] {
      var init, last := s[..|s| - 1], s[|s| - 1];
      assert s == init + [last];
      BalanceIsCreditsMinusDebits(init);
      BalanceAppend(init, last);
      CreditsAppend(init, last);
      DebitsAppend(init, last);
    }
  }

  /** Every prefix of the statement list, the empty one included, has a balance of at least 0. */
  ghost predicate NeverOverdrawn(s: seq<Operation>)
  {
    forall k :: 0 <= k <= |s| ==> Balance(s[..k]) >= 0
  }

  lemma ExtendNeverOverdrawn(s: seq<Operation>, op: Operation)
    requires NeverOverdrawn(s)
    requires Balance(s) + Signed(op) >= 0
    ensures NeverOverdrawn(s + [op])
  {
    forall k | 0 <= k <= |s| + 1
      ensures Balance((s + [op])[..k]) >= 0
    {
      if k <= |s| {
        assert (s + [op])[..k] == s[..k];
      } else {
        assert (s + [op])[..k] == s + [op];
        BalanceAppend(s, op);
      }
    }
  }

  /** A credit of a non-negative amount keeps every balance along the history at least 0. */
  lemma DepositKeepsNeverOverdrawn(s: seq<Operation>, description: string, amount: int, now: int)
    requires NeverOverdrawn(s)
    requires amount >= 0
    ensures NeverOverdrawn(s + [Operation(description, amount, now, Credit)])
  {
    assert s[..|s|] == s;
    ExtendNeverOverdrawn(s, Operation(description, amount, now, Credit));
  }

  /** A withdrawal admitted by the `amount > balance` guard keeps every balance at least 0, whatever its sign. */
  lemma AdmittedWithdrawalKeepsNeverOverdrawn(s: seq<Operation>, description: string, amount: int, now: int)
    requires NeverOverdrawn(s)
    requires !(amount > Balance(s))
    ensures NeverOverdrawn(s + [Operation(description, amount, now, Withdrawal)])
  {
    ExtendNeverOverdrawn(s, Operation(description, amount, now, Withdrawal));
  }

  /** The entries made on calendar day `day`, in recorded order (the date view's `filter`). */
  function OnDay(s: seq<Operation>, day: int): (r: seq<Operation>)
    ensures |r| <= |s|
    ensures forall op :: op in r <==> op in s && DayOf(op.createdAt) == day
  {
    if s == [] then []
    else (if DayOf(s[0].createdAt) == day then [s[0]] else []) + OnDay(s[1..], day)
  }

  /** The day view of a concatenation is the concatenation of the day views: order is kept. */
  lemma {:induction false} OnDayAppend(a: seq<Operation>, b: seq<Operation>, day: int)
    ensures OnDay(a + b, day) == OnDay(a, day) + OnDay(b, day)
  {
    if a == [] {
      assert a + b == b;
    } else {
      assert (a + b)[1..] == a[1..] + b;
      OnDayAppend(a[1..], b, day);
    }
  }

  /** A new entry shows up at the end of its own day's view and leaves every other day's view as it was. */
  lemma OnDayAfterAppend(s: seq<Operation>, op: Operation, day: int)
    ensures OnDay(s + [op], day) == if DayOf(op.createdAt) == day then OnDay(s, day) + [op] else OnDay(s, day)
  {
    OnDayAppend(s, [op], day);
    assert [op][1..] == [];
  }
}
