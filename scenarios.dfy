/** Request sequences run against the store's contracts alone. */
module Scenarios {
  import opened Wrappers
  import opened Ledger
  import opened Accounts

  /** Register, deposit 100, withdraw 40, then a refused withdrawal of 1000: the balance ends at 60. */
  method SalaryAndRent(now: int)
  {
    var bank := new Bank();
    var alice := bank.Register("Alice", "111", "uuid-a");
    assert bank.customers[0].cpf == "111";
    var b0 := bank.GetBalance("111");
    assert b0 == Success(0);
    var d := bank.Deposit("111", "salary", 100, now);
    assert d == Pass;
    var w1 := bank.Withdraw("111", "rent", 40, now);
    assert w1 == Pass;
    var w2 := bank.Withdraw("111", "car", 1000, now);
    assert w2 == Fail(InsufficientFunds);
    var b1 := bank.GetBalance("111");
    BalanceIsCreditsMinusDebits(bank.customers[0].statements);
    assert b1 == Success(60);
  }

  /** Registering the same CPF twice: the second call is refused and the store keeps one account. */
  method RegisterTwice()
  {
    var bank := new Bank();
    var first := bank.Register("Bob", "222", "uuid-1");
    var second := bank.Register("Bob", "222", "uuid-2");
    assert second == Failure(AlreadyRegistered);
    assert bank.Cpfs() == ["222"];
  }

  /** Two deposits on different days: the day view of the first day holds only the first deposit. */
  method TwoDays(day1: int)
  {
    var bank := new Bank();
    var r := bank.Register("Carol", "333", "uuid-c");
    var t1, t2 := day1 * MillisPerDay + 3_600_000, (day1 + 1) * MillisPerDay;
    var d1 := bank.Deposit("333", "first", 10, t1);
    var d2 := bank.Deposit("333", "second", 20, t2);
    var v := bank.StatementsOnDate("333", day1 * MillisPerDay);
    var o1, o2 := Operation("first", 10, t1, Credit), Operation("second", 20, t2, Credit);
    assert DayOf(t1) == day1 && DayOf(t2) == day1 + 1;
    assert bank.customers[0].statements == [o1] + [o2];
    assert DayOf(day1 * MillisPerDay) == day1;
    assert [o1] == [] + [o1];
    OnDayAfterAppend([], o1, day1);
    OnDayAfterAppend([o1], o2, day1);
    assert v == Success([Operation("first", 10, t1, Credit)]);
  }
}
