/**
 * The user table the loan service reads and writes: each user's nickname,
 * family and balance, keyed by user id. `User.moneyTransfer(d)` adds `d` to
 * the balance; a transfer is a debit of one user followed by a credit of
 * another by the same amount.
 */
module Accounts {
  import opened Results
  import opened JavaInt

  datatype User = User(nickname: string, familyId: Option<nat>, money: int)

  /** `moneyTransfer(d)` on the user with this id; the table is unchanged for an unknown id. */
  function MoneyTransfer(users: map<nat, User>, id: nat, d: int): map<nat, User> {
    if id in users then users[id := users[id].(money := users[id].money + d)] else users
  }

  /**
   * `from.moneyTransfer(-amount)` followed by `to.moneyTransfer(amount)`, where
   * `amount` is a Java `int` and `-amount` is therefore negated as an `int`.
   */
  datatype Transfer = Transfer(from: nat, to: nat, amount: int)

  function Move(users: map<nat, User>, t: Transfer): map<nat, User> {
    MoneyTransfer(MoneyTransfer(users, t.from, Wrap(-t.amount)), t.to, t.amount)
  }

  /** An `int` amount whose negation does not wrap: anything but MinInt. */
  predicate Negatable(amount: int) {
    MinInt < amount <= MaxInt
  }

  /** The first n transfers of a batch pass, applied in order. */
  function MovePrefix(users: map<nat, User>, ts: seq<Transfer>, n: nat): map<nat, User>
    requires n <= |ts|
  {
    if n == 0 then users else Move(MovePrefix(users, ts, n - 1), ts[n - 1])
  }

  /** All transfers of a batch pass, applied in order. */
  function MoveAll(users: map<nat, User>, ts: seq<Transfer>): map<nat, User> {
    MovePrefix(users, ts, |ts|)
  }

  /** Transfers never add or remove users. */
  lemma {:induction false} MovePrefixKeys(users: map<nat, User>, ts: seq<Transfer>, n: nat)
    requires n <= |ts|
    ensures MovePrefix(users, ts, n).Keys == users.Keys
  {
    if n > 0 {
      MovePrefixKeys(users, ts, n - 1);
    }
  }

  /** Both users of every transfer are in the table and no amount is MinInt. */
  predicate Balanced(users: map<nat, User>, ts: seq<Transfer>) {
    forall i :: 0 <= i < |ts| ==> ts[i].from in users && ts[i].to in users && Negatable(ts[i].amount)
  }

  /** Sum of the balances of the users in `ids`. */
  ghost function SumMoney(users: map<nat, User>, ids: set<nat>): int
    requires ids <= users.Keys
    decreases ids
  {
    if ids == {} then 0
    else
      var j :| j in ids;
      users[j].money + SumMoney(users, ids - {j})
  }

  /** Sum of all balances in the table. */
  ghost function Total(users: map<nat, User>): int {
    SumMoney(users, users.Keys)
  }

  /** Any member of `ids` can be taken out of the sum first. */
  lemma {:induction false} SumMoneyPick(users: map<nat, User>, ids: set<nat>, k: nat)
    requires ids <= users.Keys && k in ids
    ensures SumMoney(users, ids) == users[k].money + SumMoney(users, ids - {k})
    decreases ids
  {
    var j :| j in ids && SumMoney(users, ids) == users[j].money + SumMoney(users, ids - {j});
    if j != k {
      SumMoneyPick(users, ids - {j}, k);
      SumMoneyPick(users, ids - {k}, j);
      assert ids - {j} - {k} == ids - {k} - {j};
    }
  }

  /** The sum depends only on the balances of the users it ranges over. */
  lemma {:induction false} SumMoneyFrame(users: map<nat, User>, users': map<nat, User>, ids: set<nat>)
    requires ids <= users.Keys && ids <= users'.Keys
    requires forall i :: i in ids ==> users[i].money == users'[i].money
    ensures SumMoney(users, ids) == SumMoney(users', ids)
    decreases ids
  {
    if ids != {} {
      var j :| j in ids;
      SumMoneyPick(users, ids, j);
      SumMoneyPick(users', ids, j);
      SumMoneyFrame(users, users', ids - {j});
    }
  }

  /** `moneyTransfer(d)` on a known user changes the total by exactly d. */
  lemma TotalAfterMoneyTransfer(users: map<nat, User>, id: nat, d: int)
    requires id in users
    ensures MoneyTransfer(users, id, d).Keys == users.Keys
    ensures Total(MoneyTransfer(users, id, d)) == Total(users) + d
  {
    var r := MoneyTransfer(users, id, d);
    assert r.Keys == users.Keys;
    SumMoneyPick(users, users.Keys, id);
    SumMoneyPick(r, r.Keys, id);
    SumMoneyFrame(users, r, users.Keys - {id});
  }

  /** A transfer between known users conserves the total of all balances. */
  lemma MoveConservesTotal(users: map<nat, User>, t: Transfer)
    requires t.from in users && t.to in users && Negatable(t.amount)
    ensures Move(users, t).Keys == users.Keys
    ensures Total(Move(users, t)) == Total(users)
  {
    TotalAfterMoneyTransfer(users, t.from, -t.amount);
    TotalAfterMoneyTransfer(MoneyTransfer(users, t.from, -t.amount), t.to, t.amount);
  }

  /**
   * A transfer of MinInt applies `moneyTransfer(MinInt)` to both users,
   * because `-amount` wraps back to MinInt: each balance falls by 2^31 and
   * the total falls by 2^32.
   */
  lemma MinIntTransferBreaksTotal(users: map<nat, User>, t: Transfer)
    requires t.from in users && t.to in users && t.amount == MinInt
    ensures Total(Move(users, t)) == Total(users) + 2 * MinInt
  {
    TotalAfterMoneyTransfer(users, t.from, MinInt);
    TotalAfterMoneyTransfer(MoneyTransfer(users, t.from, MinInt), t.to, MinInt);
  }

  /** A whole batch of transfers between known users conserves the total. */
  lemma {:induction false} MovePrefixConservesTotal(users: map<nat, User>, ts: seq<Transfer>, n: nat)
    requires Balanced(users, ts) && n <= |ts|
    ensures MovePrefix(users, ts, n).Keys == users.Keys
    ensures Total(MovePrefix(users, ts, n)) == Total(users)
  {
    if n > 0 {
      MovePrefixConservesTotal(users, ts, n - 1);
      MoveConservesTotal(MovePrefix(users, ts, n - 1), ts[n - 1]);
    }
  }

  /** A whole batch of transfers between known users conserves the total. */
  lemma MoveAllConservesTotal(users: map<nat, User>, ts: seq<Transfer>)
    requires Balanced(users, ts)
    ensures MoveAll(users, ts).Keys == users.Keys
    ensures Total(MoveAll(users, ts)) == Total(users)
  {
    MovePrefixConservesTotal(users, ts, |ts|);
  }

  /**
   * A transfer between two distinct users lowers the payer's balance and
   * raises the payee's by exactly the amount, and touches nothing else; a
   * transfer from a user to that same user changes nothing.
   */
  lemma MoveEffect(users: map<nat, User>, t: Transfer)
    requires t.from in users && t.to in users && Negatable(t.amount)
    ensures var r := Move(users, t);
      r.Keys == users.Keys
      && (t.from != t.to ==>
            r[t.from] == users[t.from].(money := users[t.from].money - t.amount)
            && r[t.to] == users[t.to].(money := users[t.to].money + t.amount))
      && (t.from == t.to ==> r[t.from] == users[t.from])
      && forall u :: u in users && u != t.from && u != t.to ==> r[u] == users[u]
  {
  }

  /** Paying an amount back the other way restores every balance. */
  lemma MoveInverse(users: map<nat, User>, a: nat, b: nat, amount: int)
    requires a in users && b in users && Negatable(amount)
    ensures Move(Move(users, Transfer(a, b, amount)), Transfer(b, a, amount)) == users
  {
    var r := Move(Move(users, Transfer(a, b, amount)), Transfer(b, a, amount));
    assert r.Keys == users.Keys;
    forall u | u in users ensures r[u] == users[u] {
    }
  }
}
