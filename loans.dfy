/**
 * The loan application and settlement engine (LoanerServiceImpl).
 *
 * The service owns a registry of loan applications keyed by id, and reads and
 * writes the user table; the product table is read-only. The repository's
 * derived queries become selections over the registry in descending id order.
 * The clock, the random digits of card numbers and the acting guardian are
 * passed in. Notifications are not modelled; point awards are recorded in an
 * append-only log.
 */
module Loans {
  import opened Results
  import opened JavaInt
  import opened Accounts
  import CardNumber
  import Decimal

  /** The FinancialProduct fields the engine reads. */
  datatype Product = Product(parent: nat, familyId: nat, name: string, rate: int, period: int)

  /** `LocalDateTime.now()`: an instant counted in days, and its day of the month. */
  datatype Clock = Clock(instant: int, dayOfMonth: nat)

  /**
   * A loan application (Loaner). `date` is the day of the month it was
   * approved on and `expiry` the instant it runs out; both, and the card
   * number, are absent until approval.
   */
  datatype Loan = Loan(
    id: nat, user: nat, product: nat, money: int, allowProduct: bool,
    cardNumber: Option<string>, date: Option<nat>, expiry: Option<int>)

  /** The exceptions the service throws. */
  datatype Failure =
    | NotFound               // Optional.get() on a missing id or nickname
    | NicknameNotUnique      // a single-result query that matches more than one user
    | NoFamily               // the acting user has no family (a null dereference)
    | NotSameFamily          // "not this family": the family check fails
    | CardNumbersExhausted   // every supplied draw collided; the source would keep drawing

  /** The tag of a point award. */
  datatype Reason = LoanPrincipal | LoanInterest | PrincipalReturned

  /** `pointService.makePoint(from, to, reason, amount)`. */
  datatype Award = Award(transfer: Transfer, reason: Reason)

  /** The repository's derived queries. */
  datatype Query =
    | PendingInFamily(familyId: nat)    // findAllByUser_FamilyIdAndAllowProductIsFalseOrderByIdDesc
    | PendingForProduct(productId: nat) // findAllByFinancialProduct_IdAndAllowProductIsFalseOrderByIdDesc
    | OfApplicant(userId: nat)          // findByUser
    | DueOn(day: nat)                   // findByDate_Date
    | ExpiringAfter(instant: int)       // findByExpiryAfter

  predicate Matches(q: Query, loan: Loan, users: map<nat, User>) {
    match q
    case PendingInFamily(f) => !loan.allowProduct && loan.user in users && users[loan.user].familyId == Some(f)
    case PendingForProduct(p) => !loan.allowProduct && loan.product == p
    case OfApplicant(u) => loan.user == u
    case DueOn(day) => loan.date == Some(day)
    case ExpiringAfter(t) => loan.expiry.Some? && loan.expiry.value > t
  }

  /** Ids below `bound` of the loans a query selects, newest (largest id) first. */
  function Select(loans: map<nat, Loan>, users: map<nat, User>, q: Query, bound: nat): (ids: seq<nat>)
    ensures forall i :: 0 <= i < |ids| ==> ids[i] < bound && ids[i] in loans && Matches(q, loans[ids[i]], users)
    ensures forall id :: id in loans && id < bound && Matches(q, loans[id], users) ==> id in ids
    ensures forall i, j :: 0 <= i < j < |ids| ==> ids[i] > ids[j]
    decreases bound
  {
    if bound == 0 then []
    else
      var rest := Select(loans, users, q, bound - 1);
      if bound - 1 in loans && Matches(q, loans[bound - 1], users) then [bound - 1] + rest else rest
  }

  /** The records behind a list of ids, as the service's result lists carry them. */
  function Records(loans: map<nat, Loan>, ids: seq<nat>): (rs: seq<Loan>)
    requires forall i :: 0 <= i < |ids| ==> ids[i] in loans
    ensures |rs| == |ids|
    ensures forall i :: 0 <= i < |ids| ==> rs[i] == loans[ids[i]]
    decreases |ids|
  {
    if ids == [] then [] else Records(loans, ids[..|ids| - 1]) + [loans[ids[|ids| - 1]]]
  }

  /** Card numbers held by loans in the registry: what `findByCardNumber` can find. */
  function IssuedCards(loans: map<nat, Loan>): set<string> {
    set id | id in loans && loans[id].cardNumber.Some? :: loans[id].cardNumber.value
  }

  /** No two loans hold the same card number. */
  ghost predicate DistinctCards(loans: map<nat, Loan>) {
    forall a, b :: a in loans && b in loans && a != b && loans[a].cardNumber.Some? ==>
      loans[a].cardNumber != loans[b].cardNumber
  }

  /** Storing a loan whose card number no loan holds keeps card numbers distinct. */
  lemma StoreFreshCard(loans: map<nat, Loan>, id: nat, loan: Loan, card: string)
    requires DistinctCards(loans)
    requires loan.cardNumber == Some(card) && card !in IssuedCards(loans)
    ensures DistinctCards(loans[id := loan])
    ensures IssuedCards(loans[id := loan]) <= IssuedCards(loans) + {card}
  {
    var r := loans[id := loan];
    forall a, b | a in r && b in r && a != b && r[a].cardNumber.Some?
      ensures r[a].cardNumber != r[b].cardNumber
    {
      if a == id {
        if r[b].cardNumber.Some? {
          assert b in loans && loans[b].cardNumber.value in IssuedCards(loans);
        }
      } else if b == id {
        assert loans[a].cardNumber.value in IssuedCards(loans);
      }
    }
  }

  /** Removing loans keeps card numbers distinct. */
  lemma RemoveKeepsCardsDistinct(loans: map<nat, Loan>, gone: set<nat>)
    requires DistinctCards(loans)
    ensures DistinctCards(loans - gone)
  {
  }

  /** `loaner.allow()` and `loaner.changeDate(period)` with the issued card number. */
  function Approved(loan: Loan, product: Product, now: Clock, card: string): (r: Loan)
    ensures r.allowProduct && r.cardNumber == Some(card)
    ensures r.id == loan.id && r.user == loan.user && r.product == loan.product && r.money == loan.money
    ensures r.date == Some(now.dayOfMonth) && r.expiry == Some(now.instant + product.period)
  {
    loan.(allowProduct := true, date := Some(now.dayOfMonth),
          expiry := Some(now.instant + product.period), cardNumber := Some(card))
  }

  /** `money * rate / 100` in Java `int` arithmetic. */
  function Interest(money: int, rate: int): int {
    Div100(Wrap(money * rate))
  }

  /** Without overflow, the interest is the floor of money * rate / 100, between 0 and the principal times the rate. */
  lemma InterestNoOverflow(money: int, rate: int)
    requires 0 <= money && 0 <= rate && money * rate <= MaxInt
    ensures Interest(money, rate) == money * rate / 100
    ensures 0 <= 100 * Interest(money, rate) <= money * rate
  {
  }

  /** Whatever the operands, the interest is an `int` whose negation does not wrap. */
  lemma InterestNegatable(money: int, rate: int)
    ensures Negatable(Interest(money, rate))
  {
  }

  /** A product of two `int`s that overflows can yield negative interest on a positive loan. */
  lemma InterestOverflowExample()
    ensures Interest(50_000_000, 50) < 0
  {
    assert Wrap(50_000_000 * 50) == 2_500_000_000 - 0x1_0000_0000;
  }

  /** The transfer of `allow`: the acting guardian pays the principal to the applicant. */
  function PrincipalTransfer(parentId: nat, loan: Loan): Transfer {
    Transfer(parentId, loan.user, loan.money)
  }

  /** The transfer of `calculateRates`: the applicant pays the interest to the product's owner. */
  function InterestTransfer(loan: Loan, product: Product): Transfer {
    Transfer(loan.user, product.parent, Interest(loan.money, product.rate))
  }

  /** The transfer of `removeProduct`: the applicant pays the principal back to the product's owner. */
  function ReturnTransfer(loan: Loan, product: Product): Transfer {
    Transfer(loan.user, product.parent, loan.money)
  }

  /** When the product's owner approved the loan, settling it restores both balances. */
  lemma ReturnUndoesPrincipal(users: map<nat, User>, loan: Loan, product: Product)
    requires product.parent in users && loan.user in users && Negatable(loan.money)
    ensures Move(Move(users, PrincipalTransfer(product.parent, loan)), ReturnTransfer(loan, product)) == users
  {
    MoveInverse(users, product.parent, loan.user, loan.money);
  }

  /** Every selected id names a loan whose product is known. */
  predicate Resolvable(loans: map<nat, Loan>, products: map<nat, Product>, ids: seq<nat>) {
    forall i :: 0 <= i < |ids| ==> ids[i] in loans && loans[ids[i]].product in products
  }

  /** The transfers a batch pass makes for the selected loans, in order. */
  function BatchTransfers(loans: map<nat, Loan>, products: map<nat, Product>, ids: seq<nat>, interest: bool): (ts: seq<Transfer>)
    requires Resolvable(loans, products, ids)
    ensures |ts| == |ids|
    ensures forall i :: 0 <= i < |ids| ==>
      ts[i] == if interest then InterestTransfer(loans[ids[i]], products[loans[ids[i]].product])
               else ReturnTransfer(loans[ids[i]], products[loans[ids[i]].product])
    decreases |ids|
  {
    if ids == [] then []
    else
      var loan := loans[ids[|ids| - 1]];
      var product := products[loan.product];
      BatchTransfers(loans, products, ids[..|ids| - 1], interest)
      + [if interest then InterestTransfer(loan, product) else ReturnTransfer(loan, product)]
  }

  /** The point awards that accompany a list of transfers. */
  function Awards(ts: seq<Transfer>, reason: Reason): (aw: seq<Award>)
    ensures |aw| == |ts|
    ensures forall i :: 0 <= i < |ts| ==> aw[i] == Award(ts[i], reason)
    decreases |ts|
  {
    if ts == [] then [] else Awards(ts[..|ts| - 1], reason) + [Award(ts[|ts| - 1], reason)]
  }

  /**
   * What the database's keys and the Java types guarantee: every loan is
   * stored under its own id, below the next id to be generated, and refers
   * to a known user and product; every product's owner is a known user;
   * amounts and rates are `int`s; no two loans share a card number.
   */
  ghost predicate Consistent(loans: map<nat, Loan>, users: map<nat, User>, products: map<nat, Product>, nextId: nat) {
    (forall id :: id in loans ==>
       id < nextId && loans[id].id == id && loans[id].user in users
       && loans[id].product in products && IsInt(loans[id].money))
    && (forall p :: p in products ==> products[p].parent in users && IsInt(products[p].rate))
    && DistinctCards(loans)
  }

  /** Consistency depends on the user table only through its ids. */
  lemma ConsistentUsers(loans: map<nat, Loan>, users: map<nat, User>, users': map<nat, User>, products: map<nat, Product>, nextId: nat)
    requires Consistent(loans, users, products, nextId) && users'.Keys == users.Keys
    ensures Consistent(loans, users', products, nextId)
  {
  }

  /** The interest pass moves money only between known users and conserves the total of all balances. */
  lemma RatesConserveTotal(loans: map<nat, Loan>, users: map<nat, User>, products: map<nat, Product>, nextId: nat, ids: seq<nat>)
    requires Consistent(loans, users, products, nextId) && Resolvable(loans, products, ids)
    ensures var r := MoveAll(users, BatchTransfers(loans, products, ids, true));
      r.Keys == users.Keys && Total(r) == Total(users)
  {
    var ts := BatchTransfers(loans, products, ids, true);
    forall i | 0 <= i < |ts|
      ensures ts[i].from in users && ts[i].to in users && Negatable(ts[i].amount)
    {
      var loan := loans[ids[i]];
      InterestNegatable(loan.money, products[loan.product].rate);
    }
    MoveAllConservesTotal(users, ts);
  }

  /**
   * The settling pass conserves the total as long as no selected principal is
   * MinInt; see MinIntTransferBreaksTotal for what that one does.
   */
  lemma ReturnsConserveTotal(loans: map<nat, Loan>, users: map<nat, User>, products: map<nat, Product>, nextId: nat, ids: seq<nat>)
    requires Consistent(loans, users, products, nextId) && Resolvable(loans, products, ids)
    requires forall i :: 0 <= i < |ids| ==> loans[ids[i]].money != MinInt
    ensures var r := MoveAll(users, BatchTransfers(loans, products, ids, false));
      r.Keys == users.Keys && Total(r) == Total(users)
  {
    var ts := BatchTransfers(loans, products, ids, false);
    assert Balanced(users, ts);
    MoveAllConservesTotal(users, ts);
  }

  /** One more award of a batch pass. */
  lemma AwardsStep(ts: seq<Transfer>, i: nat, reason: Reason)
    requires i < |ts|
    ensures Awards(ts[..i + 1], reason) == Awards(ts[..i], reason) + [Award(ts[i], reason)]
  {
    assert ts[..i + 1][..i] == ts[..i];
  }

  /** The card number attempt k prints when `parentId` approves an application for this product. */
  function ApprovalCard(product: Product, productId: nat, parentId: nat, draws: seq<seq<nat>>, k: nat): string
    requires k < |draws| && CardNumber.IsDraw(draws[k])
  {
    CardNumber.Attempt(CardNumber.FamilyIdAt(product.familyId, k), productId, parentId, draws[k])
  }

  /** Some supplied draw yields a card number no loan holds. */
  predicate FreshCardAvailable(loans: map<nat, Loan>, product: Product, productId: nat, parentId: nat, draws: seq<seq<nat>>)
    requires forall k :: 0 <= k < |draws| ==> CardNumber.IsDraw(draws[k])
  {
    exists k :: 0 <= k < |draws| && ApprovalCard(product, productId, parentId, draws, k) !in IssuedCards(loans)
  }

  /**
   * `card` is the first supplied attempt that no loan holds: the number the
   * retry loop stops at.
   */
  predicate FirstFreshCard(loans: map<nat, Loan>, product: Product, productId: nat, parentId: nat, draws: seq<seq<nat>>, card: string)
    requires forall k :: 0 <= k < |draws| ==> CardNumber.IsDraw(draws[k])
  {
    exists k :: 0 <= k < |draws| && ApprovalCard(product, productId, parentId, draws, k) == card
      && forall j :: 0 <= j < k ==> ApprovalCard(product, productId, parentId, draws, j) in IssuedCards(loans)
  }

  /**
   * The number stored on an approved loan is a well-formed card number: for
   * a family id below 10^9 it has 16 or 17 characters and its check value
   * closes the weighted digit sum.
   */
  lemma FirstFreshCardShape(loans: map<nat, Loan>, product: Product, productId: nat, parentId: nat, draws: seq<seq<nat>>, card: string)
    requires forall k :: 0 <= k < |draws| ==> CardNumber.IsDraw(draws[k])
    requires FirstFreshCard(loans, product, productId, parentId, draws, card)
    requires product.familyId < Decimal.Pow10(9)
    ensures |card| == 16 || |card| == 17
    ensures CardNumber.ChecksumCloses(card)
  {
    var k :| 0 <= k < |draws| && ApprovalCard(product, productId, parentId, draws, k) == card;
    var f := CardNumber.FamilyIdAt(product.familyId, k);
    assert Decimal.Pow10(9) == 1_000_000_000;
    CardNumber.AttemptShape(f, productId, parentId, draws[k]);
  }

  /** Some user has this nickname. */
  predicate NicknameHeld(users: map<nat, User>, nickname: string) {
    exists u :: u in users && users[u].nickname == nickname
  }

  /** Two different users have this nickname. */
  predicate NicknameShared(users: map<nat, User>, nickname: string) {
    exists u, v :: u in users && v in users && u != v && users[u].nickname == nickname && users[v].nickname == nickname
  }

  /** The set of ids in a list. */
  function Elems(ids: seq<nat>): (s: set<nat>)
    ensures forall x :: x in s <==> x in ids
    decreases |ids|
  {
    if ids == [] then {} else Elems(ids[..|ids| - 1]) + {ids[|ids| - 1]}
  }

  class LoanService {
    var loans: map<nat, Loan>
    var users: map<nat, User>
    const products: map<nat, Product>
    var nextId: nat
    var awards: seq<Award>

    /** The service's state is consistent. */
    ghost predicate Valid()
      reads this
    {
      Consistent(loans, users, products, nextId)
    }

    constructor (users: map<nat, User>, products: map<nat, Product>)
      requires forall p :: p in products ==> products[p].parent in users && IsInt(products[p].rate)
      ensures Valid()
      ensures this.users == users && this.products == products
      ensures loans == map[] && nextId == 0 && awards == []
    {
      this.users := users;
      this.products := products;
      loans := map[];
      nextId := 0;
      awards := [];
    }

    /** `apply`: a pending application under the next generated id. */
    method Apply(userId: nat, productId: nat, money: int) returns (r: Result<nat, Failure>)
      requires Valid() && IsInt(money)
      modifies this
      ensures Valid()
      ensures userId !in users || productId !in products ==> r == Err(NotFound) && unchanged(this)
      ensures userId in users && productId in products ==>
        && r == Ok(old(nextId))
        && loans == old(loans)[old(nextId) := Loan(old(nextId), userId, productId, money, false, None, None, None)]
        && nextId == old(nextId) + 1
        && users == old(users) && awards == old(awards)
    {
      if userId !in users || productId !in products {
        return Err(NotFound);
      }
      var id := nextId;
      loans := loans[id := Loan(id, userId, productId, money, false, None, None, None)];
      nextId := nextId + 1;
      r := Ok(id);
    }

    /**
     * `from.moneyTransfer(-amount)` and `to.moneyTransfer(amount)`, both
     * saved, then `pointService.makePoint(from, to, reason, amount)`.
     */
    method Pay(from: nat, to: nat, amount: int, reason: Reason)
      modifies this`users, this`awards
      ensures users == Move(old(users), Transfer(from, to, amount))
      ensures awards == old(awards) + [Award(Transfer(from, to, amount), reason)]
    {
      users := MoneyTransfer(users, from, Wrap(-amount));
      users := MoneyTransfer(users, to, amount);
      awards := awards + [Award(Transfer(from, to, amount), reason)];
    }

    /**
     * `makeCardNumber` for a loan on this product approved by `parentId`,
     * checked against the card numbers the registry holds.
     */
    method IssueCard(product: Product, productId: nat, parentId: nat, draws: seq<seq<nat>>) returns (card: Option<string>)
      requires forall k :: 0 <= k < |draws| ==> CardNumber.IsDraw(draws[k])
      ensures card.Some? ==> card.value !in IssuedCards(loans)
      ensures card.Some? ==> FirstFreshCard(loans, product, productId, parentId, draws, card.value)
      ensures card.None? <==> !FreshCardAvailable(loans, product, productId, parentId, draws)
    {
      card := CardNumber.MakeCardNumber(product.familyId, productId, parentId, draws, IssuedCards(loans));
      if card.Some? {
        ghost var k :| 0 <= k < |draws| && card.value == CardNumber.Attempt(CardNumber.FamilyIdAt(product.familyId, k), productId, parentId, draws[k])
          && forall j :: 0 <= j < k ==> CardNumber.Attempt(CardNumber.FamilyIdAt(product.familyId, j), productId, parentId, draws[j]) in IssuedCards(loans);
        assert ApprovalCard(product, productId, parentId, draws, k) == card.value;
        assert forall j :: 0 <= j < k ==> ApprovalCard(product, productId, parentId, draws, j) in IssuedCards(loans);
      }
    }

    /** `allow`: the family check, then approval, a fresh card number and the principal transfer. */
    method Allow(id: nat, parentId: nat, now: Clock, draws: seq<seq<nat>>) returns (r: Result<(), Failure>)
      requires Valid() && parentId in users
      requires forall k :: 0 <= k < |draws| ==> CardNumber.IsDraw(draws[k])
      modifies this
      ensures Valid()
      ensures r.Err? ==> unchanged(this)
      ensures id !in old(loans) ==> r == Err(NotFound)
      ensures id in old(loans) ==>
        var product := products[old(loans)[id].product];
        var family := old(users)[parentId].familyId;
        && (family.None? ==> r == Err(NoFamily))
        && (family.Some? && family.value != product.familyId ==> r == Err(NotSameFamily))
        && (r.Ok? <==> family == Some(product.familyId)
                       && FreshCardAvailable(old(loans), product, old(loans)[id].product, parentId, draws))
      ensures r.Ok? ==>
        var loan := old(loans)[id];
        && id in loans && loans[id].cardNumber.Some?
        && loans[id].cardNumber.value !in IssuedCards(old(loans))
        && FirstFreshCard(old(loans), products[loan.product], loan.product, parentId, draws, loans[id].cardNumber.value)
        && loans == old(loans)[id := Approved(loan, products[loan.product], now, loans[id].cardNumber.value)]
        && users == Move(old(users), PrincipalTransfer(parentId, loan))
        && awards == old(awards) + [Award(PrincipalTransfer(parentId, loan), LoanPrincipal)]
        && nextId == old(nextId)
    {
      if id !in loans {
        return Err(NotFound);
      }
      var loan := loans[id];
      var product := products[loan.product];
      var family := users[parentId].familyId;
      if family.None? {
        return Err(NoFamily);
      }
      if family.value != product.familyId {
        return Err(NotSameFamily);
      }
      var card := IssueCard(product, loan.product, parentId, draws);
      if card.None? {
        return Err(CardNumbersExhausted);
      }
      var approved := Approved(loan, product, now, card.value);
      StoreFreshCard(loans, id, approved, card.value);
      loans := loans[id := approved];
      Pay(parentId, loan.user, loan.money, LoanPrincipal);
      ConsistentUsers(loans, old(users), users, products, nextId);
      r := Ok(());
    }

    /** `refuse`: the family check, then the application is deleted; no money moves. */
    method Refuse(id: nat, parentId: nat) returns (r: Result<(), Failure>)
      requires Valid() && parentId in users
      modifies this
      ensures Valid()
      ensures r.Err? ==> unchanged(this)
      ensures id !in old(loans) ==> r == Err(NotFound)
      ensures id in old(loans) ==>
        var product := products[old(loans)[id].product];
        var family := old(users)[parentId].familyId;
        && (family.None? ==> r == Err(NoFamily))
        && (family.Some? && family.value != product.familyId ==> r == Err(NotSameFamily))
        && (r.Ok? <==> family == Some(product.familyId))
      ensures r.Ok? ==> loans == old(loans) - {id} && users == old(users) && awards == old(awards) && nextId == old(nextId)
    {
      if id !in loans {
        return Err(NotFound);
      }
      var loan := loans[id];
      var product := products[loan.product];
      var family := users[parentId].familyId;
      if family.None? {
        return Err(NoFamily);
      }
      if family.value != product.familyId {
        return Err(NotSameFamily);
      }
      RemoveKeepsCardsDistinct(loans, {id});
      loans := loans - {id};
      r := Ok(());
    }

    /** The shared loop that turns a selection into the list the service returns. */
    method ToList(ids: seq<nat>) returns (res: seq<Loan>)
      requires forall i :: 0 <= i < |ids| ==> ids[i] in loans
      ensures res == Records(loans, ids)
    {
      res := [];
      var i := 0;
      while i < |ids|
        invariant 0 <= i <= |ids|
        invariant |res| == i
        invariant forall j :: 0 <= j < i ==> res[j] == loans[ids[j]]
      {
        res := res + [loans[ids[i]]];
        i := i + 1;
      }
    }

    /**
     * `list` holds exactly the loans the query selects, each as stored,
     * newest first.
     */
    ghost predicate Lists(list: seq<Loan>, q: Query)
      reads this
    {
      (forall i :: 0 <= i < |list| ==> list[i].id in loans && loans[list[i].id] == list[i] && Matches(q, list[i], users))
      && (forall id :: id in loans && Matches(q, loans[id], users) ==> exists i :: 0 <= i < |list| && list[i].id == id)
      && (forall i, j :: 0 <= i < j < |list| ==> list[i].id > list[j].id)
    }

    /** `getDisallow`: the pending applications of the caller's family, newest first. */
    method GetDisallow(caller: nat) returns (r: Result<seq<Loan>, Failure>)
      requires Valid() && caller in users
      ensures users[caller].familyId.None? <==> r == Err(NoFamily)
      ensures r.Err? ==> r == Err(NoFamily)
      ensures r.Ok? ==> Lists(r.value, PendingInFamily(users[caller].familyId.value))
    {
      var family := users[caller].familyId;
      if family.None? {
        return Err(NoFamily);
      }
      var ids := Select(loans, users, PendingInFamily(family.value), nextId);
      var res := ToList(ids);
      r := Ok(res);
    }

    /** `getDisallowProducts`: the pending applications for a product, newest first. */
    method GetDisallowProducts(productId: nat) returns (res: seq<Loan>)
      requires Valid()
      ensures Lists(res, PendingForProduct(productId))
    {
      var ids := Select(loans, users, PendingForProduct(productId), nextId);
      res := ToList(ids);
    }

    /** `findByNickname(nickname).get()`: the only user with that nickname. */
    method FindByNickname(nickname: string) returns (r: Result<nat, Failure>)
      ensures r == Err(NotFound) <==> !NicknameHeld(users, nickname)
      ensures r == Err(NicknameNotUnique) <==> NicknameShared(users, nickname)
      ensures r.Err? ==> r.error == NotFound || r.error == NicknameNotUnique
      ensures r.Ok? ==> r.value in users && users[r.value].nickname == nickname
    {
      if u :| u in users && users[u].nickname == nickname {
        if v :| v in users && v != u && users[v].nickname == nickname {
          r := Err(NicknameNotUnique);
        } else {
          r := Ok(u);
        }
      } else {
        r := Err(NotFound);
      }
    }

    /** `getProductsByNickname`: the applications of the user with that nickname. */
    method GetProductsByNickname(nickname: string) returns (r: Result<seq<Loan>, Failure>)
      requires Valid()
      ensures r == Err(NotFound) <==> !NicknameHeld(users, nickname)
      ensures r == Err(NicknameNotUnique) <==> NicknameShared(users, nickname)
      ensures r.Err? ==> r.error == NotFound || r.error == NicknameNotUnique
      ensures r.Ok? ==> exists u :: u in users && users[u].nickname == nickname && Lists(r.value, OfApplicant(u))
    {
      var user := FindByNickname(nickname);
      if user.Err? {
        return Err(user.error);
      }
      var ids := Select(loans, users, OfApplicant(user.value), nextId);
      var res := ToList(ids);
      assert Lists(res, OfApplicant(user.value));
      r := Ok(res);
    }

    /**
     * The loop body of both batch passes, in order: each transfer moves its
     * amount and records its award.
     */
    method PayAll(ts: seq<Transfer>, reason: Reason)
      modifies this`users, this`awards
      ensures users == MoveAll(old(users), ts)
      ensures awards == old(awards) + Awards(ts, reason)
    {
      var i := 0;
      while i < |ts|
        invariant 0 <= i <= |ts|
        invariant users == MovePrefix(old(users), ts, i)
        invariant awards == old(awards) + Awards(ts[..i], reason)
      {
        AwardsStep(ts, i, reason);
        Pay(ts[i].from, ts[i].to, ts[i].amount, reason);
        i := i + 1;
      }
      assert ts[..|ts|] == ts;
    }

    /**
     * `calculateRates`: every loan approved on this day of the month moves its
     * interest from the applicant to the product's owner. No loan changes.
     */
    method CalculateRates(today: nat)
      requires Valid()
      modifies this`users, this`awards
      ensures Valid()
      ensures loans == old(loans) && nextId == old(nextId)
      ensures var ts := BatchTransfers(loans, products, Select(loans, old(users), DueOn(today), nextId), true);
        users == MoveAll(old(users), ts) && awards == old(awards) + Awards(ts, LoanInterest)
    {
      var list := Select(loans, users, DueOn(today), nextId);
      var ts := BatchTransfers(loans, products, list, true);
      PayAll(ts, LoanInterest);
      MovePrefixKeys(old(users), ts, |ts|);
      ConsistentUsers(loans, old(users), users, products, nextId);
    }

    /**
     * `removeProduct`: every loan whose expiry is after now pays its principal
     * back from the applicant to the product's owner and is deleted.
     */
    method RemoveProduct(now: int)
      requires Valid()
      modifies this
      ensures Valid()
      ensures var list := Select(old(loans), old(users), ExpiringAfter(now), old(nextId));
        var ts := BatchTransfers(old(loans), products, list, false);
        && loans == old(loans) - Elems(list)
        && users == MoveAll(old(users), ts)
        && awards == old(awards) + Awards(ts, PrincipalReturned)
        && nextId == old(nextId)
    {
      var list := Select(loans, users, ExpiringAfter(now), nextId);
      var ts := BatchTransfers(loans, products, list, false);
      PayAll(ts, PrincipalReturned);
      RemoveKeepsCardsDistinct(loans, Elems(list));
      loans := loans - Elems(list);
      MovePrefixKeys(old(users), ts, |ts|);
      ConsistentUsers(loans, old(users), users, products, nextId);
    }
  }
}
