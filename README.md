# Loans and family membership of 1chon-bank

This project models the loan engine of the 1chon-bank family banking
service and the membership list of a family, and proves properties of the
model in Dafny.

The loan engine keeps a registry of loan applications. A child applies for
a loan product that a guardian of the same family offers. A guardian of
that family then approves or refuses the application. Approval issues a
card number with a check value and pays the principal from the approving
guardian to the applicant. Two batch passes settle loans: a daily interest
pass, and a pass that pays the principal back and deletes the loan.

Modules:

- `Results`: `Option` and `Result`.
- `Decimal`: decimal printing of non-negative numbers, digit count, leading digit.
- `JavaInt`: Java `int` wrap-around, negation and truncating division by 100.
- `Accounts`: the user table, `moneyTransfer` and transfers, with the
  total of all balances as a ghost sum.
- `CardNumber`: the card-number generator with its retry loop.
- `Loans`: the registry, the products, the queries, and `class LoanService`
  for the operations.
- `Families`: `class Family` and `class Member`, with the list of members
  and each member's back-link. `Member` stands for the user entity, which
  is reduced here to its `family` field, the owning side that
  `addUser` and `removeUser` set through `setFamily`. The user entity itself
  is not part of this model.

Behaviour modelled as written:

- The check value is `10 - sum % 10`. It lies in 1 .. 10, so a sum that is
  already a multiple of ten prints "10" and the card number has 17
  characters instead of 16.
- The retry loop reuses the family id that the digit-count loop reduced to
  its leading digit. Every retry therefore starts with "1" followed by the
  leading digit twice.
- The last digit of the family id is printed but not added to the sum.
- `money * rate / 100` is computed in 32-bit `int` arithmetic. The product
  wraps, and the division truncates toward zero.
- `-amount` in a transfer is an `int` negation, and the negation of MinInt
  is MinInt. A MinInt transfer therefore applies `moneyTransfer(MinInt)` to
  both users: both balances fall by 2^31 and the total falls by 2^32.
- `allow` debits the guardian who approves. The batch passes credit the
  owner of the product.
- `removeProduct` selects loans whose expiry lies after the current instant.
- `Family.removeUser` removes only the first occurrence of the user. It
  clears the user's family link even when the user was not listed.

Inputs the code takes from its environment become parameters:

- the clock (`Clock`, or `today` / `now`);
- the random digits of each card-number attempt (`draws`);
- the card numbers already held by loans (`issued`, computed from the registry).

## Model

| member | source | states |
|---|---|---|
| Decimal.DecimalString | backend/src/main/java/com/woowahanbank/backend/domain/customer/service/LoanerServiceImpl.java:198 | the printed text of a number is non-empty, all digits, and has no leading zero |
| Decimal.ParseDecimalOfDecimalString | backend/src/main/java/com/woowahanbank/backend/domain/customer/service/LoanerServiceImpl.java:198 | reading the printed text back gives the number |
| Decimal.DecimalStringShape | backend/src/main/java/com/woowahanbank/backend/domain/customer/service/LoanerServiceImpl.java:191-198 | the printed length is the digit count the loop counts, and the first character is the leading digit the loop reduces to |
| Decimal.DigitCountBelow | backend/src/main/java/com/woowahanbank/backend/domain/customer/service/LoanerServiceImpl.java:191-196 | a family id below 10^k has at most k digits |
| CardNumber.DigitsText | backend/src/main/java/com/woowahanbank/backend/domain/customer/service/LoanerServiceImpl.java:200-202 | each random digit is printed as exactly one character |
| CardNumber.CheckValue | backend/src/main/java/com/woowahanbank/backend/domain/customer/service/LoanerServiceImpl.java:208 | the check value lies in 1 .. 10, brings the sum to a multiple of ten, and is 10 exactly when the sum already is one |
| CardNumber.PrintDraw | backend/src/main/java/com/woowahanbank/backend/domain/customer/service/LoanerServiceImpl.java:200-207 | the nine drawn digits are appended one character each and added to the sum with weights 2,1,2,... |
| CardNumber.PrintAttempt | backend/src/main/java/com/woowahanbank/backend/domain/customer/service/LoanerServiceImpl.java:191-208 | one pass of the loop body prints exactly Attempt (digit count, leading digit, last digit, product digit, guardian digit, 3, nine digits, check value) and leaves the family id at its leading digit |
| CardNumber.MakeCardNumber | backend/src/main/java/com/woowahanbank/backend/domain/customer/service/LoanerServiceImpl.java:187-214 | a returned number is held by no loan and is the first attempt not held; every earlier attempt was taken; with no result, every supplied attempt was taken |
| CardNumber.WeightedTextOfAttempt | backend/src/main/java/com/woowahanbank/backend/domain/customer/service/LoanerServiceImpl.java:199-207 | the weights in the sum match the printed positions: the digit count once, the leading digit twice, the last family digit not at all, the product digit once, the guardian digit twice, 3 once, then 2,1,2,... |
| CardNumber.AttemptWeightedText | backend/src/main/java/com/woowahanbank/backend/domain/customer/service/LoanerServiceImpl.java:198-207 | reading the first fifteen printed digits with their position weights gives back exactly the sum the loop computes |
| CardNumber.AttemptShape | backend/src/main/java/com/woowahanbank/backend/domain/customer/service/LoanerServiceImpl.java:191-208 | for a family id below 10^9 the card number has 16 or 17 characters, carries 3 at position 5, and its check value closes the weighted sum to 0 mod 10 |
| CardNumber.RetryPrefix | backend/src/main/java/com/woowahanbank/backend/domain/customer/service/LoanerServiceImpl.java:192-198 | every retry starts with 1 and then the leading family digit twice |
| CardNumber.FirstAttemptPrefix | backend/src/main/java/com/woowahanbank/backend/domain/customer/service/LoanerServiceImpl.java:191-198 | the first attempt starts with the digit count, the leading digit and the last digit of the family id, then the product and guardian digits and 3 |
| JavaInt.Wrap | backend/src/main/java/com/woowahanbank/backend/domain/customer/service/LoanerServiceImpl.java:148 | the wrapped value is an int congruent to the exact one mod 2^32, and equals it when no overflow occurs |
| JavaInt.Neg | backend/src/main/java/com/woowahanbank/backend/domain/customer/service/LoanerServiceImpl.java:89-90 | int negation is exact except on MinInt, which stays MinInt |
| JavaInt.Div100 | backend/src/main/java/com/woowahanbank/backend/domain/customer/service/LoanerServiceImpl.java:148 | division by 100 truncates toward zero for either sign |
| JavaInt.Div100Negate | backend/src/main/java/com/woowahanbank/backend/domain/customer/service/LoanerServiceImpl.java:148 | truncating division is odd in its dividend |
| JavaInt.Div100VersusFloor | backend/src/main/java/com/woowahanbank/backend/domain/customer/service/LoanerServiceImpl.java:148 | truncation equals floor for non-negative dividends, and is one more for inexact negative ones |
| Accounts.MovePrefixKeys | backend/src/main/java/com/woowahanbank/backend/domain/customer/service/LoanerServiceImpl.java:141-153 | transfers never add or remove users |
| Accounts.TotalAfterMoneyTransfer | backend/src/main/java/com/woowahanbank/backend/domain/customer/service/LoanerServiceImpl.java:149-150 | moneyTransfer(d) on a known user changes the total of all balances by exactly d |
| Accounts.MoveConservesTotal | backend/src/main/java/com/woowahanbank/backend/domain/customer/service/LoanerServiceImpl.java:89-92 | a transfer between known users with an amount other than MinInt keeps the total of all balances |
| Accounts.MinIntTransferBreaksTotal | backend/src/main/java/com/woowahanbank/backend/domain/customer/service/LoanerServiceImpl.java:89-91 | a MinInt transfer applies moneyTransfer(MinInt) to both users, so each balance falls by 2^31 and the total by 2^32 |
| Accounts.MovePrefixConservesTotal | backend/src/main/java/com/woowahanbank/backend/domain/customer/service/LoanerServiceImpl.java:141-153 | any prefix of a batch of such transfers keeps the total |
| Accounts.MoveAllConservesTotal | backend/src/main/java/com/woowahanbank/backend/domain/customer/service/LoanerServiceImpl.java:141-153 | a whole batch of such transfers keeps the total |
| Accounts.MoveEffect | backend/src/main/java/com/woowahanbank/backend/domain/customer/service/LoanerServiceImpl.java:89-91 | a transfer lowers the payer's balance by the amount and raises the payee's by it, touches no one else, and changes nothing when payer and payee coincide |
| Accounts.MoveInverse | backend/src/main/java/com/woowahanbank/backend/domain/customer/service/LoanerServiceImpl.java:166-168 | paying an amount back the other way restores every balance |
| Loans.Select | backend/src/main/java/com/woowahanbank/backend/domain/customer/service/LoanerServiceImpl.java:68-69 | a query yields exactly the stored loans it matches, each once, with the largest id first |
| Loans.Records | backend/src/main/java/com/woowahanbank/backend/domain/customer/service/LoanerServiceImpl.java:70-73 | the result list holds each selected loan as stored, in the order of the ids |
| Loans.StoreFreshCard | backend/src/main/java/com/woowahanbank/backend/domain/customer/service/LoanerServiceImpl.java:86-87 | storing a loan with a card number no loan holds keeps card numbers distinct |
| Loans.RemoveKeepsCardsDistinct | backend/src/main/java/com/woowahanbank/backend/domain/customer/service/LoanerServiceImpl.java:124 | deleting loans keeps card numbers distinct |
| Loans.Approved | backend/src/main/java/com/woowahanbank/backend/domain/customer/service/LoanerServiceImpl.java:84-87 | an approved loan is flagged, carries the card number, the day of the month and the expiry now + period, and keeps its id, applicant, product and amount |
| Loans.InterestNoOverflow | backend/src/main/java/com/woowahanbank/backend/domain/customer/service/LoanerServiceImpl.java:148 | without overflow, the interest is money * rate / 100 rounded down, between 0 and money * rate / 100 |
| Loans.InterestNegatable | backend/src/main/java/com/woowahanbank/backend/domain/customer/service/LoanerServiceImpl.java:148-149 | the interest is never MinInt, so the child's debit never wraps |
| Loans.InterestOverflowExample | backend/src/main/java/com/woowahanbank/backend/domain/customer/service/LoanerServiceImpl.java:148 | an overflowing product gives negative interest on a positive loan (50 000 000 at rate 50) |
| Loans.ReturnUndoesPrincipal | backend/src/main/java/com/woowahanbank/backend/domain/customer/service/LoanerServiceImpl.java:166-168 | when the product's owner approved the loan, paying the principal back restores both balances |
| Loans.BatchTransfers | backend/src/main/java/com/woowahanbank/backend/domain/customer/service/LoanerServiceImpl.java:141-153 | the batch makes one transfer per selected loan, in list order, from the applicant to the product's owner, of the interest or the principal |
| Loans.Awards | backend/src/main/java/com/woowahanbank/backend/domain/customer/service/LoanerServiceImpl.java:153 | one point award per transfer, in the same order, with the pass's reason |
| Loans.ConsistentUsers | backend/src/main/java/com/woowahanbank/backend/domain/customer/service/LoanerServiceImpl.java:151-152 | balance changes keep the registry consistent |
| Loans.RatesConserveTotal | backend/src/main/java/com/woowahanbank/backend/domain/customer/service/LoanerServiceImpl.java:138-155 | the interest pass moves money only between known users and keeps the total of all balances |
| Loans.ReturnsConserveTotal | backend/src/main/java/com/woowahanbank/backend/domain/customer/service/LoanerServiceImpl.java:158-174 | the settling pass keeps the total when no selected principal is MinInt |
| Loans.FirstFreshCardShape | backend/src/main/java/com/woowahanbank/backend/domain/customer/service/LoanerServiceImpl.java:191-208 | the number stored on an approved loan, for a family id below 10^9, has 16 or 17 characters and a check value that closes the weighted digit sum |
| Loans.Elems | backend/src/main/java/com/woowahanbank/backend/domain/customer/service/LoanerServiceImpl.java:172 | the set of deleted ids is exactly the ids in the list |
| Loans.LoanService.constructor | backend/src/main/java/com/woowahanbank/backend/domain/customer/service/LoanerServiceImpl.java:35-37 | the service starts with an empty registry over a consistent product table |
| Loans.LoanService.Apply | backend/src/main/java/com/woowahanbank/backend/domain/customer/service/LoanerServiceImpl.java:43-54 | an unknown user or product fails with no change; otherwise a pending application is stored under the next id and nothing else changes |
| Loans.LoanService.Pay | backend/src/main/java/com/woowahanbank/backend/domain/customer/service/LoanerServiceImpl.java:149-153 | one transfer moves the amount and appends its award |
| Loans.LoanService.IssueCard | backend/src/main/java/com/woowahanbank/backend/domain/customer/service/LoanerServiceImpl.java:187-214 | a returned number is the first supplied attempt that no loan holds; no number is returned exactly when every attempt is held |
| Loans.LoanService.Allow | backend/src/main/java/com/woowahanbank/backend/domain/customer/service/LoanerServiceImpl.java:78-95 | a missing loan, a guardian without a family and a family mismatch fail before any change; success exactly when the families match and a fresh card number is drawn; the loan is then approved with the first generated attempt that no loan held (FirstFreshCard), the principal moves from guardian to applicant, one award is logged, and consistency is kept |
| Loans.LoanService.Refuse | backend/src/main/java/com/woowahanbank/backend/domain/customer/service/LoanerServiceImpl.java:108-124 | a missing loan fails with NotFound, a guardian without a family with NoFamily and a family mismatch with NotSameFamily, each with no change; on success only that application is deleted and no balance moves |
| Loans.LoanService.ToList | backend/src/main/java/com/woowahanbank/backend/domain/customer/service/LoanerServiceImpl.java:70-73 | the loop builds exactly the records of the selected ids |
| Loans.LoanService.GetDisallow | backend/src/main/java/com/woowahanbank/backend/domain/customer/service/LoanerServiceImpl.java:67-75 | a caller without a family fails; otherwise the list holds exactly the family's pending applications, newest first |
| Loans.LoanService.GetDisallowProducts | backend/src/main/java/com/woowahanbank/backend/domain/customer/service/LoanerServiceImpl.java:128-135 | the list holds exactly the product's pending applications, newest first |
| Loans.LoanService.FindByNickname | backend/src/main/java/com/woowahanbank/backend/domain/customer/service/LoanerServiceImpl.java:178 | an unknown nickname fails with NotFound, a nickname held by two users fails with NicknameNotUnique, and otherwise the result is the user with that nickname |
| Loans.LoanService.GetProductsByNickname | backend/src/main/java/com/woowahanbank/backend/domain/customer/service/LoanerServiceImpl.java:177-185 | an unknown nickname fails with NotFound and a nickname held by two users with NicknameNotUnique; otherwise the list holds exactly the applications of the user with that nickname |
| Loans.LoanService.PayAll | backend/src/main/java/com/woowahanbank/backend/domain/customer/service/LoanerServiceImpl.java:141-153 | the loop applies the transfers in order and logs one award each |
| Loans.LoanService.CalculateRates | backend/src/main/java/com/woowahanbank/backend/domain/customer/service/LoanerServiceImpl.java:138-155 | every loan dated on this day of the month moves its interest from applicant to product owner; no loan changes and consistency is kept |
| Loans.LoanService.RemoveProduct | backend/src/main/java/com/woowahanbank/backend/domain/customer/service/LoanerServiceImpl.java:158-174 | every loan expiring after now pays its principal back from applicant to product owner and is deleted; the other loans stay and consistency is kept |
| Families.IndexOf | backend/src/main/java/com/woowahanbank/backend/domain/family/domain/Family.java:42 | the first position of a member in the list |
| Families.RemoveFirst | backend/src/main/java/com/woowahanbank/backend/domain/family/domain/Family.java:42 | the list is unchanged when the member is absent, and one shorter when present |
| Families.RemoveFirstMultiset | backend/src/main/java/com/woowahanbank/backend/domain/family/domain/Family.java:42 | exactly one copy of the member is removed, and nothing else |
| Families.RemoveFirstSplit | backend/src/main/java/com/woowahanbank/backend/domain/family/domain/Family.java:42 | only the first occurrence goes; the members before and after it keep their order |
| Families.RemoveAfterAdd | backend/src/main/java/com/woowahanbank/backend/domain/family/domain/Family.java:36-44 | removing a member added to a list without it gives back the list |
| Families.DuplicateSurvivesRemove | backend/src/main/java/com/woowahanbank/backend/domain/family/domain/Family.java:36-44 | a member added twice is still listed after one removal |
| Families.Family.constructor | backend/src/main/java/com/woowahanbank/backend/domain/family/domain/Family.java:19-34 | a new family has its id and name and no members or invitations |
| Families.Family.AddUser | backend/src/main/java/com/woowahanbank/backend/domain/family/domain/Family.java:36-39 | the user is appended, duplicates included, its family is this family, and a linked family stays linked |
| Families.Family.RemoveUser | backend/src/main/java/com/woowahanbank/backend/domain/family/domain/Family.java:41-44 | the list becomes RemoveFirst of the old list, the user's family is cleared, the links break exactly when the user is still listed, and they hold otherwise |
| Families.Family.UpdateFamilyName | backend/src/main/java/com/woowahanbank/backend/domain/family/domain/Family.java:46-48 | only the name changes |

## Left out

- Notifications (`publishEvent`) and the amount formatting in their text are not modelled. Point awards are an appended log of (transfer, reason).
- `changeToDto`, `getLoanerList` and the expiry date formatting are not modelled. Result lists carry the loan records themselves.
- The controller's rule that a child may not approve or refuse is not part of this model.
- `@Transactional` atomicity and concurrency between requests and batch passes are not modelled.
- Loans.LoanService.Allow: `makeCardNumber` retries forever. The model tries the supplied draws in order and fails with `CardNumbersExhausted` when all of them collide.
- CardNumber.MakeCardNumber: returns `None` when every supplied draw collides, where the source keeps drawing.
- The family check compares boxed `Long` ids with `!=`, which compares references. The model compares values.
- Loans.Select: the registry queries without `OrderByIdDesc` (`findByUser`, `findByDate_Date`, `findByExpiryAfter`) have no specified order. The model fixes it to descending id.
- Loans.LoanService.RemoveProduct: the source deletes each loan right after its transfer. The model pays the whole batch and then deletes the selected loans, which gives the same final state.
- User balances are unbounded integers. The type of the balance and its overflow are not part of this model.
- `allow` receives the guardian as an object that was loaded outside the service, while the applicant is loaded inside it. When the guardian approves their own application, `save(parent)` runs after `child.moneyTransfer(loanMoney)` and merges the detached guardian copy, so the balance would end at its old value minus the principal. The model has one user table and applies both balance changes to the same entry, so that balance ends unchanged.
- Loans.LoanService.GetProductsByNickname: `findByNickname` returns an `Optional`, and a second user with the same nickname makes the query fail. The model reports that case as `NicknameNotUnique`; the exception type of the data layer is not modelled.
- Family invitations are modelled as ids only. Lombok's builder and the JPA mapping are not modelled. The constructor models the no-argument path, whose field initialisers make both lists empty; a family made through the builder gets no such initialisers, so its member list is null and `addUser` on it would fail until the entity is reloaded.
- The savings service and authentication are not part of this model.
