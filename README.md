# Banking server record stores and loan workflow, in Dafny

This project models the core of a small multi-user banking server written in C.
The server keeps four flat files of fixed-size records:

- users: administrators, managers, employees and customers;
- bank accounts, linked to their customer by `account_no == userID`;
- loans;
- an append-only transaction ledger.

It serves each role a menu of operations over these files.

The model covers three layers:

- **Record-store primitives.** Lookups scan the file from the start and the first match wins. ID allocators return one more than the largest of a floor and every stored ID.
- **The operations of `server1.c`.** These are: seeding the default administrator, adding users and bank accounts, modifying users, activating and deactivating users and accounts, searching for a user, logging in, and the customer's deposit, withdrawal and balance enquiry, each with its ledger entry.
- **The loan workflow of `src/loans.c`.** A customer applies and the loan is Pending. A manager assigns it to an active employee and it becomes Assigned. That employee approves or rejects it. Approval credits the customer's account and logs a LOAN_DEPOSIT entry.

Layout:

- `records.dfy` (module `Records`): record datatypes and the constants of the stores. It also holds the specification functions the operations are proved against: `FirstMatch`, `MaxWithFloor`/`NextId` and the listing filter `Select`. Finally it defines the loan status order (`MayBecome`, `LoansEvolve`), the ledger relation `BalanceChangeLedgered` and the store invariant `ValidStores`.
- `server.dfy` (module `Server`): class `Bank`. Its `seq` fields `users`, `accounts`, `loans` and `transactions` stand for the four files, and a record's offset is its index. The helpers and operations of `server1.c` are loop-based methods on it. They state the whole new state and keep `Valid()`.
- `loans.dfy` (module `Loans`): the operations of `src/loans.c`, as methods that update a `Bank`. The effect of a decision is the relation `DecisionApplied` between the stores before and after. Lemmas show that every decision moves loan status forward only, ledgers every balance change, keeps the invariant, and is refused on a decided loan.
- `scenario.dfy` (module `Scenario`): a customer's day, in six steps, whose contracts pin down the exact stores after each step.

Conventions:

- Amounts and balances are integers (cents).
- Every section the server runs under an `fcntl` lock is one atomic step.
- The clock is a parameter `now`.
- Mutating methods promise `old(Valid()) ==> Valid()` rather than requiring the invariant. The source demands nothing of its callers.

## Model

| member | source | states |
|---|---|---|
| Records.RoleOfCode | server1.c:287-293 | the role an administrator's numeric code stands for carries exactly that code, and an unknown code never poses as one of the four known roles |
| Records.RoleCodeRoundTrip | server1.c:21 | reading back the code of any well-formed stored role yields the same role |
| Records.FirstMatch | server1.c:106-139 | the index of the first record whose key equals the argument, or -1 exactly when no record has that key |
| Records.FirstMatchOfUniqueKey | server1.c:106-115 | when keys are unique, looking up a stored key finds exactly that record |
| Records.FirstMatchAppend | server1.c:296-297 | appending a record keeps every earlier lookup result, and makes a previously absent key findable at the new last slot |
| Records.MaxWithFloor | server1.c:142-193 | the scan's maximum is at least the floor and every key, and is the floor or one of the keys |
| Records.NextIdIsFresh | server1.c:142-193 | an allocated ID is above the floor and differs from, indeed exceeds, every stored ID |
| Records.ConsecutiveIds | src/loans.c:325-333 | allocating an ID and appending it makes the next allocation hand out the following integer |
| Records.Select | src/loans.c:31-48 | a listing never exceeds the store, and shows a loan exactly when it is in the store and passes the filter |
| Records.SelectAppend | src/loans.c:186-193 | a listing of two consecutive store segments is the two listings concatenated, so store order is kept |
| Records.TerminalIsFinal | src/loans.c:243-252 | an approved or rejected status can only stay what it is |
| Records.MayBecomeIsTwoSteps | src/loans.c:129-137 | every single-operation status step is a forward move, and the forward moves are exactly what an assignment followed by a decision can reach |
| Records.MayBecomeTransitive | src/loans.c:129-137 | the forward-only order of loan statuses composes across operations |
| Records.LoansEvolveTransitive | src/loans.c:129-137 | loan-store evolution composes: identity, customer and amount stay fixed and status only moves forward over any sequence of operations |
| Records.BalanceUpdateKeepsValid | server1.c:622-649 | rewriting one account's balance together with appending a balanced entry under the next transaction ID keeps the store invariant |
| Server.KeepUnlessBlank | server1.c:383-391 | an edited field takes the typed text when it is not blank, and keeps its old value when it is blank |
| Server.Edited | server1.c:376-393 | the password becomes the typed text unless blank; the name does too, but only when editing others; the ID, role and active flag never change |
| Server.Bank.constructor | server1.c:250 | the four store files start empty and satisfy the store invariant |
| Server.Bank.FindUserOffset | server1.c:106-115 | the scan returns the first user with the ID, or -1 exactly when there is none |
| Server.Bank.FindAccountOffset | server1.c:118-127 | the scan returns the first account with the number, or -1 exactly when there is none |
| Server.Bank.FindLoanOffset | server1.c:130-139 | the scan returns the first loan with the ID, or -1 exactly when there is none |
| Server.Bank.GetNextUserId | server1.c:142-150 | max(1000, all user IDs) + 1, so it is above every stored user ID |
| Server.Bank.GetNextAccountNo | server1.c:153-161 | max(5000, all account numbers) + 1, so it is above every stored account number |
| Server.Bank.GetNextLoanId | server1.c:164-178 | max(0, all loan IDs) + 1, so it is positive and above every stored loan ID |
| Server.Bank.GetNextTransactionId | server1.c:181-193 | max(0, all transaction IDs) + 1, so it is positive and above every stored transaction ID |
| Server.Bank.LogTransaction | server1.c:196-246 | appends exactly one entry, with the next ID above every earlier one and the given account, type, amount, balances and time; earlier entries are unchanged and a balanced entry keeps the invariant |
| Server.Bank.InitializeAdmin | server1.c:249-259 | an empty user store receives the default administrator 1000, active; any other user store is unchanged |
| Server.Bank.AddUser | server1.c:266-306 | appends one active user with a fresh ID; only an administrator chooses the role, any other adder creates a customer |
| Server.Bank.AddBankAccount | server1.c:309-347 | appends one active account with the number exactly when no account has it, otherwise changes nothing; afterwards the number is findable |
| Server.Bank.EmployeeAddCustomer | server1.c:561-566 | creates a customer with a fresh ID and then an account numbered with that ID, unless one exists |
| Server.Bank.ModifyUser | server1.c:350-400 | unknown user: no change; an employee editing a non-customer: permission denied and no change; otherwise only that user's slot changes, the password, and the name when editing others, being replaced unless blank; IDs, roles and active flags never change |
| Server.Bank.ActivateDeactivateUser | server1.c:403-435 | only the found user's slot changes, with its login active exactly when the choice is not 2; an unknown ID changes nothing |
| Server.Bank.ActivateDeactivateAccount | server1.c:438-470 | only the found account's slot changes, active exactly when the choice is not 2; an unknown number changes nothing |
| Server.Bank.SearchUser | server1.c:496-514 | reports no user exactly when no user has the ID, else the first user with it |
| Server.Bank.Login | server1.c:686-747 | the decision order unknown user, wrong password, deactivated, then the role's menu; a customer session carries the account numbered with the customer's ID, and any logged-in user matches the ID and password and is active |
| Server.Bank.BalanceEnquiry | server1.c:650-658 | a deactivated session copy is refused; otherwise the stored record of the session's account is returned; nothing changes |
| Server.Bank.Deposit | server1.c:622-635 | refused when the session's account is inactive or missing, or the amount is not positive, with nothing changed; otherwise only that account's balance grows by the amount and one DEPOSIT entry with the old and new balance is appended |
| Server.Bank.Withdraw | server1.c:636-649 | as for a deposit, and also refused with no change when the balance is below the amount; a success subtracts the amount, leaves a non-negative balance and appends one WITHDRAWAL entry |
| Loans.ViewPendingLoans | src/loans.c:3-59 | the overview lists exactly the Pending and Assigned loans, in store order |
| Loans.AssignedLoans | src/loans.c:173-205 | the employee's list holds exactly the Assigned loans carrying that employee's ID, in store order |
| Loans.CustomerApplyLoan | src/loans.c:298-341 | a non-positive amount changes nothing; otherwise one Pending, unassigned loan of the applicant is appended, with an ID above every stored one |
| Loans.AssignLoan | src/loans.c:61-158 | nothing changes unless the ID names an active employee and the loan exists; only a Pending loan becomes Assigned to that employee, a Processing or decided loan is left as it was; no loan's status takes more than one step |
| Loans.LoanDepositFrame | src/loans.c:254-287 | whether and how an approval credits an account depends only on the accounts, the ledger, and the loan's customer and amount, not on its status or the other stores |
| Loans.DepositLoanAmount | src/loans.c:254-287 | the account numbered with the loan's customer ID gains the loan amount and one LOAN_DEPOSIT entry is appended; with no such account nothing changes |
| Loans.RecordDecision | src/loans.c:249-252 | an Assigned loan's slot becomes Approved or Rejected, a single status step, and nothing else in the loan store changes |
| Loans.DecideLoan | src/loans.c:207-296 | actions other than 3 and 4, an unknown loan, a loan of another employee or one not Assigned change nothing; a rejection changes only the loan's status; an approval also credits the linked account, if any |
| Loans.EmployeeProcessLoan | src/loans.c:160-296 | with no loan awaiting the employee nothing changes; otherwise the decision takes effect; either way statuses only move forward and any balance change comes with exactly one matching ledger entry |
| Loans.DecisionIsLedgered | src/loans.c:243-290 | every decision moves loan status forward only, and a credited balance is matched by exactly one appended entry naming that account's old and new balance |
| Loans.DecidedLoanIsFinal | src/loans.c:243-248 | a decision attempt on an approved or rejected loan is refused and changes nothing |
| Loans.DecisionPreservesValidity | src/loans.c:207-296 | every decision keeps unique keys, well-formed loans and a balanced, strictly increasing ledger |
| Scenario.OpenCustomerAccount | server1.c:561-566 | seeding the administrator and adding a customer yields user 1001 with account 1001 |
| Scenario.DepositThenOverdraw | server1.c:622-649 | a deposit moves the balance from 100.00 to 150.00 with one ledger entry; an overdraft then changes nothing |
| Scenario.ApplyForLoan | src/loans.c:298-341 | the customer's first loan application gets ID 1 and is Pending and unassigned |
| Scenario.AssignToNewEmployee | src/loans.c:61-158 | an administrator adds employee 1002, and the manager assigns loan 1 to that employee |
| Scenario.Approve | src/loans.c:207-296 | approval by employee 1002 credits 500.00 and logs ledger entry 2 |
| Scenario.NoSecondDecision | src/loans.c:195-248 | once the loan is approved, the employee's process-loan operation finds nothing awaiting them, and a direct decision is refused as not Assigned; neither changes anything |

## Left out

- `client.c`: it is socket and terminal I/O only.
- The TCP accept loop, thread-per-connection dispatch and `main` (server1.c:758-803) are networking and concurrency. That includes `main`'s call to an undeclared `initialize_admin_if_needed`.
- `fcntl` locks: each locked section is one atomic step, and interleavings between clients are not modelled.
- An approval writes the loan and credits the account under two separate locks. The model treats the two as consecutive steps of one operation.
- Failure to open a store file. The model assumes the files open. Most operations stop early on such a failure, with three exceptions:
  - `log_transaction` silently logs nothing (server1.c:199-202).
  - An approval whose account file cannot be opened leaves the loan Approved with no credit (src/loans.c:255-257).
  - The administrator's user search does not check `open`, so an unopenable user file reads as "User not found" (server1.c:501-504).
- Socket text, `atoi`/`atof` parsing, `sprintf` output and the menu loops. Operations take their inputs as parameters and return outcome values.
- Menu branches that only print text: server1.c:542-546, 571-578 and 666-673.
- The customer's "view account details" choice (server1.c:654-658) reads the same record as the balance enquiry, so `BalanceEnquiry` models both.
- Password change from the customer menu (server1.c:663-665) is `ModifyUser` with the user's own ID.
- Float balances and amounts are integer cents. IEEE rounding is not modelled.
- `time(NULL)` becomes the parameter `now`.
- Fixed-width name and password fields. Truncation and `strcpy` overflow are not modelled; the password check is string equality.
- The numeric encoding of loan statuses. `ASSIGNED` comes from a header that is not part of this model, so statuses are a datatype.
- A table of logged-in sessions: the server keeps none.
- Integer widths (`int` and `long` IDs, `time_t`): IDs are unbounded, so allocator overflow is not modelled.
- Server.Bank.FindUserOffset, Server.Bank.FindAccountOffset, Server.Bank.FindLoanOffset: these return the record's index, where the source returns the byte offset `index * sizeof(record)`.
- Server.Bank.GetNextAccountNo: it is modelled but nothing calls it, as in the server. Account numbers are their owners' user IDs.
