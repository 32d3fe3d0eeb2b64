/** The loan workflow of loans.c on the bank's stores: a customer applies
    (Pending), a manager assigns the loan to an active employee (Assigned),
    and that employee approves or rejects it. Approval credits the account
    numbered with the customer's user ID and logs one LOAN_DEPOSIT entry. */
module Loans {
  import opened Records
  import opened Server

  datatype ApplyOutcome = InvalidLoanAmount | Submitted(loanID: int)

  datatype AssignOutcome =
    | EmployeeNotFound
    | NotAnEmployee
    | EmployeeDeactivated
    | LoanNotFound
      /** A Processing loan: reported, and written back unchanged. */
    | OnlyPendingAssignable
    | NotPendingOrProcessing
    | LoanAssigned

  datatype DecisionOutcome =
    | NothingAssigned
    | InvalidAction
    | UnknownLoan
    | NotYourLoan
    | NotAwaitingDecision
    | LoanRejected
      /** `credited` is false when no account is linked to the customer: the
          loan stays approved and nothing else changes. */
    | LoanApproved(credited: bool)

  /** The manager's overview: the Pending and Assigned loans, in store order. */
  method ViewPendingLoans(bank: Bank) returns (listing: seq<Loan>)
    ensures listing == Select(bank.loans, OpenLoans)
    ensures forall l :: l in listing <==> l in bank.loans && (l.status == Pending || l.status == Assigned)
  {
    listing := [];
    var i := 0;
    while i < |bank.loans|
      invariant 0 <= i <= |bank.loans|
      invariant listing == Select(bank.loans[..i], OpenLoans)
    {
      assert bank.loans[..i + 1][..i] == bank.loans[..i];
      var loan := bank.loans[i];
      if loan.status == Pending || loan.status == Assigned {
        listing := listing + [loan];
      }
      i := i + 1;
    }
    assert bank.loans[..i] == bank.loans;
  }

  /** The loans waiting for this employee's decision, in store order. */
  method AssignedLoans(bank: Bank, employeeID: int) returns (listing: seq<Loan>)
    ensures listing == Select(bank.loans, AwaitingDecisionBy(employeeID))
    ensures forall l :: l in listing <==>
              l in bank.loans && l.assignedEmployeeID == employeeID && l.status == Assigned
  {
    listing := [];
    var i := 0;
    while i < |bank.loans|
      invariant 0 <= i <= |bank.loans|
      invariant listing == Select(bank.loans[..i], AwaitingDecisionBy(employeeID))
    {
      assert bank.loans[..i + 1][..i] == bank.loans[..i];
      var loan := bank.loans[i];
      if loan.assignedEmployeeID == employeeID && loan.status == Assigned {
        listing := listing + [loan];
      }
      i := i + 1;
    }
    assert bank.loans[..i] == bank.loans;
  }

  /** A customer's application: a positive amount becomes a new Pending,
      unassigned loan with the next loan ID. */
  method CustomerApplyLoan(bank: Bank, customerUserID: int, amount: int) returns (outcome: ApplyOutcome)
    modifies bank`loans
    ensures amount <= 0 ==> outcome == InvalidLoanAmount && bank.loans == old(bank.loans)
    ensures amount > 0 ==>
              var id := NextId(LoanIDs(old(bank.loans)), LOAN_ID_FLOOR);
              && outcome == Submitted(id)
              && bank.loans == old(bank.loans) + [Loan(id, customerUserID, amount, Pending, UNASSIGNED)]
    ensures outcome.Submitted? ==>
              forall j :: 0 <= j < |old(bank.loans)| ==> old(bank.loans)[j].loanID < outcome.loanID
    ensures LoansEvolve(old(bank.loans), bank.loans)
    ensures old(bank.Valid()) ==> bank.Valid()
  {
    if amount <= 0 {
      return InvalidLoanAmount;
    }
    var id := bank.GetNextLoanId();
    bank.loans := bank.loans + [Loan(id, customerUserID, amount, Pending, UNASSIGNED)];
    outcome := Submitted(id);
  }

  /** A manager assigns a loan to an employee: the ID must name an active
      employee, and only a Pending loan becomes Assigned to that employee. */
  method AssignLoan(bank: Bank, loanID: int, employeeID: int) returns (outcome: AssignOutcome)
    modifies bank`loans
    ensures var e := bank.UserIndex(employeeID);
            var li := old(bank.LoanIndex(loanID));
            if e == NOT_FOUND then outcome == EmployeeNotFound && bank.loans == old(bank.loans)
            else if bank.users[e].role != Employee then outcome == NotAnEmployee && bank.loans == old(bank.loans)
            else if !bank.users[e].isActive then outcome == EmployeeDeactivated && bank.loans == old(bank.loans)
            else if li == NOT_FOUND then outcome == LoanNotFound && bank.loans == old(bank.loans)
            else if old(bank.loans)[li].status == Pending then
              && outcome == LoanAssigned
              && bank.loans == old(bank.loans)[li := old(bank.loans)[li].(status := Assigned, assignedEmployeeID := employeeID)]
            else if old(bank.loans)[li].status == Processing then
              outcome == OnlyPendingAssignable && bank.loans == old(bank.loans)
            else outcome == NotPendingOrProcessing && bank.loans == old(bank.loans)
    ensures outcome != LoanAssigned ==> bank.loans == old(bank.loans)
    ensures |bank.loans| == |old(bank.loans)|
    ensures forall i :: 0 <= i < |bank.loans| ==> StatusStep(old(bank.loans)[i].status, bank.loans[i].status)
    ensures LoansEvolve(old(bank.loans), bank.loans)
    ensures old(bank.Valid()) ==> bank.Valid()
  {
    var empOffset := bank.FindUserOffset(employeeID);
    if empOffset == NOT_FOUND {
      return EmployeeNotFound;
    }
    var empUser := bank.users[empOffset];
    if empUser.role != Employee {
      return NotAnEmployee;
    }
    if !empUser.isActive {
      return EmployeeDeactivated;
    }
    var offset := bank.FindLoanOffset(loanID);
    if offset == NOT_FOUND {
      return LoanNotFound;
    }
    var loan := bank.loans[offset];
    if loan.status == Pending || loan.status == Processing {
      if loan.status != Pending {
        outcome := OnlyPendingAssignable;
      } else {
        loan := loan.(status := Assigned, assignedEmployeeID := employeeID);
        outcome := LoanAssigned;
      }
      bank.loans := bank.loans[offset := loan];
      assert LoanIDs(bank.loans) == LoanIDs(old(bank.loans));
    } else {
      outcome := NotPendingOrProcessing;
    }
  }

  /** Crediting an approved loan: the account numbered with the loan's
      customer ID gains the loan amount and one LOAN_DEPOSIT entry records its
      old and new balance; without such an account nothing changes. */
  predicate LoanDepositApplied(before: Stores, after: Stores, loan: Loan, now: int, credited: bool) {
    var ai := FirstMatch(AccountNos(before.accounts), loan.customerUserID);
    && credited == (ai != NOT_FOUND)
    && if ai == NOT_FOUND then
         after.accounts == before.accounts && after.transactions == before.transactions
       else
         var acc := before.accounts[ai];
         var creditedAcc := acc.(balance := acc.balance + loan.amount);
         && after.accounts == before.accounts[ai := creditedAcc]
         && after.transactions == before.transactions +
              [NextEntry(before.transactions, acc.accountNo, LoanDeposit, loan.amount,
                         acc.balance, creditedAcc.balance, now)]
  }

  /** Crediting a loan depends only on the accounts, the ledger, and the
      loan's customer and amount. */
  lemma LoanDepositFrame(b: Stores, b': Stores, after: Stores, l: Loan, l': Loan, now: int, credited: bool)
    requires b'.accounts == b.accounts && b'.transactions == b.transactions
    requires l'.customerUserID == l.customerUserID && l'.amount == l.amount
    requires LoanDepositApplied(b, after, l, now, credited)
    ensures LoanDepositApplied(b', after, l', now, credited)
  {
  }

  /** The deposit half of an approval, under the account's own record lock. */
  method DepositLoanAmount(bank: Bank, loan: Loan, now: int) returns (credited: bool)
    modifies bank`accounts, bank`transactions
    ensures LoanDepositApplied(old(bank.State()), bank.State(), loan, now, credited)
    ensures old(bank.Valid()) && loan.amount > 0 ==> bank.Valid()
  {
    var accOffset := bank.FindAccountOffset(loan.customerUserID);
    if accOffset == NOT_FOUND {
      return false;
    }
    var acc := bank.accounts[accOffset];
    var oldBalance := acc.balance;
    acc := acc.(balance := acc.balance + loan.amount);
    bank.accounts := bank.accounts[accOffset := acc];
    assert AccountNos(bank.accounts) == AccountNos(old(bank.accounts));
    bank.LogTransaction(acc.accountNo, LoanDeposit, loan.amount, oldBalance, acc.balance, now);
    if old(bank.Valid()) && loan.amount > 0 {
      BalanceUpdateKeepsValid(old(bank.State()), accOffset, acc.balance, bank.transactions[|old(bank.transactions)|]);
    }
    credited := true;
  }

  /** Writes the decision into an Assigned loan's slot, under its record lock. */
  method RecordDecision(bank: Bank, offset: int, approve: bool) returns (decided: Loan)
    requires 0 <= offset < |bank.loans| && bank.loans[offset].status == Assigned
    modifies bank`loans
    ensures decided == old(bank.loans)[offset].(status := if approve then Approved else Rejected)
    ensures bank.loans == old(bank.loans)[offset := decided]
    ensures forall i :: 0 <= i < |bank.loans| ==> StatusStep(old(bank.loans)[i].status, bank.loans[i].status)
    ensures LoansEvolve(old(bank.loans), bank.loans)
    ensures old(bank.Valid()) ==> bank.Valid()
  {
    decided := bank.loans[offset].(status := if approve then Approved else Rejected);
    bank.loans := bank.loans[offset := decided];
    assert LoanIDs(bank.loans) == LoanIDs(old(bank.loans));
  }

  /** The effect of an employee's decision on one loan, as a relation between
      the stores before and after. */
  predicate DecisionApplied(before: Stores, after: Stores, employeeID: int, loanID: int, action: int, now: int,
                            outcome: DecisionOutcome)
  {
    var li := FirstMatch(LoanIDs(before.loans), loanID);
    if action != APPROVE_ACTION && action != REJECT_ACTION then
      outcome == InvalidAction && after == before
    else if li == NOT_FOUND then
      outcome == UnknownLoan && after == before
    else if before.loans[li].assignedEmployeeID != employeeID then
      outcome == NotYourLoan && after == before
    else if before.loans[li].status != Assigned then
      outcome == NotAwaitingDecision && after == before
    else
      var loan := before.loans[li];
      && after.users == before.users
      && after.loans == before.loans[li := loan.(status := if action == APPROVE_ACTION then Approved else Rejected)]
      && if action == REJECT_ACTION then
           && outcome == LoanRejected
           && after.accounts == before.accounts && after.transactions == before.transactions
         else
           outcome.LoanApproved? && LoanDepositApplied(before, after, loan, now, outcome.credited)
  }

  /** The decision on one loan: action 3 approves, 4 rejects, and only the
      employee the loan is assigned to decides it, only while it is Assigned.
      The loan is written first; an approval then credits the account. */
  method DecideLoan(bank: Bank, employeeID: int, loanID: int, action: int, now: int)
    returns (outcome: DecisionOutcome)
    modifies bank`loans, bank`accounts, bank`transactions
    ensures DecisionApplied(old(bank.State()), bank.State(), employeeID, loanID, action, now, outcome)
    ensures outcome != NothingAssigned
    ensures |bank.loans| == |old(bank.loans)|
    ensures forall i :: 0 <= i < |bank.loans| ==> StatusStep(old(bank.loans)[i].status, bank.loans[i].status)
    ensures LoansEvolve(old(bank.loans), bank.loans)
    ensures old(bank.Valid()) ==> bank.Valid()
  {
    if action != APPROVE_ACTION && action != REJECT_ACTION {
      return InvalidAction;
    }
    var offset := bank.FindLoanOffset(loanID);
    if offset == NOT_FOUND {
      return UnknownLoan;
    }
    var loan := bank.loans[offset];
    if loan.assignedEmployeeID != employeeID {
      return NotYourLoan;
    }
    if loan.status != Assigned {
      return NotAwaitingDecision;
    }
    ghost var before := bank.State();
    loan := RecordDecision(bank, offset, action == APPROVE_ACTION);
    ghost var decided := bank.State();
    assert decided == before.(loans := before.loans[offset := loan]);
    if action == REJECT_ACTION {
      return LoanRejected;
    }
    var credited := DepositLoanAmount(bank, loan, now);
    LoanDepositFrame(decided, before, bank.State(), loan, before.loans[offset], now, credited);
    assert bank.users == before.users && bank.loans == decided.loans;
    outcome := LoanApproved(credited);
  }

  /** An employee's "process loan": the employee sees the loans awaiting
      their decision; with none, the operation ends, else it decides one. */
  method EmployeeProcessLoan(bank: Bank, employeeID: int, loanID: int, action: int, now: int)
    returns (outcome: DecisionOutcome)
    modifies bank`loans, bank`accounts, bank`transactions
    ensures old(Select(bank.loans, AwaitingDecisionBy(employeeID))) == [] ==>
              outcome == NothingAssigned && bank.State() == old(bank.State())
    ensures old(Select(bank.loans, AwaitingDecisionBy(employeeID))) != [] ==>
              DecisionApplied(old(bank.State()), bank.State(), employeeID, loanID, action, now, outcome)
    ensures LoansEvolve(old(bank.loans), bank.loans)
    ensures BalanceChangeLedgered(old(bank.State()), bank.State())
    ensures old(bank.Valid()) ==> bank.Valid()
  {
    var listing := AssignedLoans(bank, employeeID);
    if |listing| == 0 {
      return NothingAssigned;
    }
    outcome := DecideLoan(bank, employeeID, loanID, action, now);
    DecisionIsLedgered(old(bank.State()), bank.State(), employeeID, loanID, action, now, outcome);
  }

  // ---------------------------------------------------------------------
  // Properties of a decision

  /** A decision only moves the decided loan's status forward, and any
      balance it changes is matched by exactly one ledger entry. */
  lemma DecisionIsLedgered(before: Stores, after: Stores, employeeID: int, loanID: int, action: int, now: int,
                           outcome: DecisionOutcome)
    requires DecisionApplied(before, after, employeeID, loanID, action, now, outcome)
    ensures LoansEvolve(before.loans, after.loans)
    ensures BalanceChangeLedgered(before, after)
  {
    if outcome == LoanApproved(true) {
      var loan := before.loans[FirstMatch(LoanIDs(before.loans), loanID)];
      var ai := FirstMatch(AccountNos(before.accounts), loan.customerUserID);
      assert after.transactions[..|before.transactions|] == before.transactions;
      assert MatchesEntry(before.accounts, after.accounts, ai, after.transactions[|before.transactions|]);
    }
  }

  /** An approved or rejected loan is never decided again: the attempt is
      refused and changes nothing. */
  lemma DecidedLoanIsFinal(before: Stores, after: Stores, employeeID: int, loanID: int, action: int, now: int,
                           outcome: DecisionOutcome)
    requires DecisionApplied(before, after, employeeID, loanID, action, now, outcome)
    requires FirstMatch(LoanIDs(before.loans), loanID) != NOT_FOUND
    requires IsTerminal(before.loans[FirstMatch(LoanIDs(before.loans), loanID)].status)
    ensures after == before
    ensures outcome == InvalidAction || outcome == NotYourLoan || outcome == NotAwaitingDecision
  {
  }

  /** A decision keeps the store invariant: unique keys, well-formed loans and
      a balanced, strictly increasing ledger. */
  lemma DecisionPreservesValidity(before: Stores, after: Stores, employeeID: int, loanID: int, action: int,
                                  now: int, outcome: DecisionOutcome)
    requires ValidStores(before)
    requires DecisionApplied(before, after, employeeID, loanID, action, now, outcome)
    ensures ValidStores(after)
  {
    if after != before {
      var li := FirstMatch(LoanIDs(before.loans), loanID);
      assert LoanIDs(after.loans) == LoanIDs(before.loans);
      assert WellFormedLoan(before.loans[li]);
      if outcome == LoanApproved(true) {
        var ai := FirstMatch(AccountNos(before.accounts), before.loans[li].customerUserID);
        assert AccountNos(after.accounts) == AccountNos(before.accounts);
        NextIdIsFresh(TransactionIDs(before.transactions), TRANSACTION_ID_FLOOR);
      }
    }
  }
}
