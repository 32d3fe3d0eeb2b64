/** A customer's day at the bank, followed through the operations'
    contracts alone: an employee opens the customer's account, the customer
    deposits, fails to overdraw, and applies for a loan that a manager assigns
    and an employee approves. Amounts are cents. */
module Scenario {
  import opened Records
  import opened Server
  import opened Loans

  const CUSTOMER := User(1001, "Customer", "secret", Customer, true)
  const EMPLOYEE := User(1002, "Employee", "work", Employee, true)

  /** Customer 1001 with an account of 100.00. */
  function Opened(): Stores {
    Stores([DEFAULT_ADMIN, CUSTOMER], [Account(1001, 10000, 0, true)], [], [])
  }

  /** After depositing 50.00 at time `t`. */
  function Deposited(t: int): Stores {
    Stores([DEFAULT_ADMIN, CUSTOMER], [Account(1001, 15000, 0, true)], [],
           [Transaction(1, 1001, TxType.Deposit, 5000, 10000, 15000, t)])
  }

  /** After a loan of 500.00 is applied for, assigned to employee 1002 and
      approved at time `t'`. */
  function LoanPaidOut(t: int, t': int): Stores {
    Stores([DEFAULT_ADMIN, CUSTOMER, EMPLOYEE], [Account(1001, 65000, 0, true)],
           [Loan(1, 1001, 50000, Approved, 1002)],
           [Transaction(1, 1001, TxType.Deposit, 5000, 10000, 15000, t),
            Transaction(2, 1001, LoanDeposit, 50000, 15000, 65000, t')])
  }

  method OpenCustomerAccount() returns (bank: Bank)
    ensures fresh(bank) && bank.State() == Opened()
  {
    bank := new Bank();
    bank.InitializeAdmin();
    assert UserIDs(bank.users) == [1000];
    var customerID, created := bank.EmployeeAddCustomer("Customer", "secret", 10000, 0);
    assert customerID == 1001 && created;
    assert bank.users == [DEFAULT_ADMIN, CUSTOMER];
    assert bank.accounts == [Account(1001, 10000, 0, true)];
  }

  method DepositThenOverdraw(bank: Bank, t: int)
    requires bank.State() == Opened()
    modifies bank
    ensures bank.State() == Deposited(t)
  {
    assert UserIDs(bank.users) == [1000, 1001];
    assert AccountNos(bank.accounts) == [1001];
    assert bank.UserIndex(1001) == 1 && bank.users[1] == CUSTOMER;
    assert bank.AccountIndex(1001) == 0;
    var login := bank.Login(1001, "secret");
    assert login == CustomerSession(CUSTOMER, Account(1001, 10000, 0, true));
    var session := login.account;

    // Deposit 50.00: balance 150.00, one DEPOSIT entry 100.00 -> 150.00.
    var outcome;
    outcome, session := bank.Deposit(session, 5000, t);
    assert outcome == Succeeded && session.balance == 15000;

    // Withdraw 200.00: refused, nothing changes.
    outcome, session := bank.Withdraw(session, 20000, t);
    assert outcome == InsufficientBalance;
  }

  /** After a loan of 500.00 is applied for. */
  function LoanApplied(t: int): Stores {
    Stores([DEFAULT_ADMIN, CUSTOMER], [Account(1001, 15000, 0, true)],
           [Loan(1, 1001, 50000, Pending, UNASSIGNED)],
           [Transaction(1, 1001, TxType.Deposit, 5000, 10000, 15000, t)])
  }

  method ApplyForLoan(bank: Bank, t: int)
    requires bank.State() == Deposited(t)
    modifies bank
    ensures bank.State() == LoanApplied(t)
  {
    var applied := CustomerApplyLoan(bank, 1001, 50000);
    assert applied == Submitted(1);
  }

  /** After the loan is assigned to the newly added employee 1002. */
  function LoanAssignedTo1002(t: int): Stores {
    Stores([DEFAULT_ADMIN, CUSTOMER, EMPLOYEE], [Account(1001, 15000, 0, true)],
           [Loan(1, 1001, 50000, Assigned, 1002)],
           [Transaction(1, 1001, TxType.Deposit, 5000, 10000, 15000, t)])
  }

  method AssignToNewEmployee(bank: Bank, t: int)
    requires bank.State() == LoanApplied(t)
    modifies bank
    ensures bank.State() == LoanAssignedTo1002(t)
  {
    assert UserIDs(bank.users) == [1000, 1001];
    var employeeID := bank.AddUser(Admin, "Employee", "work", RoleCode(Employee));
    assert employeeID == 1002;
    assert UserIDs(bank.users) == [1000, 1001, 1002];
    assert bank.users[2] == EMPLOYEE;
    assert LoanIDs(bank.loans) == [1];
    var assignment := AssignLoan(bank, 1, 1002);
    assert assignment == LoanAssigned;
  }

  method Approve(bank: Bank, t: int, t': int)
    requires bank.State() == LoanAssignedTo1002(t)
    modifies bank
    ensures bank.State() == LoanPaidOut(t, t')
  {
    assert UserIDs(bank.users) == [1000, 1001, 1002];
    assert LoanIDs(bank.loans) == [1];

    assert Select(bank.loans, AwaitingDecisionBy(1002)) != [];
    assert AccountNos(bank.accounts) == [1001];
    assert TransactionIDs(bank.transactions) == [1];
    var decided := EmployeeProcessLoan(bank, 1002, 1, APPROVE_ACTION, t');
    assert decided == LoanApproved(true);
  }

  method NoSecondDecision(bank: Bank, t: int, t': int)
    requires bank.State() == LoanPaidOut(t, t')
    modifies bank
    ensures bank.State() == LoanPaidOut(t, t')
  {
    assert LoanIDs(bank.loans) == [1];
    // The employee's listing is empty, so the process-loan operation ends early.
    var processed := EmployeeProcessLoan(bank, 1002, 1, REJECT_ACTION, t');
    assert processed == NothingAssigned;
    // Deciding the loan directly is refused: it is no longer Assigned.
    var decided := DecideLoan(bank, 1002, 1, REJECT_ACTION, t');
    assert decided == NotAwaitingDecision;
  }
}
