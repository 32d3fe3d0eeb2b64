/** Record types of the bank's four flat stores (users, accounts, loans,
    transactions) and the pure specifications that the store scans, the ID
    allocator, the loan listings and the store invariants are stated with.

    A store is a sequence of records; a record's offset in its file is its
    index in the sequence. Amounts and balances are whole cents. */
module Records {

  /** Role codes as stored in a user record (1..4). An administrator types the
      code of a new user's role, and a code outside 1..4 is stored as typed. */
  datatype Role = Customer | Admin | Employee | Manager | UnknownRole(code: int)

  /** The loan states of both source files: server1.c's PENDING, PROCESSING,
      APPROVED, REJECTED and loans.c's ASSIGNED. */
  datatype LoanStatus = Pending | Processing | Assigned | Approved | Rejected

  datatype TxType = Deposit | Withdrawal | LoanDeposit

  datatype User = User(userID: int, name: string, password: string, role: Role, isActive: bool)

  datatype Account = Account(accountNo: int, balance: int, isJoint: int, isActive: bool)

  datatype Loan = Loan(loanID: int, customerUserID: int, amount: int, status: LoanStatus,
                       assignedEmployeeID: int)

  datatype Transaction = Transaction(transactionID: int, accountID: int, txType: TxType, amount: int,
                                     oldBalance: int, newBalance: int, timestamp: int)

  /** The four stores at one moment. */
  datatype Stores = Stores(users: seq<User>, accounts: seq<Account>, loans: seq<Loan>,
                           transactions: seq<Transaction>)

  /** Offset returned by a lookup that found nothing. */
  const NOT_FOUND := -1
  /** assignedEmployeeID of a loan nobody has been assigned. */
  const UNASSIGNED := -1

  // Floors of the ID allocators: the next ID is max(floor, every ID) + 1.
  const USER_ID_FLOOR := 1000
  const ACCOUNT_NO_FLOOR := 5000
  const LOAN_ID_FLOOR := 0
  const TRANSACTION_ID_FLOOR := 0

  /** The user written into an empty user store at start-up. */
  const DEFAULT_ADMIN := User(1000, "Admin User", "admin123", Admin, true)

  // Codes of the employee's loan decision.
  const APPROVE_ACTION := 3
  const REJECT_ACTION := 4

  function RoleCode(r: Role): int {
    match r
    case Customer => 1
    case Admin => 2
    case Employee => 3
    case Manager => 4
    case UnknownRole(c) => c
  }

  /** A role value as it can come out of a stored code: an unknown role never
      hides one of the four known codes. */
  predicate WellFormedRole(r: Role) {
    r.UnknownRole? ==> r.code !in {1, 2, 3, 4}
  }

  /** The role a stored code stands for. */
  function RoleOfCode(code: int): (r: Role)
    ensures RoleCode(r) == code
    ensures WellFormedRole(r)
  {
    if code == 1 then Customer
    else if code == 2 then Admin
    else if code == 3 then Employee
    else if code == 4 then Manager
    else UnknownRole(code)
  }

  lemma RoleCodeRoundTrip(r: Role)
    requires WellFormedRole(r)
    ensures RoleOfCode(RoleCode(r)) == r
  {
  }

  // ---------------------------------------------------------------------
  // Key columns of the stores

  function UserIDs(users: seq<User>): (ids: seq<int>)
    ensures |ids| == |users| && forall i :: 0 <= i < |users| ==> ids[i] == users[i].userID
  {
    seq(|users|, i requires 0 <= i < |users| => users[i].userID)
  }

  function AccountNos(accounts: seq<Account>): (nos: seq<int>)
    ensures |nos| == |accounts| && forall i :: 0 <= i < |accounts| ==> nos[i] == accounts[i].accountNo
  {
    seq(|accounts|, i requires 0 <= i < |accounts| => accounts[i].accountNo)
  }

  function LoanIDs(loans: seq<Loan>): (ids: seq<int>)
    ensures |ids| == |loans| && forall i :: 0 <= i < |loans| ==> ids[i] == loans[i].loanID
  {
    seq(|loans|, i requires 0 <= i < |loans| => loans[i].loanID)
  }

  function TransactionIDs(ledger: seq<Transaction>): (ids: seq<int>)
    ensures |ids| == |ledger| && forall i :: 0 <= i < |ledger| ==> ids[i] == ledger[i].transactionID
  {
    seq(|ledger|, i requires 0 <= i < |ledger| => ledger[i].transactionID)
  }

  // ---------------------------------------------------------------------
  // Lookup: the first record whose key matches wins

  /** Index of the first occurrence of `key`, or NOT_FOUND. */
  function FirstMatch(keys: seq<int>, key: int): (r: int)
    ensures NOT_FOUND <= r < |keys|
    ensures r == NOT_FOUND <==> forall j :: 0 <= j < |keys| ==> keys[j] != key
    ensures 0 <= r ==> keys[r] == key && forall j :: 0 <= j < r ==> keys[j] != key
  {
    if |keys| == 0 then NOT_FOUND
    else if keys[0] == key then 0
    else
      var r := FirstMatch(keys[1..], key);
      if r == NOT_FOUND then NOT_FOUND else r + 1
  }

  predicate UniqueKeys(keys: seq<int>) {
    forall i, j :: 0 <= i < j < |keys| ==> keys[i] != keys[j]
  }

  /** With unique keys the lookup of a stored key finds exactly its record. */
  lemma FirstMatchOfUniqueKey(keys: seq<int>, i: int)
    requires UniqueKeys(keys) && 0 <= i < |keys|
    ensures FirstMatch(keys, keys[i]) == i
  {
  }

  /** Appending a record leaves every earlier lookup result in place and makes
      the new key findable at the end when it was not there before. */
  lemma {:induction false} FirstMatchAppend(keys: seq<int>, k: int, key: int)
    ensures FirstMatch(keys + [k], key) ==
            if FirstMatch(keys, key) != NOT_FOUND then FirstMatch(keys, key)
            else if k == key then |keys|
            else NOT_FOUND
  {
    if |keys| != 0 && keys[0] != key {
      assert (keys + [k])[1..] == keys[1..] + [k];
      FirstMatchAppend(keys[1..], k, key);
    }
  }

  // ---------------------------------------------------------------------
  // ID allocation

  /** The largest of `floor` and every key, as a left-to-right scan finds it. */
  function MaxWithFloor(keys: seq<int>, floor: int): (m: int)
    ensures floor <= m
    ensures forall j :: 0 <= j < |keys| ==> keys[j] <= m
    ensures m == floor || exists j :: 0 <= j < |keys| && keys[j] == m
  {
    if |keys| == 0 then floor
    else
      var m := MaxWithFloor(keys[..|keys| - 1], floor);
      if keys[|keys| - 1] > m then keys[|keys| - 1] else m
  }

  /** The ID the allocator hands out next. */
  function NextId(keys: seq<int>, floor: int): int {
    MaxWithFloor(keys, floor) + 1
  }

  /** A freshly allocated ID is above the floor and above every stored key. */
  lemma NextIdIsFresh(keys: seq<int>, floor: int)
    ensures NextId(keys, floor) > floor
    ensures forall j :: 0 <= j < |keys| ==> keys[j] < NextId(keys, floor)
  {
  }

  /** Allocating an ID and appending it makes the following allocation hand
      out the very next integer: serialized allocations leave no gaps. */
  lemma ConsecutiveIds(keys: seq<int>, floor: int)
    ensures NextId(keys + [NextId(keys, floor)], floor) == NextId(keys, floor) + 1
  {
    var extended := keys + [NextId(keys, floor)];
    assert extended[..|extended| - 1] == keys;
  }

  // ---------------------------------------------------------------------
  // Loan listings

  /** Which loans a listing shows: the manager's overview of open loans, or
      the loans awaiting one employee's decision. */
  datatype LoanFilter = OpenLoans | AwaitingDecisionBy(employeeID: int)

  predicate Shows(f: LoanFilter, l: Loan) {
    match f
    case OpenLoans => l.status == Pending || l.status == Assigned
    case AwaitingDecisionBy(e) => l.assignedEmployeeID == e && l.status == Assigned
  }

  /** The loans a listing shows, in store order. */
  function Select(loans: seq<Loan>, f: LoanFilter): (r: seq<Loan>)
    ensures |r| <= |loans|
    ensures forall l :: l in r <==> l in loans && Shows(f, l)
  {
    if |loans| == 0 then []
    else
      var r := Select(loans[..|loans| - 1], f);
      assert loans == loans[..|loans| - 1] + [loans[|loans| - 1]];
      if Shows(f, loans[|loans| - 1]) then r + [loans[|loans| - 1]] else r
  }

  /** A listing of a concatenation is the concatenation of the listings: the
      listing keeps store order. */
  lemma {:induction false} SelectAppend(a: seq<Loan>, b: seq<Loan>, f: LoanFilter)
    ensures Select(a + b, f) == Select(a, f) + Select(b, f)
  {
    if |b| == 0 {
      assert a + b == a;
    } else {
      var b' := b[..|b| - 1];
      assert (a + b)[..|a + b| - 1] == a + b';
      SelectAppend(a, b', f);
    }
  }

  // ---------------------------------------------------------------------
  // The loan state machine

  predicate IsTerminal(s: LoanStatus) {
    s == Approved || s == Rejected
  }

  /** What one operation may do to a loan's status: nothing, assign a pending
      loan, or decide an assigned one. */
  predicate StatusStep(s: LoanStatus, t: LoanStatus) {
    s == t || (s == Pending && t == Assigned) || (s == Assigned && IsTerminal(t))
  }

  /** What any number of operations may do to a loan's status. */
  predicate MayBecome(s: LoanStatus, t: LoanStatus) {
    s == t || (s == Pending && (t == Assigned || IsTerminal(t))) || (s == Assigned && IsTerminal(t))
  }

  /** The statuses reachable from a loan's status are exactly those two
      operations can reach: every step is allowed, and every allowed change
      is at most an assignment followed by a decision. */
  lemma MayBecomeIsTwoSteps(s: LoanStatus, t: LoanStatus)
    ensures StatusStep(s, t) ==> MayBecome(s, t)
    ensures MayBecome(s, t) <==> exists m :: StatusStep(s, m) && StatusStep(m, t)
  {
    if MayBecome(s, t) {
      var m := if s == Pending && IsTerminal(t) then Assigned else t;
      assert StatusStep(s, m) && StatusStep(m, t);
    }
  }

  /** A decided loan is never revived, re-assigned or re-decided. */
  lemma TerminalIsFinal(s: LoanStatus, t: LoanStatus)
    requires IsTerminal(s) && MayBecome(s, t)
    ensures t == s
  {
  }

  lemma MayBecomeTransitive(s: LoanStatus, t: LoanStatus, u: LoanStatus)
    requires MayBecome(s, t) && MayBecome(t, u)
    ensures MayBecome(s, u)
  {
  }

  /** How the loan store may evolve: loans are only appended, their identity,
      customer and amount never change, and their status only moves forward. */
  predicate LoansEvolve(before: seq<Loan>, after: seq<Loan>) {
    && |before| <= |after|
    && forall i :: 0 <= i < |before| ==>
         && after[i].loanID == before[i].loanID
         && after[i].customerUserID == before[i].customerUserID
         && after[i].amount == before[i].amount
         && MayBecome(before[i].status, after[i].status)
  }

  lemma LoansEvolveTransitive(a: seq<Loan>, b: seq<Loan>, c: seq<Loan>)
    requires LoansEvolve(a, b) && LoansEvolve(b, c)
    ensures LoansEvolve(a, c)
  {
    forall i | 0 <= i < |a| ensures MayBecome(a[i].status, c[i].status) {
      MayBecomeTransitive(a[i].status, b[i].status, c[i].status);
    }
  }

  // ---------------------------------------------------------------------
  // Store invariants

  /** A loan as the workflow produces it: a positive amount, an employee
      exactly when it left Pending, never the unused Processing state. */
  predicate WellFormedLoan(l: Loan) {
    && l.loanID > LOAN_ID_FLOOR
    && l.amount > 0
    && l.status != Processing
    && (l.status == Pending ==> l.assignedEmployeeID == UNASSIGNED)
    && (l.status != Pending ==> l.assignedEmployeeID > USER_ID_FLOOR - 1)
  }

  /** A ledger entry whose old and new balances agree with its type and amount;
      a withdrawal never leaves a negative balance. */
  predicate BalancedEntry(t: Transaction) {
    && t.amount > 0
    && match t.txType
       case Deposit => t.newBalance == t.oldBalance + t.amount
       case LoanDeposit => t.newBalance == t.oldBalance + t.amount
       case Withdrawal => t.newBalance == t.oldBalance - t.amount && t.newBalance >= 0
  }

  /** Account `ai` was rewritten with `t`'s new balance and nothing else in
      the account store changed; `t` names that account and its old balance. */
  predicate MatchesEntry(before: seq<Account>, after: seq<Account>, ai: int, t: Transaction)
    requires 0 <= ai < |before|
  {
    && before[ai].accountNo == t.accountID
    && before[ai].balance == t.oldBalance
    && after == before[ai := before[ai].(balance := t.newBalance)]
  }

  /** Every balance change comes with exactly one ledger entry: either the
      accounts and the ledger are both unchanged, or one entry is appended
      and it matches the one account record that was rewritten. */
  predicate BalanceChangeLedgered(before: Stores, after: Stores) {
    || (after.accounts == before.accounts && after.transactions == before.transactions)
    || (&& |after.transactions| == |before.transactions| + 1
        && after.transactions[..|before.transactions|] == before.transactions
        && exists ai :: 0 <= ai < |before.accounts| &&
             MatchesEntry(before.accounts, after.accounts, ai, after.transactions[|before.transactions|]))
  }

  predicate StrictlyIncreasing(ids: seq<int>) {
    forall i, j :: 0 <= i < j < |ids| ==> ids[i] < ids[j]
  }

  /** The invariant every operation of the bank keeps. */
  predicate ValidStores(s: Stores) {
    && UniqueKeys(UserIDs(s.users))
    && (forall i :: 0 <= i < |s.users| ==> s.users[i].userID >= USER_ID_FLOOR && WellFormedRole(s.users[i].role))
    && UniqueKeys(AccountNos(s.accounts))
    && UniqueKeys(LoanIDs(s.loans))
    && (forall i :: 0 <= i < |s.loans| ==> WellFormedLoan(s.loans[i]))
    && StrictlyIncreasing(TransactionIDs(s.transactions))
    && (forall i :: 0 <= i < |s.transactions| ==> s.transactions[i].transactionID > TRANSACTION_ID_FLOOR)
    && (forall i :: 0 <= i < |s.transactions| ==> BalancedEntry(s.transactions[i]))
  }

  /** Rewriting one account's balance and appending a balanced ledger entry
      with the next transaction ID keeps the invariant. */
  lemma BalanceUpdateKeepsValid(s: Stores, ai: int, newBalance: int, t: Transaction)
    requires ValidStores(s) && 0 <= ai < |s.accounts|
    requires BalancedEntry(t) && t.transactionID == NextId(TransactionIDs(s.transactions), TRANSACTION_ID_FLOOR)
    ensures ValidStores(s.(accounts := s.accounts[ai := s.accounts[ai].(balance := newBalance)],
                           transactions := s.transactions + [t]))
  {
    var accounts' := s.accounts[ai := s.accounts[ai].(balance := newBalance)];
    assert AccountNos(accounts') == AccountNos(s.accounts);
    NextIdIsFresh(TransactionIDs(s.transactions), TRANSACTION_ID_FLOOR);
  }
}
