/** The record-store helpers of server1.c and the operations it runs on them
    for administrators, employees, managers and customers, over one object
    that owns the four stores. Every section the server runs under an fcntl
    lock is one atomic step here. */
module Server {
  import opened Records

  /** `targetUserID` value meaning "an administrator or employee edits another user". */
  const MODIFY_OTHERS := -1
  /** Menu choice that deactivates; every other choice activates. */
  const DEACTIVATE_CHOICE := 2

  /** Where a login attempt ends. */
  datatype LoginOutcome =
    | UnknownUser
    | WrongPassword
    | LoginDeactivated
      /** Administrator, manager or employee menu. */
    | StaffSession(user: User)
      /** Customer menu, with the session's copy of the customer's account. */
    | CustomerSession(user: User, account: Account)
      /** Logged in as a customer, but no account is linked to the user. */
    | CustomerWithoutAccount(user: User)
      /** Logged in with a role code no menu serves. */
    | NoMenu(user: User)
  {
    predicate LoggedIn() {
      !(UnknownUser? || WrongPassword? || LoginDeactivated?)
    }
  }

  datatype ModifyOutcome = UserNotFound | PermissionDenied | UserUpdated

  /** What an administrator's user search shows. */
  datatype SearchOutcome = NoSuchUser | FoundUser(user: User)

  /** Where a customer's account operation ends; AccountMissing ends the session. */
  datatype CustomerOutcome = AccountDeactivated | AccountMissing | InvalidAmount | InsufficientBalance | Succeeded

  /** A field that an edit leaves blank keeps its old value. */
  function KeepUnlessBlank(current: string, typed: string): (r: string)
    ensures |typed| > 0 ==> r == typed
    ensures |typed| == 0 ==> r == current
  {
    if |typed| > 0 then typed else current
  }

  /** The user record after an edit: the password, and the name when the
      editor may rename, are replaced unless left blank. */
  function Edited(u: User, newPassword: string, newName: string, mayRename: bool): (v: User)
    ensures v.userID == u.userID && v.role == u.role && v.isActive == u.isActive
    ensures |newPassword| > 0 ==> v.password == newPassword
    ensures |newPassword| == 0 ==> v.password == u.password
    ensures mayRename && |newName| > 0 ==> v.name == newName
    ensures !mayRename || |newName| == 0 ==> v.name == u.name
  {
    u.(password := KeepUnlessBlank(u.password, newPassword),
       name := if mayRename then KeepUnlessBlank(u.name, newName) else u.name)
  }

  /** The ledger entry that log_transaction appends to `ledger`. */
  function NextEntry(ledger: seq<Transaction>, accountID: int, txType: TxType, amount: int,
                     oldBalance: int, newBalance: int, now: int): Transaction
  {
    Transaction(NextId(TransactionIDs(ledger), TRANSACTION_ID_FLOOR), accountID, txType, amount,
                oldBalance, newBalance, now)
  }

  class Bank {
    var users: seq<User>
    var accounts: seq<Account>
    var loans: seq<Loan>
    var transactions: seq<Transaction>

    function State(): Stores
      reads this
    {
      Stores(users, accounts, loans, transactions)
    }

    ghost predicate Valid()
      reads this
    {
      ValidStores(State())
    }

    function UserIndex(userID: int): int
      reads this
    {
      FirstMatch(UserIDs(users), userID)
    }

    function AccountIndex(accountNo: int): int
      reads this
    {
      FirstMatch(AccountNos(accounts), accountNo)
    }

    function LoanIndex(loanID: int): int
      reads this
    {
      FirstMatch(LoanIDs(loans), loanID)
    }

    /** The bank with four empty store files. */
    constructor ()
      ensures State() == Stores([], [], [], [])
      ensures Valid()
    {
      users, accounts, loans, transactions := [], [], [], [];
    }

    // -------------------------------------------------------------------
    // Lookups: a scan from the start, the first matching record wins

    method FindUserOffset(userID: int) returns (offset: int)
      ensures offset == UserIndex(userID)
      ensures offset == NOT_FOUND <==> forall j :: 0 <= j < |users| ==> users[j].userID != userID
      ensures offset != NOT_FOUND ==> 0 <= offset < |users| && users[offset].userID == userID
    {
      offset := 0;
      while offset < |users|
        invariant 0 <= offset <= |users|
        invariant forall j :: 0 <= j < offset ==> users[j].userID != userID
      {
        if users[offset].userID == userID {
          return;
        }
        offset := offset + 1;
      }
      offset := NOT_FOUND;
    }

    method FindAccountOffset(accountNo: int) returns (offset: int)
      ensures offset == AccountIndex(accountNo)
      ensures offset == NOT_FOUND <==> forall j :: 0 <= j < |accounts| ==> accounts[j].accountNo != accountNo
      ensures offset != NOT_FOUND ==> 0 <= offset < |accounts| && accounts[offset].accountNo == accountNo
    {
      offset := 0;
      while offset < |accounts|
        invariant 0 <= offset <= |accounts|
        invariant forall j :: 0 <= j < offset ==> accounts[j].accountNo != accountNo
      {
        if accounts[offset].accountNo == accountNo {
          return;
        }
        offset := offset + 1;
      }
      offset := NOT_FOUND;
    }

    method FindLoanOffset(loanID: int) returns (offset: int)
      ensures offset == LoanIndex(loanID)
      ensures offset == NOT_FOUND <==> forall j :: 0 <= j < |loans| ==> loans[j].loanID != loanID
      ensures offset != NOT_FOUND ==> 0 <= offset < |loans| && loans[offset].loanID == loanID
    {
      offset := 0;
      while offset < |loans|
        invariant 0 <= offset <= |loans|
        invariant forall j :: 0 <= j < offset ==> loans[j].loanID != loanID
      {
        if loans[offset].loanID == loanID {
          return;
        }
        offset := offset + 1;
      }
      offset := NOT_FOUND;
    }

    // -------------------------------------------------------------------
    // ID allocation: one more than the largest of the floor and every ID

    method GetNextUserId() returns (id: int)
      ensures id == NextId(UserIDs(users), USER_ID_FLOOR)
      ensures id > USER_ID_FLOOR && forall j :: 0 <= j < |users| ==> users[j].userID < id
    {
      var maxNo := USER_ID_FLOOR;
      var i := 0;
      while i < |users|
        invariant 0 <= i <= |users|
        invariant maxNo == MaxWithFloor(UserIDs(users)[..i], USER_ID_FLOOR)
      {
        assert UserIDs(users)[..i + 1][..i] == UserIDs(users)[..i];
        if users[i].userID > maxNo {
          maxNo := users[i].userID;
        }
        i := i + 1;
      }
      assert UserIDs(users)[..i] == UserIDs(users);
      id := maxNo + 1;
    }

    /** Allocator of account numbers from 5000; the server never calls it, since
        an account's number is its owner's user ID. */
    method GetNextAccountNo() returns (no: int)
      ensures no == NextId(AccountNos(accounts), ACCOUNT_NO_FLOOR)
      ensures no > ACCOUNT_NO_FLOOR && forall j :: 0 <= j < |accounts| ==> accounts[j].accountNo < no
    {
      var maxNo := ACCOUNT_NO_FLOOR;
      var i := 0;
      while i < |accounts|
        invariant 0 <= i <= |accounts|
        invariant maxNo == MaxWithFloor(AccountNos(accounts)[..i], ACCOUNT_NO_FLOOR)
      {
        assert AccountNos(accounts)[..i + 1][..i] == AccountNos(accounts)[..i];
        if accounts[i].accountNo > maxNo {
          maxNo := accounts[i].accountNo;
        }
        i := i + 1;
      }
      assert AccountNos(accounts)[..i] == AccountNos(accounts);
      no := maxNo + 1;
    }

    method GetNextLoanId() returns (id: int)
      ensures id == NextId(LoanIDs(loans), LOAN_ID_FLOOR)
      ensures id > LOAN_ID_FLOOR && forall j :: 0 <= j < |loans| ==> loans[j].loanID < id
    {
      var maxId := LOAN_ID_FLOOR;
      var i := 0;
      while i < |loans|
        invariant 0 <= i <= |loans|
        invariant maxId == MaxWithFloor(LoanIDs(loans)[..i], LOAN_ID_FLOOR)
      {
        assert LoanIDs(loans)[..i + 1][..i] == LoanIDs(loans)[..i];
        if loans[i].loanID > maxId {
          maxId := loans[i].loanID;
        }
        i := i + 1;
      }
      assert LoanIDs(loans)[..i] == LoanIDs(loans);
      id := maxId + 1;
    }

    method GetNextTransactionId() returns (id: int)
      ensures id == NextId(TransactionIDs(transactions), TRANSACTION_ID_FLOOR)
      ensures id > TRANSACTION_ID_FLOOR
      ensures forall j :: 0 <= j < |transactions| ==> transactions[j].transactionID < id
    {
      var maxId := TRANSACTION_ID_FLOOR;
      var i := 0;
      while i < |transactions|
        invariant 0 <= i <= |transactions|
        invariant maxId == MaxWithFloor(TransactionIDs(transactions)[..i], TRANSACTION_ID_FLOOR)
      {
        assert TransactionIDs(transactions)[..i + 1][..i] == TransactionIDs(transactions)[..i];
        if transactions[i].transactionID > maxId {
          maxId := transactions[i].transactionID;
        }
        i := i + 1;
      }
      assert TransactionIDs(transactions)[..i] == TransactionIDs(transactions);
      id := maxId + 1;
    }

    // -------------------------------------------------------------------
    // The ledger

    /** Appends one entry with the next transaction ID; `now` is the clock. */
    method LogTransaction(accountID: int, txType: TxType, amount: int, oldBalance: int, newBalance: int, now: int)
      modifies this`transactions
      ensures transactions ==
              old(transactions) + [NextEntry(old(transactions), accountID, txType, amount, oldBalance, newBalance, now)]
      ensures forall j :: 0 <= j < |old(transactions)| ==>
                old(transactions)[j].transactionID < transactions[|transactions| - 1].transactionID
      ensures old(Valid()) && BalancedEntry(transactions[|transactions| - 1]) ==> Valid()
    {
      var id := GetNextTransactionId();
      transactions := transactions + [Transaction(id, accountID, txType, amount, oldBalance, newBalance, now)];
    }

    // -------------------------------------------------------------------
    // Administrator and employee operations

    /** Seeds the default administrator into an empty user store. */
    method InitializeAdmin()
      modifies this`users
      ensures users == if old(users) == [] then [DEFAULT_ADMIN] else old(users)
      ensures old(Valid()) ==> Valid()
    {
      if |users| == 0 {
        users := users + [DEFAULT_ADMIN];
      }
    }

    /** Appends an active user with a fresh ID. Only an administrator chooses
        the role; any other adder creates a customer. */
    method AddUser(adderRole: Role, name: string, password: string, roleCode: int) returns (newUserID: int)
      modifies this`users
      ensures newUserID == NextId(UserIDs(old(users)), USER_ID_FLOOR)
      ensures newUserID > USER_ID_FLOOR
      ensures forall j :: 0 <= j < |old(users)| ==> old(users)[j].userID != newUserID
      ensures users == old(users) +
                [User(newUserID, name, password, if adderRole == Admin then RoleOfCode(roleCode) else Customer, true)]
      ensures old(Valid()) ==> Valid()
    {
      newUserID := GetNextUserId();
      var role := if adderRole == Admin then RoleOfCode(roleCode) else Customer;
      users := users + [User(newUserID, name, password, role, true)];
    }

    /** Appends an active account with this number unless one already exists. */
    method AddBankAccount(accountNo: int, initialBalance: int, isJoint: int) returns (created: bool)
      modifies this`accounts
      ensures created <==> forall j :: 0 <= j < |old(accounts)| ==> old(accounts)[j].accountNo != accountNo
      ensures accounts == if created then old(accounts) + [Account(accountNo, initialBalance, isJoint, true)]
                          else old(accounts)
      ensures AccountIndex(accountNo) != NOT_FOUND
      ensures old(Valid()) ==> Valid()
    {
      var offset := FindAccountOffset(accountNo);
      created := offset == NOT_FOUND;
      if created {
        FirstMatchAppend(AccountNos(accounts), accountNo, accountNo);
        assert AccountNos(accounts + [Account(accountNo, initialBalance, isJoint, true)]) == AccountNos(accounts) + [accountNo];
        accounts := accounts + [Account(accountNo, initialBalance, isJoint, true)];
      }
    }

    /** An employee's "add new customer": a customer user, then an account
        whose number is the new user's ID. */
    method EmployeeAddCustomer(name: string, password: string, initialBalance: int, isJoint: int)
      returns (newUserID: int, created: bool)
      modifies this`users, this`accounts
      ensures newUserID == NextId(UserIDs(old(users)), USER_ID_FLOOR)
      ensures users == old(users) + [User(newUserID, name, password, Customer, true)]
      ensures created <==> forall j :: 0 <= j < |old(accounts)| ==> old(accounts)[j].accountNo != newUserID
      ensures accounts == if created then old(accounts) + [Account(newUserID, initialBalance, isJoint, true)]
                          else old(accounts)
      ensures AccountIndex(newUserID) != NOT_FOUND
      ensures old(Valid()) ==> Valid()
    {
      newUserID := AddUser(Employee, name, password, RoleCode(Customer));
      created := AddBankAccount(newUserID, initialBalance, isJoint);
    }

    /** Edits a user's password and, when editing others, name. An employee may
        edit customers only. `targetUserID` is MODIFY_OTHERS when an
        administrator or employee picks `chosenUserID`, else the user's own ID. */
    method ModifyUser(modifierRole: Role, targetUserID: int, chosenUserID: int, newPassword: string, newName: string)
      returns (outcome: ModifyOutcome)
      modifies this`users
      ensures var i := old(UserIndex(if targetUserID == MODIFY_OTHERS then chosenUserID else targetUserID));
              if i == NOT_FOUND then outcome == UserNotFound && users == old(users)
              else if modifierRole == Employee && old(users)[i].role != Customer then
                outcome == PermissionDenied && users == old(users)
              else
                && outcome == UserUpdated
                && users == old(users)[i := Edited(old(users)[i], newPassword, newName, targetUserID == MODIFY_OTHERS)]
      ensures |users| == |old(users)|
      ensures forall j :: 0 <= j < |users| ==>
                users[j].userID == old(users)[j].userID && users[j].role == old(users)[j].role &&
                users[j].isActive == old(users)[j].isActive
      ensures old(Valid()) ==> Valid()
    {
      var userToModify := if targetUserID == MODIFY_OTHERS then chosenUserID else targetUserID;
      var offset := FindUserOffset(userToModify);
      if offset == NOT_FOUND {
        outcome := UserNotFound;
      } else {
        var user := users[offset];
        if modifierRole == Employee && user.role != Customer {
          outcome := PermissionDenied;
        } else {
          user := Edited(user, newPassword, newName, targetUserID == MODIFY_OTHERS);
          users := users[offset := user];
          assert UserIDs(users) == UserIDs(old(users));
          outcome := UserUpdated;
        }
      }
    }

    /** Sets a user's login inactive for choice 2, active for any other choice. */
    method ActivateDeactivateUser(choice: int, userID: int) returns (found: bool)
      modifies this`users
      ensures var i := old(UserIndex(userID));
              && found == (i != NOT_FOUND)
              && users == if i == NOT_FOUND then old(users)
                          else old(users)[i := old(users)[i].(isActive := choice != DEACTIVATE_CHOICE)]
      ensures old(Valid()) ==> Valid()
    {
      var offset := FindUserOffset(userID);
      found := offset != NOT_FOUND;
      if found {
        users := users[offset := users[offset].(isActive := choice != DEACTIVATE_CHOICE)];
        assert UserIDs(users) == UserIDs(old(users));
      }
    }

    /** Sets a bank account inactive for choice 2, active for any other choice. */
    method ActivateDeactivateAccount(choice: int, accountNo: int) returns (found: bool)
      modifies this`accounts
      ensures var i := old(AccountIndex(accountNo));
              && found == (i != NOT_FOUND)
              && accounts == if i == NOT_FOUND then old(accounts)
                             else old(accounts)[i := old(accounts)[i].(isActive := choice != DEACTIVATE_CHOICE)]
      ensures old(Valid()) ==> Valid()
    {
      var offset := FindAccountOffset(accountNo);
      found := offset != NOT_FOUND;
      if found {
        accounts := accounts[offset := accounts[offset].(isActive := choice != DEACTIVATE_CHOICE)];
        assert AccountNos(accounts) == AccountNos(old(accounts));
      }
    }

    /** An administrator's user search: the first user with this ID. */
    method SearchUser(userID: int) returns (outcome: SearchOutcome)
      ensures outcome == NoSuchUser <==> forall j :: 0 <= j < |users| ==> users[j].userID != userID
      ensures outcome.FoundUser? ==> outcome.user == users[UserIndex(userID)] && outcome.user.userID == userID
    {
      var offset := FindUserOffset(userID);
      if offset == NOT_FOUND {
        outcome := NoSuchUser;
      } else {
        outcome := FoundUser(users[offset]);
      }
    }

    // -------------------------------------------------------------------
    // Login

    /** The login decision: the first user with this ID, a password equal to
        the stored one, an active login, then the menu of the user's role; a
        customer's account is the one numbered with the customer's user ID. */
    method Login(userID: int, password: string) returns (outcome: LoginOutcome)
      ensures var i := UserIndex(userID);
              if i == NOT_FOUND then outcome == UnknownUser
              else if users[i].password != password then outcome == WrongPassword
              else if !users[i].isActive then outcome == LoginDeactivated
              else if users[i].role == Customer then
                var a := AccountIndex(userID);
                outcome == if a == NOT_FOUND then CustomerWithoutAccount(users[i])
                           else CustomerSession(users[i], accounts[a])
              else if users[i].role.UnknownRole? then outcome == NoMenu(users[i])
              else outcome == StaffSession(users[i])
      ensures outcome.LoggedIn() ==>
                outcome.user in users && outcome.user.userID == userID &&
                outcome.user.password == password && outcome.user.isActive
      ensures outcome.CustomerSession? ==>
                outcome.user.role == Customer && outcome.account in accounts && outcome.account.accountNo == userID
    {
      var userOffset := FindUserOffset(userID);
      if userOffset == NOT_FOUND {
        return UnknownUser;
      }
      var user := users[userOffset];
      if user.password != password {
        outcome := WrongPassword;
      } else if !user.isActive {
        outcome := LoginDeactivated;
      } else if user.role == Customer {
        var accOffset := FindAccountOffset(user.userID);
        if accOffset == NOT_FOUND {
          outcome := CustomerWithoutAccount(user);
        } else {
          outcome := CustomerSession(user, accounts[accOffset]);
        }
      } else if user.role.UnknownRole? {
        outcome := NoMenu(user);
      } else {
        outcome := StaffSession(user);
      }
    }

    // -------------------------------------------------------------------
    // Customer operations. `session` is the customer's copy of the account,
    // read at login and refreshed by every operation; the deactivation check
    // looks at that copy, and the operation then re-reads the stored record.

    /** Balance enquiry: the re-read account record. */
    method BalanceEnquiry(session: Account) returns (outcome: CustomerOutcome, current: Account)
      ensures var i := AccountIndex(session.accountNo);
              if !session.isActive then outcome == AccountDeactivated && current == session
              else if i == NOT_FOUND then outcome == AccountMissing && current == session
              else outcome == Succeeded && current == accounts[i]
      ensures outcome == Succeeded ==> current in accounts && current.accountNo == session.accountNo
    {
      if !session.isActive {
        return AccountDeactivated, session;
      }
      var offset := FindAccountOffset(session.accountNo);
      if offset == NOT_FOUND {
        return AccountMissing, session;
      }
      outcome, current := Succeeded, accounts[offset];
    }

    /** Deposit: a positive amount is added to the stored balance and one
        DEPOSIT entry with the old and new balance is logged. */
    method Deposit(session: Account, amount: int, now: int) returns (outcome: CustomerOutcome, current: Account)
      modifies this`accounts, this`transactions
      ensures var i := old(AccountIndex(session.accountNo));
              if !session.isActive then
                outcome == AccountDeactivated && current == session && State() == old(State())
              else if i == NOT_FOUND then
                outcome == AccountMissing && current == session && State() == old(State())
              else if amount <= 0 then
                outcome == InvalidAmount && current == old(accounts)[i] && State() == old(State())
              else
                var before := old(accounts)[i];
                && outcome == Succeeded
                && current == before.(balance := before.balance + amount)
                && State() == old(State()).(
                     accounts := old(accounts)[i := current],
                     transactions := old(transactions) +
                       [NextEntry(old(transactions), before.accountNo, TxType.Deposit, amount, before.balance, current.balance, now)])
      ensures BalanceChangeLedgered(old(State()), State())
      ensures old(Valid()) ==> Valid()
    {
      if !session.isActive {
        return AccountDeactivated, session;
      }
      var offset := FindAccountOffset(session.accountNo);
      if offset == NOT_FOUND {
        return AccountMissing, session;
      }
      current := accounts[offset];
      if amount <= 0 {
        return InvalidAmount, current;
      }
      var oldBalance := current.balance;
      current := current.(balance := current.balance + amount);
      accounts := accounts[offset := current];
      assert AccountNos(accounts) == AccountNos(old(accounts));
      LogTransaction(current.accountNo, TxType.Deposit, amount, oldBalance, current.balance, now);
      assert MatchesEntry(old(accounts), accounts, offset, transactions[|old(transactions)|]);
      if old(Valid()) {
        BalanceUpdateKeepsValid(old(State()), offset, current.balance, transactions[|old(transactions)|]);
      }
      outcome := Succeeded;
    }

    /** Withdrawal: a positive amount no larger than the stored balance is
        taken from it and one WITHDRAWAL entry is logged; otherwise nothing
        changes. */
    method Withdraw(session: Account, amount: int, now: int) returns (outcome: CustomerOutcome, current: Account)
      modifies this`accounts, this`transactions
      ensures var i := old(AccountIndex(session.accountNo));
              if !session.isActive then
                outcome == AccountDeactivated && current == session && State() == old(State())
              else if i == NOT_FOUND then
                outcome == AccountMissing && current == session && State() == old(State())
              else if amount <= 0 then
                outcome == InvalidAmount && current == old(accounts)[i] && State() == old(State())
              else if old(accounts)[i].balance < amount then
                outcome == InsufficientBalance && current == old(accounts)[i] && State() == old(State())
              else
                var before := old(accounts)[i];
                && outcome == Succeeded
                && current == before.(balance := before.balance - amount)
                && State() == old(State()).(
                     accounts := old(accounts)[i := current],
                     transactions := old(transactions) +
                       [NextEntry(old(transactions), before.accountNo, Withdrawal, amount, before.balance, current.balance, now)])
      ensures outcome == Succeeded ==> current.balance >= 0
      ensures BalanceChangeLedgered(old(State()), State())
      ensures old(Valid()) ==> Valid()
    {
      if !session.isActive {
        return AccountDeactivated, session;
      }
      var offset := FindAccountOffset(session.accountNo);
      if offset == NOT_FOUND {
        return AccountMissing, session;
      }
      current := accounts[offset];
      if amount <= 0 {
        return InvalidAmount, current;
      }
      if current.balance < amount {
        return InsufficientBalance, current;
      }
      var oldBalance := current.balance;
      current := current.(balance := current.balance - amount);
      accounts := accounts[offset := current];
      assert AccountNos(accounts) == AccountNos(old(accounts));
      LogTransaction(current.accountNo, Withdrawal, amount, oldBalance, current.balance, now);
      assert MatchesEntry(old(accounts), accounts, offset, transactions[|old(transactions)|]);
      if old(Valid()) {
        BalanceUpdateKeepsValid(old(State()), offset, current.balance, transactions[|old(transactions)|]);
      }
      outcome := Succeeded;
    }
  }
}
