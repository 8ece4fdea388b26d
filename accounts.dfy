/** The account aggregator of AccountService: the repositories it reads and
    writes, the account view (DTO) it annotates with a balance, and its
    operations `getAll`, `calculateBalance`, `getAccountById`,
    `draftAccount`, `updateAccount` and `getTransactionsByAccountId`. */
module Accounts {
  import opened Options
  import opened Ledger

  datatype User = User(id: int, userName: string)

  /** A persisted account: its id, the id of its owner (if any), its editable
      fields by name, and the transactions the entity's relation holds. */
  datatype Account = Account(id: int, userId: Option<int>, fields: map<string, string>, transactions: seq<Transaction>)

  /** A page request; a request cannot be built with fewer than one item per page. */
  type PageSize = n: nat | 1 <= n witness 1
  datatype PageRequest = PageRequest(page: nat, size: PageSize)

  /** `findByUserName`: the id of the user with that name, or none. */
  function ResolveOwner(users: map<string, User>, username: string): (r: Option<int>)
    ensures r.Some? <==> username in users
    ensures username in users ==> r == Some(users[username].id)
  {
    if username in users then Some(users[username].id) else None
  }

  /** With an owner, `findByUserId` keeps that owner's accounts; without one,
      `findAll` keeps every account. */
  predicate OwnedBy(a: Account, owner: Option<int>)
  {
    owner.None? || a.userId == owner
  }

  /** The repository query over the accounts in storage order `order`. */
  function Listing(order: seq<int>, accounts: map<int, Account>, owner: Option<int>): (r: seq<Account>)
    ensures |r| <= |order|
    ensures forall i :: 0 <= i < |r| ==> r[i] in accounts.Values && OwnedBy(r[i], owner)
    decreases |order|
  {
    if |order| == 0 then []
    else
      var k := order[0];
      (if k in accounts && OwnedBy(accounts[k], owner) then [accounts[k]] else [])
      + Listing(order[1..], accounts, owner)
  }

  /** Every account is stored under its own id. */
  ghost predicate KeyedById(accounts: map<int, Account>)
  {
    forall k :: k in accounts ==> accounts[k].id == k
  }

  /** An account is listed exactly when it is stored, appears in the storage
      order and belongs to the owner (any account when there is no owner). */
  lemma {:induction false} ListingExact(order: seq<int>, accounts: map<int, Account>, owner: Option<int>, a: Account)
    requires KeyedById(accounts)
    ensures a in Listing(order, accounts, owner)
        <==> a.id in order && a.id in accounts && accounts[a.id] == a && OwnedBy(a, owner)
    decreases |order|
  {
    if |order| > 0 {
      ListingExact(order[1..], accounts, owner, a);
      assert order == [order[0]] + order[1..];
    }
  }

  /** Without an owner the listing is every stored account, in storage order. */
  lemma {:induction false} ListingUnfiltered(order: seq<int>, accounts: map<int, Account>)
    requires forall i :: 0 <= i < |order| ==> order[i] in accounts
    ensures |Listing(order, accounts, None)| == |order|
    ensures forall i :: 0 <= i < |order| ==> Listing(order, accounts, None)[i] == accounts[order[i]]
    decreases |order|
  {
    if |order| > 0 {
      ListingUnfiltered(order[1..], accounts);
    }
  }

  /** The slice of `s` that the page request selects. */
  function PageOf<T>(s: seq<T>, request: PageRequest): (r: seq<T>)
    ensures |r| <= request.size
    ensures request.page * request.size < |s| ==>
              |r| == if |s| - request.page * request.size < request.size
                     then |s| - request.page * request.size else request.size
    ensures request.page * request.size >= |s| ==> r == []
    ensures forall i :: 0 <= i < |r| ==> request.page * request.size + i < |s| && r[i] == s[request.page * request.size + i]
  {
    var lo := if request.page * request.size < |s| then request.page * request.size else |s|;
    var hi := if lo + request.size < |s| then lo + request.size else |s|;
    s[lo..hi]
  }

  /** `mapper.dtoToEntity(view, account)`: the incoming view wins for the
      fields it carries, the stored entity keeps the rest, its id and its
      transactions. */
  function Merge(a: Account, userId: Option<int>, fields: map<string, string>): (r: Account)
    ensures r.id == a.id && r.transactions == a.transactions
    ensures userId.Some? ==> r.userId == userId
    ensures userId.None? ==> r.userId == a.userId
    ensures r.fields.Keys == a.fields.Keys + fields.Keys
    ensures forall f :: f in fields ==> r.fields[f] == fields[f]
    ensures forall f :: f in a.fields && f !in fields ==> r.fields[f] == a.fields[f]
  {
    Account(a.id, if userId.Some? then userId else a.userId, a.fields + fields, a.transactions)
  }

  /** The outward view of an account (the DTO). Its `calculatedBalance` is
      derived and never persisted. */
  class AccountView {
    var id: Option<int>
    var userId: Option<int>
    var fields: map<string, string>
    var calculatedBalance: Option<int>

    /** `mapper.entityToDto(account)`. */
    constructor FromEntity(a: Account)
      ensures Shows(a) && calculatedBalance == None
    {
      id, userId, fields, calculatedBalance := Some(a.id), a.userId, a.fields, None;
    }

    /** The view of a blank, unsaved `new Account()`. */
    constructor Blank()
      ensures id == None && userId == None && fields == map[] && calculatedBalance == None
    {
      id, userId, fields, calculatedBalance := None, None, map[], None;
    }

    /** This view carries the id, owner and fields of `a`. */
    predicate Shows(a: Account)
      reads this
    {
      id == Some(a.id) && userId == a.userId && fields == a.fields
    }
  }

  /** `mapper.entityListToDTOList`: one fresh view per account. */
  method ToViews(content: seq<Account>) returns (views: seq<AccountView>)
    ensures |views| == |content|
    ensures forall i :: 0 <= i < |views| ==> fresh(views[i]) && views[i].Shows(content[i]) && views[i].calculatedBalance == None
    ensures forall i, j :: 0 <= i < j < |views| ==> views[i] != views[j]
  {
    views := [];
    for i := 0 to |content|
      invariant |views| == i
      invariant forall k :: 0 <= k < i ==> fresh(views[k]) && views[k].Shows(content[k]) && views[k].calculatedBalance == None
      invariant forall k, l :: 0 <= k < l < i ==> views[k] != views[l]
    {
      var v := new AccountView.FromEntity(content[i]);
      views := views + [v];
    }
  }

  /** The store invariant: accounts are stored under their ids, every
      relation lists only the account's own transactions, the storage order
      lists each stored account once, and the id generator is past every id. */
  ghost predicate Consistent(accounts: map<int, Account>, accountIds: seq<int>, nextId: int)
  {
    && KeyedById(accounts)
    && (forall k, t :: k in accounts && t in accounts[k].transactions ==> t.accountId == k)
    && (forall k :: k in accounts ==> k < nextId && k in accountIds)
    && (forall i :: 0 <= i < |accountIds| ==> accountIds[i] in accounts)
    && (forall i, j :: 0 <= i < j < |accountIds| ==> accountIds[i] != accountIds[j])
  }

  /** Every user is stored under its own user name. */
  ghost predicate KeyedByName(users: map<string, User>)
  {
    forall n :: n in users ==> users[n].userName == n
  }

  /** AccountService over its three repositories. */
  class AccountService {
    /** The account repository, and the order `findAll` returns accounts in. */
    var accounts: map<int, Account>
    var accountIds: seq<int>
    /** The id the repository gives the next inserted account. */
    var nextId: int
    /** The transaction repository, and what `findAllIds` returns. */
    var transactions: map<int, Transaction>
    var transactionIds: seq<int>
    /** The user repository, by user name. */
    var users: map<string, User>

    ghost predicate Valid()
      reads this
    {
      Consistent(accounts, accountIds, nextId) && KeyedByName(users)
    }

    constructor (accounts: map<int, Account>, accountIds: seq<int>, nextId: int,
                 transactions: map<int, Transaction>, transactionIds: seq<int>, users: map<string, User>)
      requires Consistent(accounts, accountIds, nextId) && KeyedByName(users)
      ensures Valid()
      ensures this.accounts == accounts && this.accountIds == accountIds && this.nextId == nextId
      ensures this.transactions == transactions && this.transactionIds == transactionIds && this.users == users
    {
      this.accounts, this.accountIds, this.nextId := accounts, accountIds, nextId;
      this.transactions, this.transactionIds, this.users := transactions, transactionIds, users;
    }

    /** The loop of `calculateBalance`: starts from the initial value (0 when
        null) and folds `calculateNetBalance` over every present transaction
        of `account`, in the order of `findAllIds`. */
    method ComputeBalance(account: Option<int>, initial: Option<int>) returns (balance: int)
      ensures balance == Balance(initial, transactionIds, transactions, account)
    {
      balance := if initial.None? then 0 else initial.value;
      var ids := transactionIds;
      for i := 0 to |ids|
        invariant balance == InitialValue(initial) + SignedSum(ids[..i], transactions, account)
      {
        var id := ids[i];
        var found := if id in transactions then Some(transactions[id]) else None;
        if found.Some? && Some(found.value.accountId) == account {
          balance := NetBalance(balance, found.value.kind, found.value.amount);
        }
        assert ids[..i + 1][..i] == ids[..i];
      }
      assert ids[..|ids|] == ids;
    }

    /** `calculateBalance`: writes the balance into the view and nothing else. */
    method CalculateBalance(view: AccountView, initial: Option<int>)
      modifies view
      ensures view.id == old(view.id) && view.userId == old(view.userId) && view.fields == old(view.fields)
      ensures view.calculatedBalance == Some(Balance(initial, transactionIds, transactions, view.id))
    {
      var balance := ComputeBalance(view.id, initial);
      view.calculatedBalance := Some(balance);
    }

    /** `getAll`: the requested page of the owner's accounts when the user
        name resolves to a user, of all accounts otherwise; every view gets
        the balance computed from initial value 0. */
    method GetAll(request: PageRequest, username: string) returns (views: seq<AccountView>)
      ensures var content := PageOf(Listing(accountIds, accounts, ResolveOwner(users, username)), request);
        && |views| == |content|
        && forall i :: 0 <= i < |views| ==>
             && fresh(views[i])
             && views[i].Shows(content[i])
             && views[i].calculatedBalance == Some(Balance(Some(0), transactionIds, transactions, Some(content[i].id)))
      ensures forall i, j :: 0 <= i < j < |views| ==> views[i] != views[j]
    {
      var owner := ResolveOwner(users, username);
      var content := PageOf(Listing(accountIds, accounts, owner), request);
      views := ToViews(content);
      for i := 0 to |views|
        invariant forall k :: 0 <= k < |views| ==> fresh(views[k]) && views[k].Shows(content[k])
        invariant forall k, l :: 0 <= k < l < |views| ==> views[k] != views[l]
        invariant forall k :: 0 <= k < i ==>
                    views[k].calculatedBalance == Some(Balance(Some(0), transactionIds, transactions, Some(content[k].id)))
      {
        CalculateBalance(views[i], Some(0));
      }
    }

    /** `getAccountById` on a stored id: its view, with the balance computed
        from a null initial value. */
    method GetAccountById(accountId: int) returns (view: AccountView)
      requires Valid() && accountId in accounts
      ensures fresh(view) && view.Shows(accounts[accountId])
      ensures view.calculatedBalance == Some(Balance(None, transactionIds, transactions, Some(accountId)))
    {
      var account := accounts[accountId];
      view := new AccountView.FromEntity(account);
      CalculateBalance(view, None);
    }

    /** `draftAccount`: a blank view with no id; the store is not written. */
    method DraftAccount() returns (view: AccountView)
      ensures fresh(view)
      ensures view.id == None && view.userId == None && view.fields == map[] && view.calculatedBalance == None
    {
      view := new AccountView.Blank();
    }

    /** `updateAccount`: merges the view into the stored account with its id,
        or, when there is none, inserts a new account built from the view
        under the id the repository generates. Nothing else in the store
        changes, and the returned view carries no balance. */
    method UpdateAccount(view: AccountView) returns (saved: AccountView)
      requires Valid()
      modifies this
      ensures Valid()
      ensures view.id.Some? && view.id.value in old(accounts) ==>
                && accounts == old(accounts)[view.id.value := Merge(old(accounts)[view.id.value], view.userId, view.fields)]
                && accountIds == old(accountIds) && nextId == old(nextId)
      ensures !(view.id.Some? && view.id.value in old(accounts)) ==>
                && accounts == old(accounts)[old(nextId) := Account(old(nextId), view.userId, view.fields, [])]
                && accountIds == old(accountIds) + [old(nextId)] && nextId == old(nextId) + 1
      ensures transactions == old(transactions) && transactionIds == old(transactionIds) && users == old(users)
      ensures fresh(saved) && saved.calculatedBalance == None
      ensures view.id.Some? && view.id.value in old(accounts) ==> saved.Shows(accounts[view.id.value])
      ensures !(view.id.Some? && view.id.value in old(accounts)) ==> saved.Shows(accounts[old(nextId)])
    {
      var account: Account;
      if view.id.Some? && view.id.value in accounts {
        assert accounts[view.id.value].id == view.id.value;
        account := Merge(accounts[view.id.value], view.userId, view.fields);
      } else {
        assert nextId !in accounts;
        assert nextId !in accountIds;
        account := Account(nextId, view.userId, view.fields, []);
        accountIds := accountIds + [nextId];
        nextId := nextId + 1;
      }
      accounts := accounts[account.id := account];
      saved := new AccountView.FromEntity(account);
    }

    /** `getTransactionsByAccountId`: the account's transactions, or an empty
        list for an unknown id. */
    function TransactionsByAccountId(accountId: int): (r: seq<Transaction>)
      reads this
      requires Valid()
      ensures accountId in accounts ==> r == accounts[accountId].transactions
      ensures accountId !in accounts ==> r == []
      ensures forall t :: t in r ==> t.accountId == accountId
    {
      if accountId in accounts then accounts[accountId].transactions else []
    }
  }

  /** Appending an id adds its effect to the signed sum, as the loop of
      `calculateBalance` does when it visits that id. */
  lemma SignedSumSnoc(ids: seq<int>, x: int, txs: map<int, Transaction>, account: Option<int>)
    ensures SignedSum(ids + [x], txs, account) == SignedSum(ids, txs, account) + Effect(x, txs, account)
  {
    assert (ids + [x])[..|ids|] == ids;
  }

  /** Account 7 with an income of 100, an expence of 30 and an income of 5,
      listed next to a transaction of account 8 and an id whose lookup is
      empty, has signed sum 75. The sum is built up one id at a time. */
  lemma ExampleSignedSum(txs: map<int, Transaction>)
    requires 1 in txs && txs[1] == Transaction(1, 7, 100, Some(Income))
    requires 2 in txs && txs[2] == Transaction(2, 7, 30, Some(Expence))
    requires 3 in txs && txs[3] == Transaction(3, 7, 5, Some(Income))
    requires 4 in txs && txs[4] == Transaction(4, 8, 1000, Some(Income))
    requires 9 !in txs
    ensures SignedSum([1, 4, 2, 9, 3], txs, Some(7)) == 75
  {
    var a := Some(7);
    var s0: seq<int> := [];
    var s1, s2, s3, s4, s5 := s0 + [1], s0 + [1] + [4], s0 + [1] + [4] + [2], s0 + [1] + [4] + [2] + [9], s0 + [1] + [4] + [2] + [9] + [3];
    SignedSumSnoc(s0, 1, txs, a);
    SignedSumSnoc(s1, 4, txs, a);
    SignedSumSnoc(s2, 2, txs, a);
    SignedSumSnoc(s3, 9, txs, a);
    SignedSumSnoc(s4, 3, txs, a);
    assert SignedSum(s0, txs, a) == 0;
    assert Effect(1, txs, a) == 100;
    assert Effect(4, txs, a) == 0;
    assert Effect(2, txs, a) == -30;
    assert Effect(9, txs, a) == 0;
    assert Effect(3, txs, a) == 5;
    assert s5 == [1, 4, 2, 9, 3];
  }

  /** The same account has balance 75 from a null initial value. */
  lemma ExampleBalance(txs: map<int, Transaction>)
    requires 1 in txs && txs[1] == Transaction(1, 7, 100, Some(Income))
    requires 2 in txs && txs[2] == Transaction(2, 7, 30, Some(Expence))
    requires 3 in txs && txs[3] == Transaction(3, 7, 5, Some(Income))
    requires 4 in txs && txs[4] == Transaction(4, 8, 1000, Some(Income))
    requires 9 !in txs
    ensures Balance(None, [1, 4, 2, 9, 3], txs, Some(7)) == 75
  {
    ExampleSignedSum(txs);
  }

  /** A client of the service: the account of `ExampleBalance` read by id. */
  method BalanceExample()
  {
    var t1 := Transaction(1, 7, 100, Some(Income));
    var t2 := Transaction(2, 7, 30, Some(Expence));
    var t3 := Transaction(3, 7, 5, Some(Income));
    var t4 := Transaction(4, 8, 1000, Some(Income));
    var account := Account(7, None, map[], [t1, t2, t3]);
    var txs := map[1 := t1, 2 := t2, 3 := t3, 4 := t4];
    ExampleBalance(txs);
    var service := new AccountService(map[7 := account], [7], 8, txs, [1, 4, 2, 9, 3], map[]);
    var view := service.GetAccountById(7);
    assert view.calculatedBalance == Some(75);
    var missing := service.TransactionsByAccountId(5);
    assert missing == [];
  }

}
