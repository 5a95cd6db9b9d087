/** The account repository (src/shared/services/account.service.ts): the fixed
    catalogue of account types and the stored account list. Deleting an
    account does not look at the cards charged to it. */
module AccountService {
  import opened Wrappers
  import opened Models
  import opened Seqs
  import opened Storage

  const AccountPrefix: string := "account-"

  /** The hard-coded catalogue: four banks followed by three digital wallets. */
  function AccountTypes(): (r: seq<AccountType>)
    ensures |r| == 7
    ensures forall i, j :: 0 <= i < j < |r| ==> r[i].id != r[j].id
    ensures forall i :: 0 <= i < |r| ==> (r[i].category == Bank <==> i < 4)
    ensures forall i :: 0 <= i < |r| ==> r[i].category != OtherCategory && r[i].logoUrl.Some?
  {
    [ AccountType("leumi", "בנק לאומי", Some("/assets/banks/leumi.png"), Bank),
      AccountType("hapoalim", "בנק הפועלים", Some("/assets/banks/hapoalim.png"), Bank),
      AccountType("mizrahi", "בנק מזרחי טפחות", Some("/assets/banks/mizrahi.png"), Bank),
      AccountType("discount", "בנק דיסקונט", Some("/assets/banks/discount.png"), Bank),
      AccountType("bit", "Bit", Some("/assets/wallets/bit.png"), DigitalWallet),
      AccountType("paybox", "PayBox", Some("/assets/wallets/paybox.png"), DigitalWallet),
      AccountType("paypal", "PayPal", Some("/assets/wallets/paypal.png"), DigitalWallet) ]
  }

  /** The fields stored for a new account: an empty owner list is replaced by
      the current user alone; a non-empty one is kept as given. */
  function WithDefaultOwner(info: AccountInfo, currentUserId: string): (r: AccountInfo)
    ensures r.name == info.name && r.accountType == info.accountType
    ensures |r.ownerIds| > 0
    ensures |info.ownerIds| > 0 ==> r.ownerIds == info.ownerIds
    ensures |info.ownerIds| == 0 ==> r.ownerIds == [currentUserId]
  {
    if |info.ownerIds| > 0 then info else info.(ownerIds := [currentUserId])
  }

  /** Defaulting the owners twice changes nothing further. */
  lemma DefaultOwnerIdempotent(info: AccountInfo, u: string, v: string)
    ensures WithDefaultOwner(WithDefaultOwner(info, u), v) == WithDefaultOwner(info, u)
  {
  }

  method GetAccounts(store: Store) returns (r: Result<seq<Account>>)
    ensures store.backend == Firebase ==> r == Err(FirebaseUnsupported)
    ensures store.backend == Local ==> r == Ok(store.Accounts())
    ensures store.backend == Local && AccountsKey !in store.items ==> r == Ok([])
  {
    var got := store.GetItem(AccountsKey);
    if got.Err? {
      return Err(got.message);
    }
    match got.value
    case Some(AccountList(accs)) => r := Ok(accs);
    case _ => r := Ok([]);
  }

  method CreateAccount(store: Store, info: AccountInfo, currentUserId: string, stamp: string) returns (r: Result<Account>)
    modifies store
    ensures store.backend == Firebase ==> r == Err(FirebaseUnsupported) && store.items == old(store.items)
    ensures store.backend == Local ==>
      && r == Ok(Account(AccountPrefix + stamp, WithDefaultOwner(info, currentUserId)))
      && store.items == old(store.items)[AccountsKey := AccountList(old(store.Accounts()) + [r.value])]
  {
    var newAccount := Account(AccountPrefix + stamp, WithDefaultOwner(info, currentUserId));
    var accounts := GetAccounts(store);
    if accounts.Err? {
      return Err(accounts.message);
    }
    var _ := store.SetItem(AccountsKey, AccountList(accounts.value + [newAccount]));
    r := Ok(newAccount);
  }

  /** An unknown id writes nothing and still answers with the given account. */
  method UpdateAccount(store: Store, updated: Account) returns (r: Result<Account>)
    modifies store
    ensures store.backend == Firebase ==> r == Err(FirebaseUnsupported) && store.items == old(store.items)
    ensures store.backend == Local ==>
      && r == Ok(updated)
      && store.items == (match ReplaceFirst(old(store.Accounts()), updated, AccountId)
                         case None => old(store.items)
                         case Some(accs) => old(store.items)[AccountsKey := AccountList(accs)])
  {
    var accounts := GetAccounts(store);
    if accounts.Err? {
      return Err(accounts.message);
    }
    var replaced := ReplaceFirst(accounts.value, updated, AccountId);
    if replaced.Some? {
      var _ := store.SetItem(AccountsKey, AccountList(replaced.value));
    }
    r := Ok(updated);
  }

  method DeleteAccount(store: Store, id: string) returns (r: Result<()>)
    modifies store
    ensures store.backend == Firebase ==> r == Err(FirebaseUnsupported) && store.items == old(store.items)
    ensures store.backend == Local ==>
      && r == Ok(())
      && store.items == old(store.items)[AccountsKey := AccountList(RemoveById(old(store.Accounts()), id, AccountId))]
  {
    var accounts := GetAccounts(store);
    if accounts.Err? {
      return Err(accounts.message);
    }
    var _ := store.SetItem(AccountsKey, AccountList(RemoveById(accounts.value, id, AccountId)));
    r := Ok(());
  }
}
