/**
 What posting a transfer's entries does to the books for any two wallets, one wallet twice included: each
 new balance is computed from the balances read under lock, and the recipient's is written last.
 */
module TransferEffects {
  import opened Tables
  import opened Sums
  import opened Postings

  function TransferEffect(b: Books, txn: nat, sender: nat, recipient: nat, amount: int, fee: int): Books
    requires FIRST_WALLET <= |b.balances| && sender < |b.balances| && recipient < |b.balances|
  {
    var debit := amount + fee;
    var newSender := b.balances[sender] - debit;
    var newRecipient := b.balances[recipient] + amount;
    var moved := b.balances[sender := newSender][recipient := newRecipient];
    var posted := b.entries + [Entry(txn, Leg(sender, Debit, debit), newSender),
        Entry(txn, Leg(recipient, Credit, amount), newRecipient)];
    if fee > 0
    then Books(moved[FEE_INCOME := moved[FEE_INCOME] + fee], posted
        + [Entry(txn, Leg(FEE_INCOME, Credit, fee), moved[FEE_INCOME] + fee)])
    else Books(moved, posted)
  }

  /** Between two wallets it is the double-entry posting of the transfer's legs. */
  lemma TransferEffectIsPosting(b: Books, txn: nat, sender: nat, recipient: nat, amount: int, fee: int)
    requires FIRST_WALLET <= |b.balances| && IsWallet(sender) && IsWallet(recipient) && sender < |b.balances|
             && recipient < |b.balances|
    requires sender != recipient
    ensures AccountsExist(b.balances, TransferLegs(sender, recipient, amount, fee))
    ensures TransferEffect(b, txn, sender, recipient, amount, fee)
            == Post(b, txn, TransferLegs(sender, recipient, amount, fee))
  {
    var l0, l1, l2 := Leg(sender, Debit, amount + fee), Leg(recipient, Credit, amount), Leg(FEE_INCOME, Credit, fee);
    if fee > 0 {
      Post3(b, txn, l0, l1, l2);
      assert [l0, l1] + [l2] == [l0, l1, l2];
    } else {
      Post2(b, txn, l0, l1);
      assert [l0, l1] + [] == [l0, l1];
    }
  }

  lemma WalletWritten(balances: seq<int>, wallet: nat, balance: int)
    requires FIRST_WALLET <= wallet < |balances|
    ensures WalletTotal(balances[wallet := balance]) == WalletTotal(balances) - balances[wallet] + balance
  {
    assert balances[wallet := balance][FIRST_WALLET..] == balances[FIRST_WALLET..][wallet - FIRST_WALLET := balance];
    SumUpdate(Id, balances[FIRST_WALLET..], wallet - FIRST_WALLET, balance);
  }

  /** What a transfer adds to the total of the wallets. */
  lemma WalletTotalMoves(b: Books, txn: nat, sender: nat, recipient: nat, amount: int, fee: int)
    requires FIRST_WALLET <= |b.balances| && IsWallet(sender) && IsWallet(recipient) && sender < |b.balances|
             && recipient < |b.balances|
    ensures WalletTotal(TransferEffect(b, txn, sender, recipient, amount, fee).balances)
            == WalletTotal(b.balances) + if sender == recipient then amount else -fee
  {
    var x, y := b.balances[sender] - (amount + fee), b.balances[recipient] + amount;
    WalletWritten(b.balances, sender, x);
    WalletWritten(b.balances[sender := x], recipient, y);
    var moved := b.balances[sender := x][recipient := y];
    assert moved[FEE_INCOME := moved[FEE_INCOME] + fee][FIRST_WALLET..] == moved[FIRST_WALLET..];
  }

  /**
   The entry-posting method does not itself refuse a transfer to oneself; its caller does. That check
   matters: money is conserved exactly when the two wallets differ.
   */
  lemma ConservedIffWalletsDiffer(b: Books, txn: nat, sender: nat, recipient: nat, amount: int, fee: int)
    requires FIRST_WALLET <= |b.balances| && IsWallet(sender) && IsWallet(recipient) && sender < |b.balances|
             && recipient < |b.balances|
    requires 0 < amount && 0 <= fee
    ensures Imbalance(TransferEffect(b, txn, sender, recipient, amount, fee).balances) == Imbalance(b.balances) <==>
            sender != recipient
  {
    WalletTotalMoves(b, txn, sender, recipient, amount, fee);
  }
}
