/**
 * The account constraints of the two instructions (`StartStuffOff` and
 * `AddGif`, the `#[derive(Accounts)]` structs) and the program's accounts
 * as a whole: a ledger from keys to the `BaseAccount`s the program owns.
 * Each instruction is its own transaction: when a constraint fails, or the
 * handler aborts, or the account no longer fits its allocation, the
 * instruction reports an error and the ledger is left as it was.
 */
module GifPortalAccounts {
  import opened GifPortal

  /** The System Program's id, `11111111111111111111111111111111`: 32 zero bytes. */
  const SYSTEM_PROGRAM_ID: Pubkey :=
    [0, 0, 0, 0, 0, 0, 0, 0, 0, 0, 0, 0, 0, 0, 0, 0,
     0, 0, 0, 0, 0, 0, 0, 0, 0, 0, 0, 0, 0, 0, 0, 0]

  /** An account passed to an instruction, with the flags the transaction gives it. */
  datatype AccountMeta = AccountMeta(key: Pubkey, isSigner: bool, isWritable: bool)

  datatype Instruction =
    | StartStuffOff(baseAccount: AccountMeta, user: AccountMeta, systemProgram: Pubkey)
    | AddGif(baseAccount: AccountMeta, user: AccountMeta, gifLink: seq<byte>)

  datatype ProgramError =
    | AccountNotSigner        // a `Signer`, or the keypair account `init` creates, did not sign
    | ConstraintMut           // an `#[account(mut)]` account was passed read-only
    | InvalidProgramId        // `Program<'info, System>` was given another key
    | AccountAlreadyInUse     // `init` on an account that already exists
    | AccountNotInitialized   // `Account<'info, BaseAccount>` that was never created
    | ArithmeticOverflow      // `total_gifs += 1` at `u64::MAX` panics and the transaction fails
    | AccountDidNotSerialize  // the account no longer fits its 9000 bytes

  datatype Result<T> = Ok(value: T) | Err(error: ProgramError)

  /** The `BaseAccount`s the program owns, by key. */
  type Ledger = map<Pubkey, AccountData>

  /** Every account is consistent and fits its allocation. */
  predicate ValidLedger(l: Ledger) {
    forall k :: k in l ==> Consistent(l[k]) && Fits(l[k])
  }

  /** The account whose key an instruction names as `base_account`. */
  function Target(ix: Instruction): Pubkey {
    ix.baseAccount.key
  }

  /** Runs one instruction as a transaction of its own. */
  function Execute(l: Ledger, ix: Instruction): (r: Result<Ledger>)
    // Constraints of `StartStuffOff`: `init` on a new, signing account, a signing and writable payer, the System Program.
    ensures ix.StartStuffOff? ==>
      (r.Ok? <==> Target(ix) !in l
                  && ix.baseAccount.isSigner && ix.baseAccount.isWritable
                  && ix.user.isSigner && ix.user.isWritable
                  && ix.systemProgram == SYSTEM_PROGRAM_ID)
    // Double initialisation is rejected.
    ensures ix.StartStuffOff? && Target(ix) in l ==> r.Err?
    // Constraints of `AddGif`: an existing writable account, a signing writable user, room for the item.
    ensures ix.AddGif? ==>
      (r.Ok? <==> Target(ix) in l
                  && ix.baseAccount.isWritable && ix.user.isSigner && ix.user.isWritable
                  && l[Target(ix)].totalGifs < U64_MAX
                  && Fits(AddGifEffect(l[Target(ix)], ix.gifLink, ix.user.key)))
    // Adding to an account that was never created is rejected.
    ensures ix.AddGif? && Target(ix) !in l ==> r == Err(AccountNotInitialized)
    // Only the target account changes, and it becomes what the handler computes.
    ensures r.Ok? ==> r.value.Keys == l.Keys + {Target(ix)}
    ensures r.Ok? ==> forall k :: k in l && k != Target(ix) ==> r.value[k] == l[k]
    ensures r.Ok? && ix.StartStuffOff? ==> r.value[Target(ix)] == AccountData(0, [])
    ensures r.Ok? && ix.AddGif? ==>
      && r.value[Target(ix)].gifList == l[Target(ix)].gifList + [ItemStruct(ix.gifLink, ix.user.key)]
      && r.value[Target(ix)].totalGifs as int == l[Target(ix)].totalGifs as int + 1
  {
    match ix
    case StartStuffOff(base, user, systemProgram) =>
      if !base.isSigner || !user.isSigner then Err(AccountNotSigner)
      else if !base.isWritable || !user.isWritable then Err(ConstraintMut)
      else if systemProgram != SYSTEM_PROGRAM_ID then Err(InvalidProgramId)
      else if base.key in l then Err(AccountAlreadyInUse)
      else Ok(l[base.key := StartStuffOffEffect(ZEROED)])
    case AddGif(base, user, gifLink) =>
      if base.key !in l then Err(AccountNotInitialized)
      else if !base.isWritable || !user.isWritable then Err(ConstraintMut)
      else if !user.isSigner then Err(AccountNotSigner)
      else if l[base.key].totalGifs == U64_MAX then Err(ArithmeticOverflow)
      else
        var d := AddGifEffect(l[base.key], gifLink, user.key);
        if !Fits(d) then Err(AccountDidNotSerialize) else Ok(l[base.key := d])
  }

  /** The ledger after one transaction: its new state, or the old one when it failed. */
  function Apply(l: Ledger, ix: Instruction): Ledger {
    match Execute(l, ix)
    case Ok(next) => next
    case Err(_) => l
  }

  /** The ledger after a sequence of transactions, in order. */
  function Run(l: Ledger, txs: seq<Instruction>): (r: Ledger)
    ensures l.Keys <= r.Keys
    decreases |txs|
  {
    if txs == [] then l else Run(Apply(l, txs[0]), txs[1..])
  }

  /** The list an account holds, empty while it does not exist. */
  function ListOf(l: Ledger, k: Pubkey): seq<ItemStruct> {
    if k in l then l[k].gifList else []
  }

  /** The items of the `AddGif` transactions on `k` that succeed, in the order they are run. */
  function Accepted(l: Ledger, txs: seq<Instruction>, k: Pubkey): seq<ItemStruct>
    decreases |txs|
  {
    if txs == [] then []
    else
      var ix := txs[0];
      var head := if ix.AddGif? && Target(ix) == k && Execute(l, ix).Ok?
                  then [ItemStruct(ix.gifLink, ix.user.key)] else [];
      head + Accepted(Apply(l, ix), txs[1..], k)
  }

  // ---------------------------------------------------------------------------
  // One transaction

  /** On a valid ledger `add_gif`'s increment never overflows. */
  lemma ValidLedgerNeverOverflows(l: Ledger, ix: Instruction)
    requires ValidLedger(l)
    ensures Execute(l, ix) != Err(ArithmeticOverflow)
  {
    if ix.AddGif? && Target(ix) in l {
      NoOverflow(l[Target(ix)]);
    }
  }

  /** Every transaction keeps every account consistent and within its allocation. */
  lemma ApplyPreservesValid(l: Ledger, ix: Instruction)
    requires ValidLedger(l)
    ensures ValidLedger(Apply(l, ix))
  {
  }

  /** A second `start_stuff_off` on an account that the first one created is rejected and changes nothing. */
  lemma DoubleInitRejected(l: Ledger, ix: Instruction, again: Instruction)
    requires ix.StartStuffOff? && Execute(l, ix).Ok?
    requires again.StartStuffOff? && Target(again) == Target(ix)
    ensures Execute(Apply(l, ix), again).Err?
    ensures Apply(Apply(l, ix), again) == Apply(l, ix)
  {
  }

  // ---------------------------------------------------------------------------
  // Any sequence of transactions

  /** Every account stays consistent (`total_gifs == gif_list.len()`) and fits, whatever is run. */
  lemma {:induction false} RunPreservesValid(l: Ledger, txs: seq<Instruction>)
    requires ValidLedger(l)
    ensures ValidLedger(Run(l, txs))
    decreases |txs|
  {
    if txs != [] {
      ApplyPreservesValid(l, txs[0]);
      RunPreservesValid(Apply(l, txs[0]), txs[1..]);
    }
  }

  /**
   * Starting from no accounts, every account's counter equals the length of its list,
   * which is the number of `add_gif` transactions on it that succeeded.
   */
  lemma CounterTracksList(txs: seq<Instruction>, k: Pubkey)
    requires k in Run(map[], txs)
    ensures Run(map[], txs)[k].totalGifs as int == |Run(map[], txs)[k].gifList|
    ensures Run(map[], txs)[k].gifList == Accepted(map[], txs, k)
  {
    RunPreservesValid(map[], txs);
    RunAppends(map[], txs, k);
  }

  /** One transaction appends to account `k` exactly the item it accepts for `k`, if any. */
  lemma ApplyAppends(l: Ledger, ix: Instruction, k: Pubkey)
    ensures ListOf(Apply(l, ix), k) == ListOf(l, k) + Accepted(l, [ix], k)
  {
  }

  /** Each account's list grows only at its end, by the accepted items on it, in the order they were sent. */
  lemma {:induction false} RunAppends(l: Ledger, txs: seq<Instruction>, k: Pubkey)
    ensures ListOf(Run(l, txs), k) == ListOf(l, k) + Accepted(l, txs, k)
    decreases |txs|
  {
    if txs != [] {
      var l' := Apply(l, txs[0]);
      ApplyAppends(l, txs[0], k);
      RunAppends(l', txs[1..], k);
      assert Accepted(l, [txs[0]], k) + Accepted(l', txs[1..], k) == Accepted(l, txs, k);
    }
  }

  /** Entries already in a list keep their positions and values, whatever is run. */
  lemma RunKeepsEarlierEntries(l: Ledger, txs: seq<Instruction>, k: Pubkey, i: nat)
    requires k in l && i < |l[k].gifList|
    ensures k in Run(l, txs)
    ensures i < |Run(l, txs)[k].gifList| && Run(l, txs)[k].gifList[i] == l[k].gifList[i]
  {
    RunAppends(l, txs, k);
  }

  /** Two transactions run one after the other. */
  lemma RunTwo(l: Ledger, first: Instruction, second: Instruction)
    ensures Run(l, [first, second]) == Apply(Apply(l, first), second)
  {
    assert Run(Apply(l, first), [second]) == Run(Apply(Apply(l, first), second), []);
  }

  /**
   * The program's own script: a fresh keypair account is initialised with the wallet as payer,
   * then the wallet adds one link. The count is 0 after the first step and 1 after the second,
   * and the list holds exactly that link and the wallet's key.
   */
  lemma InitThenAddOne(base: Pubkey, wallet: Pubkey, gifLink: seq<byte>)
    requires |gifLink| <= SPACE - HEADER_LEN - MIN_ITEM_LEN
    ensures var init := StartStuffOff(AccountMeta(base, true, true), AccountMeta(wallet, true, true), SYSTEM_PROGRAM_ID);
            var add := AddGif(AccountMeta(base, false, true), AccountMeta(wallet, true, true), gifLink);
            && Run(map[], [init])[base] == AccountData(0, [])
            && Run(map[], [init, add])[base] == AccountData(1, [ItemStruct(gifLink, wallet)])
  {
    var init := StartStuffOff(AccountMeta(base, true, true), AccountMeta(wallet, true, true), SYSTEM_PROGRAM_ID);
    var add := AddGif(AccountMeta(base, false, true), AccountMeta(wallet, true, true), gifLink);
    var item := ItemStruct(gifLink, wallet);
    ListLenAppend([], item);
    RunTwo(map[], init, add);
  }
}
