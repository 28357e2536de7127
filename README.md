# GIF portal on-chain program, modelled in Dafny

The GIF portal keeps a shared list of GIF links in one Solana account, a
`BaseAccount { total_gifs: u64, gif_list: Vec<ItemStruct> }` owned by an
Anchor program with two instructions:

- `start_stuff_off` runs on an account that the `init` constraint has just
  created (zero-filled, 9000 bytes). It sets `total_gifs` to 0.
- `add_gif` builds an `ItemStruct { gif_link, user_address }` from the link
  and the signer's key. It pushes that item onto `gif_list` and increments
  `total_gifs`.

The model has two modules.

- `GifPortal` (`gif_portal.dfy`) holds the records and the two handlers.
  `BaseAccount` is a class whose methods update its fields in place. Each
  method is proved against a pure function of the account's value:
  `StartStuffOffEffect` and `AddGifEffect`. The module also gives the size of
  the account's Borsh encoding (8-byte discriminator, `u64` counter,
  `u32`-prefixed vector of items, each a `u32`-prefixed link plus a 32-byte
  key). From that size it proves that an account which fits its 9000 bytes
  holds at most 249 items, so `total_gifs += 1` can never overflow a `u64`.
- `GifPortalAccounts` (`gif_portal_accounts.dfy`) models the
  `#[derive(Accounts)]` constraints and the program's accounts as a ledger
  from keys to account values. `Execute` runs one instruction as its own
  transaction: it checks signers, writability, the System Program's id, and
  whether the account exists. It then applies the handler's effect and checks
  that the account still fits its allocation. A failed transaction leaves the
  ledger unchanged. `Run` executes any sequence of instructions. The lemmas
  prove the following for every such sequence:
  - `total_gifs == gif_list.len()` always holds;
  - each list only grows at its end, by exactly the accepted items, in the order they were sent;
  - earlier entries never change;
  - adding to an account that does not exist fails, and initialising an account twice fails.

Links are modelled as the UTF-8 bytes of the Rust `String`, so encoded sizes
are exact. Keys are 32 opaque bytes. The System Program's id is the all-zero
key.

## Model

| member | source | states |
|---|---|---|
| GifPortal.BaseAccount.constructor | programs/solana-anchor-gif-portal/src/lib.rs:55 | The account that `init` allocates is zero-filled: it decodes to a counter of 0 and an empty list. |
| GifPortal.BaseAccount.StartStuffOff | programs/solana-anchor-gif-portal/src/lib.rs:14-25 | Sets `total_gifs` to 0 in place and leaves `gif_list` as it was. On a fresh account this leaves the account consistent. |
| GifPortal.BaseAccount.AddGif | programs/solana-anchor-gif-portal/src/lib.rs:27-42 | Appends exactly `ItemStruct(gif_link, user)` at the end of `gif_list`, raises `total_gifs` by one and keeps `total_gifs == gif_list.len()`. It changes nothing but this account's two fields. |
| GifPortal.StartStuffOffEffect | programs/solana-anchor-gif-portal/src/lib.rs:18-22 | The counter becomes 0 and the list is untouched. An empty list gives a consistent account. |
| GifPortal.AddGifEffect | programs/solana-anchor-gif-portal/src/lib.rs:29-40 | The list is one longer. Every earlier entry keeps its position and value. The new last entry holds exactly the given link and the signer's key. The counter grows by exactly one, and consistency is preserved. |
| GifPortal.ListLenAppend | programs/solana-anchor-gif-portal/src/lib.rs:83-88 | Pushing an item adds exactly that item's encoded length to the encoded vector. |
| GifPortal.ListLenAtLeast | programs/solana-anchor-gif-portal/src/lib.rs:85-87 | Every item takes at least 36 bytes: a 4-byte link prefix and a 32-byte key. |
| GifPortal.FitsBoundsItems | programs/solana-anchor-gif-portal/src/lib.rs:53-55 | An account that fits its 9000-byte allocation holds at most 249 items. 249 is the exact bound for items with empty links. |
| GifPortal.NoOverflow | programs/solana-anchor-gif-portal/src/lib.rs:95 | A consistent account that fits its allocation has `total_gifs < u64::MAX`, so the increment cannot overflow. |
| GifPortal.StartStuffOffFits | programs/solana-anchor-gif-portal/src/lib.rs:14-25 | A freshly initialised account is `{0, []}`, which is consistent and fits its allocation. |
| GifPortalAccounts.Execute | programs/solana-anchor-gif-portal/src/lib.rs:14-77 | Success conditions for each instruction, stated as if-and-only-if. `StartStuffOff` needs a new, signing, writable account, a signing writable payer and the System Program. `AddGif` needs an existing writable account, a signing writable user, no overflow and room left in the allocation. Add-before-init and double init are rejected. On success only the target account changes. It becomes `{0, []}`, or gains exactly the new item at its end with the counter one higher. |
| GifPortalAccounts.Run | programs/solana-anchor-gif-portal/src/lib.rs:9-43 | No sequence of instructions ever removes an account: neither instruction deletes one. |
| GifPortalAccounts.ValidLedgerNeverOverflows | programs/solana-anchor-gif-portal/src/lib.rs:40 | On a ledger whose accounts are consistent and fit, `add_gif` never fails on its increment. |
| GifPortalAccounts.ApplyPreservesValid | programs/solana-anchor-gif-portal/src/lib.rs:22-40 | Every transaction keeps every account consistent and within its allocation. |
| GifPortalAccounts.DoubleInitRejected | programs/solana-anchor-gif-portal/src/lib.rs:55 | A second `start_stuff_off` on an account the first one created fails and changes nothing. |
| GifPortalAccounts.RunPreservesValid | programs/solana-anchor-gif-portal/src/lib.rs:14-42 | For every sequence of instructions, `total_gifs == gif_list.len()` holds and every account fits, by induction on the sequence. |
| GifPortalAccounts.CounterTracksList | programs/solana-anchor-gif-portal/src/lib.rs:22-40 | Starting from no accounts, each account's counter equals its list length. The list is exactly the items of the successful `add_gif` calls on it, in order. |
| GifPortalAccounts.ApplyAppends | programs/solana-anchor-gif-portal/src/lib.rs:33-38 | One transaction appends to an account exactly the item it accepts for that account, and nothing else. |
| GifPortalAccounts.RunAppends | programs/solana-anchor-gif-portal/src/lib.rs:27-42 | For every sequence of instructions, each account's list is its old list followed by the accepted items for it, in the order they were sent. |
| GifPortalAccounts.RunKeepsEarlierEntries | programs/solana-anchor-gif-portal/src/lib.rs:38 | An entry already in a list keeps its position and value whatever runs afterwards. |
| GifPortalAccounts.InitThenAddOne | tests/solana-anchor-gif-portal.js:17-43 | The test's script: after initialisation the count is 0. After one `addGif` from the wallet, the count is 1 and the list is exactly that link and the wallet's key. |

## Left out

- Rent and lamports: `payer = user` and the System Program call that funds and creates the account are reduced to the requirement that the account does not exist yet. Running out of funds is not modelled.
- Account ownership, the 8-byte discriminator's value and Borsh decoding: an account in the ledger is taken to be a well-formed `BaseAccount` of this program. An account owned by another program, or an existing non-program account passed to `init`, is not modelled.
- When several constraints fail at once, `Execute` reports one error in a fixed order. For `StartStuffOff` the order is signers, then writability, then the program id, then existence. For `AddGif` it is existence, then writability, then the signer. Anchor's actual choice of error code is not modelled, and the contracts state only success or failure in that case.
- The runtime's compute-unit and heap limits are not modelled. On a long list, running out of either is a further way an `add_gif` transaction can fail; `Execute` treats an item that fits the allocation as always accepted.
- GifPortal.BaseAccount.AddGif: requires `total_gifs < u64::MAX` instead of modelling the overflow. At the ledger level, the increment at `u64::MAX` makes the program panic and the transaction fail, which `Execute` records as `ArithmeticOverflow` with the ledger rolled back. This assumes overflow checks are enabled, because the build profile is not part of this model. `ValidLedgerNeverOverflows` proves the case cannot arise.
- UTF-8 validity of links and the transaction-size limit on a link's length are not modelled: any byte sequence is accepted.
- Signature verification and key cryptography: a signer is the `isSigner` flag of the account passed in.
- The browser client (`app/src/App.js`), the key-pair generation script and the validator test harness are UI, I/O and randomness, and are not modelled. The test's expected counts appear as `InitThenAddOne`.
