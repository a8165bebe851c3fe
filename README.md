# Wallet session and UTXO selection of the BSV health-chain portal

This project models, in Dafny, the two pieces of the portal's wallet client
that carry logic of their own:

- **UTXO selection** (`pickUTXOs`, `src/utils/index.ts`). The unspent outputs
  are walked in the order the indexer returned them. Each one is appended to
  the selection and its value added to the running total. After each step the
  fee is re-estimated as `(inputs*180 + 2*34 + 10) * feePerByte`. The walk
  returns at the first prefix whose total covers the target plus that fee,
  and throws "Insufficient funds: cannot cover amount + fee" when the list
  runs out. Module `Utxo` holds the loop as a method (`PickUtxos`), a
  recursive specification of the same walk (`SelectFrom`, `Select`) and the
  lemmas that the result is the shortest covering non-empty prefix.
- **The wallet session** of `WalletProvider` (`src/context/WalletContext.tsx`).
  The session holds `pubKey`, `wallet`, `isConnected`, `lastProvider`,
  `lastMessage` and `showModal`, and it uses two keys of the browser's
  storage: `bsv_local_wallet_v1` and `bsv_last_provider_v1`. Module
  `WalletContext` models `rememberProvider`, `connectWallet` with its
  `tryProvider` helper, `deleteLocalWallet`, `disconnect`, and the guards of
  `sign` and `pay`. Class `WalletProvider` has those fields, with storage as
  a `map<string, string>` field. Its methods update them as the source does.
  Each method is proved equal to a pure function of the old state:
  `Remembered`, `TryAttempt`, `Connect`, `LocalDeleted` and `Disconnected`.
  The lemmas are stated over those functions.

How the source's environment is represented:

- The injected wallet objects are `window.bsvDesktop`, `window.metanetWallet`
  and `window.brc100Wallet`. They are not modelled. Each call of
  `tryProvider` in one `connectWallet` reads the next entry of an oracle
  sequence. `None` means the provider is missing, or its call threw. `Some(k)`
  means it produced `k` as the public key. Entries past the end are `None`.
  So the five desktop retries can each see a different answer.
- The local branch parses the stored record and hashes it with SHA-256. That
  work is also one oracle entry: `None` if parsing or hashing threw, or
  `Some(pubHex)`. The branch is only reached when `bsv_local_wallet_v1` holds
  a non-empty string.
- JavaScript truthiness is modelled exactly where the code relies on it.
  Only a non-empty key connects (`Truthy`). An empty stored record counts as
  absent (`LocalStored`). An empty stored provider name is skipped
  (`StoredLast`).
- A stored provider name that is not one of the four kinds is still passed
  to `tryProvider`. That attempt uses up its oracle entry and fails, as in
  the source's `switch`, which matches no case.
- The shared `walletKey` variable of `connectWallet` is passed into
  `TryProvider` and handed back. It is falsy before every attempt, because a
  truthy key ends the connection. `TryProvider` requires this.

Behaviour of the code that the model keeps as written:

- Only the local branch calls `setWallet`. A connection via desktop, metanet
  or brc100 sets `pubKey` and `isConnected` but leaves `wallet` as it was. If
  no wallet object was held, `sign` and `pay` then fail with "No wallet
  connected" (`ExternalConnectionHasNoWallet`).
- The local branch installs its wallet object before it checks the key. With
  an empty key (which the hex SHA-256 digest never is), a failed local
  attempt would still change `wallet`. `TryAttempt` states exactly this.
- `deleteLocalWallet` looks at the in-memory `lastProvider`, not at storage.
  It forgets the provider only when that was `local`.

One might expect outputs of 500 and 700 satoshis to fund a 1000-satoshi
payment at one satoshi a byte, selecting both. Under the code's fee formula,
two inputs cost 438, and 1200 < 1438, so `pickUTXOs` throws there. The model
follows the code (`TwoSmallOutputsAreInsufficient`).

## Model

| member | source | states |
|---|---|---|
| `Utxo.PickUtxos` | src/utils/index.ts:48-68 | The loop equals the recursive specification `Select`; the fee rate defaults to 1. On success the selection is a non-empty prefix of the input in the input's order, `total` is the sum of its values, `estFee` is `(n*180+2*34+10)*feePerByte` for its length n, `total >= target + estFee`, and no shorter non-empty prefix covers target plus its own fee. On failure the error is "Insufficient funds: cannot cover amount + fee" and no non-empty prefix covers. The input is a value, so it is not modified. |
| `Utxo.SelectFromIsFirstCover` | src/utils/index.ts:56-67 | From length k on, the walk succeeds exactly when some prefix of length at least k covers; it then returns the first such prefix with its sum and fee, and otherwise fails with "Insufficient funds". |
| `Utxo.SelectIsMinimalCover` | src/utils/index.ts:56-67 | The selection fails, with "Insufficient funds", exactly when no non-empty prefix covers target plus its estimated fee; otherwise it is the minimal covering prefix. |
| `Utxo.EmptySelectionFails` | src/utils/index.ts:56-67 | An empty list of outputs always throws "Insufficient funds". |
| `Utxo.TwoSmallOutputsAreInsufficient` | src/utils/index.ts:60-67 | Outputs of 500 and 700 do not fund 1000 at one satoshi a byte: the selector throws. |
| `WalletContext.KindName` | src/context/WalletContext.tsx:22 | Each wallet kind's name parses back to that kind. |
| `WalletContext.ParsedNameIsKindName` | src/context/WalletContext.tsx:263 | A stored name that parses as a kind is exactly that kind's name. |
| `WalletContext.InitialIsConsistent` | src/context/WalletContext.tsx:164-170 | A freshly mounted session is consistent: not connected, no key, no provider remembered, whatever the storage holds. |
| `WalletContext.Remembered` | src/context/WalletContext.tsx:177-181 | `lastProvider` becomes p. The last-provider key is written with p's name when p is given and removed when p is null. No other storage key and no other field changes. Consistency is preserved. |
| `WalletContext.Disconnected` | src/context/WalletContext.tsx:599-610 | Afterwards `wallet`, `pubKey` and `lastProvider` are null and `isConnected` is false. The last-provider key is removed and no other storage key changes. The message is "Wallet disconnected". The result never depends on the wallet's own disconnect hook, whose error is swallowed. The result is always consistent. |
| `WalletContext.LocalDeleted` | src/context/WalletContext.tsx:398-405 | The local-wallet key is removed, and `wallet`, `pubKey` and `isConnected` are cleared. `lastProvider` and its storage key are cleared only when the provider was `local`; otherwise they are kept. No other storage key changes. Consistency is preserved. |
| `WalletContext.Sign` | src/context/WalletContext.tsx:587-591 | Fails with "No wallet connected" when there is no wallet. Fails with "Connected wallet does not support signing" when the wallet has no `sign`. Otherwise it hands the unchanged transaction to the wallet's `sign`, and succeeds exactly then. |
| `WalletContext.Pay` | src/context/WalletContext.tsx:593-597 | Fails with "No wallet connected" when there is no wallet. Fails with "Connected wallet does not support pay()" when the wallet has no `pay`. Otherwise it hands the unchanged parameters to the wallet's `pay`, and succeeds exactly then. |
| `WalletContext.TryAttempt` | src/context/WalletContext.tsx:194-257 | An attempt connects exactly when the name is a kind, the local kind also has a stored record, and the answer is a non-empty key (`Succeeds`). On success it returns that key: `pubKey` is the key, `isConnected` holds, the kind is remembered in field and storage, and the message is "Connected via kind". `wallet` becomes the local client for the local kind and is kept otherwise. On failure nothing changes, except the local wallet object on an empty local key. A local attempt without a stored record changes nothing. Consistency is preserved. |
| `WalletContext.PlanLayout` | src/context/WalletContext.tsx:259-277 | The attempts come in this order: the preferred kind first, if given; then the stored last provider, if any; then desktop five times, metanet, brc100 and local. |
| `WalletContext.RunAttemptsFindsFirstSuccess` | src/context/WalletContext.tsx:259-282 | A run of attempts returns a key exactly when some attempt succeeds. The key comes from the first successful attempt, and the session ends connected by that attempt. When none succeeds, it returns null, sets `showModal` and the message "No compatible wallet detected", and keeps key, connection, provider and storage. |
| `WalletContext.ConnectFindsFirstSuccess` | src/context/WalletContext.tsx:188-283 | `connectWallet` returns a key exactly when some attempt in the fixed order succeeds. It returns the first successful attempt's key and leaves the session connected by that attempt. If every attempt fails, it returns null, opens the modal and reports "No compatible wallet detected". |
| `WalletContext.RunAttemptsKeepsConsistency` | src/context/WalletContext.tsx:246-256 | No sequence of attempts breaks the session's consistency. |
| `WalletContext.ConnectKeepsConsistency` | src/context/WalletContext.tsx:188-283 | `connectWallet` preserves consistency: connected exactly when a non-empty key is held, and a remembered provider is the one in storage. |
| `WalletContext.PreferredConnectsFirst` | src/context/WalletContext.tsx:259-260 | When the preferred provider's attempt succeeds, its key is returned and it is the remembered provider. |
| `WalletContext.RememberedProviderTriedFirst` | src/context/WalletContext.tsx:262-264 | A remembered provider is the first one the next connection without a preference tries. |
| `WalletContext.ConnectionIsRemembered` | src/context/WalletContext.tsx:246-264 | After a successful connection, the next connection without a preference starts with the kind that connected. |
| `WalletContext.DisconnectForgetsProvider` | src/context/WalletContext.tsx:599-610 | After `disconnect` the next connection tries only the preferred kind and then the fixed fallback. |
| `WalletContext.DeletedLocalWalletCannotConnect` | src/context/WalletContext.tsx:213-215 | After `deleteLocalWallet` a local attempt fails and changes nothing. |
| `WalletContext.LocalConnectionSignsAndPays` | src/context/WalletContext.tsx:225-243 | A successful local attempt installs a wallet whose `sign` and `pay` receive their arguments unchanged. |
| `WalletContext.ExternalConnectionHasNoWallet` | src/context/WalletContext.tsx:196-212 | A desktop, metanet or brc100 connection made with no wallet object held leaves the session connected, but `sign` and `pay` fail with "No wallet connected". |
| `WalletContext.NoWalletAfterDisconnectOrDelete` | src/context/WalletContext.tsx:587-610 | After `disconnect` or `deleteLocalWallet`, both `sign` and `pay` fail with "No wallet connected". |
| `WalletContext.WalletProvider.constructor` | src/context/WalletContext.tsx:164-171 | Every session field starts empty or false; storage is what the browser already holds. |
| `WalletContext.WalletProvider.RememberProvider` | src/context/WalletContext.tsx:177-181 | The new state is `Remembered(old state, p)`. |
| `WalletContext.WalletProvider.TryProvider` | src/context/WalletContext.tsx:194-257 | The new state is `TryAttempt`'s. It returns true exactly when the attempt connects, and then returns the key. On failure the shared key stays falsy. |
| `WalletContext.WalletProvider.Attempt` | src/context/WalletContext.tsx:259-277 | One attempt of `connectWallet`. On success the state and key are the whole connection's result. On failure storage is unchanged, and the remaining attempts still lead to that result. |
| `WalletContext.WalletProvider.ConnectWallet` | src/context/WalletContext.tsx:188-283 | The new state and the returned key are those of `Connect(old state, preferred, oracle)`. |
| `WalletContext.WalletProvider.ConnectRemembered` | src/context/WalletContext.tsx:262-282 | From the remembered-provider step on, it produces the rest of the connection's result. |
| `WalletContext.WalletProvider.ConnectFallback` | src/context/WalletContext.tsx:266-282 | The desktop loop of five, then metanet, brc100 and local, then the modal: produces the rest of the connection's result. |
| `WalletContext.WalletProvider.DeleteLocalWallet` | src/context/WalletContext.tsx:398-405 | The new state is `LocalDeleted(old state)`. |
| `WalletContext.WalletProvider.Disconnect` | src/context/WalletContext.tsx:599-610 | The new state is `Disconnected(old state)`. It reports whether the wallet's own disconnect hook was called, which happens exactly when the wallet has one. |

## Left out

- src/wallet/localWallet.ts as a whole is not part of this model. It covers PBKDF2 and AES-GCM encryption, BIP-39 mnemonics, secp256k1 keys, P2PKH scripts, transaction building and signing, and the WhatsOnChain and ARC calls. All of these are library calls or HTTP.
- src/wallet/hdWallet.ts is not part of this model: its BIP-32/BIP-44 derivation is a library call.
- `createLocalWallet`, `importLocalWallet`, `createMnemonic` and `importMnemonic` in WalletContext.tsx are left out. They rest on random bytes, SHA-256 and the helpers above.
- `refreshBalances`, `fetchFiatRates`, `fetchWocBalanceSats`, src/wallet/tokenBalances.ts and the 15-second refresh timer are left out. They are HTTP calls and floating-point BSV and fiat conversions.
- `fetchUTXOs` and `broadcastRawTx` are left out: they are HTTP wrappers.
- The modal's `onConnected` and `onClose` callbacks, `openWalletModal` and `mobileConnect` are left out. They belong to the UI.
- The 500 ms `setTimeout` between desktop retries is left out; the retries are modelled only by their count. The `prompt` password dialogs inside the local wallet's `sign` and `pay` are left out too.
- What the wallet objects do is not modelled: provider detection, authentication, key retrieval and JSON parsing of the stored record are oracle answers. `Sign` and `Pay` stop at handing the call to the wallet. The wallet's own `disconnect` hook is reported as called, and its effects are left out.
- React's state setters are modelled as immediate assignments. The stale closure values of a re-render are not modelled. `connectWallet` reads only storage between its attempts, and storage is updated synchronously.
- `console.warn` logging is left out.
- Utxo.PickUtxos: UTXO values, the target and the fee rate are unbounded integers, not JavaScript doubles. Rounding and precision beyond 2^53 are not modelled.
