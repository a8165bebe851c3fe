/**
 * The wallet session kept by `WalletProvider`: which wallet is connected,
 * under which public key, which provider kind is remembered, and the two
 * entries it keeps in the browser's key-value storage.
 *
 * The browser's storage is a `map<string, string>`. The injected wallet
 * objects are not modelled: each call of `tryProvider` reads one answer from
 * an oracle sequence, `None` when the provider is missing or its call threw,
 * `Some(k)` when it produced the value `k` for the public key.
 */
module WalletContext {
  import opened Wrappers

  /** Storage keys. */
  const LocalKey: string := "bsv_local_wallet_v1"
  const LastProviderKey: string := "bsv_last_provider_v1"

  /** How many times the desktop bridge is tried before moving on. */
  const DesktopRetries: nat := 5

  /** Status messages and error messages. */
  const ConnectingMessage: string := "Connecting to wallet..."
  const ConnectedPrefix: string := "Connected via "
  const NoWalletMessage: string := "No compatible wallet detected"
  const DisconnectedMessage: string := "Wallet disconnected"
  const DeletedMessage: string := "Local wallet deleted"
  const NoWalletError: string := "No wallet connected"
  const NoSignError: string := "Connected wallet does not support signing"
  const NoPayError: string := "Connected wallet does not support pay()"

  /** The four kinds of wallet the session knows how to connect. */
  datatype WalletKind = Desktop | Metanet | Brc100 | Local

  /** Reads a kind back from its name; any other string is not a kind. */
  function ParseKind(name: string): Option<WalletKind>
  {
    if name == "desktop" then Some(Desktop)
    else if name == "metanet" then Some(Metanet)
    else if name == "brc100" then Some(Brc100)
    else if name == "local" then Some(Local)
    else None
  }

  /** A name that parses is the name of the kind it parses to. */
  lemma ParsedNameIsKindName(name: string)
    requires ParseKind(name).Some?
    ensures KindName(ParseKind(name).value) == name
  {
  }

  /** The name under which a kind is stored and reported. */
  function KindName(k: WalletKind): (name: string)
    ensures ParseKind(name) == Some(k)
  {
    match k
    case Desktop => "desktop"
    case Metanet => "metanet"
    case Brc100 => "brc100"
    case Local => "local"
  }

  /** A connected wallet object: its identity key and which optional methods it has. */
  datatype Client = Client(identityKey: string, hasSign: bool, hasPay: bool, hasDisconnect: bool)

  /** The wallet object the local branch of `tryProvider` builds: it can sign and pay. */
  function LocalClient(key: string): Client
  {
    Client(key, true, true, false)
  }

  /** JavaScript truthiness of a possibly missing string. */
  predicate Truthy(v: Option<string>)
  {
    v.Some? && v.value != ""
  }

  /** The session fields together with the browser's storage. */
  datatype SessionState = SessionState(
    pubKey: Option<string>,
    wallet: Option<Client>,
    isConnected: bool,
    lastProvider: Option<WalletKind>,
    lastMessage: Option<string>,
    showModal: bool,
    storage: map<string, string>)

  /** The state of a freshly mounted provider over whatever storage the browser already holds. */
  function Initial(storage: map<string, string>): SessionState
  {
    SessionState(None, None, false, None, None, false, storage)
  }

  /** `m` and `m'` agree on every key outside `keys`. */
  ghost predicate SameOutside(m: map<string, string>, m': map<string, string>, keys: set<string>)
  {
    forall k :: k !in keys ==> (k in m <==> k in m') && (k in m && k in m' ==> m[k] == m'[k])
  }

  /**
   * What the session's own transitions keep true: a session is connected
   * exactly when it has a (non-empty) public key, and a remembered provider
   * is also the one written to storage.
   */
  predicate Consistent(s: SessionState)
  {
    && (s.isConnected <==> s.pubKey.Some?)
    && (s.pubKey.Some? ==> s.pubKey.value != "")
    && (s.lastProvider.Some? ==>
          LastProviderKey in s.storage && s.storage[LastProviderKey] == KindName(s.lastProvider.value))
  }

  lemma InitialIsConsistent(storage: map<string, string>)
    ensures Consistent(Initial(storage))
  {
  }

  /** `rememberProvider(p)`. */
  function Remembered(s: SessionState, p: Option<WalletKind>): (r: SessionState)
    ensures r.lastProvider == p
    ensures p.Some? ==> LastProviderKey in r.storage && r.storage[LastProviderKey] == KindName(p.value)
    ensures p.None? ==> LastProviderKey !in r.storage
    ensures SameOutside(r.storage, s.storage, {LastProviderKey})
    ensures r == s.(lastProvider := p, storage := r.storage)
    ensures Consistent(s) ==> Consistent(r)
  {
    var storage := if p.Some? then s.storage[LastProviderKey := KindName(p.value)]
                   else s.storage - {LastProviderKey};
    s.(lastProvider := p, storage := storage)
  }

  /** `disconnect()`: the outcome does not depend on the wallet's own disconnect hook. */
  function Disconnected(s: SessionState): (r: SessionState)
    ensures r.wallet.None? && r.pubKey.None? && !r.isConnected && r.lastProvider.None?
    ensures LastProviderKey !in r.storage
    ensures SameOutside(r.storage, s.storage, {LastProviderKey})
    ensures r.lastMessage == Some(DisconnectedMessage) && r.showModal == s.showModal
    ensures Consistent(r)
  {
    Remembered(s.(wallet := None, pubKey := None, isConnected := false), None)
      .(lastMessage := Some(DisconnectedMessage))
  }

  /** `deleteLocalWallet()`: forgets the provider only when it was the local one. */
  function LocalDeleted(s: SessionState): (r: SessionState)
    ensures LocalKey !in r.storage
    ensures r.wallet.None? && r.pubKey.None? && !r.isConnected
    ensures r.lastProvider == if s.lastProvider == Some(Local) then None else s.lastProvider
    ensures s.lastProvider == Some(Local) ==> LastProviderKey !in r.storage
    ensures s.lastProvider == Some(Local) ==> SameOutside(r.storage, s.storage, {LocalKey, LastProviderKey})
    ensures s.lastProvider != Some(Local) ==> SameOutside(r.storage, s.storage, {LocalKey})
    ensures r.lastMessage == Some(DeletedMessage) && r.showModal == s.showModal
    ensures Consistent(s) ==> Consistent(r)
  {
    var s1 := s.(storage := s.storage - {LocalKey});
    var s2 := if s.lastProvider == Some(Local) then Remembered(s1, None) else s1;
    s2.(wallet := None, pubKey := None, isConnected := false, lastMessage := Some(DeletedMessage))
  }

  /** A call handed on to the connected wallet object, with its arguments unchanged. */
  datatype Call = SignCall(client: Client, txHex: string) | PayCall(client: Client, params: PayParams)

  datatype PayParams = PayParams(satoshis: int, to: string)

  /** `sign(txHex)`: check there is a wallet and that it can sign, then delegate. */
  function Sign(wallet: Option<Client>, txHex: string): (r: Result<Call, string>)
    ensures r.Success? <==> wallet.Some? && wallet.value.hasSign
    ensures r.Success? ==> r.value == SignCall(wallet.value, txHex)
    ensures wallet.None? ==> r == Failure(NoWalletError)
    ensures wallet.Some? && !wallet.value.hasSign ==> r == Failure(NoSignError)
  {
    if wallet.None? then Failure(NoWalletError)
    else if !wallet.value.hasSign then Failure(NoSignError)
    else Success(SignCall(wallet.value, txHex))
  }

  /** `pay(params)`: check there is a wallet and that it can pay, then delegate. */
  function Pay(wallet: Option<Client>, params: PayParams): (r: Result<Call, string>)
    ensures r.Success? <==> wallet.Some? && wallet.value.hasPay
    ensures r.Success? ==> r.value == PayCall(wallet.value, params)
    ensures wallet.None? ==> r == Failure(NoWalletError)
    ensures wallet.Some? && !wallet.value.hasPay ==> r == Failure(NoPayError)
  {
    if wallet.None? then Failure(NoWalletError)
    else if !wallet.value.hasPay then Failure(NoPayError)
    else Success(PayCall(wallet.value, params))
  }

  /** A local wallet record is stored (an empty string counts as none, as in JavaScript). */
  predicate LocalStored(storage: map<string, string>)
  {
    LocalKey in storage && storage[LocalKey] != ""
  }

  /**
   * Reference description of when one attempt connects: the name is one of
   * the four kinds, the local kind also needs a stored record, and the
   * provider's answer is a non-empty key.
   */
  predicate Succeeds(name: string, answer: Option<string>, storage: map<string, string>)
  {
    && ParseKind(name).Some?
    && (ParseKind(name) == Some(Local) ==> LocalStored(storage))
    && Truthy(answer)
  }

  /** The state after one attempt, and the key it connected with if it did. */
  datatype Outcome = Outcome(state: SessionState, key: Option<string>)

  /** The success branch of `tryProvider`: record the key, connect and remember the kind. */
  function Connected(s: SessionState, kind: WalletKind, key: string): SessionState
  {
    Remembered(s.(pubKey := Some(key), isConnected := true), Some(kind))
      .(lastMessage := Some(ConnectedPrefix + KindName(kind)))
  }

  /** One call `tryProvider(name)` that finds `answer`. */
  function TryAttempt(s: SessionState, name: string, answer: Option<string>): (r: Outcome)
    ensures r.key.Some? <==> Succeeds(name, answer, s.storage)
    ensures r.key.Some? ==>
              && r.key == answer
              && r.state.pubKey == answer
              && r.state.isConnected
              && r.state.lastProvider == ParseKind(name)
              && r.state.storage == s.storage[LastProviderKey := name]
              && r.state.lastMessage == Some(ConnectedPrefix + name)
              && r.state.showModal == s.showModal
              && r.state.wallet == (if ParseKind(name) == Some(Local) then Some(LocalClient(answer.value)) else s.wallet)
    ensures r.key.None? ==> r.state.(wallet := s.wallet) == s
    ensures r.key.None? && r.state.wallet != s.wallet ==> ParseKind(name) == Some(Local) && answer == Some("")
    ensures ParseKind(name) == Some(Local) && !LocalStored(s.storage) ==> r == Outcome(s, None)
    ensures Consistent(s) ==> Consistent(r.state)
  {
    match ParseKind(name)
    case None => Outcome(s, None)
    case Some(kind) =>
      if kind == Local && !LocalStored(s.storage) then Outcome(s, None)
      else if answer.None? then Outcome(s, None)
      else
        var s1 := if kind == Local then s.(wallet := Some(LocalClient(answer.value))) else s;
        if answer.value != "" then Outcome(Connected(s1, kind, answer.value), answer)
        else Outcome(s1, None)
  }

  /** The provider names remembered in storage, if any (an empty string counts as none). */
  function StoredLast(storage: map<string, string>): seq<string>
  {
    if LastProviderKey in storage && storage[LastProviderKey] != "" then [storage[LastProviderKey]] else []
  }

  /** The fixed fallback: the desktop bridge five times, then metanet, brc100 and local. */
  function Fallback(): seq<string>
  {
    var d := KindName(Desktop);
    [d, d, d, d, d] + [KindName(Metanet), KindName(Brc100), KindName(Local)]
  }

  /** The names `connectWallet` tries, in order. */
  function Plan(preferred: Option<WalletKind>, storage: map<string, string>): seq<string>
  {
    (if preferred.Some? then [KindName(preferred.value)] else []) + StoredLast(storage) + Fallback()
  }

  /** From index `n` on, `plan` is the fixed fallback. */
  ghost predicate FallbackFrom(plan: seq<string>, n: nat)
  {
    && |plan| == n + DesktopRetries + 3
    && (forall i :: n <= i < n + DesktopRetries ==> plan[i] == KindName(Desktop))
    && plan[n + DesktopRetries] == KindName(Metanet)
    && plan[n + DesktopRetries + 1] == KindName(Brc100)
    && plan[n + DesktopRetries + 2] == KindName(Local)
  }

  /** Where the preferred provider, the remembered one and the fallback stand in a plan. */
  lemma PlanLayout(preferred: Option<WalletKind>, storage: map<string, string>)
    ensures (var plan := Plan(preferred, storage);
             var n := if preferred.Some? then 1 else 0;
             && (preferred.Some? ==> plan[0] == KindName(preferred.value))
             && (StoredLast(storage) != [] ==> plan[n] == storage[LastProviderKey])
             && FallbackFrom(plan, n + |StoredLast(storage)|))
  {
    var pre := if preferred.Some? then [KindName(preferred.value)] else [];
    var plan := pre + StoredLast(storage) + Fallback();
    var m := |pre| + |StoredLast(storage)|;
    assert forall i :: m <= i < |plan| ==> plan[i] == Fallback()[i - m];
  }

  /** The answer the oracle gives to attempt `i`; attempts beyond its end find nothing. */
  function Answer(oracle: seq<Option<string>>, i: nat): Option<string>
  {
    if i < |oracle| then oracle[i] else None
  }

  /** Attempts `i` onwards of a plan, stopping at the first that connects. */
  function RunAttempts(s: SessionState, plan: seq<string>, oracle: seq<Option<string>>, i: nat): Outcome
    decreases |plan| - i
  {
    if i >= |plan| then Outcome(s.(lastMessage := Some(NoWalletMessage), showModal := true), None)
    else
      var o := TryAttempt(s, plan[i], Answer(oracle, i));
      if o.key.Some? then o else RunAttempts(o.state, plan, oracle, i + 1)
  }

  /** `connectWallet(preferred)`. */
  function Connect(s: SessionState, preferred: Option<WalletKind>, oracle: seq<Option<string>>): Outcome
  {
    RunAttempts(s.(lastMessage := Some(ConnectingMessage)), Plan(preferred, s.storage), oracle, 0)
  }

  /** Attempt `j` is the first one from `i` on that connects. */
  predicate FirstSuccessAt(plan: seq<string>, oracle: seq<Option<string>>, storage: map<string, string>, i: nat, j: nat)
  {
    && i <= j < |plan|
    && Succeeds(plan[j], Answer(oracle, j), storage)
    && forall l :: i <= l < j ==> !Succeeds(plan[l], Answer(oracle, l), storage)
  }

  /** The state a run leaves when attempt `j` connects. */
  predicate ConnectedBy(s: SessionState, r: Outcome, plan: seq<string>, oracle: seq<Option<string>>, j: nat)
    requires j < |plan|
  {
    && r.key.Some?
    && r.key == Answer(oracle, j)
    && r.state.pubKey == r.key
    && r.state.isConnected
    && r.state.lastProvider == ParseKind(plan[j])
    && r.state.storage == s.storage[LastProviderKey := plan[j]]
    && r.state.lastMessage == Some(ConnectedPrefix + plan[j])
    && r.state.showModal == s.showModal
    && (ParseKind(plan[j]) == Some(Local) ==> r.state.wallet == Some(LocalClient(r.key.value)))
  }

  /** The state a run leaves when no attempt connects: only the wallet may differ, and the modal opens. */
  predicate NothingConnected(s: SessionState, r: Outcome)
  {
    && r.key.None?
    && r.state.pubKey == s.pubKey
    && r.state.isConnected == s.isConnected
    && r.state.lastProvider == s.lastProvider
    && r.state.storage == s.storage
    && r.state.lastMessage == Some(NoWalletMessage)
    && r.state.showModal
  }

  /**
   * A run returns the key of the first attempt that connects and leaves the
   * session connected by it; when none connects it returns nothing, opens the
   * modal and reports that no wallet was found.
   */
  lemma {:induction false} RunAttemptsFindsFirstSuccess(s: SessionState, plan: seq<string>, oracle: seq<Option<string>>, i: nat)
    requires i <= |plan|
    ensures RunAttempts(s, plan, oracle, i).key.Some?
        <==> exists j :: i <= j < |plan| && Succeeds(plan[j], Answer(oracle, j), s.storage)
    ensures RunAttempts(s, plan, oracle, i).key.Some? ==>
              exists j :: FirstSuccessAt(plan, oracle, s.storage, i, j)
                       && ConnectedBy(s, RunAttempts(s, plan, oracle, i), plan, oracle, j)
    ensures RunAttempts(s, plan, oracle, i).key.None? ==> NothingConnected(s, RunAttempts(s, plan, oracle, i))
    decreases |plan| - i
  {
    if i == |plan| {
    } else {
      var o := TryAttempt(s, plan[i], Answer(oracle, i));
      if o.key.Some? {
        assert FirstSuccessAt(plan, oracle, s.storage, i, i);
        assert ConnectedBy(s, o, plan, oracle, i);
      } else {
        assert o.state.storage == s.storage by {
          assert o.state.(wallet := s.wallet) == s;
        }
        RunAttemptsFindsFirstSuccess(o.state, plan, oracle, i + 1);
        var r := RunAttempts(o.state, plan, oracle, i + 1);
        assert r == RunAttempts(s, plan, oracle, i);
        if r.key.Some? {
          var j :| FirstSuccessAt(plan, oracle, o.state.storage, i + 1, j) && ConnectedBy(o.state, r, plan, oracle, j);
          assert FirstSuccessAt(plan, oracle, s.storage, i, j);
        } else {
          assert forall j :: i <= j < |plan| ==> !Succeeds(plan[j], Answer(oracle, j), s.storage) by {
            forall j | i <= j < |plan| ensures !Succeeds(plan[j], Answer(oracle, j), s.storage) {
              if j > i {
                assert i + 1 <= j < |plan|;
              }
            }
          }
        }
      }
    }
  }

  /**
   * `connectWallet` returns the key of the first attempt, in the order of
   * `Plan`, that connects, and the session ends connected by it; if none
   * does it returns null, opens the wallet modal and says that no compatible
   * wallet was found, leaving key, connection, provider and storage as they were.
   */
  lemma ConnectFindsFirstSuccess(s: SessionState, preferred: Option<WalletKind>, oracle: seq<Option<string>>)
    ensures (var plan := Plan(preferred, s.storage);
             Connect(s, preferred, oracle).key.Some?
             <==> exists j :: 0 <= j < |plan| && Succeeds(plan[j], Answer(oracle, j), s.storage))
    ensures (var plan := Plan(preferred, s.storage);
             Connect(s, preferred, oracle).key.Some? ==>
               exists j :: FirstSuccessAt(plan, oracle, s.storage, 0, j)
                        && ConnectedBy(s, Connect(s, preferred, oracle), plan, oracle, j))
    ensures Connect(s, preferred, oracle).key.None? ==> NothingConnected(s, Connect(s, preferred, oracle))
  {
    RunAttemptsFindsFirstSuccess(s.(lastMessage := Some(ConnectingMessage)), Plan(preferred, s.storage), oracle, 0);
  }

  /** No run of attempts, in any order, breaks the session's consistency. */
  lemma {:induction false} RunAttemptsKeepsConsistency(s: SessionState, plan: seq<string>, oracle: seq<Option<string>>, i: nat)
    requires Consistent(s)
    ensures Consistent(RunAttempts(s, plan, oracle, i).state)
    decreases |plan| - i
  {
    if i < |plan| {
      var o := TryAttempt(s, plan[i], Answer(oracle, i));
      if o.key.None? {
        RunAttemptsKeepsConsistency(o.state, plan, oracle, i + 1);
      }
    }
  }

  lemma ConnectKeepsConsistency(s: SessionState, preferred: Option<WalletKind>, oracle: seq<Option<string>>)
    requires Consistent(s)
    ensures Consistent(Connect(s, preferred, oracle).state)
  {
    RunAttemptsKeepsConsistency(s.(lastMessage := Some(ConnectingMessage)), Plan(preferred, s.storage), oracle, 0);
  }

  /** The preferred provider is asked first: when it connects, nothing else is tried. */
  lemma PreferredConnectsFirst(s: SessionState, k: WalletKind, oracle: seq<Option<string>>)
    requires Succeeds(KindName(k), Answer(oracle, 0), s.storage)
    ensures Connect(s, Some(k), oracle).key == Answer(oracle, 0)
    ensures Connect(s, Some(k), oracle).state.lastProvider == Some(k)
  {
    assert Plan(Some(k), s.storage)[0] == KindName(k);
  }

  /** A remembered provider is the first one the next `connectWallet()` without a preference tries. */
  lemma RememberedProviderTriedFirst(s: SessionState, k: WalletKind)
    ensures Plan(None, Remembered(s, Some(k)).storage)[0] == KindName(k)
  {
  }

  /** After a successful connection, the next connection without a preference starts with the same kind. */
  lemma ConnectionIsRemembered(s: SessionState, preferred: Option<WalletKind>, oracle: seq<Option<string>>)
    requires Connect(s, preferred, oracle).key.Some?
    ensures (var r := Connect(s, preferred, oracle).state;
             r.lastProvider.Some? && Plan(None, r.storage)[0] == KindName(r.lastProvider.value))
  {
    ConnectFindsFirstSuccess(s, preferred, oracle);
    var plan := Plan(preferred, s.storage);
    var j: nat :| FirstSuccessAt(plan, oracle, s.storage, 0, j)
                && ConnectedBy(s, Connect(s, preferred, oracle), plan, oracle, j);
    ParsedNameIsKindName(plan[j]);
    var r := Connect(s, preferred, oracle).state;
    assert StoredLast(r.storage) == [plan[j]];
  }

  /** After `disconnect()` no provider is remembered: the next plan is the preference, then the fallback. */
  lemma DisconnectForgetsProvider(s: SessionState, preferred: Option<WalletKind>)
    ensures Plan(preferred, Disconnected(s).storage)
         == (if preferred.Some? then [KindName(preferred.value)] else []) + Fallback()
  {
  }

  /** After `deleteLocalWallet()` a local attempt finds no record and changes nothing. */
  lemma DeletedLocalWalletCannotConnect(s: SessionState, answer: Option<string>)
    ensures TryAttempt(LocalDeleted(s), KindName(Local), answer) == Outcome(LocalDeleted(s), None)
  {
  }

  /** A local connection installs a wallet that both signs and pays, delegating the arguments unchanged. */
  lemma LocalConnectionSignsAndPays(s: SessionState, answer: Option<string>, txHex: string, params: PayParams)
    requires Succeeds(KindName(Local), answer, s.storage)
    ensures (var w := TryAttempt(s, KindName(Local), answer).state.wallet;
             && Sign(w, txHex) == Success(SignCall(LocalClient(answer.value), txHex))
             && Pay(w, params) == Success(PayCall(LocalClient(answer.value), params)))
  {
  }

  /**
   * Only the local branch installs a wallet object: a desktop, metanet or
   * brc100 connection made while no wallet object is held leaves the session
   * connected but without one, so signing and paying fail.
   */
  lemma ExternalConnectionHasNoWallet(s: SessionState, k: WalletKind, answer: Option<string>, txHex: string, params: PayParams)
    requires k != Local && s.wallet.None?
    requires Succeeds(KindName(k), answer, s.storage)
    ensures (var r := TryAttempt(s, KindName(k), answer).state;
             && r.isConnected
             && Sign(r.wallet, txHex) == Failure(NoWalletError)
             && Pay(r.wallet, params) == Failure(NoWalletError))
  {
  }

  /** After `disconnect()` or `deleteLocalWallet()` neither signing nor paying reaches a wallet. */
  lemma NoWalletAfterDisconnectOrDelete(s: SessionState, txHex: string, params: PayParams)
    ensures Sign(Disconnected(s).wallet, txHex) == Failure(NoWalletError)
    ensures Pay(Disconnected(s).wallet, params) == Failure(NoWalletError)
    ensures Sign(LocalDeleted(s).wallet, txHex) == Failure(NoWalletError)
    ensures Pay(LocalDeleted(s).wallet, params) == Failure(NoWalletError)
  {
  }

  /** The session object of `WalletProvider`, with the browser's storage as one of its fields. */
  class WalletProvider {
    var pubKey: Option<string>
    var wallet: Option<Client>
    var isConnected: bool
    var lastProvider: Option<WalletKind>
    var lastMessage: Option<string>
    var showModal: bool
    var storage: map<string, string>

    /** The current session as a value. */
    function State(): SessionState
      reads this
    {
      SessionState(pubKey, wallet, isConnected, lastProvider, lastMessage, showModal, storage)
    }

    /** Mounting the provider: every session field starts empty; storage is what the browser holds. */
    constructor (browserStorage: map<string, string>)
      ensures State() == Initial(browserStorage)
    {
      pubKey := None;
      wallet := None;
      isConnected := false;
      lastProvider := None;
      lastMessage := None;
      showModal := false;
      storage := browserStorage;
    }

    method RememberProvider(p: Option<WalletKind>)
      modifies this
      ensures State() == Remembered(old(State()), p)
    {
      lastProvider := p;
      if p.Some? {
        storage := storage[LastProviderKey := KindName(p.value)];
      } else {
        storage := storage - {LastProviderKey};
      }
    }

    /**
     * `tryProvider(name)`, with the shared `walletKey` of `connectWallet`
     * passed in and handed back; the caller only ever passes a falsy key,
     * since a truthy one ends the connection.
     */
    method TryProvider(name: string, answer: Option<string>, walletKey: Option<string>)
      returns (ok: bool, key: Option<string>)
      requires !Truthy(walletKey)
      modifies this
      ensures State() == TryAttempt(old(State()), name, answer).state
      ensures ok <==> TryAttempt(old(State()), name, answer).key.Some?
      ensures ok ==> key == TryAttempt(old(State()), name, answer).key
      ensures !ok ==> !Truthy(key)
    {
      key := walletKey;
      var kind := ParseKind(name);
      match kind {
        case None =>
        case Some(k) =>
          if k == Local {
            if !LocalStored(storage) {
              return false, key;
            }
            if answer.None? {
              // the stored record did not parse, or hashing it threw
              return false, key;
            }
            wallet := Some(LocalClient(answer.value));
            key := answer;
          } else {
            if answer.None? {
              // the provider is not injected, or asking it threw
              return false, key;
            }
            key := answer;
          }
      }
      if Truthy(key) {
        pubKey := key;
        isConnected := true;
        RememberProvider(kind);
        lastMessage := Some(ConnectedPrefix + name);
        return true, key;
      }
      return false, key;
    }

    /**
     * One step of `connectWallet`: the attempt numbered `n` in `plan`, whose
     * name is `name`. `goal` is what the remaining attempts produce.
     */
    method Attempt(name: string, oracle: seq<Option<string>>, n: nat, walletKey: Option<string>,
                   ghost plan: seq<string>, ghost goal: Outcome)
      returns (ok: bool, key: Option<string>)
      requires n < |plan| && plan[n] == name
      requires !Truthy(walletKey)
      requires RunAttempts(State(), plan, oracle, n) == goal
      modifies this
      ensures ok ==> State() == goal.state && key == goal.key
      ensures !ok ==> && !Truthy(key)
                      && storage == old(storage)
                      && RunAttempts(State(), plan, oracle, n + 1) == goal
    {
      ghost var before := State();
      ok, key := TryProvider(name, Answer(oracle, n), walletKey);
      ghost var o := TryAttempt(before, name, Answer(oracle, n));
      if !ok {
        assert o.state.(wallet := before.wallet) == before;
      }
    }

    /** `connectWallet(preferred)`, attempt `i` finding `oracle[i]`. */
    method ConnectWallet(preferred: Option<WalletKind>, oracle: seq<Option<string>>) returns (key: Option<string>)
      modifies this
      ensures State() == Connect(old(State()), preferred, oracle).state
      ensures key == Connect(old(State()), preferred, oracle).key
    {
      lastMessage := Some(ConnectingMessage);
      ghost var goal := Connect(old(State()), preferred, oracle);
      ghost var plan := Plan(preferred, storage);
      PlanLayout(preferred, storage);
      var walletKey: Option<string> := None;
      var n: nat := 0;
      if preferred.Some? {
        var ok;
        ok, walletKey := Attempt(KindName(preferred.value), oracle, n, walletKey, plan, goal);
        if ok {
          return walletKey;
        }
        n := n + 1;
      }
      key := ConnectRemembered(oracle, n, walletKey, plan, goal);
    }

    /**
     * The part of `connectWallet` after the preferred provider: the provider
     * remembered in storage, if any, then the fallback. `n` attempts have
     * been made.
     */
    method ConnectRemembered(oracle: seq<Option<string>>, n: nat, walletKey: Option<string>,
                             ghost plan: seq<string>, ghost goal: Outcome)
      returns (key: Option<string>)
      requires StoredLast(storage) != [] ==> n < |plan| && plan[n] == storage[LastProviderKey]
      requires FallbackFrom(plan, n + |StoredLast(storage)|)
      requires !Truthy(walletKey)
      requires RunAttempts(State(), plan, oracle, n) == goal
      modifies this
      ensures State() == goal.state && key == goal.key
    {
      var k := walletKey;
      var m := n;
      if LastProviderKey in storage && storage[LastProviderKey] != "" {
        var last := storage[LastProviderKey];
        var ok;
        ok, k := Attempt(last, oracle, m, k, plan, goal);
        if ok {
          return k;
        }
        m := m + 1;
      }
      key := ConnectFallback(oracle, m, k, plan, goal);
    }

    /**
     * The part of `connectWallet` after the preferred and remembered
     * providers: the desktop bridge five times, then metanet, brc100 and the
     * local wallet, and the wallet modal when none connects. `n` attempts
     * have been made.
     */
    method ConnectFallback(oracle: seq<Option<string>>, n: nat, walletKey: Option<string>,
                           ghost plan: seq<string>, ghost goal: Outcome)
      returns (key: Option<string>)
      requires FallbackFrom(plan, n)
      requires !Truthy(walletKey)
      requires RunAttempts(State(), plan, oracle, n) == goal
      modifies this
      ensures State() == goal.state && key == goal.key
    {
      var ok: bool;
      var k := walletKey;
      var m := n;
      for i := 0 to DesktopRetries
        invariant m == n + i
        invariant !Truthy(k)
        invariant RunAttempts(State(), plan, oracle, m) == goal
      {
        ok, k := Attempt(KindName(Desktop), oracle, m, k, plan, goal);
        if ok {
          return k;
        }
        m := m + 1;
      }

      ok, k := Attempt(KindName(Metanet), oracle, m, k, plan, goal);
      if ok {
        return k;
      }
      m := m + 1;

      ok, k := Attempt(KindName(Brc100), oracle, m, k, plan, goal);
      if ok {
        return k;
      }
      m := m + 1;

      ok, k := Attempt(KindName(Local), oracle, m, k, plan, goal);
      if ok {
        return k;
      }
      m := m + 1;

      lastMessage := Some(NoWalletMessage);
      showModal := true;
      return None;
    }

    method DeleteLocalWallet()
      modifies this
      ensures State() == LocalDeleted(old(State()))
    {
      storage := storage - {LocalKey};
      if lastProvider == Some(Local) {
        RememberProvider(None);
      }
      wallet := None;
      pubKey := None;
      isConnected := false;
      lastMessage := Some(DeletedMessage);
    }

    /**
     * `disconnect()`: the wallet's own disconnect hook is called when it has
     * one; what the hook does, and any error it throws, stays outside the
     * session, since the error is caught and only logged.
     */
    method Disconnect() returns (hookCalled: bool)
      modifies this
      ensures hookCalled <==> old(wallet).Some? && old(wallet).value.hasDisconnect
      ensures State() == Disconnected(old(State()))
    {
      hookCalled := wallet.Some? && wallet.value.hasDisconnect;
      wallet := None;
      pubKey := None;
      isConnected := false;
      RememberProvider(None);
      lastMessage := Some(DisconnectedMessage);
    }
  }
}
