/**
 * The wallet session (`WalletProvider` in src/WalletContext.jsx): the state the
 * provider keeps about its HashConnect pairing, the commands the page calls
 * (`connectWallet`, `disconnectWallet`), and the handlers of the three events
 * HashConnect raises. HashConnect itself is outside the model: its answers
 * (a stored pairing, the signer's address, whether `init` throws) are
 * parameters, and the requests made of it are return values.
 */
module Wallet {
  import opened Base

  /** HashConnect's `HashConnectConnectionState`. */
  datatype ConnectionState = Connecting | Connected | Disconnected | Paired

  /** What a pairing delivers: the session topic and the paired account ids. */
  datatype PairingData = PairingData(topic: string, accountIds: seq<string>)

  /** The ethers `BrowserProvider` wrapped around the HashConnect signer of an account. */
  datatype Provider = BrowserProvider(accountId: string)

  /** The ethers signer of an account; `address` is what its `getAddress()` answers. */
  datatype Signer = Signer(accountId: string, address: Address)

  /** The value the provider hands to its consumers; `pairingData` is not part of it. */
  datatype ContextValue = ContextValue(
    connectionStatus: ConnectionState,
    accountId: string,
    ethersProvider: Option<Provider>,
    ethersSigner: Option<Signer>)

  class WalletSession {
    var connectionStatus: ConnectionState
    var accountId: string
    var pairingData: Option<PairingData>
    var ethersProvider: Option<Provider>
    var ethersSigner: Option<Signer>

    /** Provider and signer are installed and cleared together, for the current account. */
    ghost predicate Valid()
      reads this
    {
      && (ethersProvider.Some? <==> ethersSigner.Some?)
      && (ethersSigner.Some? ==> ethersSigner.value.accountId == accountId)
      && (ethersProvider.Some? ==> ethersProvider.value.accountId == accountId)
    }

    /** The initial state: disconnected, no account, no pairing, no provider, no signer. */
    constructor ()
      ensures Valid()
      ensures connectionStatus == Disconnected && accountId == ""
      ensures pairingData == None && ethersProvider == None && ethersSigner == None
    {
      connectionStatus := Disconnected;
      accountId := "";
      pairingData := None;
      ethersProvider := None;
      ethersSigner := None;
    }

    /**
     * `initialize(pairedData)`: obtain a signer for the first paired account
     * (`signerAddress` is None when HashConnect or ethers throws, and for a
     * pairing without accounts), then install provider, signer, account id and
     * the Connected status together. A failure changes nothing.
     */
    method Initialize(paired: PairingData, signerAddress: Option<Address>) returns (ok: bool)
      requires Valid()
      modifies this
      ensures Valid()
      ensures ok <==> |paired.accountIds| > 0 && signerAddress.Some?
      ensures ok ==> && connectionStatus == Connected
                     && accountId == paired.accountIds[0]
                     && ethersProvider == Some(BrowserProvider(paired.accountIds[0]))
                     && ethersSigner == Some(Signer(paired.accountIds[0], signerAddress.value))
                     && pairingData == old(pairingData)
      ensures !ok ==> unchanged(this)
    {
      if |paired.accountIds| == 0 || signerAddress.None? {
        return false;
      }
      var account := paired.accountIds[0];
      ethersProvider := Some(BrowserProvider(account));
      ethersSigner := Some(Signer(account, signerAddress.value));
      accountId := account;
      connectionStatus := Connected;
      ok := true;
    }

    /** Startup (`initHashConnect`): a pairing HashConnect has stored is installed and initialized; otherwise nothing changes. */
    method InitHashConnect(initFails: bool, stored: Option<PairingData>, signerAddress: Option<Address>)
      returns (connected: bool)
      requires Valid()
      modifies this
      ensures Valid()
      ensures initFails || stored.None? ==> !connected && unchanged(this)
      ensures !initFails && stored.Some? ==>
        && pairingData == stored
        && (connected <==> |stored.value.accountIds| > 0 && signerAddress.Some?)
        && (connected ==> && connectionStatus == Connected
                          && accountId == stored.value.accountIds[0]
                          && ethersSigner == Some(Signer(stored.value.accountIds[0], signerAddress.value)))
        && (!connected ==> && connectionStatus == old(connectionStatus)
                           && accountId == old(accountId)
                           && ethersProvider == old(ethersProvider)
                           && ethersSigner == old(ethersSigner))
    {
      connected := false;
      if initFails {
        return;
      }
      if stored.Some? {
        pairingData := stored;
        connected := Initialize(stored.value, signerAddress);
      }
    }

    /** The pairing event: the new pairing replaces the old one wholesale, then the session is initialized for it. */
    method OnPairing(paired: PairingData, signerAddress: Option<Address>) returns (connected: bool)
      requires Valid()
      modifies this
      ensures Valid()
      ensures pairingData == Some(paired)
      ensures connected <==> |paired.accountIds| > 0 && signerAddress.Some?
      ensures connected ==> && connectionStatus == Connected
                            && accountId == paired.accountIds[0]
                            && ethersProvider == Some(BrowserProvider(paired.accountIds[0]))
                            && ethersSigner == Some(Signer(paired.accountIds[0], signerAddress.value))
      ensures !connected ==> && connectionStatus == old(connectionStatus)
                             && accountId == old(accountId)
                             && ethersProvider == old(ethersProvider)
                             && ethersSigner == old(ethersSigner)
    {
      pairingData := Some(paired);
      connected := Initialize(paired, signerAddress);
    }

    /** The disconnection event: every field returns to its initial value. */
    method OnDisconnection()
      modifies this
      ensures Valid()
      ensures connectionStatus == Disconnected && accountId == ""
      ensures pairingData == None && ethersProvider == None && ethersSigner == None
    {
      pairingData := None;
      accountId := "";
      connectionStatus := Disconnected;
      ethersProvider := None;
      ethersSigner := None;
    }

    /** The status-change event overwrites the status alone; account and signer stay as they were. */
    method OnConnectionStatusChange(status: ConnectionState)
      requires Valid()
      modifies this`connectionStatus
      ensures Valid()
      ensures connectionStatus == status
    {
      connectionStatus := status;
    }

    /** `connectWallet`: asks HashConnect to open its pairing modal exactly when disconnected; changes nothing. */
    method ConnectWallet() returns (opensModal: bool)
      ensures opensModal <==> connectionStatus == Disconnected
    {
      opensModal := connectionStatus == Disconnected;
    }

    /**
     * `disconnectWallet`: when connected with a pairing, asks HashConnect to end
     * the session with the pairing's topic (the returned value); changes
     * nothing itself, the state is cleared by the disconnection event.
     */
    method DisconnectWallet() returns (disconnectTopic: Option<string>)
      ensures disconnectTopic.Some? <==> connectionStatus == Connected && pairingData.Some?
      ensures disconnectTopic.Some? ==> disconnectTopic.value == pairingData.value.topic
    {
      if connectionStatus == Connected && pairingData.Some? {
        disconnectTopic := Some(pairingData.value.topic);
      } else {
        disconnectTopic := None;
      }
    }

    /** The context value the provider publishes. */
    function Value(): (v: ContextValue)
      reads this
      ensures v.connectionStatus == connectionStatus && v.accountId == accountId
      ensures v.ethersProvider == ethersProvider && v.ethersSigner == ethersSigner
    {
      ContextValue(connectionStatus, accountId, ethersProvider, ethersSigner)
    }
  }

  /** `useWallet`: the context value of the enclosing provider; outside any provider it throws. */
  function UseWallet(context: Option<ContextValue>): (r: Result<ContextValue>)
    ensures r.Err? <==> context.None?
    ensures r.Ok? ==> r.value == context.value
  {
    match context
    case None => Err("useWallet must be used within a WalletProvider")
    case Some(value) => Ok(value)
  }

  /**
   * The status alone does not promise a signer: a status-change event can
   * report Connected before any pairing was initialized. This is why the
   * action flows test for a signer rather than for the status.
   */
  method ConnectedWithoutSigner() returns (session: WalletSession)
    ensures session.connectionStatus == Connected && session.ethersSigner == None
  {
    session := new WalletSession();
    session.OnConnectionStatusChange(Connected);
  }

  /** A pairing event, a disconnection and a new pairing: the second account replaces the first wholesale. */
  method PairDisconnectPair(first: string, second: string, address: Address) returns (session: WalletSession)
    ensures session.connectionStatus == Connected && session.accountId == second
    ensures session.ethersSigner == Some(Signer(second, address))
    ensures session.pairingData == Some(PairingData("t2", [second]))
  {
    session := new WalletSession();
    var ok := session.OnPairing(PairingData("t1", [first]), Some(address));
    session.OnDisconnection();
    ok := session.OnPairing(PairingData("t2", [second]), Some(address));
  }
}
