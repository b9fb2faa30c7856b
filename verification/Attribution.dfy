/** From chain client to watcher: which transfers that a listener hears find their intent. The
    client folds the case of watched addresses and of token recipients, not of native ones; the
    watcher's look-up compares addresses exactly. */
module Attribution {
  import opened Wrappers
  import opened IntentStore
  import opened IdempotencyKeys
  import opened DepositWatchers
  import opened EvmChainClients

  /** The only intent awaiting on the chain at any spelling of this address. */
  ghost predicate AloneAt(s: Store, chainId: string, address: string, id: IntentId) {
    && id in s.rows && AwaitsDepositAt(s.rows[id], chainId, address)
    && forall o, a :: o in s.rows && AwaitsDepositAt(s.rows[o], chainId, a) && Lower(a) == Lower(address) ==> o == id
  }

  /** A token transfer to an awaited address, which its listener hears of, is attributed exactly
      if the address is on file in lower case; else the look-up finds nobody. */
  lemma TokenAttribution(s: Store, chainId: string, address: string, id: IntentId, hash: string, log: TransferLog)
    requires AloneAt(s, chainId, address, id) && Lower(log.to) == Lower(address) && log.amount.Some?
    ensures IsAwaiting(s, chainId, TokenTransfer(hash, log).to, Some(id)) <==> Lower(address) == address
    ensures IsAwaiting(s, chainId, TokenTransfer(hash, log).to, None) <==> Lower(address) != address
  {
    LowerTwice(log.to);
    LowerTwice(address);
  }

  /** A native transfer is attributed exactly if the address is on file as the provider spells it. */
  lemma NativeAttribution(s: Store, chainId: string, address: string, id: IntentId, tx: Native)
    requires AloneAt(s, chainId, address, id) && tx.to.Some? && Lower(tx.to.value) == Lower(address)
    ensures IsAwaiting(s, chainId, NativeTransfer(tx).to, Some(id)) <==> tx.to.value == address
    ensures IsAwaiting(s, chainId, NativeTransfer(tx).to, None) <==> tx.to.value != address
  {
  }

  /** So where the provider spells the address in mixed case, no spelling on file finds the
      intent for both kinds of transfer, though a listener hears both. */
  lemma NoSpellingServesBoth(s: Store, chainId: string, address: string, id: IntentId, hash: string, log: TransferLog, tx: Native)
    requires AloneAt(s, chainId, address, id) && Lower(log.to) == Lower(address) && log.amount.Some?
    requires tx.to.Some? && Lower(tx.to.value) == Lower(address)
    ensures IsAwaiting(s, chainId, TokenTransfer(hash, log).to, Some(id))
            && IsAwaiting(s, chainId, NativeTransfer(tx).to, Some(id))
            <==> tx.to.value == address == Lower(address)
    ensures forall w: Watchers, l :: (Lower(address), l) in w ==>
              (l, NativeTransfer(tx)) in NativeDeliveries(w, tx) && (l, TokenTransfer(hash, log)) in TokenDeliveries(w, hash, log)
  {
    TokenAttribution(s, chainId, address, id, hash, log);
    NativeAttribution(s, chainId, address, id, tx);
    forall w: Watchers, l | (Lower(address), l) in w
      ensures (l, NativeTransfer(tx)) in NativeDeliveries(w, tx) && (l, TokenTransfer(hash, log)) in TokenDeliveries(w, hash, log)
    {
      var p := (Lower(address), l);
      assert p in w && Involves(tx, p.0);
    }
  }
}
