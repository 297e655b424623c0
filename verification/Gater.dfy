/** The connection gater: a cache of authorized wallets in front of the wallet registry. */
module Gater {
  import opened Results

  type Wallet = nat

  datatype Error = RegistryFailed | NoWallet

  /** What the registry function returns when it is called. */
  type Fetch = Result<seq<Wallet>, Error>

  function Listed(wallets: seq<Wallet>): set<Wallet> {
    set w | w in wallets
  }

  /** A check that nothing interrupts: the verdict on a wallet. */
  function Verdict(cache: set<Wallet>, wallet: Wallet, fetch: Fetch): Result<bool, Error> {
    if wallet in cache then Ok(true)
    else if fetch.Err? then Err(RegistryFailed)
    else Ok(wallet in fetch.value)
  }

  class SolanaRegistryGater {
    var authorizedWallets: set<Wallet>

    constructor ()
      ensures authorizedWallets == {}
    {
      authorizedWallets := {};
    }

    /** A failed refresh leaves the cache as it was; a successful one makes it the list fetched. */
    method RefreshCache(fetch: Fetch)
      modifies this
      ensures authorizedWallets == if fetch.Ok? then Listed(fetch.value) else old(authorizedWallets)
    {
      if fetch.Err? {
        return;
      }
      var wallets := fetch.value;
      authorizedWallets := {};
      for i := 0 to |wallets|
        invariant authorizedWallets == Listed(wallets[..i])
      {
        assert wallets[..i + 1] == wallets[..i] + [wallets[i]];
        authorizedWallets := authorizedWallets + {wallets[i]};
      }
      assert wallets[..|wallets|] == wallets;
    }

    method ClearCache()
      modifies this
      ensures authorizedWallets == {}
    {
      authorizedWallets := {};
    }

    /** Only a wallet that is accepted is ever added, and only after a miss; asked tells whether the registry was. */
    method CheckWalletInCache(wallet: Wallet, fetch: Fetch) returns (verdict: Result<bool, Error>, asked: bool)
      modifies this
      ensures verdict == Verdict(old(authorizedWallets), wallet, fetch)
      ensures authorizedWallets == old(authorizedWallets) + if verdict == Ok(true) then {wallet} else {}
      ensures asked <==> wallet !in old(authorizedWallets)
      ensures verdict == Ok(true) <==> wallet in old(authorizedWallets) || (fetch.Ok? && wallet in fetch.value)
      ensures verdict == Ok(false) <==> asked && fetch.Ok? && wallet !in fetch.value
      ensures verdict.Err? <==> asked && fetch.Err?
    {
      if wallet in authorizedWallets {
        return Ok(true), false;
      }
      if fetch.Err? {
        return Err(RegistryFailed), true;
      }
      var wallets := fetch.value;
      var authorized := false;
      for i := 0 to |wallets|
        invariant !authorized && wallet !in wallets[..i]
      {
        if wallet == wallets[i] {
          authorized := true;
          break;
        }
      }
      if authorized {
        authorizedWallets := authorizedWallets + {wallet};
      }
      return Ok(authorized), true;
    }

    method IsAuthorizedPeer(wallet: Option<Wallet>, fetch: Fetch) returns (verdict: Result<bool, Error>)
      modifies this
      ensures wallet.None? ==> verdict == Err(NoWallet) && authorizedWallets == old(authorizedWallets)
      ensures wallet.Some? ==> verdict == Verdict(old(authorizedWallets), wallet.value, fetch)
      ensures authorizedWallets == old(authorizedWallets) + if verdict == Ok(true) then {wallet.value} else {}
      ensures verdict == Ok(true)
              <==> && wallet.Some?
                   && (wallet.value in old(authorizedWallets) || (fetch.Ok? && wallet.value in fetch.value))
      ensures verdict.Err? <==> wallet.None? || (wallet.value !in old(authorizedWallets) && fetch.Err?)
    {
      if wallet.None? {
        return Err(NoWallet);
      }
      var checked, _ := CheckWalletInCache(wallet.value, fetch);
      return checked;
    }

    /** A peer is given by the wallet its ID yields, if any. An error blocks the connection as a refusal does. */
    method InterceptPeerDial(wallet: Option<Wallet>, fetch: Fetch) returns (allow: bool)
      modifies this
      ensures allow
              <==> && wallet.Some?
                   && (wallet.value in old(authorizedWallets) || (fetch.Ok? && wallet.value in fetch.value))
      ensures authorizedWallets == old(authorizedWallets) + if allow then {wallet.value} else {}
    {
      var verdict := IsAuthorizedPeer(wallet, fetch);
      if verdict.Err? {
        return false;
      }
      return verdict.value;
    }

    method InterceptSecured(wallet: Option<Wallet>, fetch: Fetch) returns (allow: bool)
      modifies this
      ensures allow
              <==> && wallet.Some?
                   && (wallet.value in old(authorizedWallets) || (fetch.Ok? && wallet.value in fetch.value))
      ensures authorizedWallets == old(authorizedWallets) + if allow then {wallet.value} else {}
    {
      var verdict := IsAuthorizedPeer(wallet, fetch);
      if verdict.Err? {
        return false;
      }
      return verdict.value;
    }
  }
}
