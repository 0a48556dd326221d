/** The state of the `MetaConnect` component (frontend/src/App.tsx) as an
    object whose fields the handlers and effects update in place. Network
    and wallet responses arrive as parameters. */
module Connect {
  import opened Wrappers
  import opened Phase
  import opened Commands

  /** The message `accountsChanged` shows when adopting an account fails. */
  const ConnectError := "There was a problem connecting to MetaMask"

  class MetaConnect {
    var account: Option<string>
    var balance: Option<string>
    var errorMessage: Option<string>
    var hasWeb3: bool
    var hasContract: bool
    var auctionState: Option<AuctionTuple>
    var currentBlock: Option<nat>
    var bidAmount: int
    var auctionEnded: bool
    var auctionStarted: bool
    var auctionStatus: Status
    var tokenURI: string
    /** How many height intervals `accountsChanged` has started. */
    var heightTimers: nat
    /** How many web3 instances `accountsChanged` has created. */
    var web3Created: nat

    /** The three derived display fields. */
    function Derived(): View
      reads this
    {
      View(auctionEnded, auctionStarted, auctionStatus)
    }

    /** The inputs and outputs of the two derivation effects. */
    function Snap(): Snapshot
      reads this
    {
      Snapshot(auctionState, currentBlock, Derived())
    }

    /** The derived fields hold a view the derivation can produce. */
    predicate Valid()
      reads this
    {
      Consistent(Derived())
    }

    /** The initial state (App.tsx:32-43). */
    constructor ()
      ensures Valid() && Snap() == Initial
      ensures account.None? && balance.None? && errorMessage.None?
      ensures !hasWeb3 && !hasContract && bidAmount == 0 && tokenURI == ""
      ensures heightTimers == 0 && web3Created == 0
    {
      account, balance, errorMessage := None, None, None;
      hasWeb3, hasContract := false, false;
      auctionState, currentBlock := None, None;
      bidAmount := 0;
      auctionEnded, auctionStarted, auctionStatus := false, false, NotStarted;
      tokenURI := "";
      heightTimers := 0;
      web3Created := 0;
    }

    /** The first effect (App.tsx:56-75): three `if`s in sequence, each
        assigning all three fields; none applies at the boundary. */
    method RunPhaseEffect()
      modifies this`auctionEnded, this`auctionStarted, this`auctionStatus
      ensures Derived() == PhaseEffect(auctionState, currentBlock, old(Derived()))
    {
      if auctionState.Some? && currentBlock.Some? && currentBlock.value != 0 {
        var auctionEnd := auctionState.value.endBlock;
        var current := currentBlock.value;
        if auctionEnd == 0 {
          auctionEnded := false;
          auctionStarted := false;
          auctionStatus := NotStarted;
        }
        if auctionEnd > 0 && auctionEnd < current {
          auctionEnded := true;
          auctionStarted := false;
          auctionStatus := Ended;
        }
        if auctionEnd > 0 && auctionEnd > current {
          auctionEnded := false;
          auctionStarted := true;
          auctionStatus := EndsIn(auctionEnd - current);
        }
      }
    }

    /** The second effect (App.tsx:104-108). */
    method RunEndedEffect()
      modifies this`auctionEnded
      ensures Derived() == EndedEffect(auctionState, currentBlock, old(Derived()))
    {
      var current := if currentBlock.Some? then currentBlock.value else 0;
      if auctionState.Some? && auctionState.value.endBlock > 0 && auctionState.value.endBlock < current {
        auctionEnded := true;
      }
    }

    /** A tuple arrives from the 1000 ms poll or the re-read after a bid
        (App.tsx:48-50, 169-170); both effects re-run. */
    method UpdateTuple(t: AuctionTuple)
      requires Valid()
      modifies this`auctionState, this`auctionEnded, this`auctionStarted, this`auctionStatus
      ensures Valid()
      ensures Snap() == Step(old(Snap()), TupleArrived(t))
    {
      auctionState := Some(t);
      RunPhaseEffect();
      RunEndedEffect();
    }

    /** A height arrives from the 6000 ms poll (App.tsx:142-148); both
        effects re-run. */
    method UpdateHeight(h: nat)
      requires Valid()
      modifies this`currentBlock, this`auctionEnded, this`auctionStarted, this`auctionStatus
      ensures Valid()
      ensures Snap() == Step(old(Snap()), HeightArrived(h))
    {
      currentBlock := Some(h);
      RunPhaseEffect();
      RunEndedEffect();
    }

    /** The token-URI effect (App.tsx:77-86), with `fetched` the contract's
        answer for the id it looks up, or None when that read fails. */
    method LookupTokenUri(fetched: Option<string>) returns (key: Option<nat>)
      requires Valid()
      modifies this`tokenURI
      ensures Valid()
      ensures key == TokenUriKey(auctionState, hasContract)
      ensures tokenURI == if key.Some? && fetched.Some? then fetched.value else old(tokenURI)
    {
      key := None;
      if auctionState.Some? && auctionState.value.nextTokenId != 0 && hasContract {
        key := Some(auctionState.value.nextTokenId);
        if fetched.Some? {
          tokenURI := fetched.value;
        }
      }
    }

    /** `accountsChanged` (App.tsx:128-156). `fetchedBalance` is the formatted
        balance, or None when the balance request fails. On success it creates
        web3 if there is none and starts a height timer if `currentBlock` is
        falsy; either way the new account makes the contract effect
        (App.tsx:94-102) rebuild the contract whenever web3 exists. */
    method AccountsChanged(newAccount: string, fetchedBalance: Option<string>)
      requires Valid()
      modifies this`account, this`balance, this`errorMessage, this`hasWeb3, this`hasContract
      modifies this`heightTimers, this`web3Created
      ensures Valid()
      ensures account == Some(newAccount)
      ensures fetchedBalance.None? ==>
        errorMessage == Some(ConnectError) && balance == old(balance) &&
        hasWeb3 == old(hasWeb3) && heightTimers == old(heightTimers)
      ensures web3Created == old(web3Created) + (if fetchedBalance.Some? && !old(hasWeb3) then 1 else 0)
      ensures fetchedBalance.Some? ==>
        errorMessage == old(errorMessage) && balance == fetchedBalance && hasWeb3 &&
        heightTimers == old(heightTimers) + (if StartsHeightTimer(currentBlock) then 1 else 0)
      ensures hasContract == (hasWeb3 || old(hasContract))
    {
      account := Some(newAccount);
      if fetchedBalance.None? {
        errorMessage := Some(ConnectError);
      } else {
        balance := fetchedBalance;
        if !hasWeb3 {
          hasWeb3 := true;
          web3Created := web3Created + 1;
        }
        if !(currentBlock.Some? && currentBlock.value != 0) {
          heightTimers := heightTimers + 1;
        }
      }
      if hasWeb3 {
        hasContract := true;
      }
    }

    /** The bid amount field (App.tsx:219), already parsed. */
    method SetBidAmount(amount: int)
      requires Valid()
      modifies this`bidAmount
      ensures Valid()
      ensures bidAmount == amount
    {
      bidAmount := amount;
    }

    /** `bidHandler` (App.tsx:162-174). `reread` is the tuple read right after
        the bid was accepted, or None when the bid is rejected. */
    method BidHandler(reread: Option<AuctionTuple>) returns (call: Option<Call>)
      requires Valid()
      modifies this`auctionState, this`auctionEnded, this`auctionStarted, this`auctionStatus
      ensures Valid()
      ensures call == BidCall(hasContract, account, bidAmount)
      ensures call.Some? ==> call.value.value == UnitsPerWhole * bidAmount
      ensures Snap() == if hasContract && reread.Some?
                        then Step(old(Snap()), TupleArrived(reread.value))
                        else old(Snap())
    {
      call := None;
      if hasContract {
        call := Some(Bid(account, UnitsPerWhole * bidAmount));
        if reread.Some? {
          UpdateTuple(reread.value);
        }
      }
    }

    /** `settleHandler` (App.tsx:176-184); no re-read follows. */
    method SettleHandler() returns (call: Option<Call>)
      ensures call == SettleCall(hasContract)
    {
      call := None;
      if hasContract {
        call := Some(CloseAuction);
      }
    }

    /** The action the render offers (App.tsx:216-227). */
    method OfferedAction() returns (o: Offer)
      requires Valid()
      ensures o == Offered(Derived())
      ensures o == BidForm <==> auctionStatus.EndsIn?
      ensures o == SettleButton <==> auctionStatus == Ended
    {
      if auctionStarted {
        o := BidForm;
      } else if auctionEnded {
        o := SettleButton;
      } else {
        o := Nothing;
      }
    }
  }

  /** Two account notifications before the first height tick (the height
      stays null for at least 6000 ms, the first tick's delay plus the
      request's latency) leave two height intervals running, while the model
      creates web3 once (the program's closure still sees null and creates a
      second). */
  method TimersBeforeFirstTick()
  {
    var m := new MetaConnect();
    m.AccountsChanged("0xa", Some("1.0"));
    m.AccountsChanged("0xb", Some("1.0"));
    assert m.heightTimers == 2;
    assert m.web3Created == 1;
  }

  /** An auction with end block 100 seen at heights 80, 100 and 101: the
      countdown of 20 blocks stays displayed at height 100. */
  method BoundaryScenario()
  {
    var m := new MetaConnect();
    m.UpdateTuple(AuctionTuple(1, "", 0, 100));
    m.UpdateHeight(80);
    assert m.Derived() == View(false, true, EndsIn(20));
    m.UpdateHeight(100);
    assert m.Derived() == View(false, true, EndsIn(20));
    m.UpdateHeight(101);
    assert m.Derived() == View(true, false, Ended);
    var o := m.OfferedAction();
    assert o == SettleButton;
  }
}
