/** The guard rules around the derived phase in `MetaConnect`
    (frontend/src/App.tsx): which contract calls the handlers submit, the
    token-URI lookup guard, the height-timer guard and the choice of action
    the render offers. */
module Commands {
  import opened Wrappers
  import opened Phase

  /** Smallest currency units per whole unit (10^18). */
  const UnitsPerWhole: int := 1_000_000_000_000_000_000

  /** A write call a handler submits to the contract. */
  datatype Call =
    | Bid(from: Option<string>, value: int)
    | CloseAuction

  /** The value sent with a bid of `amount` whole units. */
  function BidValue(amount: int): (v: int)
    ensures v % UnitsPerWhole == 0 && v / UnitsPerWhole == amount
  {
    UnitsPerWhole * amount
  }

  /** `bidHandler` (App.tsx:162-174): a bid from the current account, in
      smallest units, only when a contract exists. */
  function BidCall(hasContract: bool, account: Option<string>, bidAmount: int): (r: Option<Call>)
    ensures r.Some? <==> hasContract
    ensures r.Some? ==> r.value.Bid? && r.value.from == account
    ensures r.Some? ==> r.value.value / UnitsPerWhole == bidAmount && r.value.value % UnitsPerWhole == 0
  {
    if hasContract then Some(Bid(account, BidValue(bidAmount))) else None
  }

  /** `settleHandler` (App.tsx:176-184): closing the auction only when a
      contract exists. The handler itself does not look at the phase. */
  function SettleCall(hasContract: bool): (r: Option<Call>)
    ensures r.Some? <==> hasContract
    ensures r.Some? ==> r.value.CloseAuction?
  {
    if hasContract then Some(CloseAuction) else None
  }

  /** The token-URI effect (App.tsx:77-86): the id it looks up, if any. */
  function TokenUriKey(tuple: Option<AuctionTuple>, hasContract: bool): (k: Option<nat>)
    ensures k.Some? <==> tuple.Some? && tuple.value.nextTokenId != 0 && hasContract
    ensures k.Some? ==> k.value == tuple.value.nextTokenId && k.value > 0
  {
    if tuple.Some? && tuple.value.nextTokenId != 0 && hasContract
    then Some(tuple.value.nextTokenId)
    else None
  }

  /** `accountsChanged` starts a height timer only while `currentBlock` is
      falsy (App.tsx:141): no height yet, or height 0. */
  function StartsHeightTimer(currentBlock: Option<nat>): (b: bool)
    ensures b <==> currentBlock.None? || currentBlock.value == 0
  {
    !Truthy(currentBlock)
  }

  /** What the render offers (App.tsx:216-227). */
  datatype Offer = BidForm | SettleButton | Nothing

  /** The bid form when started, else the settle button when ended, else
      nothing. On a view the derivation produces, each offer corresponds to
      exactly one phase. */
  function Offered(v: View): (o: Offer)
    ensures o == BidForm <==> v.started
    ensures Consistent(v) ==> (o == BidForm <==> v.status.EndsIn?)
    ensures Consistent(v) ==> (o == SettleButton <==> v.status == Ended)
    ensures Consistent(v) ==> (o == Nothing <==> v.status == NotStarted)
  {
    if v.started then BidForm
    else if v.ended then SettleButton
    else Nothing
  }

  /** After any sequence of arrivals the render offers the bid form exactly
      while the status is a countdown and the settle button exactly once the
      status is Ended. */
  lemma OfferedAfterReplay(evs: seq<Event>)
    ensures Offered(Replay(Initial, evs).view) == BidForm <==> Replay(Initial, evs).view.status.EndsIn?
    ensures Offered(Replay(Initial, evs).view) == SettleButton <==> Replay(Initial, evs).view.status == Ended
  {
    InitialReplayConsistent(evs);
  }
}
