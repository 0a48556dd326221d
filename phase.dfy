/** The auction phase reconciliation of the `MetaConnect` component
    (frontend/src/App.tsx): the auction tuple and the block height are polled
    separately, and every time either changes two effects re-derive the three
    display fields `auctionEnded`, `auctionStarted` and `auctionStatus`.

    Everything in this module is a value; the class in module `Connect`
    holds the same state in mutable fields and is proved against these
    functions. */
module Phase {
  import opened Wrappers

  /** The tuple returned by the contract's `auctionState()` read. The
      component addresses it by position: '0' is the next token id, '1' the
      highest bidder, '2' the highest bid and '3' the end block (0 when no
      auction is scheduled). */
  datatype AuctionTuple = AuctionTuple(
    nextTokenId: nat,
    highestBidder: string,
    highestBid: nat,
    endBlock: nat)

  /** The text held in `auctionStatus`: "Not Started", "Ended" or
      "Ends in <blocks> blocks". */
  datatype Status = NotStarted | Ended | EndsIn(blocks: int)

  /** The three derived display fields. */
  datatype View = View(ended: bool, started: bool, status: Status)

  /** Their values before anything has been derived. */
  const InitialView := View(false, false, NotStarted)

  /** The view each branch of the derivation writes for a given status. */
  function ViewOf(s: Status): View {
    View(s == Ended, s.EndsIn?, s)
  }

  /** The view the derivation can produce: the flags are determined by the
      status and a countdown is strictly positive. */
  predicate Consistent(v: View) {
    v == ViewOf(v.status) && (v.status.EndsIn? ==> v.status.blocks > 0)
  }

  /** A JavaScript number used as a condition: `null` and 0 are falsy. */
  predicate Truthy(h: Option<nat>) {
    h.Some? && h.value != 0
  }

  /** The guard of the first effect: a tuple has arrived and the height is
      truthy. */
  predicate Derives(tuple: Option<AuctionTuple>, height: Option<nat>) {
    tuple.Some? && Truthy(height)
  }

  /** The phase an end block and a height classify to, or None where no branch
      of the derivation applies: when the end block equals the height. */
  function Classify(endBlock: nat, height: nat): (r: Option<Status>)
    requires height > 0
    ensures r == Some(NotStarted) <==> endBlock == 0
    ensures r == Some(Ended) <==> 0 < endBlock < height
    ensures r.Some? && r.value.EndsIn? <==> endBlock > height
    ensures r.None? <==> endBlock == height
    ensures r.Some? && r.value.EndsIn? ==> r.value.blocks > 0 && height + r.value.blocks == endBlock
  {
    if endBlock == 0 then Some(NotStarted)
    else if endBlock < height then Some(Ended)
    else if endBlock > height then Some(EndsIn(endBlock - height))
    else None
  }

  /** The first effect (App.tsx:56-75): when it runs and a branch applies, the
      view becomes that branch's view; otherwise it is left as it was. */
  function PhaseEffect(tuple: Option<AuctionTuple>, height: Option<nat>, v: View): View {
    if !Derives(tuple, height) then v
    else match Classify(tuple.value.endBlock, height.value)
      case Some(s) => ViewOf(s)
      case None => v
  }

  /** The height the second effect compares against: `currentBlock || 0`. */
  function HeightOrZero(height: Option<nat>): nat {
    if height.Some? then height.value else 0
  }

  /** The second effect (App.tsx:104-108): it only ever sets `auctionEnded`. */
  function EndedEffect(tuple: Option<AuctionTuple>, height: Option<nat>, v: View): View {
    if tuple.Some? && tuple.value.endBlock > 0 && tuple.value.endBlock < HeightOrZero(height)
    then v.(ended := true)
    else v
  }

  /** Both effects, in the order the component declares them, as they run
      after every change of the tuple or the height. */
  function Reconcile(tuple: Option<AuctionTuple>, height: Option<nat>, v: View): (r: View)
    ensures !Derives(tuple, height) ==> r == v
    ensures Derives(tuple, height) && tuple.value.endBlock == 0 ==> r == ViewOf(NotStarted)
    ensures Derives(tuple, height) && 0 < tuple.value.endBlock < height.value ==> r == ViewOf(Ended)
    ensures Derives(tuple, height) && tuple.value.endBlock > height.value ==>
      r == ViewOf(EndsIn(tuple.value.endBlock - height.value))
    ensures Derives(tuple, height) && tuple.value.endBlock == height.value ==> r == v
    ensures Consistent(v) ==> Consistent(r)
  {
    EndedEffect(tuple, height, PhaseEffect(tuple, height, v))
  }

  /** The second effect adds nothing to the first: it sets `auctionEnded`
      only where the first effect's Ended branch already has. */
  lemma EndedEffectRedundant(tuple: Option<AuctionTuple>, height: Option<nat>, v: View)
    ensures Reconcile(tuple, height, v) == PhaseEffect(tuple, height, v)
  {
  }

  /** Re-running both effects on the same inputs changes nothing. */
  lemma ReconcileIdempotent(tuple: Option<AuctionTuple>, height: Option<nat>, v: View)
    ensures Reconcile(tuple, height, Reconcile(tuple, height, v)) == Reconcile(tuple, height, v)
  {
  }

  /** The state the effects read and write: the latest tuple, the latest
      height and the derived view. */
  datatype Snapshot = Snapshot(tuple: Option<AuctionTuple>, height: Option<nat>, view: View)

  /** The state when the component mounts. */
  const Initial := Snapshot(None, None, InitialView)

  /** An arrival from one of the two pollers. */
  datatype Event = TupleArrived(t: AuctionTuple) | HeightArrived(h: nat)

  /** One arrival: the stored value is overwritten and both effects re-run. */
  function Step(s: Snapshot, e: Event): (r: Snapshot)
    ensures e.TupleArrived? ==> r.tuple == Some(e.t) && r.height == s.height
    ensures e.HeightArrived? ==> r.height == Some(e.h) && r.tuple == s.tuple
    ensures r.view == Reconcile(r.tuple, r.height, s.view)
  {
    match e
    case TupleArrived(t) => Snapshot(Some(t), s.height, Reconcile(Some(t), s.height, s.view))
    case HeightArrived(h) => Snapshot(s.tuple, Some(h), Reconcile(s.tuple, Some(h), s.view))
  }

  /** Arrivals in the order they happen. */
  function Replay(s: Snapshot, evs: seq<Event>): Snapshot
    decreases |evs|
  {
    if evs == [] then s else Replay(Step(s, evs[0]), evs[1..])
  }

  /** Whatever the order of tuple and height arrivals, the derived view stays
      consistent; in particular `auctionEnded` and `auctionStarted` are never
      both true. */
  lemma {:induction false} ReplayConsistent(s: Snapshot, evs: seq<Event>)
    requires Consistent(s.view)
    ensures Consistent(Replay(s, evs).view)
    ensures !(Replay(s, evs).view.ended && Replay(s, evs).view.started)
    decreases |evs|
  {
    if evs != [] {
      ReplayConsistent(Step(s, evs[0]), evs[1..]);
    }
  }

  /** From mount on, the view is always one the derivation can produce. */
  lemma InitialReplayConsistent(evs: seq<Event>)
    ensures Consistent(Replay(Initial, evs).view)
  {
    ReplayConsistent(Initial, evs);
  }

  /** Until a truthy height arrives the derivation never runs, so the view
      keeps the values it had, the initial ones from mount on. */
  lemma {:induction false} ReplayWithoutHeight(s: Snapshot, evs: seq<Event>)
    requires !Truthy(s.height)
    requires forall i :: 0 <= i < |evs| ==> !(evs[i].HeightArrived? && evs[i].h != 0)
    ensures Replay(s, evs).view == s.view
    decreases |evs|
  {
    if evs != [] {
      ReplayWithoutHeight(Step(s, evs[0]), evs[1..]);
    }
  }

  /** Until the first tuple arrives the derivation never runs either. */
  lemma {:induction false} ReplayWithoutTuple(s: Snapshot, evs: seq<Event>)
    requires s.tuple.None?
    requires forall i :: 0 <= i < |evs| ==> evs[i].HeightArrived?
    ensures Replay(s, evs).view == s.view
    decreases |evs|
  {
    if evs != [] {
      ReplayWithoutTuple(Step(s, evs[0]), evs[1..]);
    }
  }

  /** The same tuple, or the same height, arriving twice in a row leaves the
      state as the first arrival left it. */
  lemma RepeatIdempotent(s: Snapshot, e: Event)
    ensures Replay(s, [e, e]) == Replay(s, [e])
  {
  }

  /** At the boundary (end block equal to a non-zero height) nothing changes:
      the previous flags and status remain, including a stale countdown. */
  lemma BoundaryKeepsView(s: Snapshot, e: Event)
    requires Derives(Step(s, e).tuple, Step(s, e).height)
    requires Step(s, e).tuple.value.endBlock == Step(s, e).height.value
    ensures Step(s, e).view == s.view
  {
  }
}
