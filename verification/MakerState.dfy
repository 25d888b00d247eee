/** A maker's view of its swaps: coins, the state of a swap, and what a maker does to the world. */
module MakerState {
  import opened Bytes
  import opened Deadline
  import opened RouteFees

  type SwapId = nat
  type Txid = nat
  type OutPoint = nat
  type Key = nat
  type Point = nat
  type Signature = nat

  /** What a contract's scripts commit to: the hash that opens it and the delay or height of its refund. */
  datatype Lock = Lock(hash: Data, delay: nat)

  /** Keys, signatures, contract scripts and the maker's price, left uninterpreted. */
  datatype Config = Config(
    point: Key -> Point,                                // the public key of a private key
    valid: (Txid, Point, Signature) -> bool,            // a contract transaction's signature by a public key
    decode: (Protocol, seq<Data>) -> Option<Lock>,      // the lock of well-formed contract scripts
    fee: (nat, nat) -> nat)                             // the service fee for an amount and a locktime

  datatype Phase =
    | AwaitingHello | AwaitingOfferRequest | AwaitingSwapDetails | AwaitingContractData
    | AwaitingSignatures | AwaitingHandover | Completed
  {
    function Rank(): nat {
      match this
      case AwaitingHello => 0
      case AwaitingOfferRequest => 1
      case AwaitingSwapDetails => 2
      case AwaitingContractData => 3
      case AwaitingSignatures => 4
      case AwaitingHandover => 5
      case Completed => 6
    }

    predicate Negotiated() {
      Rank() >= 3
    }
  }

  /** What taker and maker agree on in the swap details. */
  datatype Terms = Terms(protocol: Protocol, amount: nat, count: nat, timelock: nat, offset: nat)

  /** A coin the maker receives, from the given outpoint. */
  datatype Incoming = Incoming(
    outpoint: OutPoint, scripts: seq<Data>, contract: Txid, amount: nat, other: Point,
    signature: Option<Signature>, otherKey: Option<Key>)

  /** A coin the maker pays; a Taproot contract is its own funding transaction. */
  datatype Outgoing = Outgoing(
    funding: Txid, contract: Txid, scripts: seq<Data>, amount: nat, other: Point, key: Key, signature: Option<Signature>)

  datatype Swap = Swap(
    terms: Terms,
    phase: Phase,
    incoming: seq<Incoming>,
    outgoing: seq<Outgoing>,
    pending: seq<Txid>,
    broadcast: bool,
    service: nat)

  const NO_SWAP: Swap := Swap(Terms(Legacy, 0, 0, 0, 0), AwaitingHello, [], [], [], false, 0)

  /** A swap as the registry holds it: also when its incoming funding confirmed and when it was last active. */
  datatype Entry = Entry(swap: Swap, confirmed: Option<nat>, active: nat)

  /** A connection's own copy of a swap. */
  datatype Conn = Conn(id: Option<SwapId>, swap: Swap)

  const NEW_CONN: Conn := Conn(None, NO_SWAP)

  function IncomingTotal(coins: seq<Incoming>): nat {
    if coins == [] then 0 else IncomingTotal(coins[..|coins| - 1]) + coins[|coins| - 1].amount
  }

  function OutgoingTotal(coins: seq<Outgoing>): nat {
    if coins == [] then 0 else OutgoingTotal(coins[..|coins| - 1]) + coins[|coins| - 1].amount
  }

  /** Conservation: what comes in is what goes out and the maker's fees, and at most what was agreed. */
  predicate Balances(s: Swap) {
    && IncomingTotal(s.incoming) == OutgoingTotal(s.outgoing) + s.service + FUNDING_FEE * |s.outgoing|
    && IncomingTotal(s.incoming) <= s.terms.amount
  }

  function Fundings(coins: seq<Outgoing>): seq<Txid> {
    seq(|coins|, i requires 0 <= i < |coins| => coins[i].funding)
  }

  /** What an accepted proof comes to, whatever signatures and keys its coins gain later. */
  datatype Deal = Deal(id: SwapId, terms: Terms, incoming: seq<Incoming>, outgoing: seq<Outgoing>, service: nat)

  function Unkeyed(coins: seq<Incoming>): seq<Incoming> {
    seq(|coins|, i requires 0 <= i < |coins| => coins[i].(signature := None, otherKey := None))
  }

  function Unsigned(coins: seq<Outgoing>): seq<Outgoing> {
    seq(|coins|, i requires 0 <= i < |coins| => coins[i].(signature := None))
  }

  function DealOf(id: SwapId, s: Swap): Deal {
    Deal(id, s.terms, Unkeyed(s.incoming), Unsigned(s.outgoing), s.service)
  }

  // -------------------------------------------------------------------- effects

  /** A sender's contract for a funding outpoint. */
  datatype Binding = Binding(outpoint: OutPoint, scripts: seq<Data>)

  /** A transaction a receiver wants signed: the keys of the multisig, the transactions it spends, its outputs. */
  datatype SpendRequest = SpendRequest(multisig: set<Point>, inputs: seq<Txid>, outputs: nat, tx: Txid)

  /** The outgoing coin found for such a request. */
  datatype Endorsement = Endorsement(coin: Outgoing, spend: SpendRequest)

  /** The swap on whose behalf the maker acts. */
  datatype Batch = Batch(id: SwapId, swap: Swap)

  datatype Effect =
    | Admit(id: SwapId, terms: Terms)
    | Bind(bindings: seq<Binding>)                 // the contracts the maker signs for the sender's funding
    | Endorse(spends: seq<Endorsement>)            // the spends of its own coins the maker signs for their receiver
    | Fund(deal: Deal, hops: nat)                  // the wallet makes the outgoing coins, for so many next-hop keys
    | Watch(outpoint: Txid)
    | SaveIncoming(received: Incoming)
    | SaveOutgoing(paid: Outgoing)
    | Broadcast(batch: Batch, tx: Txid)
    | Release(batch: Batch)                        // the private keys of the outgoing coins
    | Discard(id: SwapId, contracts: seq<Txid>)    // recovery deletes the coins with these contracts

  type Log = seq<Effect>

  /** The wallet's contract for each outpoint after the given bindings; a later one takes the place of an earlier one. */
  function Rebound(cache: map<OutPoint, seq<Data>>, bs: seq<Binding>): map<OutPoint, seq<Data>> {
    if bs == [] then cache
    else Rebound(cache, bs[..|bs| - 1])[bs[|bs| - 1].outpoint := bs[|bs| - 1].scripts]
  }

  function CacheOf(log: Log): map<OutPoint, seq<Data>> {
    if log == [] then map[]
    else
      var before, e := CacheOf(log[..|log| - 1]), log[|log| - 1];
      if e.Bind? then Rebound(before, e.bindings) else before
  }
}
