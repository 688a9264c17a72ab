/** Reassembly of paged replies: blocks 1..N of one transfer, in any order and with duplicates,
    next to other transfers. */
module Paging {
  import opened Prelude

  type Route = (string, string)

  const AUTH_REQUIRED := 11008

  datatype Key = Key(session: Option<int>, transferId: int, route: Route)

  /** A block as it arrives. `None` in `blockId` or `blockCount` is a missing or non-integer
      field; `size` is the block-size field if it is a positive integer; `ids` are the ids
      the block reports. */
  datatype Payload = Payload(
    blockId: Option<int>, blockCount: Option<int>, errorCode: Option<int>,
    size: Option<int>, ids: seq<int>)

  datatype Block = Block(blockId: int, payload: Payload)

  datatype Transfer = Transfer(
    total: int, updated: real, received: map<int, Payload>, requested: set<int>)

  type Transfers = map<Key, Transfer>

  /** What becomes of the message: on to the handlers as it is, consumed, or on to the handlers
      with the blocks merged in this order. */
  datatype Handling = PassThrough | Consumed | Assembled(blocks: seq<Block>, total: int)

  /** `asked`: the block number passed to the request callback, and whether it raised. */
  datatype Out = Out(transfers: Transfers, handling: Handling, asked: Option<int>)

  // ---------------------------------------------------------------- on values

  predicate ValidIds(p: Payload) {
    p.blockId.Some? && p.blockCount.Some? && 1 <= p.blockId.value <= p.blockCount.value
  }

  /** The first block in lo..hi neither received nor requested. */
  function NextMissing(t: Transfer, lo: int, hi: int): Option<int>
    decreases hi - lo
  {
    if lo > hi then None
    else if lo !in t.received && lo !in t.requested then Some(lo)
    else NextMissing(t, lo + 1, hi)
  }

  function BlocksFrom(received: map<int, Payload>, lo: int, hi: int): seq<Block>
    decreases hi - lo
  {
    if lo > hi then []
    else (if lo in received then [Block(lo, received[lo])] else []) + BlocksFrom(received, lo + 1, hi)
  }

  function Ask(t: Transfer, canRequest: bool, raises: bool): (Transfer, Option<int>) {
    if !canRequest then (t, None)
    else
      match NextMissing(t, 1, t.total)
      case None => (t, None)
      case Some(b) => (if raises then t else t.(requested := t.requested + {b}), Some(b))
  }

  function Store(t: Transfer, b: int, p: Payload, now: real): Transfer {
    t.(received := t.received[b := p], updated := now, requested := t.requested + {b})
  }

  /** A block of a matched reply on a paged route. */
  function Accept(m: Transfers, key: Key, p: Payload, now: real, canRequest: bool, raises: bool): Out {
    if p.errorCode == Some(AUTH_REQUIRED) then Out(m - {key}, PassThrough, None)
    else if !ValidIds(p) then Out(m, Consumed, None)
    else
      var b, n := p.blockId.value, p.blockCount.value;
      var t := if key in m then m[key] else Transfer(n, now, map[], {});
      if t.total != n then Out(m - {key}, PassThrough, None)
      else if b in t.received then Out(m, Consumed, None)
      else
        var (t1, asked) := Ask(Store(t, b, p, now), canRequest, raises);
        if |t1.received| < t1.total then Out(m[key := t1], Consumed, asked)
        else Out(m - {key}, Assembled(BlocksFrom(t1.received, 1, t1.total), t1.total), asked)
  }

  function Expire(m: Transfers, timeouts: map<Route, real>, default: real, now: real): Transfers {
    map k | k in m && now - m[k].updated < (if k.route in timeouts then timeouts[k.route] else default) :: m[k]
  }

  // ---------------------------------------------------------------- in place

  datatype PendingRequest = PendingRequest(seqNo: int, context: Option<Key>)

  datatype Message = Message(
    seqNo: Option<int>, session: Option<int>, route: Route, payload: Option<Payload>, domainDenied: bool)

  datatype RouteSpec = RouteSpec(timeout: real, canRequest: bool)

  /** The key of a matched reply: the one its request carried, or one made of its number. */
  function TransferKey(msg: Message, matched: Option<PendingRequest>): Option<Key> {
    match matched
    case None => None
    case Some(r) =>
      if r.context.Some? then r.context else Some(Key(msg.session, r.seqNo, msg.route))
  }

  class Dispatcher {
    var pending: map<int, PendingRequest>
    var pagedRoutes: map<Route, RouteSpec>
    var pagedTransfers: Transfers
    const pagedTimeout: real

    constructor (pagedTimeout: real)
      ensures pending == map[] && pagedRoutes == map[] && pagedTransfers == map[]
    {
      this.pagedTimeout := pagedTimeout;
      pending, pagedRoutes, pagedTransfers := map[], map[], map[];
    }

    method AddPending(r: PendingRequest)
      modifies this`pending
      ensures pending == old(pending)[r.seqNo := r]
    {
      pending := pending[r.seqNo := r];
    }

    method MatchPending(s: int) returns (r: Option<PendingRequest>)
      modifies this`pending
      ensures r == if s in old(pending) then Some(old(pending)[s]) else None
      ensures pending == old(pending) - {s}
    {
      r := if s in pending then Some(pending[s]) else None;
      pending := pending - {s};
    }

    /** `raises`: the request callback raises when it is called for this message. */
    method Dispatch(msg: Message, now: real, raises: bool) returns (handling: Handling, asked: Option<int>)
      modifies this`pending, this`pagedTransfers
      ensures var hit := msg.seqNo.Some? && msg.seqNo.value > 0 && msg.seqNo.value in old(pending);
        var matched := if hit then Some(old(pending)[msg.seqNo.value]) else None;
        var key := TransferKey(msg, matched);
        var live := Expire(old(pagedTransfers), map r | r in pagedRoutes :: pagedRoutes[r].timeout, pagedTimeout, now);
        && (pending == if hit then old(pending) - {msg.seqNo.value} else old(pending))
        && Out(pagedTransfers, handling, asked)
           == if msg.route !in pagedRoutes || key.None? || msg.payload.None? then Out(live, PassThrough, None)
              else if msg.domainDenied then Out(live - {key.value}, PassThrough, None)
              else Accept(live, key.value, msg.payload.value, now, pagedRoutes[msg.route].canRequest, raises)
    {
      var matched: Option<PendingRequest> := None;
      if msg.seqNo.Some? && msg.seqNo.value > 0 {
        if msg.seqNo.value in pending {
          matched := MatchPending(msg.seqNo.value);
        }
      }
      ExpirePagedTransfers(now);
      handling, asked := MaybeReassemble(msg, matched, now, raises);
    }

    method ExpirePagedTransfers(now: real)
      modifies this`pagedTransfers
      ensures pagedTransfers
           == Expire(old(pagedTransfers), map r | r in pagedRoutes :: pagedRoutes[r].timeout, pagedTimeout, now)
      ensures forall k :: k in pagedTransfers
                <==> k in old(pagedTransfers)
                     && now - old(pagedTransfers)[k].updated
                        < (if k.route in pagedRoutes then pagedRoutes[k.route].timeout else pagedTimeout)
      ensures forall k :: k in pagedTransfers ==> pagedTransfers[k] == old(pagedTransfers)[k]
    {
      var expired := set k | k in pagedTransfers
        && now - pagedTransfers[k].updated
           >= (if k.route in pagedRoutes then pagedRoutes[k.route].timeout else pagedTimeout);
      pagedTransfers := pagedTransfers - expired;
    }

    method MaybeReassemble(msg: Message, matched: Option<PendingRequest>, now: real, raises: bool)
      returns (handling: Handling, asked: Option<int>)
      modifies this`pagedTransfers
      ensures var key := TransferKey(msg, matched);
        Out(pagedTransfers, handling, asked)
        == if msg.route !in pagedRoutes || key.None? || msg.payload.None?
           then Out(old(pagedTransfers), PassThrough, None)
           else if msg.domainDenied then Out(old(pagedTransfers) - {key.value}, PassThrough, None)
           else Accept(old(pagedTransfers), key.value, msg.payload.value, now,
                       pagedRoutes[msg.route].canRequest, raises)
    {
      asked := None;
      if msg.route !in pagedRoutes {
        return PassThrough, None;
      }
      var transferKey := TransferKey(msg, matched);
      if transferKey.None? {
        return PassThrough, None;
      }
      if msg.payload.None? {
        return PassThrough, None;
      }
      var key, p := transferKey.value, msg.payload.value;
      if msg.domainDenied || p.errorCode == Some(AUTH_REQUIRED) {
        pagedTransfers := pagedTransfers - {key};
        return PassThrough, None;
      }
      if !ValidIds(p) {
        return Consumed, None;
      }
      handling, asked := AddBlock(key, p, now, pagedRoutes[msg.route].canRequest, raises);
    }

    method AddBlock(key: Key, p: Payload, now: real, canRequest: bool, raises: bool)
      returns (handling: Handling, asked: Option<int>)
      requires ValidIds(p) && p.errorCode != Some(AUTH_REQUIRED)
      modifies this`pagedTransfers
      ensures Out(pagedTransfers, handling, asked)
           == Accept(old(pagedTransfers), key, p, now, canRequest, raises)
    {
      var blockId, blockCount := p.blockId.value, p.blockCount.value;
      var transfer := Transfer(blockCount, now, map[], {});
      if key in pagedTransfers {
        transfer := pagedTransfers[key];
        if transfer.total != blockCount {
          pagedTransfers := pagedTransfers - {key};
          return PassThrough, None;
        }
      }
      if blockId in transfer.received {
        return Consumed, None;
      }
      transfer := Store(transfer, blockId, p, now);
      asked := None;
      if canRequest {
        transfer, asked := RequestNext(transfer, raises);
      }
      if |transfer.received| < transfer.total {
        pagedTransfers := pagedTransfers[key := transfer];
        return Consumed, asked;
      }
      var blocks := InOrder(transfer);
      pagedTransfers := pagedTransfers - {key};
      handling := Assembled(blocks, transfer.total);
    }

    /** Block numbers lie in 1..total, so ascending order is the order of the range. */
    static method InOrder(t: Transfer) returns (blocks: seq<Block>)
      requires t.total >= 1
      ensures blocks == BlocksFrom(t.received, 1, t.total)
    {
      blocks := [];
      for bid := 1 to t.total + 1
        invariant blocks + BlocksFrom(t.received, bid, t.total) == BlocksFrom(t.received, 1, t.total)
      {
        if bid in t.received {
          blocks := blocks + [Block(bid, t.received[bid])];
        }
      }
      assert BlocksFrom(t.received, t.total + 1, t.total) == [];
    }

    /** Scan for the next missing block and request it; a raise ends the scan. */
    static method RequestNext(t: Transfer, raises: bool) returns (r: Transfer, asked: Option<int>)
      requires t.total >= 1
      ensures (r, asked) == Ask(t, true, raises)
    {
      r, asked := t, None;
      for next := 1 to t.total + 1
        invariant NextMissing(t, 1, t.total) == NextMissing(t, next, t.total)
      {
        if next in t.received {
          continue;
        }
        if next in t.requested {
          continue;
        }
        asked := Some(next);
        if !raises {
          r := t.(requested := t.requested + {next});
        }
        return;
      }
    }
  }
}
