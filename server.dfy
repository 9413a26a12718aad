/**
 * The server side of the click counter (sever.py): the global click total, the
 * per-connection click counts and the set of connected clients, with the click
 * handler, the dispatch of one inbound message, the init message, the safe send
 * used by broadcasts, and the cleanup when a connection ends.
 *
 * A connection is identified by a `ClientId` (Python's `id(websocket)`); the
 * transport is reduced to a set `closed` of connections on which a send raises
 * `ConnectionClosed`. Each step runs atomically: the interleaving of concurrent
 * handlers is not modelled.
 */
module ClickServer {
  import opened Wrappers

  type ClientId = nat

  /** A message the server sends, as its JSON `type` and counters. */
  datatype ServerMessage =
    | Init(totalClicks: nat)
    | ClickResponse(clientClicks: nat, totalClicks: nat)
    | GlobalUpdate(totalClicks: nat)
    | Pong

  /** An inbound frame: a JSON object with an optional `type`, or anything else. Text that
      `json.loads` rejects and JSON that is not an object (whose `get` raises) both end the loop. */
  datatype ClientMessage = Message(kind: Option<string>) | Unparseable

  /** `client_clicks.get(c, 0)`. */
  function CountOf(m: map<ClientId, nat>, c: ClientId): (n: nat)
  {
    if c in m then m[c] else 0
  }

  /** The counts after one click of `c`. */
  function Bumped(m: map<ClientId, nat>, c: ClientId): (m': map<ClientId, nat>)
  {
    m[c := CountOf(m, c) + 1]
  }

  /** The sum of the counts of the clients in `keys`. */
  ghost function SumOver(m: map<ClientId, nat>, keys: set<ClientId>): (total: nat)
    requires keys <= m.Keys
    decreases keys
  {
    if keys == {} then 0
    else
      var k :| k in keys;
      m[k] + SumOver(m, keys - {k})
  }

  /** The sum of all per-client counts. */
  ghost function Sum(m: map<ClientId, nat>): (total: nat)
  {
    SumOver(m, m.Keys)
  }

  /** Any client may be taken out of the sum first, not only the one `SumOver` picks. */
  lemma {:induction false} SumOverRemove(m: map<ClientId, nat>, keys: set<ClientId>, k: ClientId)
    requires keys <= m.Keys && k in keys
    ensures SumOver(m, keys) == m[k] + SumOver(m, keys - {k})
    decreases keys
  {
    var j :| j in keys && SumOver(m, keys) == m[j] + SumOver(m, keys - {j});
    if j != k {
      SumOverRemove(m, keys - {j}, k);
      SumOverRemove(m, keys - {k}, j);
      assert keys - {j} - {k} == keys - {k} - {j};
    }
  }

  /** The sum over `keys` depends only on the counts of those keys. */
  lemma {:induction false} SumOverAgree(m1: map<ClientId, nat>, m2: map<ClientId, nat>, keys: set<ClientId>)
    requires keys <= m1.Keys && keys <= m2.Keys
    requires forall k :: k in keys ==> m1[k] == m2[k]
    ensures SumOver(m1, keys) == SumOver(m2, keys)
    decreases keys
  {
    if keys != {} {
      var k :| k in keys;
      SumOverRemove(m1, keys, k);
      SumOverRemove(m2, keys, k);
      SumOverAgree(m1, m2, keys - {k});
    }
  }

  /** Removing a client's entry takes exactly its count off the sum. */
  lemma SumRemove(m: map<ClientId, nat>, c: ClientId)
    ensures Sum(m - {c}) + CountOf(m, c) == Sum(m)
  {
    if c in m {
      SumOverRemove(m, m.Keys, c);
      assert (m - {c}).Keys == m.Keys - {c};
      SumOverAgree(m - {c}, m, m.Keys - {c});
    } else {
      assert m - {c} == m;
    }
  }

  /** One click of `c` adds exactly one to the sum. */
  lemma SumBumped(m: map<ClientId, nat>, c: ClientId)
    ensures Sum(Bumped(m, c)) == Sum(m) + 1
  {
    var b := Bumped(m, c);
    SumRemove(b, c);
    SumRemove(m, c);
    assert b - {c} == m - {c};
  }

  /** No single count exceeds the sum. */
  lemma EntryBound(m: map<ClientId, nat>, c: ClientId)
    ensures CountOf(m, c) <= Sum(m)
  {
    SumRemove(m, c);
  }

  class Server {
    /** `total_clicks`: every click ever handled, never decreased. */
    var total: nat
    /** `client_clicks`: clicks of each live connection, keyed by `id(websocket)`. */
    var clicks: map<ClientId, nat>
    /** `connected_users`. */
    var users: set<ClientId>

    /** Entries grow only in step with the total and are only ever removed. */
    ghost predicate Valid()
      reads this
    {
      Sum(clicks) <= total
    }

    constructor ()
      ensures Valid()
      ensures total == 0 && clicks == map[] && users == {}
    {
      total := 0;
      clicks := map[];
      users := {};
    }

    /** `send_init`'s message: the current total, which bounds every client's count. */
    method InitMessage() returns (m: ServerMessage)
      requires Valid()
      ensures m.Init? && m.totalClicks == total
      ensures Sum(clicks) <= m.totalClicks
      ensures forall c :: c in clicks ==> clicks[c] <= m.totalClicks
    {
      m := Init(total);
      forall c | c in clicks
        ensures clicks[c] <= m.totalClicks
      {
        EntryBound(clicks, c);
      }
    }

    /** The start of `handler`: register the connection, then send it `init`. When that
        send raises, the handler ends before its `try`, so no cleanup runs. */
    method Connect(c: ClientId, closed: set<ClientId>) returns (init: Option<ServerMessage>)
      requires Valid()
      modifies this`users
      ensures Valid()
      ensures users == old(users) + {c}
      ensures init == if c in closed then None else Some(Init(total))
    {
      users := users + {c};
      var m := InitMessage();
      init := if c in closed then None else Some(m);
    }

    /** `send_safe`: a send that raises `ConnectionClosed` drops the client everywhere. */
    method SendSafe(c: ClientId, closed: set<ClientId>) returns (delivered: bool)
      requires Valid()
      modifies this`users, this`clicks
      ensures Valid()
      ensures delivered <==> c !in closed
      ensures users == if delivered then old(users) else old(users) - {c}
      ensures clicks == if delivered then old(clicks) else old(clicks) - {c}
    {
      delivered := c !in closed;
      if !delivered {
        SumRemove(clicks, c);
        users := users - {c};
        clicks := clicks - {c};
      }
    }

    /** `broadcast_all`: send to every client connected when the broadcast starts; those
        whose connection is closed are dropped. Returns the clients that received it. */
    method BroadcastAll(closed: set<ClientId>) returns (recipients: set<ClientId>)
      requires Valid()
      modifies this`users, this`clicks
      ensures Valid()
      ensures recipients == old(users) - closed
      ensures users == old(users) - closed
      ensures clicks == old(clicks) - (old(users) * closed)
    {
      recipients := {};
      var pending := users;
      ghost var sent: set<ClientId> := {};
      while pending != {}
        invariant Valid()
        invariant pending !! sent && pending + sent == old(users)
        invariant recipients == sent - closed
        invariant users == old(users) - sent * closed
        invariant clicks == old(clicks) - sent * closed
        decreases pending
      {
        var u :| u in pending;
        var delivered := SendSafe(u, closed);
        if delivered {
          recipients := recipients + {u};
        }
        pending := pending - {u};
        sent := sent + {u};
      }
    }

    /** `handle_click`: count the click, answer the clicker, then broadcast the new total.
        A closed clicker makes the answer raise, so no broadcast happens (`ok` is false). */
    method HandleClick(c: ClientId, closed: set<ClientId>)
      returns (response: ServerMessage, update: ServerMessage, recipients: set<ClientId>, ok: bool)
      requires Valid()
      modifies this
      ensures Valid()
      ensures total == old(total) + 1
      ensures response == ClickResponse(CountOf(old(clicks), c) + 1, total)
      ensures response.clientClicks <= response.totalClicks
      ensures update == GlobalUpdate(response.totalClicks)
      ensures ok <==> c !in closed
      ensures ok ==> recipients == old(users) - closed && users == old(users) - closed &&
                     clicks == Bumped(old(clicks), c) - (old(users) * closed)
      ensures !ok ==> recipients == {} && users == old(users) && clicks == Bumped(old(clicks), c)
    {
      SumBumped(clicks, c);
      clicks := Bumped(clicks, c);
      total := total + 1;
      EntryBound(clicks, c);
      response := ClickResponse(clicks[c], total);
      update := GlobalUpdate(total);
      ok := c !in closed;
      if ok {
        recipients := BroadcastAll(closed);
      } else {
        recipients := {};
      }
    }

    /** One pass of `handler`'s receive loop. `reply` is what reached the sender; `open`
        is false when the loop ends (unparseable text, or a send that raised). */
    method Dispatch(c: ClientId, msg: ClientMessage, closed: set<ClientId>)
      returns (reply: Option<ServerMessage>, recipients: set<ClientId>, open: bool)
      requires Valid()
      modifies this
      ensures Valid()
      ensures msg == Message(Some("click")) ==>
        total == old(total) + 1 &&
        open == (c !in closed) &&
        reply == (if open then Some(ClickResponse(CountOf(old(clicks), c) + 1, total)) else None) &&
        users == (if open then old(users) - closed else old(users)) &&
        recipients == (if open then old(users) - closed else {}) &&
        clicks == (if open then Bumped(old(clicks), c) - (old(users) * closed) else Bumped(old(clicks), c))
      ensures msg != Message(Some("click")) ==>
        total == old(total) && clicks == old(clicks) && users == old(users) && recipients == {}
      ensures msg == Message(Some("ping")) ==>
        open == (c !in closed) && reply == (if open then Some(Pong) else None)
      ensures msg.Message? && msg.kind != Some("click") && msg.kind != Some("ping") ==>
        open && reply == None
      ensures msg.Unparseable? ==> !open && reply == None
    {
      recipients := {};
      match msg {
        case Unparseable =>
          reply, open := None, false;
        case Message(kind) =>
          if kind == Some("click") {
            var response, update;
            response, update, recipients, open := HandleClick(c, closed);
            reply := if open then Some(response) else None;
          } else if kind == Some("ping") {
            open := c !in closed;
            reply := if open then Some(Pong) else None;
          } else {
            reply, open := None, true;
          }
      }
    }

    /** The `finally` of `handler`: forget the client; the total is kept. */
    method Disconnect(c: ClientId)
      requires Valid()
      modifies this`users, this`clicks
      ensures Valid()
      ensures users == old(users) - {c} && clicks == old(clicks) - {c}
      ensures total == old(total)
    {
      SumRemove(clicks, c);
      users := users - {c};
      clicks := clicks - {c};
    }
  }
}
