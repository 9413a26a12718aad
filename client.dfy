/**
 * The browser side of the click counter (script.js, class WebSocketClickCounter):
 * connection flags, the bounded reconnect budget with linear backoff, the dispatch
 * of inbound server messages onto the local click count and the shown total, the
 * guarded send, and the choice of image against the click goal.
 *
 * The socket, timers, JSON, the DOM and audio are not modelled: a scheduled
 * reconnect is returned as its delay, the socket's readyState is a parameter,
 * and a message handed to the socket is appended to `outbox`.
 */
module ClickClient {
  import opened Wrappers

  /** Click count from which the goal images are shown. */
  const GOAL: int := 1500
  /** The reconnect budget, `maxReconnectAttempts`. */
  const MAX_RECONNECT_ATTEMPTS: nat := 5
  /** Milliseconds of backoff per attempt already made. */
  const BACKOFF_STEP_MS: nat := 2000

  const ORIGINAL_SRC: string := "photos/pop2.jpg"
  const CLICKED_SRC: string := "photos/pop1.jpg"
  const GOAL_ORIGINAL_SRC: string := "photos/pop4.png"
  const GOAL_CLICKED_SRC: string := "photos/pop3.png"

  /** The text shown in the status element. */
  datatype Status = Initial | Connected | Disconnected | Error | FailedToConnect

  /** A message from the server, after JSON parsing, by its `type` field. */
  datatype Inbound =
    | Init(totalClicks: Option<int>)
    | ClickResponse(clientClicks: int, totalClicks: Option<int>)
    | GlobalUpdate(totalClicks: Option<int>)
    | Pong
    | ServerError(message: string)
    | Unrecognised(kind: string)

  /** A message to the server; timestamp and pointer position are not modelled. */
  datatype Outbound = Click | Ping

  /** What `attemptReconnect` did: one reconnect scheduled after a delay, or gave up. */
  datatype Reconnect = Scheduled(delayMs: nat) | GaveUp

  /** The part of the client state that inbound messages rewrite. */
  datatype View = View(clickCount: int, shownTotal: Option<int>)

  /** The `total_clicks` a message carries, for the three kinds that may carry one. */
  function TotalOf(m: Inbound): (total: Option<int>)
  {
    match m
    case Init(t) => t
    case ClickResponse(_, t) => t
    case GlobalUpdate(t) => t
    case _ => None
  }

  /** The effect of one inbound message on the view (`handleServerMessage`). */
  function Receive(v: View, m: Inbound): (v': View)
  {
    var total := if TotalOf(m).Some? then TotalOf(m) else v.shownTotal;
    match m
    case Init(_) => View(0, total)
    case ClickResponse(n, _) => View(n, total)
    case _ => View(v.clickCount, total)
  }

  /** The effect of a run of inbound messages, in arrival order. */
  function ReceiveAll(v: View, ms: seq<Inbound>): (v': View)
    decreases |ms|
  {
    if ms == [] then v else ReceiveAll(Receive(v, ms[0]), ms[1..])
  }

  /** Whether a message kind rewrites the local click count. */
  predicate SetsCount(m: Inbound)
  {
    m.Init? || m.ClickResponse?
  }

  /** Image shown while the button is held (`handleMouseDown`). */
  function PressedImage(clickCount: int): (src: string)
    ensures src == CLICKED_SRC || src == GOAL_CLICKED_SRC
    ensures src == GOAL_CLICKED_SRC <==> clickCount >= GOAL
  {
    if clickCount < GOAL then CLICKED_SRC else GOAL_CLICKED_SRC
  }

  /** Image shown once the button is released (`handleMouseUp`). */
  function ReleasedImage(clickCount: int): (src: string)
    ensures src == ORIGINAL_SRC || src == GOAL_ORIGINAL_SRC
    ensures src == GOAL_ORIGINAL_SRC <==> clickCount >= GOAL
  {
    if clickCount < GOAL then ORIGINAL_SRC else GOAL_ORIGINAL_SRC
  }

  /** One `attemptReconnect` decision, given the attempts made so far. */
  function Backoff(attempts: nat): (r: Reconnect)
  {
    if attempts < MAX_RECONNECT_ATTEMPTS then Scheduled(BACKOFF_STEP_MS * (attempts + 1))
    else GaveUp
  }

  /** The attempt counter after one `attemptReconnect`. */
  function NextAttempts(attempts: nat): (next: nat)
  {
    if attempts < MAX_RECONNECT_ATTEMPTS then attempts + 1 else attempts
  }

  /** The decisions taken by `n` successive closes, starting from `attempts` attempts. */
  function CloseRun(attempts: nat, n: nat): (r: seq<Reconnect>)
    ensures |r| == n
    decreases n
  {
    if n == 0 then [] else [Backoff(attempts)] + CloseRun(NextAttempts(attempts), n - 1)
  }

  /** The attempt counter after `n` successive closes. */
  function AttemptsAfter(attempts: nat, n: nat): (after: nat)
    decreases n
  {
    if n == 0 then attempts else AttemptsAfter(NextAttempts(attempts), n - 1)
  }

  function Min(a: int, b: int): (m: int)
  {
    if a <= b then a else b
  }

  class ClickCounter {
    var clickCount: int
    var isConnected: bool
    var reconnectAttempts: nat
    /** The last `total_clicks` passed to `updateTotalCounter`, if any. */
    var shownTotal: Option<int>
    var status: Status
    /** Messages handed to the socket, in order. */
    var outbox: seq<Outbound>

    ghost predicate Valid()
      reads this
    {
      reconnectAttempts <= MAX_RECONNECT_ATTEMPTS
    }

    function CurrentView(): (v: View)
      reads this
    {
      View(clickCount, shownTotal)
    }

    constructor ()
      ensures Valid()
      ensures clickCount == 0 && !isConnected && reconnectAttempts == 0
      ensures shownTotal == None && status == Initial && outbox == []
    {
      clickCount := 0;
      isConnected := false;
      reconnectAttempts := 0;
      shownTotal := None;
      status := Initial;
      outbox := [];
    }

    /** `socket.onopen`: the attempt counter is deliberately left as it was. */
    method OnOpen()
      requires Valid()
      modifies this`isConnected, this`status
      ensures Valid()
      ensures isConnected && status == Connected
    {
      isConnected := true;
      status := Connected;
    }

    /** `socket.onerror`: only the status text changes. */
    method OnError()
      modifies this`status
      ensures status == Error
    {
      status := Error;
    }

    /** `attemptReconnect`: spend one attempt of the budget, or give up. */
    method AttemptReconnect() returns (r: Reconnect)
      requires Valid()
      modifies this`reconnectAttempts, this`status
      ensures Valid()
      ensures old(reconnectAttempts) <= reconnectAttempts
      ensures old(reconnectAttempts) < MAX_RECONNECT_ATTEMPTS ==>
        reconnectAttempts == old(reconnectAttempts) + 1 &&
        r == Scheduled(BACKOFF_STEP_MS * reconnectAttempts) && status == old(status)
      ensures old(reconnectAttempts) == MAX_RECONNECT_ATTEMPTS ==>
        reconnectAttempts == old(reconnectAttempts) && r == GaveUp && status == FailedToConnect
      ensures r == Backoff(old(reconnectAttempts)) && reconnectAttempts == NextAttempts(old(reconnectAttempts))
    {
      if reconnectAttempts < MAX_RECONNECT_ATTEMPTS {
        reconnectAttempts := reconnectAttempts + 1;
        r := Scheduled(BACKOFF_STEP_MS * reconnectAttempts);
      } else {
        status := FailedToConnect;
        r := GaveUp;
      }
    }

    /** `socket.onclose`: drop the connected flag, then try to reconnect. */
    method OnClose() returns (r: Reconnect)
      requires Valid()
      modifies this`isConnected, this`status, this`reconnectAttempts
      ensures Valid()
      ensures !isConnected
      ensures r == Backoff(old(reconnectAttempts)) && reconnectAttempts == NextAttempts(old(reconnectAttempts))
      ensures status == if r == GaveUp then FailedToConnect else Disconnected
    {
      isConnected := false;
      status := Disconnected;
      r := AttemptReconnect();
    }

    /** `handleServerMessage`: rewrite the count and the shown total as the message says. */
    method HandleServerMessage(m: Inbound)
      modifies this`clickCount, this`shownTotal
      ensures CurrentView() == Receive(old(CurrentView()), m)
      ensures m.Init? ==> clickCount == 0
      ensures m.ClickResponse? ==> clickCount == m.clientClicks
      ensures !SetsCount(m) ==> clickCount == old(clickCount)
      ensures shownTotal == if TotalOf(m).Some? then TotalOf(m) else old(shownTotal)
    {
      match m {
        case Init(t) =>
          clickCount := 0;
          if t.Some? { shownTotal := t; }
        case ClickResponse(n, t) =>
          clickCount := n;
          if t.Some? { shownTotal := t; }
        case GlobalUpdate(t) =>
          if t.Some? { shownTotal := t; }
        case Pong =>
        case ServerError(_) =>
        case Unrecognised(_) =>
      }
    }

    /** `sendToServer`: hand the message to the socket only when connected and open. */
    method SendToServer(data: Outbound, socketOpen: bool) returns (sent: bool)
      modifies this`outbox
      ensures sent <==> isConnected && socketOpen
      ensures outbox == if sent then old(outbox) + [data] else old(outbox)
    {
      sent := isConnected && socketOpen;
      if sent {
        outbox := outbox + [data];
      }
    }

    /** `handleMouseDown` with `sendClickData`: show the pressed image and send a click. */
    method MouseDown(socketOpen: bool) returns (src: string, sent: bool)
      modifies this`outbox
      ensures src == PressedImage(clickCount)
      ensures sent <==> isConnected && socketOpen
      ensures outbox == if sent then old(outbox) + [Click] else old(outbox)
    {
      src := PressedImage(clickCount);
      sent := SendToServer(Click, socketOpen);
    }

    /** `handleMouseUp`: show the released image. */
    method MouseUp() returns (src: string)
      ensures src == ReleasedImage(clickCount)
      ensures src == GOAL_ORIGINAL_SRC <==> clickCount >= GOAL
    {
      src := ReleasedImage(clickCount);
    }
  }

  /** The decisions of `n` successive closes: the i-th waits 2000 * (attempts + i + 1) ms
      while the budget lasts and gives up once it is spent. */
  lemma {:induction false} CloseRunAt(attempts: nat, n: nat, i: nat)
    requires attempts <= MAX_RECONNECT_ATTEMPTS && i < n
    ensures CloseRun(attempts, n)[i] ==
      if attempts + i < MAX_RECONNECT_ATTEMPTS then Scheduled(BACKOFF_STEP_MS * (attempts + i + 1))
      else GaveUp
    decreases n
  {
    if i > 0 {
      CloseRunAt(NextAttempts(attempts), n - 1, i - 1);
      if attempts == MAX_RECONNECT_ATTEMPTS {
        assert NextAttempts(attempts) == attempts;
      }
    }
  }

  /** The counter after `n` closes is the start plus `n`, capped at the budget:
      it never decreases and never exceeds `maxReconnectAttempts`. */
  lemma {:induction false} AttemptsAfterCapped(attempts: nat, n: nat)
    requires attempts <= MAX_RECONNECT_ATTEMPTS
    ensures AttemptsAfter(attempts, n) == Min(attempts + n, MAX_RECONNECT_ATTEMPTS)
    decreases n
  {
    if n > 0 {
      AttemptsAfterCapped(NextAttempts(attempts), n - 1);
    }
  }

  /** Once the budget is spent every later close gives up: failure is terminal. */
  lemma {:induction false} SpentBudgetGivesUp(n: nat, i: nat)
    requires i < n
    ensures CloseRun(MAX_RECONNECT_ATTEMPTS, n)[i] == GaveUp
  {
    CloseRunAt(MAX_RECONNECT_ATTEMPTS, n, i);
  }

  /** Messages other than `init` and `click_response` never touch the click count,
      however many arrive. */
  lemma {:induction false} OtherKindsKeepCount(v: View, ms: seq<Inbound>)
    requires forall i :: 0 <= i < |ms| ==> !SetsCount(ms[i])
    ensures ReceiveAll(v, ms).clickCount == v.clickCount
    decreases |ms|
  {
    if ms != [] {
      OtherKindsKeepCount(Receive(v, ms[0]), ms[1..]);
    }
  }

  /** After a run of messages, the click count is the one the last `init` or
      `click_response` set, whatever it was before. */
  lemma {:induction false} LastCountWins(v: View, ms: seq<Inbound>, k: nat)
    requires k < |ms| && SetsCount(ms[k])
    requires forall i :: k < i < |ms| ==> !SetsCount(ms[i])
    ensures ReceiveAll(v, ms).clickCount == (if ms[k].Init? then 0 else ms[k].clientClicks)
    decreases |ms|
  {
    if k == 0 {
      assert forall i :: 0 <= i < |ms[1..]| ==> !SetsCount(ms[1..][i]) by {
        forall i | 0 <= i < |ms[1..]| ensures !SetsCount(ms[1..][i]) {
          assert ms[1..][i] == ms[i + 1];
        }
      }
      OtherKindsKeepCount(Receive(v, ms[0]), ms[1..]);
    } else {
      assert ms[1..][k - 1] == ms[k];
      assert forall i :: k - 1 < i < |ms[1..]| ==> !SetsCount(ms[1..][i]) by {
        forall i | k - 1 < i < |ms[1..]| ensures !SetsCount(ms[1..][i]) {
          assert ms[1..][i] == ms[i + 1];
        }
      }
      LastCountWins(Receive(v, ms[0]), ms[1..], k - 1);
    }
  }

  /** Every message is an overwrite, so a duplicated delivery changes nothing more. */
  lemma ReceiveIdempotent(v: View, m: Inbound)
    ensures Receive(Receive(v, m), m) == Receive(v, m)
  {
  }

  /** `global_update`, `pong`, `error` and unknown kinds keep the count; the last three
      also keep the shown total. */
  lemma ReceiveKeeps(v: View, m: Inbound)
    requires !SetsCount(m)
    ensures Receive(v, m).clickCount == v.clickCount
    ensures !m.GlobalUpdate? ==> Receive(v, m) == v
  {
  }
}
