/** The request queue of include/reborn/reborn.cpp. */
module Reborn {
  import opened SyncTypes

  datatype SocketStat = OK | ERR | WAITING | UNDEFINED

  datatype Request = Request(payload: string, status: SocketStat)

  predicate Forwards(request: Request) {
    request.payload != ""
  }

  /** What one request is answered with. */
  function Outcome(request: Request): SocketStat {
    if Forwards(request) then OK else ERR
  }

  /** `processNextRequest` on the buffer: its result and what it leaves. A front
      that is not waiting is reported but not erased. */
  function Next(buffer: seq<Request>): (SocketStat, seq<Request>) {
    if buffer == [] then (UNDEFINED, buffer)
    else if buffer[0].status != WAITING then (ERR, buffer)
    else (Outcome(buffer[0]), buffer[1..])
  }

  /** The buffer after `n` rounds of the loop of `processRequests`. */
  function After(buffer: seq<Request>, n: nat): seq<Request> {
    if n == 0 then buffer else After(Next(buffer).1, n - 1)
  }

  ghost predicate AllWaiting(buffer: seq<Request>) {
    forall i | 0 <= i < |buffer| :: buffer[i].status == WAITING
  }

  /** The loop empties the buffer exactly when every request in it is waiting. */
  lemma DrainsExactlyWhenWaiting(buffer: seq<Request>)
    ensures (exists n :: After(buffer, n) == []) <==> AllWaiting(buffer)
  {
    if AllWaiting(buffer) {
      WaitingDrains(buffer);
    } else {
      forall n: nat ensures After(buffer, n) != [] {
        OthersStay(buffer, n);
      }
    }
  }

  lemma {:induction false} WaitingDrains(buffer: seq<Request>)
    requires AllWaiting(buffer)
    ensures After(buffer, |buffer|) == []
  {
    if buffer != [] {
      WaitingDrains(buffer[1..]);
    }
  }

  lemma {:induction false} OthersStay(buffer: seq<Request>, n: nat)
    requires !AllWaiting(buffer)
    ensures After(buffer, n) != []
    decreases n
  {
    if n > 0 {
      var i :| 0 <= i < |buffer| && buffer[i].status != WAITING;
      var rest := Next(buffer).1;
      assert i > 0 && buffer[0].status == WAITING ==> rest[i - 1] == buffer[i];
      OthersStay(rest, n - 1);
    }
  }

  // ------------------------------------------------------------------ the socket

  /** The requests that `enqueueRequest` keeps. */
  function Kept(requests: seq<string>): seq<string> {
    if requests == [] then []
    else Kept(requests[..|requests| - 1]) +
         if requests[|requests| - 1] == "" then [] else [requests[|requests| - 1]]
  }

  /** What other threads have enqueued in `n` rounds. */
  function Arrived(arrivals: seq<seq<string>>, n: nat): seq<string> {
    if n == 0 then []
    else Arrived(arrivals, n - 1) + if n <= |arrivals| then Kept(arrivals[n - 1]) else []
  }

  lemma OneMoreRound(log: seq<string>, arrivals: seq<seq<string>>, k: nat, arrived: seq<string>)
    requires arrived == if k < |arrivals| then arrivals[k] else []
    ensures log + Arrived(arrivals, k) + Kept(arrived) == log + Arrived(arrivals, k + 1)
  {
  }

  class Socket {
    var buffer: seq<Request>
    var lastStatus: SocketStat
    var answer: Option<string>
    /** The payloads forwarded so far, oldest first. */
    ghost var forwarded: seq<string>

    ghost predicate AnsweredOk()
      reads this
    {
      lastStatus == OK && answer == Some("OK")
    }

    /** Every request in the buffer is waiting and has a payload. */
    ghost predicate Valid()
      reads this
    {
      forall i | 0 <= i < |buffer| :: buffer[i].status == WAITING && Forwards(buffer[i])
    }

    ghost function Payloads(): seq<string>
      reads this
    {
      seq(|buffer|, i requires 0 <= i < |buffer| reads this => buffer[i].payload)
    }

    constructor ()
      ensures Valid() && buffer == [] && forwarded == []
      ensures lastStatus == UNDEFINED && answer == None
    {
      buffer, lastStatus, answer, forwarded := [], UNDEFINED, None, [];
    }

    method EnqueueRequest(request: string) returns (status: SocketStat)
      requires Valid()
      modifies this`buffer
      ensures Valid()
      ensures status == (if request == "" then ERR else OK)
      ensures Payloads() == old(Payloads()) + if request == "" then [] else [request]
    {
      if request == "" {
        return ERR;
      }
      buffer := buffer + [Request(request, WAITING)];
      return OK;
    }

    /** The argument is a C string: absent, or the characters before its terminator. */
    method SendRequest(request: Option<string>) returns (status: SocketStat)
      requires Valid()
      modifies this`buffer
      ensures Valid()
      ensures status == OK <==> request.Some? && request.value != ""
      ensures status == OK ==> Payloads() == old(Payloads()) + [request.value]
      ensures status != OK ==> status == ERR && buffer == old(buffer)
    {
      if request.None? || request.value == "" {
        return ERR;
      }
      status := EnqueueRequest(request.value);
    }

    method ProcessNextRequest() returns (status: SocketStat)
      requires Valid()
      modifies this
      ensures Valid()
      ensures (status, buffer) == Next(old(buffer))
      ensures status == (if old(buffer) == [] then UNDEFINED else OK)
      ensures old(buffer) != [] ==> forwarded == old(forwarded) + [old(buffer)[0].payload]
      ensures old(buffer) != [] ==> lastStatus == OK && answer == Some("OK")
      ensures old(buffer) == [] ==> unchanged(this)
    {
      if buffer == [] {
        return UNDEFINED;
      }
      if buffer[0].status != WAITING {
        return ERR;
      }
      var processed := Forwards(buffer[0]);
      buffer := buffer[0 := buffer[0].(status := if processed then OK else ERR)];
      lastStatus := buffer[0].status;
      answer := Some(if processed then "OK" else "ERR");
      forwarded := forwarded + [buffer[0].payload];
      buffer := buffer[1..];
      return lastStatus;
    }

    method EnqueueAll(requests: seq<string>)
      requires Valid()
      modifies this`buffer
      ensures Valid() && Payloads() == old(Payloads()) + Kept(requests)
    {
      for i := 0 to |requests|
        invariant Valid() && Payloads() == old(Payloads()) + Kept(requests[..i])
      {
        var _ := EnqueueRequest(requests[i]);
        assert requests[..i + 1][..i] == requests[..i];
      }
      assert requests[..|requests|] == requests;
    }

    /** What has been forwarded, and what is still to be. */
    ghost function Log(): seq<string>
      reads this
    {
      forwarded + Payloads()
    }

    /** One round of the loop below: others enqueue, then a request is processed. */
    method Round(arrived: seq<string>) returns (next: SocketStat)
      requires Valid()
      modifies this
      ensures Valid() && Log() == old(Log()) + Kept(arrived)
      ensures next == UNDEFINED ==> buffer == [] && forwarded == old(forwarded)
      ensures next == UNDEFINED ==> lastStatus == old(lastStatus) && answer == old(answer)
      ensures next != UNDEFINED ==> next == OK && AnsweredOk()
      ensures next != UNDEFINED ==> |forwarded| == |old(forwarded)| + 1
      ensures next != UNDEFINED && Kept(arrived) == [] ==> |buffer| < |old(buffer)|
    {
      EnqueueAll(arrived);
      assert Log() == old(Log()) + Kept(arrived);
      ghost var waiting, done := Payloads(), forwarded;
      next := ProcessNextRequest();
      if next != UNDEFINED {
        assert waiting == [waiting[0]] + Payloads();
        assert forwarded + Payloads() == done + waiting;
      }
      assert |old(Payloads())| == |old(buffer)| && |waiting| == |old(buffer)| + |Kept(arrived)|;
    }

    /** Before its k-th call of `processNextRequest` other threads have enqueued
        `arrivals[k]`. Forwards exactly what was queued and what has arrived in the
        `rounds` rounds it makes, in the order it came, and leaves the queue empty. */
    method ProcessRequests(arrivals: seq<seq<string>>) returns (status: SocketStat, ghost rounds: nat)
      requires Valid()
      modifies this
      ensures Valid() && buffer == []
      ensures forwarded == old(Log()) + Arrived(arrivals, rounds)
      ensures status == (if forwarded == old(forwarded) then ERR else OK)
      ensures forwarded != old(forwarded) ==> AnsweredOk()
      ensures forwarded == old(forwarded) ==> lastStatus == old(lastStatus) && answer == old(answer)
    {
      status, rounds := ERR, 0;
      var k := 0;
      while true
        invariant Valid() && rounds == k && |old(forwarded)| <= |forwarded|
        invariant Log() == old(Log()) + Arrived(arrivals, k)
        invariant |forwarded| == |old(forwarded)| ==> forwarded == old(forwarded) && status == ERR
        invariant |forwarded| == |old(forwarded)| ==> lastStatus == old(lastStatus) && answer == old(answer)
        invariant |forwarded| > |old(forwarded)| ==> status == OK && AnsweredOk()
        decreases if k < |arrivals| then |arrivals| - k else 0, |buffer|
      {
        var arrived := if k < |arrivals| then arrivals[k] else [];
        var next := Round(arrived);
        OneMoreRound(old(Log()), arrivals, k, arrived);
        k, rounds := k + 1, rounds + 1;
        if next == UNDEFINED {
          break;
        }
        status := next;
      }
      assert Log() == forwarded;
    }
  }
}
