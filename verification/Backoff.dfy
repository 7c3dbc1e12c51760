/** The agent's reconnect loop and its delays. */
module Backoff {
  import opened Basics

  const INITIAL_DELAY := 1 * SECOND
  const MAX_DELAY := 30 * SECOND
  const BACKOFF_FACTOR := 2

  /** What one turn of the loop meets; `halt` says that the client is stopped before the turn is over. */
  datatype Turn =
    | Halted
    | Failed(halt: bool)
    | Connected(halt: bool)

  datatype Entry = Up | Wait(delay: int)

  function Pow2(k: nat): nat {
    if k == 0 then 1 else 2 * Pow2(k - 1)
  }

  /** The wait after k others since the start or the last successful connect. */
  function NthWait(k: nat): int {
    Min(Pow2(k), 30) * SECOND
  }

  /** What the loop does over these turns when k waits have passed since the start or the last connect. */
  function Log(turns: seq<Turn>, k: nat): seq<Entry> {
    if turns == [] || turns[0].Halted? || (turns[0].Failed? && turns[0].halt) then []
    else if turns[0].Failed? then [Wait(NthWait(k))] + Log(turns[1..], k + 1)
    else if turns[0].halt then [Up]
    else [Up, Wait(NthWait(0))] + Log(turns[1..], 1)
  }

  class Client {
    var reconnectDelay: int
    const maxReconnectDelay: int

    constructor ()
      ensures reconnectDelay == INITIAL_DELAY && maxReconnectDelay == MAX_DELAY
    {
      reconnectDelay, maxReconnectDelay := INITIAL_DELAY, MAX_DELAY;
    }

    method IncreaseReconnectDelay(ghost k: nat)
      requires reconnectDelay == NthWait(k) && maxReconnectDelay == MAX_DELAY
      modifies this`reconnectDelay
      ensures reconnectDelay == NthWait(k + 1)
    {
      reconnectDelay := reconnectDelay * BACKOFF_FACTOR;
      if reconnectDelay > maxReconnectDelay {
        reconnectDelay := maxReconnectDelay;
      }
    }

    /** The loop's waits and connects over any finite number of turns. */
    method ConnectionLoop(turns: seq<Turn>) returns (log: seq<Entry>)
      requires reconnectDelay == INITIAL_DELAY && maxReconnectDelay == MAX_DELAY
      modifies this`reconnectDelay
      ensures log == Log(turns, 0)
    {
      log := [];
      ghost var k: nat := 0;
      var i := 0;
      while i < |turns|
        invariant 0 <= i <= |turns|
        invariant reconnectDelay == NthWait(k)
        invariant log + Log(turns[i..], k) == Log(turns, 0)
      {
        assert turns[i..][0] == turns[i] && turns[i..][1..] == turns[i + 1..];
        match turns[i] {
          case Halted =>
            return;
          case Failed(halt) =>
            if halt {
              return;
            }
            log := log + [Wait(reconnectDelay)];
            IncreaseReconnectDelay(k);
            k := k + 1;
          case Connected(halt) =>
            reconnectDelay := INITIAL_DELAY;
            log := log + [Up];
            if halt {
              return;
            }
            log := log + [Wait(reconnectDelay)];
            IncreaseReconnectDelay(0);
            k := 1;
        }
        i := i + 1;
      }
    }
  }

  /** The turns that come to their end before the client is stopped, and those among them, or the last, that connect. */
  function Finished(turns: seq<Turn>): nat {
    if turns == [] || turns[0].Halted? || turns[0].halt then 0 else 1 + Finished(turns[1..])
  }

  function Connects(turns: seq<Turn>): nat {
    if turns == [] || turns[0].Halted? then 0
    else (if turns[0].Connected? then 1 else 0) + if turns[0].halt then 0 else Connects(turns[1..])
  }

  function CountWaits(log: seq<Entry>): nat {
    if log == [] then 0 else (if log[0].Wait? then 1 else 0) + CountWaits(log[1..])
  }

  lemma {:induction false} CountAppend(log: seq<Entry>, more: seq<Entry>)
    ensures CountWaits(log + more) == CountWaits(log) + CountWaits(more)
  {
    if log == [] {
      assert log + more == more;
    } else {
      assert (log + more)[1..] == log[1..] + more;
      CountAppend(log[1..], more);
    }
  }

  /** One wait for every turn that comes to its end, and one entry for every connect. */
  lemma {:induction false} OneWaitPerTurn(turns: seq<Turn>, k: nat)
    ensures CountWaits(Log(turns, k)) == Finished(turns)
    ensures |Log(turns, k)| == Finished(turns) + Connects(turns)
  {
    if turns == [] || turns[0].Halted? || (turns[0].Failed? && turns[0].halt) {
    } else if turns[0].Failed? {
      OneWaitPerTurn(turns[1..], k + 1);
      CountAppend([Wait(NthWait(k))], Log(turns[1..], k + 1));
    } else if turns[0].halt {
      assert CountWaits([Up]) == 0;
    } else {
      OneWaitPerTurn(turns[1..], 1);
      CountAppend([Up, Wait(NthWait(0))], Log(turns[1..], 1));
      assert [Up, Wait(NthWait(0))][1..] == [Wait(NthWait(0))];
    }
  }

  function Total(log: seq<Entry>): int {
    if log == [] then 0
    else (if log[0].Wait? then log[0].delay else 0) + Total(log[1..])
  }

  /** Consecutive waits, numbered from k. */
  ghost predicate AreWaits(log: seq<Entry>, k: nat) {
    forall i :: 0 <= i < |log| ==> log[i] == Wait(NthWait(k + i))
  }

  ghost predicate OnlyWaits(log: seq<Entry>) {
    forall i :: 0 <= i < |log| ==> log[i].Wait?
  }

  /** Waits that open the log are numbered from k. */
  lemma {:induction false} FirstWaits(turns: seq<Turn>, k: nat, n: nat)
    requires n <= |Log(turns, k)| && OnlyWaits(Log(turns, k)[..n])
    ensures AreWaits(Log(turns, k)[..n], k)
  {
    if n > 0 {
      assert Log(turns, k)[..n][0].Wait?;
      var rest := Log(turns[1..], k + 1);
      assert Log(turns, k)[..n] == [Wait(NthWait(k))] + rest[..n - 1];
      assert forall i :: 0 <= i < n - 1 ==> rest[i] == Log(turns, k)[..n][i + 1];
      FirstWaits(turns[1..], k + 1, n - 1);
      assert forall i :: 0 < i < n ==> Log(turns, k)[i] == rest[..n - 1][i - 1];
    }
  }

  /** The k-th wait since the start or the last connect lasts min(2^k, 30) seconds. */
  lemma {:induction false} WaitsSinceConnect(turns: seq<Turn>, k: nat, from: nat, n: nat)
    requires from + n <= |Log(turns, k)| && OnlyWaits(Log(turns, k)[from..from + n])
    requires from == 0 || Log(turns, k)[from - 1] == Up
    ensures AreWaits(Log(turns, k)[from..from + n], if from == 0 then k else 0)
  {
    var log := Log(turns, k);
    if from == 0 {
      FirstWaits(turns, k, n);
    } else if turns[0].Failed? {
      var rest := Log(turns[1..], k + 1);
      assert log == [Wait(NthWait(k))] + rest;
      assert log[from..from + n] == rest[from - 1..from - 1 + n];
      WaitsSinceConnect(turns[1..], k + 1, from - 1, n);
    } else if from == 1 {
      WaitsAfterUp(turns, k, n);
    } else {
      var rest := Log(turns[1..], 1);
      assert log == [Up, Wait(NthWait(0))] + rest;
      assert from != 2;
      assert log[from..from + n] == rest[from - 2..from - 2 + n];
      WaitsSinceConnect(turns[1..], 1, from - 2, n);
    }
  }

  lemma WaitsAfterUp(turns: seq<Turn>, k: nat, n: nat)
    requires 1 + n <= |Log(turns, k)| && OnlyWaits(Log(turns, k)[1..1 + n]) && turns[0].Connected?
    ensures AreWaits(Log(turns, k)[1..1 + n], 0)
  {
    if n > 0 {
      var log, rest := Log(turns, k), Log(turns[1..], 1);
      var waits := log[1..1 + n];
      assert waits == [Wait(NthWait(0))] + rest[..n - 1];
      assert waits[1..] == rest[..n - 1];
      FirstWaits(turns[1..], 1, n - 1);
    }
  }

  /** Seconds waited in the first n waits. */
  function ClosedForm(n: nat): int {
    if n <= 5 then Pow2(n) - 1 else 31 + 30 * (n - 5)
  }

  lemma {:induction false} LongWaits(k: nat)
    requires k >= 5
    ensures Pow2(k) >= 32
  {
    if k > 5 {
      LongWaits(k - 1);
    }
  }

  lemma ClosedFormStep(n: nat)
    ensures ClosedForm(n + 1) * SECOND == ClosedForm(n) * SECOND + NthWait(n)
  {
    if n >= 5 {
      LongWaits(n);
    } else {
      assert Pow2(1) == 2 && Pow2(2) == 4 && Pow2(3) == 8 && Pow2(4) == 16 && Pow2(5) == 32;
    }
  }

  lemma {:induction false} TotalAppend(log: seq<Entry>, e: Entry)
    ensures Total(log + [e]) == Total(log) + if e.Wait? then e.delay else 0
  {
    if log != [] {
      TotalAppend(log[1..], e);
      assert (log + [e])[1..] == log[1..] + [e];
    }
  }

  lemma {:induction false} TotalOfWaits(log: seq<Entry>)
    requires AreWaits(log, 0)
    ensures Total(log) == ClosedForm(|log|) * SECOND
  {
    if log != [] {
      var n := |log| - 1;
      TotalOfWaits(log[..n]);
      assert log == log[..n] + [log[n]];
      TotalAppend(log[..n], log[n]);
      ClosedFormStep(n);
    }
  }

  /** n waits since the start or the last connect last 2^n - 1 seconds for n <= 5 and 31 + 30(n - 5) beyond. */
  lemma TotalSinceConnect(turns: seq<Turn>, from: nat, n: nat)
    requires from + n <= |Log(turns, 0)| && OnlyWaits(Log(turns, 0)[from..from + n])
    requires from == 0 || Log(turns, 0)[from - 1] == Up
    ensures Total(Log(turns, 0)[from..from + n]) == ClosedForm(n) * SECOND
  {
    WaitsSinceConnect(turns, 0, from, n);
    TotalOfWaits(Log(turns, 0)[from..from + n]);
  }
}
