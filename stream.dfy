/** `handle_socket`, the per-connection loop behind GET /ws: every tick it
    runs a full `list_gpu` pass and sends the list as one text frame; the
    first failed send ends the session. */
module Stream {
  import opened Nvml
  import opened Gpus

  /** A text frame carrying one pass's records (its JSON encoding is left
      abstract). */
  datatype Frame = Text(gpus: seq<GpuInfo>)

  /** How many sends the loop attempts against the outcomes `sendOk`: up to
      and including the first failure, or all of them if none fails. */
  function Attempts(sendOk: seq<bool>): (n: nat)
    ensures n <= |sendOk|
    ensures n == 0 <==> sendOk == []
    ensures 0 < n < |sendOk| ==> !sendOk[n - 1]
    decreases |sendOk|
  {
    if sendOk == [] then 0
    else if !sendOk[0] then 1
    else 1 + Attempts(sendOk[1..])
  }

  /** N sends succeed and send N+1 fails: exactly N+1 attempts, no N+2. */
  lemma {:induction false} StopsAtFirstFailure(sendOk: seq<bool>, n: nat)
    requires n < |sendOk| && !sendOk[n]
    requires forall k :: 0 <= k < n ==> sendOk[k]
    ensures Attempts(sendOk) == n + 1
    decreases n
  {
    if n > 0 {
      StopsAtFirstFailure(sendOk[1..], n - 1);
    }
  }

  /** While every send succeeds the loop keeps going. */
  lemma RunsWhileSendsSucceed(sendOk: seq<bool>)
    requires forall k :: 0 <= k < |sendOk| ==> sendOk[k]
    ensures Attempts(sendOk) == |sendOk|
  {
  }

  /** The loop over a finite run of send outcomes. `provider(t)` is NVML as
      the pass of tick `t` sees it. `frames` are the frames the loop tried
      to send; `closed` says whether it left by `break` (a failed send)
      rather than by reaching the end of the outcomes observed. */
  method HandleSocket(provider: nat -> Provider, sendOk: seq<bool>) returns (frames: seq<Frame>, closed: bool)
    ensures |frames| == Attempts(sendOk)
    ensures forall t :: 0 <= t < |frames| ==> frames[t] == Text(CollectAll(provider(t)))
    ensures forall t :: 0 <= t < |frames| - 1 ==> sendOk[t]
    ensures closed <==> (0 < |frames| && !sendOk[|frames| - 1])
    ensures !closed ==> |frames| == |sendOk|
  {
    frames := [];
    closed := false;
    var t := 0;
    while t < |sendOk|
      invariant t <= |sendOk| && |frames| == t
      invariant forall k :: 0 <= k < t ==> sendOk[k]
      invariant forall k :: 0 <= k < t ==> frames[k] == Text(CollectAll(provider(k)))
    {
      var gpus := ListGpu(provider(t));
      frames := frames + [Text(gpus)];
      if !sendOk[t] {
        closed := true;
        StopsAtFirstFailure(sendOk, t);
        break;
      }
      t := t + 1;
    }
    if !closed {
      RunsWhileSendsSucceed(sendOk);
    }
  }
}
