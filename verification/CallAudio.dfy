/** The audio source of a call while the call ends: the pipeline of OutboundPipeline, torn down by the
    cleanup of CallProtocol. */
module CallAudio {
  import opened CallRuns
  import Protocol = CallProtocol
  import Pipeline = OutboundPipeline

  // What the end of a call does to its audio: its context is cancelled, its source is closed.
  datatype Deed = Cancelled | Closed

  ghost function CallDeeds(run: seq<Protocol.Action>, c: nat): seq<Deed> {
    if run == [] then []
    else
      var before := run[..|run| - 1];
      CallDeeds(before, c)
      + (if !Exists(before, c) || !Exists(run, c) then []
         else if !SessionOf(before, c).cancelled && SessionOf(run, c).cancelled then [Cancelled]
         else if !SessionOf(before, c).source.ClosedSource? && SessionOf(run, c).source.ClosedSource? then [Closed]
         else [])
  }

  function PipelineDeeds(run: seq<Pipeline.Action>): seq<Deed> {
    if run == [] then []
    else
      PipelineDeeds(run[..|run| - 1])
      + (match run[|run| - 1]
         case Cancel => [Cancelled]
         case CloseDone => [Closed]
         case _ => [])
  }

  // The first k deeds of a teardown.
  function Teardown(k: nat): seq<Deed> {
    if k == 0 then [] else if k == 1 then [Cancelled] else [Cancelled, Closed]
  }

  // How much of the teardown a session has behind it.
  function Progress(session: Protocol.Session): nat {
    if session.source.ClosedSource? then 2 else if session.cancelled then 1 else 0
  }

  lemma {:induction false} CallTearsDown(run: seq<Protocol.Action>, c: nat)
    requires Exists(run, c)
    ensures CallDeeds(run, c) == Teardown(Progress(SessionOf(run, c)))
  {
    var before := run[..|run| - 1];
    SessionsGrow(run);
    if Exists(before, c) {
      CallTearsDown(before, c);
      Protocol.RunKeepsInv(before);
      TeardownStep(Protocol.State(before), run[|run| - 1], c);
    } else {
      NoDeedsBeforeRegister(before, c);
    }
  }

  lemma {:induction false} NoDeedsBeforeRegister(run: seq<Protocol.Action>, c: nat)
    requires !Exists(run, c)
    ensures CallDeeds(run, c) == []
  {
    if run != [] {
      SessionsGrow(run);
      NoDeedsBeforeRegister(run[..|run| - 1], c);
    }
  }

  // One step does at most the next thing, and undoes nothing.
  lemma TeardownStep(s: Protocol.System, action: Protocol.Action, c: nat)
    requires Protocol.Inv(s) && c < |s.sessions|
    ensures var s0, s1 := s.sessions[c], Protocol.Step(s, action).sessions[c];
            && (s0.cancelled ==> s1.cancelled) && (s0.source.ClosedSource? ==> s1.source.ClosedSource? && s0.cancelled)
            && (s1.source.ClosedSource? ==> s0.cancelled)
  {
    assert Protocol.CallInv(s, c);
    if action.Act? && action.cleanup < |s.cleanups| {
      assert Protocol.CleanupInv(s, action.cleanup);
    }
  }

  lemma {:induction false} PipelineCancelled(run: seq<Pipeline.Action>, n: nat)
    ensures Pipeline.State(run, n).queue.cancelled <==> Cancelled in PipelineDeeds(run)
    ensures Pipeline.State(run, n).queue.done <==> Closed in PipelineDeeds(run)
  {
    if run != [] {
      PipelineCancelled(run[..|run| - 1], n);
    }
  }

  lemma OneDeedLess(before: seq<Deed>, last: seq<Deed>, k: nat)
    requires |last| <= 1 && k <= 2 && before + last == Teardown(k)
    ensures |last| <= k && before == Teardown(k - |last|)
    ensures last == [Closed] ==> before == [Cancelled]
  {
    if last == [] {
      assert before + last == before;
    } else {
      assert before == (before + last)[..|before|] && last[0] == (before + last)[|before|];
    }
  }

  lemma {:induction false} TeardownInOrder(run: seq<Pipeline.Action>, n: nat, k: nat)
    requires k <= 2 && PipelineDeeds(run) == Teardown(k)
    ensures Pipeline.ClosedAfterCancel(run, n)
  {
    if run != [] {
      var before, action := run[..|run| - 1], run[|run| - 1];
      var last := if action.Cancel? then [Cancelled] else if action.CloseDone? then [Closed] else [];
      OneDeedLess(PipelineDeeds(before), last, k);
      TeardownInOrder(before, n, k - |last|);
      PipelineCancelled(before, n);
    }
  }

  // A call that has ended has cancelled its context and, if its source was recorded before cleanup got
  // past closing one, closed it.
  lemma EndedCallTearsDown(run: seq<Protocol.Action>, c: nat)
    requires Exists(run, c) && SessionOf(run, c).once == Protocol.Done
    ensures CallDeeds(run, c) == if SourceInTime(run, c) then [Cancelled, Closed] else [Cancelled]
  {
    CallTearsDown(run, c);
    SourceIsClosedIff(run, c);
    Protocol.RunKeepsInv(run);
    assert Protocol.CallInv(Protocol.State(run), c);
  }

  // A pipeline torn down as the call's cleanup does it never lets the player hear a gap, however
  // producer, player and cleanup interleave.
  lemma PlayerHearsNoGap(run: seq<Protocol.Action>, c: nat, audio: seq<Pipeline.Action>, n: nat)
    requires Exists(run, c) && PipelineDeeds(audio) == CallDeeds(run, c)
    ensures Pipeline.Heard(Pipeline.State(audio, n).played) <= Pipeline.Owed(Pipeline.State(audio, n))
  {
    CallTearsDown(run, c);
    TeardownInOrder(audio, n, Progress(SessionOf(run, c)));
    Pipeline.HeardIsPrefixInCleanupOrder(audio, n);
  }
}
