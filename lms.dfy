/** What a course page sees of the learning-management system: the chain of windows
    from the page up to the top window, the SCORM API objects those windows expose
    (`API` for SCORM 1.2, `API_1484_11` for SCORM 2004), and the log of calls the page
    makes on them. */
module Lms {
  import opened Wrappers

  /** An API object, identified by `id`, with the names of the methods it defines. */
  datatype ApiObject = ApiObject(id: nat, methods: set<string>)

  /** One window: whether it defines `API_1484_11` and whether it defines `API`. */
  datatype Frame = Frame(api2004: Option<ApiObject>, api12: Option<ApiObject>)

  /** `frames[0]` is the page's own window and `frames[i + 1]` is the parent of
      `frames[i]`; the last frame is the top window, whose `parent` is itself. So a
      frame has a distinct parent exactly when it is not the last one. */
  type WindowChain = seq<Frame>

  predicate HasParent(frames: WindowChain, i: nat) {
    i + 1 < |frames|
  }

  /** `window.parent`, as an index into the chain. */
  function ParentIndex(frames: WindowChain, i: nat): (p: nat)
    requires i < |frames|
    ensures p < |frames|
    ensures HasParent(frames, i) <==> p != i
  {
    if HasParent(frames, i) then i + 1 else i
  }

  /** One call made on an API object. */
  datatype LmsCall = LmsCall(api: nat, name: string, args: seq<string>)

  // ---------------------------------------------------------------------------
  // API discovery (`findAPI`)

  const MaxFindApiTries: nat := 7

  /** The API a frame offers, the SCORM 2004 object winning over the SCORM 1.2 one. */
  function FrameApi(f: Frame): (r: Option<ApiObject>)
    ensures r.Some? <==> f.api2004.Some? || f.api12.Some?
    ensures f.api2004.Some? ==> r == f.api2004
    ensures f.api2004.None? ==> r == f.api12
  {
    if f.api2004.Some? then f.api2004 else f.api12
  }

  /** The result of `findAPI` and the new value of the shared counter. */
  datatype Discovery = Discovery(api: Option<ApiObject>, tries: nat)

  /** `findAPI(frames[i])` with the counter at `tries`: each visit increments the
      counter and gives up once it exceeds seven, and otherwise takes the frame's API
      or climbs to a distinct parent. */
  function Discover(frames: WindowChain, i: nat, tries: nat): (d: Discovery)
    requires i < |frames|
    ensures d.tries > tries
    decreases |frames| - i
  {
    var t := tries + 1;
    if t > MaxFindApiTries then Discovery(None, t)
    else if frames[i].api2004.Some? then Discovery(frames[i].api2004, t)
    else if frames[i].api12.Some? then Discovery(frames[i].api12, t)
    else if HasParent(frames, i) then Discover(frames, ParentIndex(frames, i), t)
    else Discovery(None, t)
  }

  /** The first frame at or above `i` that offers an API. */
  function FirstApiFrame(frames: WindowChain, i: nat): (r: Option<nat>)
    requires i <= |frames|
    ensures r.Some? ==> i <= r.value < |frames| && FrameApi(frames[r.value]).Some?
    ensures r.Some? ==> forall k :: i <= k < r.value ==> FrameApi(frames[k]).None?
    ensures r.None? ==> forall k :: i <= k < |frames| ==> FrameApi(frames[k]).None?
    decreases |frames| - i
  {
    if i == |frames| then None
    else if FrameApi(frames[i]).Some? then Some(i)
    else FirstApiFrame(frames, i + 1)
  }

  /** `findAPI` returns the API of the nearest frame that offers one, as long as that
      frame is reached before the counter passes seven; otherwise it returns null. */
  lemma {:induction false} DiscoverFindsNearest(frames: WindowChain, i: nat, tries: nat)
    requires i < |frames|
    ensures Discover(frames, i, tries).api ==
      match FirstApiFrame(frames, i)
      case Some(j) => if tries + (j - i) < MaxFindApiTries then FrameApi(frames[j]) else None
      case None => None
    decreases |frames| - i
  {
    if tries + 1 <= MaxFindApiTries && FrameApi(frames[i]).None? && HasParent(frames, i) {
      DiscoverFindsNearest(frames, i + 1, tries + 1);
    }
  }

  /** From a fresh page: the API found is that of the nearest frame offering one, and
      only the page's own window and its first six ancestors are ever looked at. */
  lemma FindApiOnLoad(frames: WindowChain)
    requires |frames| > 0
    ensures Discover(frames, 0, 0).api.Some? <==>
      FirstApiFrame(frames, 0).Some? && FirstApiFrame(frames, 0).value < MaxFindApiTries
    ensures Discover(frames, 0, 0).api.Some? ==> Discover(frames, 0, 0).api == FrameApi(frames[FirstApiFrame(frames, 0).value])
  {
    DiscoverFindsNearest(frames, 0, 0);
  }

  /** Once the counter is past seven, a later search finds nothing. */
  lemma DiscoverExhausted(frames: WindowChain, i: nat, tries: nat)
    requires i < |frames| && tries >= MaxFindApiTries
    ensures Discover(frames, i, tries) == Discovery(None, tries + 1)
  {
  }

  // ---------------------------------------------------------------------------
  // Calling methods that may be missing

  /** Calling `name(args)` on each API object in turn, in order, as a script whose
      statements are consecutive method calls does: a missing method throws a
      TypeError, which ends the sequence. */
  datatype Invocation = Invocation(calls: seq<LmsCall>, threw: bool)

  function InvokeAll(a: ApiObject, steps: seq<(string, seq<string>)>): (r: Invocation)
    ensures |r.calls| <= |steps|
    ensures !r.threw <==> forall k :: 0 <= k < |steps| ==> steps[k].0 in a.methods
    ensures forall k :: 0 <= k < |r.calls| ==> r.calls[k] == LmsCall(a.id, steps[k].0, steps[k].1)
    ensures !r.threw ==> |r.calls| == |steps|
  {
    if steps == [] then Invocation([], false)
    else if steps[0].0 !in a.methods then Invocation([], true)
    else
      var rest := InvokeAll(a, steps[1..]);
      assert forall k :: 1 <= k < |steps| ==> steps[k] == steps[1..][k - 1];
      Invocation([LmsCall(a.id, steps[0].0, steps[0].1)] + rest.calls, rest.threw)
  }

  /** The calls made one statement at a time. */
  method Invoke(a: ApiObject, steps: seq<(string, seq<string>)>) returns (inv: Invocation)
    ensures inv == InvokeAll(a, steps)
  {
    var calls: seq<LmsCall> := [];
    var k := 0;
    var threw := false;
    while k < |steps| && !threw
      invariant 0 <= k <= |steps|
      invariant forall m :: 0 <= m < k ==> steps[m].0 in a.methods
      invariant !threw ==> calls == InvokeAll(a, steps[..k]).calls
      invariant threw ==> calls == InvokeAll(a, steps).calls && InvokeAll(a, steps).threw
      decreases |steps| - k, if threw then 0 else 1
    {
      if steps[k].0 in a.methods {
        InvokeSplit(a, steps, k);
        calls := calls + [LmsCall(a.id, steps[k].0, steps[k].1)];
        k := k + 1;
      } else {
        InvokeStops(a, steps, k);
        threw := true;
      }
    }
    if !threw {
      assert steps[..k] == steps;
    }
    inv := Invocation(calls, threw);
  }

  lemma {:induction false} InvokeSplit(a: ApiObject, steps: seq<(string, seq<string>)>, k: nat)
    requires k < |steps| && steps[k].0 in a.methods
    requires forall m :: 0 <= m < k ==> steps[m].0 in a.methods
    ensures InvokeAll(a, steps[..k + 1]).calls == InvokeAll(a, steps[..k]).calls + [LmsCall(a.id, steps[k].0, steps[k].1)]
  {
    var p := steps[..k + 1];
    var q := steps[..k];
    assert forall m :: 0 <= m < |p| ==> p[m].0 in a.methods;
    assert forall m :: 0 <= m < |q| ==> q[m].0 in a.methods;
    assert forall m :: 0 <= m < |q| ==> p[m] == q[m];
  }

  lemma {:induction false} InvokeStops(a: ApiObject, steps: seq<(string, seq<string>)>, k: nat)
    requires k < |steps| && steps[k].0 !in a.methods
    requires forall m :: 0 <= m < k ==> steps[m].0 in a.methods
    ensures InvokeAll(a, steps).calls == InvokeAll(a, steps[..k]).calls
    ensures InvokeAll(a, steps).threw
  {
    if k > 0 {
      InvokeStops(a, steps[1..], k - 1);
      assert steps[1..][..k - 1] == steps[..k][1..];
    }
  }

  // ---------------------------------------------------------------------------
  // The session as the LMS sees it

  /** The status element of each version of the run-time data model. */
  const LessonStatus12: string := "cmi.core.lesson_status"
  const CompletionStatus2004: string := "cmi.completion_status"

  datatype Session = NotInitialized | Running(status: Option<string>) | Terminated(status: Option<string>)

  /** The effect of one call on the session: `LMSInitialize`/`Initialize` open it, a
      status write is recorded while it runs, `LMSFinish`/`Terminate` close it; every
      other call, and every call out of order, leaves it as it is. */
  function Step(s: Session, c: LmsCall): Session {
    match s
    case NotInitialized =>
      if c.name == "LMSInitialize" || c.name == "Initialize" then Running(None) else s
    case Running(st) =>
      if (c.name == "LMSSetValue" || c.name == "SetValue") && |c.args| == 2
         && (c.args[0] == LessonStatus12 || c.args[0] == CompletionStatus2004)
      then Running(Some(c.args[1]))
      else if c.name == "LMSFinish" || c.name == "Terminate" then Terminated(st)
      else s
    case Terminated(_) => s
  }

  /** The session of API object `id` after `calls`, in order. */
  function Replay(s: Session, calls: seq<LmsCall>, id: nat): Session
    decreases |calls|
  {
    if calls == [] then s
    else Replay(if calls[0].api == id then Step(s, calls[0]) else s, calls[1..], id)
  }

  lemma {:induction false} ReplayAppend(s: Session, a: seq<LmsCall>, b: seq<LmsCall>, id: nat)
    ensures Replay(s, a + b, id) == Replay(Replay(s, a, id), b, id)
    decreases |a|
  {
    if a != [] {
      assert (a + b)[1..] == a[1..] + b;
      ReplayAppend(if a[0].api == id then Step(s, a[0]) else s, a[1..], b, id);
    } else {
      assert a + b == b;
    }
  }

  /** Does `c` write the value `status` to a status element? */
  predicate IsStatusWrite(c: LmsCall, status: string) {
    (c.name == "LMSSetValue" || c.name == "SetValue") && |c.args| == 2
    && (c.args[0] == LessonStatus12 || c.args[0] == CompletionStatus2004)
    && c.args[1] == status
  }

  predicate WritesStatus(calls: seq<LmsCall>, status: string) {
    exists k | 0 <= k < |calls| :: IsStatusWrite(calls[k], status)
  }

  /** A session can only end up with a status that some call wrote. */
  lemma {:induction false} ReplayStatusWritten(s: Session, calls: seq<LmsCall>, id: nat, status: string)
    requires !(s.Running? && s.status == Some(status)) && !(s.Terminated? && s.status == Some(status))
    requires !WritesStatus(calls, status)
    ensures !(Replay(s, calls, id).Running? && Replay(s, calls, id).status == Some(status))
    ensures !(Replay(s, calls, id).Terminated? && Replay(s, calls, id).status == Some(status))
    decreases |calls|
  {
    if calls != [] {
      assert !WritesStatus(calls[1..], status) by {
        forall k | 0 <= k < |calls[1..]|
          ensures !IsStatusWrite(calls[1..][k], status)
        {
          assert calls[1..][k] == calls[k + 1];
        }
      }
      ReplayStatusWritten(if calls[0].api == id then Step(s, calls[0]) else s, calls[1..], id, status);
    }
  }
}
