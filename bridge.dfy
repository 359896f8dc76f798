/** The script embedded in the pages of the classic service: it looks for the SCORM
    API in the window chain, opens the session on load, reports the lesson status and
    closes the session. The fallback page carries a second script whose
    `markComplete` and load handler replace or join the first ones. */
module Bridge {
  import opened Wrappers
  import opened Lms

  /** Which page the script runs in: the page wrapping the AI body, or the fallback page. */
  datatype PageKind = AiPage | FallbackPage

  // ---------------------------------------------------------------------------
  // The calls each operation makes, as functions of the API found

  function Call(a: ApiObject, name: string, args: seq<string>): LmsCall {
    LmsCall(a.id, name, args)
  }

  /** `setValue(key, value)`: `LMSSetValue` if defined, else `SetValue`, else nothing. */
  function SetValueCalls(api: Option<ApiObject>, key: string, value: string): seq<LmsCall> {
    match api
    case None => []
    case Some(a) =>
      if "LMSSetValue" in a.methods then [Call(a, "LMSSetValue", [key, value])]
      else if "SetValue" in a.methods then [Call(a, "SetValue", [key, value])]
      else []
  }

  /** `setCompletionStatus(status)`: the SCORM 1.2 element through `LMSSetValue`, else
      the SCORM 2004 element through `SetValue`. */
  function StatusCalls(api: Option<ApiObject>, status: string): seq<LmsCall> {
    match api
    case None => []
    case Some(a) =>
      if "LMSSetValue" in a.methods then SetValueCalls(api, LessonStatus12, status)
      else if "SetValue" in a.methods then SetValueCalls(api, CompletionStatus2004, status)
      else []
  }

  /** `initializeCommunication` after the search: open the session, then mark it incomplete. */
  function InitCalls(api: Option<ApiObject>): seq<LmsCall> {
    match api
    case None => []
    case Some(a) =>
      (if "LMSInitialize" in a.methods then [Call(a, "LMSInitialize", [""])]
       else if "Initialize" in a.methods then [Call(a, "Initialize", [""])]
       else [])
      + StatusCalls(api, "incomplete")
  }

  /** `terminateCommunication`: `LMSFinish` if defined, else `Terminate`. */
  function TerminateCalls(api: Option<ApiObject>): seq<LmsCall> {
    match api
    case None => []
    case Some(a) =>
      if "LMSFinish" in a.methods then [Call(a, "LMSFinish", [""])]
      else if "Terminate" in a.methods then [Call(a, "Terminate", [""])]
      else []
  }

  /** The second script's `initializeSCORM`. `API` is a declared global, so
      `typeof API` is never "undefined" and `API.LMSInitialize('')` is attempted; a null
      `API` or a missing method throws, and the error is caught. */
  function ScormInitCalls(api: Option<ApiObject>): seq<LmsCall> {
    match api
    case None => []
    case Some(a) => InvokeAll(a, [("LMSInitialize", [""])]).calls
  }

  /** The second script's `markComplete`: `LMSFinish('')` then `LMSCommit('')` on `API`. */
  function FallbackFinish(api: Option<ApiObject>): Invocation {
    match api
    case None => Invocation([], true)
    case Some(a) => InvokeAll(a, [("LMSFinish", [""]), ("LMSCommit", [""])])
  }

  /** Everything the load event makes: the first script's handler, then, on the
      fallback page, the second script's listener. */
  function LoadCalls(page: PageKind, api: Option<ApiObject>): seq<LmsCall> {
    InitCalls(api) + (if page == FallbackPage then ScormInitCalls(api) else [])
  }

  /** The calls of the `markComplete` in effect on each page. */
  function MarkCompleteCalls(page: PageKind, api: Option<ApiObject>): seq<LmsCall> {
    match page
    case AiPage => StatusCalls(api, "completed") + TerminateCalls(api)
    case FallbackPage => FallbackFinish(api).calls
  }

  const CongratulationsAlert: string := "Tebrikler! İçeriği " + "tamamladınız."
  const FinishedAlert: string := "İçerik başarıyla " + "tamamlandı!"
  const FinishedAfterErrorAlert: string := "İçerik tamamlandı!"

  function MarkCompleteAlert(page: PageKind, api: Option<ApiObject>): string {
    match page
    case AiPage => CongratulationsAlert
    case FallbackPage => if FallbackFinish(api).threw then FinishedAfterErrorAlert else FinishedAlert
  }

  // ---------------------------------------------------------------------------
  // The script's state

  class RuntimeBridge {
    /** The window chain the page is loaded in, own window first. */
    const frames: WindowChain
    const page: PageKind
    /** The globals `API` and `findAPITries`. */
    var api: Option<ApiObject>
    var findAPITries: nat
    /** The calls made on API objects and the alerts shown, in order. */
    var calls: seq<LmsCall>
    var alerts: seq<string>

    constructor(frames: WindowChain, page: PageKind)
      requires |frames| > 0
      ensures this.frames == frames && this.page == page
      ensures api == None && findAPITries == 0 && calls == [] && alerts == []
    {
      this.frames := frames;
      this.page := page;
      api := None;
      findAPITries := 0;
      calls := [];
      alerts := [];
    }

    /** `findAPI(frames[i])`: its result and the counter are those of `Discover`. */
    method FindAPI(i: nat) returns (r: Option<ApiObject>)
      requires i < |frames|
      modifies this`findAPITries
      ensures Discover(frames, i, old(findAPITries)) == Discovery(r, findAPITries)
      decreases |frames| - i
    {
      findAPITries := findAPITries + 1;
      if findAPITries > MaxFindApiTries {
        return None;
      }
      if frames[i].api2004.Some? {
        r := frames[i].api2004;
      } else if frames[i].api12.Some? {
        r := frames[i].api12;
      } else if HasParent(frames, i) {
        r := FindAPI(ParentIndex(frames, i));
      } else {
        r := None;
      }
    }

    /** `setValue(key, value)`: forwards to the LMS, whose answer is `reply`, or gives
        `false` (here `None`) when no API or no setter is there. */
    method SetValue(key: string, value: string, reply: string) returns (r: Option<string>)
      modifies this`calls
      ensures calls == old(calls) + SetValueCalls(api, key, value)
      ensures r.None? <==> SetValueCalls(api, key, value) == []
      ensures r.Some? ==> r.value == reply
    {
      r := None;
      if api.Some? {
        var a := api.value;
        if "LMSSetValue" in a.methods {
          calls := calls + [Call(a, "LMSSetValue", [key, value])];
          r := Some(reply);
        } else if "SetValue" in a.methods {
          calls := calls + [Call(a, "SetValue", [key, value])];
          r := Some(reply);
        }
      }
    }

    /** `getValue(key)`: the LMS's answer `reply`, or `""` when no API or no getter is there. */
    method GetValue(key: string, reply: string) returns (r: string)
      modifies this`calls
      ensures var getter := api.Some? && ("LMSGetValue" in api.value.methods || "GetValue" in api.value.methods);
        r == (if getter then reply else "")
        && calls == old(calls) + (if !getter then []
                                  else if "LMSGetValue" in api.value.methods then [Call(api.value, "LMSGetValue", [key])]
                                  else [Call(api.value, "GetValue", [key])])
    {
      r := "";
      if api.Some? {
        var a := api.value;
        if "LMSGetValue" in a.methods {
          calls := calls + [Call(a, "LMSGetValue", [key])];
          r := reply;
        } else if "GetValue" in a.methods {
          calls := calls + [Call(a, "GetValue", [key])];
          r := reply;
        }
      }
    }

    method SetCompletionStatus(status: string)
      modifies this`calls
      ensures calls == old(calls) + StatusCalls(api, status)
    {
      if api.Some? {
        var a := api.value;
        if "LMSSetValue" in a.methods {
          var _ := SetValue(LessonStatus12, status, "true");
        } else if "SetValue" in a.methods {
          var _ := SetValue(CompletionStatus2004, status, "true");
        }
      }
    }

    /** `initializeCommunication`: search from the page's own window, then open the
        session and mark it incomplete on the API found. */
    method InitializeCommunication()
      requires |frames| > 0
      modifies this
      ensures Discovery(api, findAPITries) == Discover(frames, 0, old(findAPITries))
      ensures calls == old(calls) + InitCalls(api)
      ensures alerts == old(alerts)
    {
      api := FindAPI(0);
      if api.Some? {
        var a := api.value;
        if "LMSInitialize" in a.methods {
          calls := calls + [Call(a, "LMSInitialize", [""])];
        } else if "Initialize" in a.methods {
          calls := calls + [Call(a, "Initialize", [""])];
        }
        SetCompletionStatus("incomplete");
      }
    }

    method TerminateCommunication()
      modifies this`calls
      ensures calls == old(calls) + TerminateCalls(api)
    {
      if api.Some? {
        var a := api.value;
        if "LMSFinish" in a.methods {
          calls := calls + [Call(a, "LMSFinish", [""])];
        } else if "Terminate" in a.methods {
          calls := calls + [Call(a, "Terminate", [""])];
        }
      }
    }

    /** Runs `API.name(args)` for each step in turn until a method is missing or `API`
        is null, where the script's `try` catches the TypeError. */
    method Attempt(steps: seq<(string, seq<string>)>) returns (threw: bool)
      modifies this`calls
      ensures threw == (api.None? || InvokeAll(api.value, steps).threw)
      ensures calls == old(calls) + (if api.None? then [] else InvokeAll(api.value, steps).calls)
    {
      if api.None? {
        return true;
      }
      var inv := Invoke(api.value, steps);
      calls := calls + inv.calls;
      threw := inv.threw;
    }

    /** The `markComplete` that the page's button reaches. */
    method MarkComplete()
      modifies this`calls, this`alerts
      ensures calls == old(calls) + MarkCompleteCalls(page, api)
      ensures alerts == old(alerts) + [MarkCompleteAlert(page, api)]
    {
      match page
      case AiPage =>
        SetCompletionStatus("completed");
        TerminateCommunication();
        alerts := alerts + [CongratulationsAlert];
      case FallbackPage =>
        var threw := Attempt([("LMSFinish", [""]), ("LMSCommit", [""])]);
        alerts := alerts + [if threw then FinishedAfterErrorAlert else FinishedAlert];
    }

    /** The second script's `initializeSCORM`. */
    method InitializeScorm()
      modifies this`calls
      ensures calls == old(calls) + ScormInitCalls(api)
    {
      var _ := Attempt([("LMSInitialize", [""])]);
    }

    /** The load event: `window.onload`, then on the fallback page the listener the
        second script adds. */
    method OnLoad()
      requires |frames| > 0
      modifies this
      ensures Discovery(api, findAPITries) == Discover(frames, 0, old(findAPITries))
      ensures calls == old(calls) + LoadCalls(page, api)
      ensures alerts == old(alerts)
    {
      InitializeCommunication();
      if page == FallbackPage {
        InitializeScorm();
      }
    }

    /** The unload event: `window.onunload`. */
    method OnUnload()
      modifies this`calls
      ensures calls == old(calls) + TerminateCalls(api)
    {
      TerminateCommunication();
    }
  }

  // ---------------------------------------------------------------------------
  // Sessions

  /** On the AI page with a SCORM 1.2 API, loading the page and pressing the button
      leaves the session terminated with the status "completed". */
  lemma AiPageCompletes12(a: ApiObject)
    requires "LMSInitialize" in a.methods && "LMSSetValue" in a.methods && "LMSFinish" in a.methods
    ensures Replay(NotInitialized, LoadCalls(AiPage, Some(a)) + MarkCompleteCalls(AiPage, Some(a)), a.id)
      == Terminated(Some("completed"))
  {
    var cs := LoadCalls(AiPage, Some(a)) + MarkCompleteCalls(AiPage, Some(a));
    assert cs == [Call(a, "LMSInitialize", [""]), Call(a, "LMSSetValue", [LessonStatus12, "incomplete"]),
                  Call(a, "LMSSetValue", [LessonStatus12, "completed"]), Call(a, "LMSFinish", [""])];
    ReplaySteps4(cs, a.id);
  }

  /** The same with a SCORM 2004 API, through `Initialize`, `SetValue` on
      `cmi.completion_status` and `Terminate`. */
  lemma AiPageCompletes2004(a: ApiObject)
    requires "Initialize" in a.methods && "SetValue" in a.methods && "Terminate" in a.methods
    requires "LMSInitialize" !in a.methods && "LMSSetValue" !in a.methods && "LMSFinish" !in a.methods
    ensures Replay(NotInitialized, LoadCalls(AiPage, Some(a)) + MarkCompleteCalls(AiPage, Some(a)), a.id)
      == Terminated(Some("completed"))
  {
    var cs := LoadCalls(AiPage, Some(a)) + MarkCompleteCalls(AiPage, Some(a));
    assert cs == [Call(a, "Initialize", [""]), Call(a, "SetValue", [CompletionStatus2004, "incomplete"]),
                  Call(a, "SetValue", [CompletionStatus2004, "completed"]), Call(a, "Terminate", [""])];
    ReplaySteps4(cs, a.id);
  }

  /** On the fallback page the button reaches the second script's `markComplete`,
      which never writes a status: whatever API is found, the LMS is never told
      "completed". */
  lemma FallbackPageNeverCompletes(api: Option<ApiObject>, id: nat)
    ensures var s := Replay(NotInitialized, LoadCalls(FallbackPage, api) + MarkCompleteCalls(FallbackPage, api), id);
      !(s.Running? && s.status == Some("completed")) && !(s.Terminated? && s.status == Some("completed"))
  {
    var cs := LoadCalls(FallbackPage, api) + MarkCompleteCalls(FallbackPage, api);
    match api {
      case None =>
      case Some(a) =>
      var fin := InvokeAll(a, [("LMSFinish", [""]), ("LMSCommit", [""])]);
      var init := InvokeAll(a, [("LMSInitialize", [""])]);
      var ic := InitCalls(api);
      assert cs == ic + init.calls + fin.calls;
      forall k | 0 <= k < |cs|
        ensures !IsStatusWrite(cs[k], "completed")
      {
        if k >= |ic| + |init.calls| {
          assert cs[k] == fin.calls[k - |ic| - |init.calls|];
        } else if k >= |ic| {
          assert cs[k] == init.calls[k - |ic|];
        } else {
          assert cs[k] == ic[k];
        }
      }
    }
    ReplayStatusWritten(NotInitialized, cs, id, "completed");
  }

  /** With a full SCORM 1.2 API the fallback page's session ends terminated but still
      "incomplete": the load handler marks it incomplete, and the button finishes it
      (and then commits) without changing the status. */
  lemma FallbackPageEndsIncomplete(a: ApiObject)
    requires "LMSInitialize" in a.methods && "LMSSetValue" in a.methods
    requires "LMSFinish" in a.methods && "LMSCommit" in a.methods
    ensures Replay(NotInitialized, LoadCalls(FallbackPage, Some(a)) + MarkCompleteCalls(FallbackPage, Some(a)), a.id)
      == Terminated(Some("incomplete"))
    ensures MarkCompleteAlert(FallbackPage, Some(a)) == FinishedAlert
  {
    var cs := LoadCalls(FallbackPage, Some(a)) + MarkCompleteCalls(FallbackPage, Some(a));
    assert cs == [Call(a, "LMSInitialize", [""]), Call(a, "LMSSetValue", [LessonStatus12, "incomplete"]),
                  Call(a, "LMSInitialize", [""]), Call(a, "LMSFinish", [""]), Call(a, "LMSCommit", [""])];
    ReplaySteps4(cs[..4], a.id);
    ReplayAppend(NotInitialized, cs[..4], cs[4..], a.id);
    assert cs[..4] + cs[4..] == cs;
  }

  /** Four calls on one API, replayed one at a time. */
  lemma ReplaySteps4(cs: seq<LmsCall>, id: nat)
    requires |cs| == 4 && forall k :: 0 <= k < 4 ==> cs[k].api == id
    ensures Replay(NotInitialized, cs, id) == Step(Step(Step(Step(NotInitialized, cs[0]), cs[1]), cs[2]), cs[3])
  {
    var s1 := Step(NotInitialized, cs[0]);
    var s2 := Step(s1, cs[1]);
    var s3 := Step(s2, cs[2]);
    assert Replay(NotInitialized, cs, id) == Replay(s1, cs[1..], id);
    assert Replay(s1, cs[1..], id) == Replay(s2, cs[2..], id);
    assert Replay(s2, cs[2..], id) == Replay(s3, cs[3..], id);
    assert Replay(s3, cs[3..], id) == Replay(Step(s3, cs[3]), cs[4..], id);
  }

  /** Without an API nothing reaches an LMS; the fallback page's button then reports
      the error branch of its `try`. */
  lemma NoApiNoCalls(page: PageKind)
    ensures LoadCalls(page, None) == [] && MarkCompleteCalls(page, None) == [] && TerminateCalls(None) == []
    ensures StatusCalls(None, "completed") == [] && SetValueCalls(None, LessonStatus12, "completed") == []
    ensures MarkCompleteAlert(FallbackPage, None) == FinishedAfterErrorAlert
    ensures MarkCompleteAlert(AiPage, None) == CongratulationsAlert
  {
  }

  /** The status element written is the one of the API's version: the SCORM 1.2
      element whenever `LMSSetValue` is defined, the SCORM 2004 one otherwise. */
  lemma StatusElementByVersion(a: ApiObject, status: string)
    ensures "LMSSetValue" in a.methods ==> StatusCalls(Some(a), status) == [Call(a, "LMSSetValue", [LessonStatus12, status])]
    ensures "LMSSetValue" !in a.methods && "SetValue" in a.methods ==> StatusCalls(Some(a), status) == [Call(a, "SetValue", [CompletionStatus2004, status])]
    ensures "LMSSetValue" !in a.methods && "SetValue" !in a.methods ==> StatusCalls(Some(a), status) == []
  {
  }
}
