/** `UserDetailViewModel`: the detail screen's state machine. It holds the username it
    was built for and the last user detail loaded, if any. Inputs and fetch results
    arrive as one ordered list of events; each event moves the state and produces the
    outputs the view model publishes, in order. */
module UserDetailViewModel {
  import opened Wrappers
  import opened Domain
  import opened NetworkErrors

  /** The two inputs that start a fetch; both are merged into one trigger stream. */
  datatype Trigger = ViewDidLoad | Refresh

  /** The username given at construction, the user relay (`None` until a first success),
      and whether a fetch is pending. */
  datatype State = State(username: string, user: Option<UserDetail>, fetching: bool)

  /** A freshly built view model. */
  function Init(username: string): (s: State)
    ensures s.username == username && s.user.None? && !s.fetching
  {
    State(username, None, false)
  }

  datatype Event =
    | Input(trigger: Trigger)          // viewDidLoad(), refresh()
    | Loaded(detail: UserDetail)       // the pending fetch produced a user
    | LoadFailed(error: NetworkError)  // the pending fetch failed

  datatype Output =
    | Requested(username: string)      // useCase.execute(username:)
    | UserEmitted(detail: UserDetail)  // the `user` output
    | ErrorRaised(error: NetworkError) // the `error` output

  datatype Transition = Transition(state: State, outputs: seq<Output>)

  /** The users among some outputs, in order. */
  function Emitted(outputs: seq<Output>): seq<UserDetail>
  {
    if outputs == [] then []
    else (if outputs[0].UserEmitted? then [outputs[0].detail] else []) + Emitted(outputs[1..])
  }

  /** The usernames the use case is asked for among some outputs, in order. */
  function Requests(outputs: seq<Output>): seq<string>
  {
    if outputs == [] then []
    else (if outputs[0].Requested? then [outputs[0].username] else []) + Requests(outputs[1..])
  }

  /** The errors among some outputs, in order. */
  function Errors(outputs: seq<Output>): seq<NetworkError>
  {
    if outputs == [] then []
    else (if outputs[0].ErrorRaised? then [outputs[0].error] else []) + Errors(outputs[1..])
  }

  /** The number of triggers among some events. */
  function Triggers(events: seq<Event>): nat
  {
    if events == [] then 0 else (if events[0].Input? then 1 else 0) + Triggers(events[1..])
  }

  /** What the `user` output delivers to a subscriber at once: the relay replays its
      current value, and the initial `None` is filtered out. */
  function Replayed(s: State): (us: seq<UserDetail>)
    ensures |us| <= 1
    ensures us == [] <==> s.user.None?
    ensures s.user.Some? ==> us == [s.user.value]
  {
    match s.user
    case None => []
    case Some(u) => [u]
  }

  /** A trigger asks the use case for the username given at construction; a new fetch
      supersedes any pending one. The user is left as it is. */
  function StartFetch(s: State): (r: Transition)
    ensures r.state.username == s.username && r.state.user == s.user && r.state.fetching
    ensures r.outputs == [Requested(s.username)]
  {
    Transition(s.(fetching := true), [Requested(s.username)])
  }

  /** The pending fetch succeeds: the user is replaced and published with every field
      intact. Ignored when nothing is pending. */
  function Succeed(s: State, d: UserDetail): (r: Transition)
    ensures r.state.username == s.username && !r.state.fetching
    ensures s.fetching ==> r.state.user == Some(d) && r.outputs == [UserEmitted(d)]
    ensures !s.fetching ==> r == Transition(s, [])
  {
    if s.fetching then Transition(s.(user := Some(d), fetching := false), [UserEmitted(d)])
    else Transition(s, [])
  }

  /** The pending fetch fails: the error is caught and published, the fetch ends with no
      user, and the user relay keeps its value. Ignored when nothing is pending. */
  function Fail(s: State, e: NetworkError): (r: Transition)
    ensures r.state.username == s.username && r.state.user == s.user && !r.state.fetching
    ensures s.fetching ==> r.outputs == [ErrorRaised(e)]
    ensures !s.fetching ==> r.outputs == []
  {
    if s.fetching then Transition(s.(fetching := false), [ErrorRaised(e)])
    else Transition(s, [])
  }

  function Step(s: State, e: Event): Transition
  {
    match e
    case Input(_) => StartFetch(s)
    case Loaded(d) => Succeed(s, d)
    case LoadFailed(err) => Fail(s, err)
  }

  /** Events applied in order; the outputs are concatenated. */
  function Run(s: State, events: seq<Event>): Transition
    decreases |events|
  {
    if events == [] then Transition(s, [])
    else
      var first := Step(s, events[0]);
      var rest := Run(first.state, events[1..]);
      Transition(rest.state, first.outputs + rest.outputs)
  }

  lemma {:induction false} EmittedAppend(a: seq<Output>, b: seq<Output>)
    ensures Emitted(a + b) == Emitted(a) + Emitted(b)
    decreases |a|
  {
    if a == [] {
      assert a + b == b;
    } else {
      assert (a + b)[0] == a[0];
      assert (a + b)[1..] == a[1..] + b;
      EmittedAppend(a[1..], b);
    }
  }

  lemma {:induction false} RequestsAppend(a: seq<Output>, b: seq<Output>)
    ensures Requests(a + b) == Requests(a) + Requests(b)
    decreases |a|
  {
    if a == [] {
      assert a + b == b;
    } else {
      assert (a + b)[0] == a[0];
      assert (a + b)[1..] == a[1..] + b;
      RequestsAppend(a[1..], b);
    }
  }

  /** One event: a trigger makes exactly one request, for the construction username; a
      success emits the user it stores; a failure emits only an error and keeps the user. */
  lemma StepFacts(s: State, e: Event)
    ensures var t := Step(s, e);
            && t.state.username == s.username
            && Requests(t.outputs) == (if e.Input? then [s.username] else [])
            && Emitted(t.outputs) == (if e.Loaded? && s.fetching then [e.detail] else [])
            && Errors(t.outputs) == (if e.LoadFailed? && s.fetching then [e.error] else [])
            && t.state.user == (if e.Loaded? && s.fetching then Some(e.detail) else s.user)
  {
    var t := Step(s, e);
    if t.outputs != [] {
      assert t.outputs[1..] == [];
    }
  }

  /** The user the relay holds after some outputs: the last one emitted, or the one it
      held before when none was. */
  function LatestUser(before: Option<UserDetail>, emitted: seq<UserDetail>): (u: Option<UserDetail>)
    ensures emitted == [] ==> u == before
    ensures emitted != [] ==> u == Some(emitted[|emitted| - 1])
  {
    if emitted == [] then before else Some(emitted[|emitted| - 1])
  }

  /** Over any run the username never changes, every trigger makes one request, and
      every request is for the construction username. */
  lemma {:induction false} RunRequests(s: State, events: seq<Event>)
    ensures var r := Run(s, events);
            && r.state.username == s.username
            && |Requests(r.outputs)| == Triggers(events)
            && (forall i :: 0 <= i < |Requests(r.outputs)| ==> Requests(r.outputs)[i] == s.username)
    decreases |events|
  {
    if events != [] {
      var first := Step(s, events[0]);
      var rest := Run(first.state, events[1..]);
      StepFacts(s, events[0]);
      RunRequests(first.state, events[1..]);
      RequestsAppend(first.outputs, rest.outputs);
      var head := Requests(first.outputs);
      var tail := Requests(rest.outputs);
      assert Requests(Run(s, events).outputs) == head + tail;
      forall i | 0 <= i < |head + tail|
        ensures (head + tail)[i] == s.username
      {
        if i >= |head| {
          assert (head + tail)[i] == tail[i - |head|];
        }
      }
    }
  }

  /** Over any run the user held at the end is the last one emitted, the latest
      replacing the earlier, or the starting one when none was. */
  lemma {:induction false} RunKeepsLatestUser(s: State, events: seq<Event>)
    ensures Run(s, events).state.user == LatestUser(s.user, Emitted(Run(s, events).outputs))
    decreases |events|
  {
    if events != [] {
      var first := Step(s, events[0]);
      var rest := Run(first.state, events[1..]);
      StepFacts(s, events[0]);
      RunKeepsLatestUser(first.state, events[1..]);
      EmittedAppend(first.outputs, rest.outputs);
      assert Emitted(Run(s, events).outputs) == Emitted(first.outputs) + Emitted(rest.outputs);
    }
  }

  /** With no success among the events, no user is emitted and the user is kept. */
  lemma {:induction false} NoSuccessNoUser(s: State, events: seq<Event>)
    requires forall i :: 0 <= i < |events| ==> !events[i].Loaded?
    ensures Emitted(Run(s, events).outputs) == []
    ensures Run(s, events).state.user == s.user
    decreases |events|
  {
    if events != [] {
      var first := Step(s, events[0]);
      var rest := Run(first.state, events[1..]);
      assert !events[0].Loaded?;
      StepFacts(s, events[0]);
      forall i | 0 <= i < |events[1..]|
        ensures !events[1..][i].Loaded?
      {
        assert events[1..][i] == events[i + 1];
      }
      NoSuccessNoUser(first.state, events[1..]);
      EmittedAppend(first.outputs, rest.outputs);
    }
  }

  /** A run from a freshly built view model emits no user before the first success, and
      the user it holds is the last one emitted, so a subscriber arriving at the end is
      given exactly that one. */
  lemma FreshRunReplaysLatest(username: string, events: seq<Event>)
    ensures var r := Run(Init(username), events);
            && Replayed(r.state) == (if Emitted(r.outputs) == [] then [] else [Emitted(r.outputs)[|Emitted(r.outputs)| - 1]])
            && ((forall i :: 0 <= i < |events| ==> !events[i].Loaded?) ==> Replayed(r.state) == [])
  {
    RunKeepsLatestUser(Init(username), events);
    if forall i :: 0 <= i < |events| ==> !events[i].Loaded? {
      NoSuccessNoUser(Init(username), events);
    }
  }

  lemma RunCons(s: State, e: Event, rest: seq<Event>)
    ensures Run(s, [e] + rest)
            == Transition(Run(Step(s, e).state, rest).state, Step(s, e).outputs + Run(Step(s, e).state, rest).outputs)
  {
    assert ([e] + rest)[0] == e;
    assert ([e] + rest)[1..] == rest;
  }

  /** viewDidLoad with a use case that succeeds: one request for the construction
      username, and the user is published with every field intact. */
  lemma ViewDidLoadFetchesDetail(username: string, d: UserDetail)
    ensures var r := Run(Init(username), [Input(ViewDidLoad), Loaded(d)]);
            && r.outputs == [Requested(username), UserEmitted(d)]
            && r.state.user == Some(d)
  {
    var t1 := Step(Init(username), Input(ViewDidLoad));
    assert [Input(ViewDidLoad), Loaded(d)] == [Input(ViewDidLoad)] + ([Loaded(d)] + []);
    RunCons(Init(username), Input(ViewDidLoad), [Loaded(d)] + []);
    RunCons(t1.state, Loaded(d), []);
  }

  /** viewDidLoad with a use case that fails: one request, the error is published, and no
      user is. */
  lemma ViewDidLoadFailureEmitsNoUser(username: string, e: NetworkError)
    ensures var r := Run(Init(username), [Input(ViewDidLoad), LoadFailed(e)]);
            && r.outputs == [Requested(username), ErrorRaised(e)]
            && r.state.user == None
  {
    var t1 := Step(Init(username), Input(ViewDidLoad));
    assert [Input(ViewDidLoad), LoadFailed(e)] == [Input(ViewDidLoad)] + ([LoadFailed(e)] + []);
    RunCons(Init(username), Input(ViewDidLoad), [LoadFailed(e)] + []);
    RunCons(t1.state, LoadFailed(e), []);
  }

  /** Two loads in a row: both users are published in order, and the later one is the
      one held. */
  lemma SuccessiveLoadsEmitInOrder(username: string, first: UserDetail, second: UserDetail)
    ensures var r := Run(Init(username), [Input(ViewDidLoad), Loaded(first), Input(ViewDidLoad), Loaded(second)]);
            && r.outputs == [Requested(username), UserEmitted(first), Requested(username), UserEmitted(second)]
            && r.state.user == Some(second)
  {
    var s0 := Init(username);
    var t1 := Step(s0, Input(ViewDidLoad));
    var t2 := Step(t1.state, Loaded(first));
    var t3 := Step(t2.state, Input(ViewDidLoad));
    assert [Input(ViewDidLoad), Loaded(first), Input(ViewDidLoad), Loaded(second)]
        == [Input(ViewDidLoad)] + ([Loaded(first)] + ([Input(ViewDidLoad)] + ([Loaded(second)] + [])));
    RunCons(s0, Input(ViewDidLoad), [Loaded(first)] + ([Input(ViewDidLoad)] + ([Loaded(second)] + [])));
    RunCons(t1.state, Loaded(first), [Input(ViewDidLoad)] + ([Loaded(second)] + []));
    RunCons(t2.state, Input(ViewDidLoad), [Loaded(second)] + []);
    RunCons(t3.state, Loaded(second), []);
  }

  /** A refresh that fails after a successful load keeps the loaded user. */
  lemma FailedRefreshKeepsUser(username: string, d: UserDetail, e: NetworkError)
    ensures var r := Run(Init(username), [Input(ViewDidLoad), Loaded(d), Input(Refresh), LoadFailed(e)]);
            && r.outputs == [Requested(username), UserEmitted(d), Requested(username), ErrorRaised(e)]
            && r.state.user == Some(d)
  {
    var s0 := Init(username);
    var t1 := Step(s0, Input(ViewDidLoad));
    var t2 := Step(t1.state, Loaded(d));
    var t3 := Step(t2.state, Input(Refresh));
    assert [Input(ViewDidLoad), Loaded(d), Input(Refresh), LoadFailed(e)]
        == [Input(ViewDidLoad)] + ([Loaded(d)] + ([Input(Refresh)] + ([LoadFailed(e)] + [])));
    RunCons(s0, Input(ViewDidLoad), [Loaded(d)] + ([Input(Refresh)] + ([LoadFailed(e)] + [])));
    RunCons(t1.state, Loaded(d), [Input(Refresh)] + ([LoadFailed(e)] + []));
    RunCons(t2.state, Input(Refresh), [LoadFailed(e)] + []);
    RunCons(t3.state, LoadFailed(e), []);
  }
}
