/** `UserListViewModel`: the list screen's paging state machine. Inputs and fetch
    completions arrive as one ordered list of events; each event moves the state and
    produces the outputs the view model publishes, in order. */
module UserListViewModel {
  import opened Wrappers
  import opened Domain
  import opened NetworkErrors
  import opened UserListSection

  /** `Constants.perPage`. */
  const PerPage: int := 20

  /** `LoadingState`; `Idle` is the source's `.none`. */
  datatype LoadingState = Initial | Pagination | Idle

  /** The three inputs that start a fetch. */
  datatype Trigger = ViewDidLoad | LoadMore | Refresh

  /** `createLoadingTrigger`: load-more pages, the other two load from the start. */
  function TriggerState(t: Trigger): (l: LoadingState)
    ensures l != Idle
    ensures l == Pagination <==> t == LoadMore
  {
    match t
    case ViewDidLoad => Initial
    case LoadMore => Pagination
    case Refresh => Initial
  }

  /** `createRefreshStream`: only a refresh forces a refresh. */
  function IsRefresh(t: Trigger): (b: bool)
    ensures b <==> t == Refresh
  {
    t == Refresh
  }

  /** The busy check: an idle view model takes the trigger's state, a busy one keeps its
      current state. The trigger is never dropped, since the result is never `Idle`. */
  function EffectiveState(t: Trigger, current: LoadingState): (l: LoadingState)
    ensures l != Idle
    ensures current != Idle ==> l == current
    ensures current == Idle ==> l == TriggerState(t)
  {
    if current == Idle then TriggerState(t) else current
  }

  /** The arguments of `useCase.execute(since:perPage:forceRefresh:)`. */
  datatype FetchRequest = FetchRequest(since: int, perPage: int, forceRefresh: bool)

  /** The view model's state: `State`'s page counter, the items relay, the loading-state
      relay, whether a fetch is pending, and the next identifier `UUID()` will draw. */
  datatype State = State(
    currentPage: int,
    items: seq<UserCellItem>,
    loadingState: LoadingState,
    fetching: bool,
    nextUuid: nat)

  const Init: State := State(0, [], Idle, false, 0)

  datatype Event =
    | Input(trigger: Trigger)           // viewDidLoad(), loadMore(), refresh()
    | Delivered(users: seq<User>)       // the pending fetch emitted a list
    | Completed                         // the pending fetch completed
    | Failed(error: NetworkError)       // the pending fetch failed
    | SelectUser(index: int)            // didSelectUser(at:)

  datatype Output =
    | LoadingChanged(loading: LoadingState)
    | ItemsChanged(items: seq<UserCellItem>)
    | Requested(request: FetchRequest)
    | ErrorRaised(error: NetworkError)
    | UserSelected(item: UserCellItem)

  datatype Transition = Transition(state: State, outputs: seq<Output>)

  /** Every row has an identifier already drawn, and no two rows share one. */
  predicate Valid(s: State)
  {
    && (forall i :: 0 <= i < |s.items| ==> s.items[i].uuid < s.nextUuid)
    && (forall i, j :: 0 <= i < j < |s.items| ==> s.items[i].uuid != s.items[j].uuid)
  }

  /** A trigger: `handleDataFetch` with the effective state and the page counter read
      before a refresh resets it. A new fetch supersedes any pending one. */
  function StartFetch(s: State, t: Trigger): (r: Transition)
    ensures r.state.loadingState == EffectiveState(t, s.loadingState) && r.state.fetching
    ensures r.state.nextUuid == s.nextUuid
    ensures t == Refresh ==> r.state.items == [] && r.state.currentPage == 0
    ensures t != Refresh ==> r.state.items == s.items && r.state.currentPage == s.currentPage
    ensures |r.outputs| == (if t == Refresh then 3 else 2)
    ensures r.outputs[0] == LoadingChanged(EffectiveState(t, s.loadingState))
    ensures t == Refresh ==> r.outputs[1] == ItemsChanged([])
    ensures r.outputs[|r.outputs| - 1] == Requested(FetchRequest(s.currentPage * PerPage, PerPage, t == Refresh))
  {
    var loading := EffectiveState(t, s.loadingState);
    var request := FetchRequest(s.currentPage * PerPage, PerPage, IsRefresh(t));
    if IsRefresh(t) then
      Transition(s.(currentPage := 0, items := [], loadingState := loading, fetching := true),
                 [LoadingChanged(loading), ItemsChanged([]), Requested(request)])
    else
      Transition(s.(loadingState := loading, fetching := true),
                 [LoadingChanged(loading), Requested(request)])
  }

  /** A list from the pending fetch: loading ends, the users' rows are appended with
      fresh identifiers, and the page counter moves on by one. Ignored when nothing is
      pending. */
  function Deliver(s: State, users: seq<User>): (r: Transition)
    ensures !s.fetching ==> r == Transition(s, [])
    ensures s.fetching ==>
              && |r.state.items| == |s.items| + |users|
              && r.state.items[..|s.items|] == s.items
              && UsersOf(r.state.items[|s.items|..]) == users
              && r.state.currentPage == s.currentPage + 1
              && r.state.loadingState == Idle && r.state.fetching
              && r.outputs == [LoadingChanged(Idle), ItemsChanged(r.state.items)]
  {
    if !s.fetching then Transition(s, [])
    else
      var rows := CellItems(users, s.nextUuid);
      UsersOfCellItems(users, s.nextUuid);
      assert (s.items + rows)[..|s.items|] == s.items;
      assert (s.items + rows)[|s.items|..] == rows;
      var next := s.(items := s.items + rows, currentPage := s.currentPage + 1, loadingState := Idle,
                     nextUuid := s.nextUuid + |users|);
      Transition(next, [LoadingChanged(Idle), ItemsChanged(next.items)])
  }

  /** The appended rows get identifiers not drawn before, so a delivery keeps every
      identifier drawn and no two rows sharing one. */
  lemma DeliverKeepsValid(s: State, users: seq<User>)
    requires Valid(s)
    ensures Valid(Deliver(s, users).state)
  {
    if s.fetching {
      var rows := CellItems(users, s.nextUuid);
      var r := Deliver(s, users).state;
      assert r.items == s.items + rows;
      assert r.nextUuid == s.nextUuid + |users|;
      forall i | 0 <= i < |r.items|
        ensures r.items[i].uuid < r.nextUuid
      {
        if i >= |s.items| {
          assert r.items[i] == rows[i - |s.items|];
        }
      }
      forall i, j | 0 <= i < j < |r.items|
        ensures r.items[i].uuid != r.items[j].uuid
      {
        if j >= |s.items| {
          assert r.items[j] == rows[j - |s.items|];
          if i >= |s.items| {
            assert r.items[i] == rows[i - |s.items|];
          }
        }
      }
    }
  }

  /** The pending fetch fails: the error is published once, loading ends, and the caught
      empty list still goes through `handleNewItems`, so the rows stay as they are and
      the page counter moves on by one. */
  function Fail(s: State, e: NetworkError): (r: Transition)
    ensures !s.fetching ==> r == Transition(s, [])
    ensures s.fetching ==>
              && r.state.items == s.items
              && r.state.currentPage == s.currentPage + 1
              && r.state.loadingState == Idle && !r.state.fetching
              && r.outputs == [ErrorRaised(e), LoadingChanged(Idle), ItemsChanged(s.items)]
  {
    if !s.fetching then Transition(s, [])
    else
      Transition(s.(currentPage := s.currentPage + 1, loadingState := Idle, fetching := false),
                 [ErrorRaised(e), LoadingChanged(Idle), ItemsChanged(s.items)])
  }

  /** The selection guard: the row at the index when it is in range, otherwise nothing. */
  function Select(s: State, index: int): (r: Transition)
    ensures r.state == s
    ensures |r.outputs| <= 1
    ensures |r.outputs| == 1 <==> 0 <= index < |s.items|
    ensures |r.outputs| == 1 ==> r.outputs[0] == UserSelected(s.items[index])
  {
    if 0 <= index < |s.items| then Transition(s, [UserSelected(s.items[index])])
    else Transition(s, [])
  }

  function Step(s: State, e: Event): Transition
  {
    match e
    case Input(t) => StartFetch(s, t)
    case Delivered(users) => Deliver(s, users)
    case Completed => Transition(s.(fetching := false), [])
    case Failed(err) => Fail(s, err)
    case SelectUser(i) => Select(s, i)
  }

  /** Events applied in order; the outputs are concatenated. */
  function Run(s: State, events: seq<Event>): Transition
    decreases |events|
  {
    if events == [] then Transition(s, [])
    else
      var first := Step(s, events[0]);
      var rest := Run(first.state, events[1..]);
      Transition(rest.state, first.outputs + rest.outputs)
  }

  /** Every event keeps the row identifiers drawn and distinct. Only a refresh empties
      the rows or lowers the page counter; every other event keeps the existing rows as
      a prefix and never lowers the counter. */
  lemma StepInvariants(s: State, e: Event)
    ensures Valid(s) ==> Valid(Step(s, e).state)
    ensures e != Input(Refresh) ==>
              s.items <= Step(s, e).state.items && s.currentPage <= Step(s, e).state.currentPage
    ensures e == Input(Refresh) ==> Step(s, e).state.items == [] && Step(s, e).state.currentPage == 0
  {
    if Valid(s) && e.Delivered? {
      DeliverKeepsValid(s, e.users);
    }
  }

  /** Over any run the row identifiers stay drawn and distinct, and a run with no refresh
      only ever appends rows and never lowers the page counter. */
  lemma {:induction false} RunInvariants(s: State, events: seq<Event>)
    ensures Valid(s) ==> Valid(Run(s, events).state)
    ensures Input(Refresh) !in events ==>
              s.items <= Run(s, events).state.items && s.currentPage <= Run(s, events).state.currentPage
    decreases |events|
  {
    if events != [] {
      StepInvariants(s, events[0]);
      RunInvariants(Step(s, events[0]).state, events[1..]);
      assert Input(Refresh) !in events ==> Input(Refresh) !in events[1..];
    }
  }

  /** Running two event lists one after the other is running their concatenation. */
  lemma {:induction false} RunAppend(s: State, a: seq<Event>, b: seq<Event>)
    ensures Run(s, a + b) == Transition(Run(Run(s, a).state, b).state, Run(s, a).outputs + Run(Run(s, a).state, b).outputs)
    decreases |a|
  {
    if a == [] {
      assert a + b == b;
    } else {
      var e, tail := a[0], a[1..];
      var next := Step(s, e).state;
      var mid := Run(next, tail);
      var last := Run(mid.state, b);
      assert a == [e] + tail;
      assert a + b == [e] + (tail + b);
      RunAppend(next, tail, b);
      RunCons(s, e, tail + b);
      RunCons(s, e, tail);
      AppendAssoc(Step(s, e).outputs, mid.outputs, last.outputs);
    }
  }

  lemma AppendAssoc<T>(a: seq<T>, b: seq<T>, c: seq<T>)
    ensures (a + b) + c == a + (b + c)
  {
  }

  /** Running a first event and then the rest. */
  lemma RunCons(s: State, e: Event, rest: seq<Event>)
    ensures Run(s, [e] + rest)
            == Transition(Run(Step(s, e).state, rest).state, Step(s, e).outputs + Run(Step(s, e).state, rest).outputs)
  {
    assert ([e] + rest)[0] == e;
    assert ([e] + rest)[1..] == rest;
  }

  /** The requests among some outputs, in order. */
  function Requests(outputs: seq<Output>): seq<FetchRequest>
  {
    if outputs == [] then []
    else (if outputs[0].Requested? then [outputs[0].request] else []) + Requests(outputs[1..])
  }

  lemma {:induction false} RequestsAppend(a: seq<Output>, b: seq<Output>)
    ensures Requests(a + b) == Requests(a) + Requests(b)
    decreases |a|
  {
    if a == [] {
      assert a + b == b;
    } else {
      assert (a + b)[0] == a[0];
      assert (a + b)[1..] == a[1..] + b;
      RequestsAppend(a[1..], b);
    }
  }

  lemma RequestsCons(o: Output, rest: seq<Output>)
    ensures Requests([o] + rest) == (if o.Requested? then [o.request] else []) + Requests(rest)
  {
    assert ([o] + rest)[1..] == rest;
  }

  /** A trigger makes exactly one request: for the page the counter stands at. */
  lemma StartFetchRequests(s: State, t: Trigger)
    ensures Requests(StartFetch(s, t).outputs) == [FetchRequest(s.currentPage * PerPage, PerPage, t == Refresh)]
  {
    var outs := StartFetch(s, t).outputs;
    var q := FetchRequest(s.currentPage * PerPage, PerPage, t == Refresh);
    RequestsCons(Requested(q), []);
    if t == Refresh {
      assert outs == [outs[0]] + ([outs[1]] + [Requested(q)]);
      RequestsCons(outs[1], [Requested(q)]);
      RequestsCons(outs[0], [outs[1]] + [Requested(q)]);
    } else {
      assert outs == [outs[0]] + [Requested(q)];
      RequestsCons(outs[0], [Requested(q)]);
    }
  }

  /** A delivery makes no request. */
  lemma DeliverRequests(s: State, users: seq<User>)
    ensures Requests(Deliver(s, users).outputs) == []
  {
    var outs := Deliver(s, users).outputs;
    if s.fetching {
      assert outs == [outs[0]] + ([outs[1]] + []);
      RequestsCons(outs[1], []);
      RequestsCons(outs[0], [outs[1]] + []);
    }
  }

  /** A failure makes no request. */
  lemma FailRequests(s: State, e: NetworkError)
    ensures Requests(Fail(s, e).outputs) == []
  {
    var outs := Fail(s, e).outputs;
    if s.fetching {
      assert outs == [outs[0]] + ([outs[1]] + ([outs[2]] + []));
      RequestsCons(outs[2], []);
      RequestsCons(outs[1], [outs[2]] + []);
      RequestsCons(outs[0], [outs[1]] + ([outs[2]] + []));
    }
  }

  /** A selection makes no request. */
  lemma SelectRequests(s: State, index: int)
    ensures Requests(Select(s, index).outputs) == []
  {
    var outs := Select(s, index).outputs;
    if |outs| == 1 {
      assert outs == [outs[0]] + [];
      RequestsCons(outs[0], []);
    }
  }

  /** The use-case request an event causes: one for each trigger, asking for the page the
      counter stands at, and none for anything else. */
  lemma StepRequests(s: State, e: Event)
    ensures Requests(Step(s, e).outputs)
            == (if e.Input? then [FetchRequest(s.currentPage * PerPage, PerPage, e.trigger == Refresh)] else [])
  {
    match e
    case Input(t) => StartFetchRequests(s, t);
    case Delivered(users) => DeliverRequests(s, users);
    case Completed =>
    case Failed(err) => FailRequests(s, err);
    case SelectUser(i) => SelectRequests(s, i);
  }

  /** The requests of a run: those of its first event, then those of the rest. */
  lemma RunRequestsCons(s: State, e: Event, rest: seq<Event>)
    ensures Requests(Run(s, [e] + rest).outputs)
            == Requests(Step(s, e).outputs) + Requests(Run(Step(s, e).state, rest).outputs)
  {
    RunCons(s, e, rest);
    RequestsAppend(Step(s, e).outputs, Run(Step(s, e).state, rest).outputs);
  }

  /** One load-more round answered by one list. */
  function LoadMoreRound(users: seq<User>): seq<Event>
  {
    [Input(LoadMore), Delivered(users), Completed]
  }

  /** Load-more rounds answered by the given pages, one round per page. */
  function LoadMoreRounds(pages: seq<seq<User>>): seq<Event>
  {
    if pages == [] then [] else LoadMoreRound(pages[0]) + LoadMoreRounds(pages[1..])
  }

  /** The pages' users, in order. */
  function Flatten(pages: seq<seq<User>>): seq<User>
  {
    if pages == [] then [] else pages[0] + Flatten(pages[1..])
  }

  lemma FlattenCons(pages: seq<seq<User>>)
    requires pages != []
    ensures Flatten(pages) == pages[0] + Flatten(pages[1..])
  {
  }

  /** The requests of `n` consecutive pages starting at page `page`. */
  function PageRequests(page: int, n: nat): (qs: seq<FetchRequest>)
    ensures |qs| == n
    ensures forall k :: 0 <= k < n ==> qs[k] == FetchRequest((page + k) * PerPage, PerPage, false)
  {
    seq(n, k => FetchRequest((page + k) * PerPage, PerPage, false))
  }

  lemma PageRequestsCons(page: int, n: nat)
    requires n > 0
    ensures PageRequests(page, n) == [FetchRequest(page * PerPage, PerPage, false)] + PageRequests(page + 1, n - 1)
  {
    var l := PageRequests(page, n);
    var r := [FetchRequest(page * PerPage, PerPage, false)] + PageRequests(page + 1, n - 1);
    forall k | 0 <= k < n
      ensures l[k] == r[k]
    {
      if k > 0 {
        assert r[k] == PageRequests(page + 1, n - 1)[k - 1];
        assert (page + 1 + (k - 1)) == page + k;
      }
    }
  }

  /** A trigger, one delivered list and the completion: the trigger's outputs then the
      delivery's, ending with the rows and counter as the delivery leaves them. */
  lemma FetchRoundRun(s: State, t: Trigger, users: seq<User>)
    ensures Run(s, [Input(t), Delivered(users), Completed])
            == Transition(Deliver(StartFetch(s, t).state, users).state.(fetching := false),
                          StartFetch(s, t).outputs + Deliver(StartFetch(s, t).state, users).outputs)
  {
    var t1 := StartFetch(s, t);
    var t2 := Deliver(t1.state, users);
    assert Step(s, Input(t)) == t1;
    assert Step(t1.state, Delivered(users)) == t2;
    assert Step(t2.state, Completed) == Transition(t2.state.(fetching := false), []);
    assert [Input(t), Delivered(users), Completed] == [Input(t)] + ([Delivered(users)] + [Completed]);
    assert [Completed] == [Completed] + [];
    RunCons(t2.state, Completed, []);
    RunCons(t1.state, Delivered(users), [Completed]);
    RunCons(s, Input(t), [Delivered(users)] + [Completed]);
    assert t2.outputs + [] == t2.outputs;
  }

  /** A trigger, one delivered list and the completion: the trigger's request, then the
      rows and counter as the delivery leaves them. */
  lemma FetchRound(s: State, t: Trigger, users: seq<User>)
    ensures var r := Run(s, [Input(t), Delivered(users), Completed]);
            && Requests(r.outputs) == [FetchRequest(s.currentPage * PerPage, PerPage, t == Refresh)]
            && r.state == Deliver(StartFetch(s, t).state, users).state.(fetching := false)
            && r.outputs == StartFetch(s, t).outputs + Deliver(StartFetch(s, t).state, users).outputs
  {
    FetchRoundRun(s, t, users);
    var t1 := StartFetch(s, t);
    var t2 := Deliver(t1.state, users);
    RequestsAppend(t1.outputs, t2.outputs);
    StartFetchRequests(s, t);
    DeliverRequests(t1.state, users);
  }

  /** An idle view model answering one load-more round asks for the page after the
      counter, appends the page's users and moves the counter on by one. */
  lemma LoadMoreRoundEffect(s: State, users: seq<User>)
    requires s.loadingState == Idle
    ensures var r := Run(s, LoadMoreRound(users));
            && Requests(r.outputs) == [FetchRequest(s.currentPage * PerPage, PerPage, false)]
            && r.state.currentPage == s.currentPage + 1
            && UsersOf(r.state.items) == UsersOf(s.items) + users
            && r.state.loadingState == Idle && !r.state.fetching
            && |r.outputs| == 4
            && r.outputs[0] == LoadingChanged(Pagination) && r.outputs[2] == LoadingChanged(Idle)
  {
    FetchRound(s, LoadMore, users);
    var items := Run(s, LoadMoreRound(users)).state.items;
    assert items == items[..|s.items|] + items[|s.items|..];
    UsersOfAppend(items[..|s.items|], items[|s.items|..]);
  }

  /** Pagination: after rounds of load-more answered by the given pages, the k-th request
      asks for `since = 20 * (counter + k)`, the rows show the earlier users followed by
      every page's users in order, and the counter has moved on by the number of pages. */
  lemma {:induction false} PagingAppendsPages(s: State, pages: seq<seq<User>>)
    requires s.loadingState == Idle
    ensures var r := Run(s, LoadMoreRounds(pages));
            && Requests(r.outputs) == PageRequests(s.currentPage, |pages|)
            && r.state.currentPage == s.currentPage + |pages|
            && UsersOf(r.state.items) == UsersOf(s.items) + Flatten(pages)
            && r.state.loadingState == Idle
    decreases |pages|
  {
    if pages == [] {
      assert PageRequests(s.currentPage, 0) == [];
    } else {
      var round := LoadMoreRound(pages[0]);
      var rest := LoadMoreRounds(pages[1..]);
      assert LoadMoreRounds(pages) == round + rest;
      var mid := Run(s, round);
      var last := Run(mid.state, rest);
      RunAppend(s, round, rest);
      assert Run(s, LoadMoreRounds(pages)) == Transition(last.state, mid.outputs + last.outputs);
      LoadMoreRoundEffect(s, pages[0]);
      PagingAppendsPages(mid.state, pages[1..]);
      RequestsAppend(mid.outputs, last.outputs);
      PageRequestsCons(s.currentPage, |pages|);
      FlattenCons(pages);
      AppendAssoc(UsersOf(s.items), pages[0], Flatten(pages[1..]));
    }
  }

  /** Two events in a row. */
  lemma RunTwo(s: State, e1: Event, e2: Event)
    ensures var t1 := Step(s, e1);
            var t2 := Step(t1.state, e2);
            Run(s, [e1, e2]) == Transition(t2.state, t1.outputs + t2.outputs)
  {
    var t1 := Step(s, e1);
    assert [e1, e2] == [e1] + [e2];
    assert [e2] == [e2] + [];
    RunCons(t1.state, e2, []);
    RunCons(s, e1, [e2]);
    assert Step(t1.state, e2).outputs + [] == Step(t1.state, e2).outputs;
  }

  /** Three events in a row. */
  lemma RunThree(s: State, e1: Event, e2: Event, e3: Event)
    ensures var t1 := Step(s, e1);
            var t2 := Step(t1.state, e2);
            var t3 := Step(t2.state, e3);
            Run(s, [e1, e2, e3]) == Transition(t3.state, t1.outputs + (t2.outputs + t3.outputs))
  {
    var t1 := Step(s, e1);
    assert [e1, e2, e3] == [e1] + [e2, e3];
    RunTwo(t1.state, e2, e3);
    RunCons(s, e1, [e2, e3]);
  }

  lemma RequestsThree(a: seq<Output>, b: seq<Output>, c: seq<Output>)
    ensures Requests(a + (b + c)) == Requests(a) + (Requests(b) + Requests(c))
  {
    RequestsAppend(b, c);
    RequestsAppend(a, b + c);
  }

  /** First load: the use case is asked for `since` 0, 20 per page, without forcing a
      refresh; the loading state goes initial then none, and the delivered users become
      the rows on page counter 1. */
  lemma FirstLoad(users: seq<User>)
    ensures var r := Run(Init, [Input(ViewDidLoad), Delivered(users), Completed]);
            && Requests(r.outputs) == [FetchRequest(0, 20, false)]
            && r.outputs == [LoadingChanged(Initial), Requested(FetchRequest(0, 20, false)),
                             LoadingChanged(Idle), ItemsChanged(CellItems(users, 0))]
            && r.state.items == CellItems(users, 0) && UsersOf(r.state.items) == users
            && r.state.currentPage == 1 && r.state.loadingState == Idle && !r.state.fetching
  {
    FetchRound(Init, ViewDidLoad, users);
    assert Deliver(StartFetch(Init, ViewDidLoad).state, users).state.items == [] + CellItems(users, 0);
    UsersOfCellItems(users, 0);
  }

  /** First load of 20 users followed by a load-more of 20: the second request asks for
      `since` 20, the loading state goes initial, none, pagination, none, and there are 40
      rows on page counter 2. */
  lemma FirstLoadThenLoadMore(first: seq<User>, next: seq<User>)
    requires |first| == 20 && |next| == 20
    ensures var r := Run(Init, [Input(ViewDidLoad), Delivered(first), Completed] + LoadMoreRound(next));
            && Requests(r.outputs) == [FetchRequest(0, 20, false), FetchRequest(20, 20, false)]
            && |r.state.items| == 40
            && r.state.currentPage == 2
            && |r.outputs| == 8
            && r.outputs[0] == LoadingChanged(Initial) && r.outputs[2] == LoadingChanged(Idle)
            && r.outputs[4] == LoadingChanged(Pagination) && r.outputs[6] == LoadingChanged(Idle)
  {
    var initial := [Input(ViewDidLoad), Delivered(first), Completed];
    FirstLoad(first);
    var mid := Run(Init, initial);
    var last := Run(mid.state, LoadMoreRound(next));
    RunAppend(Init, initial, LoadMoreRound(next));
    LoadMoreRoundEffect(mid.state, next);
    RequestsAppend(mid.outputs, last.outputs);
  }

  /** A failing first load publishes the error once, ends loading, leaves no rows, and
      still moves the page counter on. */
  lemma FirstLoadFails(e: NetworkError)
    ensures var r := Run(Init, [Input(ViewDidLoad), Failed(e)]);
            && r.outputs == [LoadingChanged(Initial), Requested(FetchRequest(0, 20, false)),
                             ErrorRaised(e), LoadingChanged(Idle), ItemsChanged([])]
            && r.state.items == [] && r.state.currentPage == 1 && r.state.loadingState == Idle
  {
    RunTwo(Init, Input(ViewDidLoad), Failed(e));
  }

  /** A refresh asks for the page the counter stood at, not for the first page: it reads
      the counter before resetting it. The delivered users then replace the rows and the
      counter ends at 1. */
  lemma RefreshRequestsCounterPage(s: State, users: seq<User>)
    ensures var r := Run(s, [Input(Refresh), Delivered(users), Completed]);
            && Requests(r.outputs) == [FetchRequest(s.currentPage * 20, 20, true)]
            && UsersOf(r.state.items) == users
            && r.state.currentPage == 1
  {
    FetchRound(s, Refresh, users);
    assert Deliver(StartFetch(s, Refresh).state, users).state.items == [] + CellItems(users, s.nextUuid);
    UsersOfCellItems(users, s.nextUuid);
  }

  /** A load-more while the first load is still pending is not dropped: it keeps the
      initial loading state and asks for the same page again, superseding the first fetch. */
  lemma LoadMoreWhileLoadingRefetches()
    ensures Run(Init, [Input(ViewDidLoad), Input(LoadMore)]).outputs
            == [LoadingChanged(Initial), Requested(FetchRequest(0, 20, false)),
                LoadingChanged(Initial), Requested(FetchRequest(0, 20, false))]
  {
    RunTwo(Init, Input(ViewDidLoad), Input(LoadMore));
  }

  /** A failed load-more still moves the page counter on, so the next load-more skips the
      page that failed; the rows are untouched. */
  lemma FailedPageIsSkipped(s: State, e: NetworkError)
    requires s.loadingState == Idle
    ensures var r := Run(s, [Input(LoadMore), Failed(e), Input(LoadMore)]);
            && Requests(r.outputs) == [FetchRequest(s.currentPage * 20, 20, false),
                                       FetchRequest((s.currentPage + 1) * 20, 20, false)]
            && r.state.items == s.items
  {
    var t1 := StartFetch(s, LoadMore);
    var t2 := Fail(t1.state, e);
    var t3 := StartFetch(t2.state, LoadMore);
    RunThree(s, Input(LoadMore), Failed(e), Input(LoadMore));
    RequestsThree(t1.outputs, t2.outputs, t3.outputs);
    StartFetchRequests(s, LoadMore);
    FailRequests(t1.state, e);
    StartFetchRequests(t2.state, LoadMore);
  }

  /** A load-more from an idle state that fails: the pagination state and one request,
      then the error, none, and the unchanged rows; the counter still moves on. */
  lemma FailedLoadMore(s: State, e: NetworkError)
    requires s.loadingState == Idle
    ensures var r := Run(s, [Input(LoadMore), Failed(e)]);
            && r.outputs == [LoadingChanged(Pagination), Requested(FetchRequest(s.currentPage * 20, 20, false)),
                             ErrorRaised(e), LoadingChanged(Idle), ItemsChanged(s.items)]
            && Requests(r.outputs) == [FetchRequest(s.currentPage * 20, 20, false)]
            && r.state.items == s.items
            && r.state.currentPage == s.currentPage + 1 && r.state.loadingState == Idle
  {
    var t1 := StartFetch(s, LoadMore);
    var t2 := Fail(t1.state, e);
    RunTwo(s, Input(LoadMore), Failed(e));
    RequestsAppend(t1.outputs, t2.outputs);
    StartFetchRequests(s, LoadMore);
    FailRequests(t1.state, e);
  }

  /** A first load that succeeds, then a load-more that fails: two use-case calls (since
      0, then since 20), loading states initial, none, pagination, none, the error
      published once after the pagination state, and the first page's rows kept. */
  lemma LoadMoreFails(first: seq<User>, e: NetworkError)
    ensures var r := Run(Init, [Input(ViewDidLoad), Delivered(first), Completed] + [Input(LoadMore), Failed(e)]);
            && r.outputs == [LoadingChanged(Initial), Requested(FetchRequest(0, 20, false)),
                             LoadingChanged(Idle), ItemsChanged(CellItems(first, 0)),
                             LoadingChanged(Pagination), Requested(FetchRequest(20, 20, false)),
                             ErrorRaised(e), LoadingChanged(Idle), ItemsChanged(CellItems(first, 0))]
            && Requests(r.outputs) == [FetchRequest(0, 20, false), FetchRequest(20, 20, false)]
            && UsersOf(r.state.items) == first
            && r.state.currentPage == 2 && r.state.loadingState == Idle
  {
    var initial := [Input(ViewDidLoad), Delivered(first), Completed];
    FirstLoad(first);
    var mid := Run(Init, initial);
    var last := Run(mid.state, [Input(LoadMore), Failed(e)]);
    RunAppend(Init, initial, [Input(LoadMore), Failed(e)]);
    FailedLoadMore(mid.state, e);
    RequestsAppend(mid.outputs, last.outputs);
  }
}
