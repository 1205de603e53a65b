/** The block-event stream (`querier/stream.rs`): an endless stream whose state is the next
    height to deliver. It starts at the block height when it is created. Each step waits
    for that height, then fetches its events. A successful step emits the height's events
    and moves on by one; a failed wait or fetch emits the error and stays. The chain's answers
    at each step are parameters. */
module BlockStream {
  import opened Wrappers

  /** A block's events, reduced to opaque event handles. */
  datatype BlockEvents = BlockEvents(height: nat, events: seq<nat>)

  /** What the chain answered during one step. */
  datatype StepAnswer =
    | WaitFailed(error: string)
    | FetchFailed(error: string)
    | Fetched(events: seq<nat>)

  /** One step of the `unfold`: the item emitted and the next state. It always emits, so the
      stream never ends. */
  function Step(height: nat, answer: StepAnswer): (r: (Result<BlockEvents, string>, nat))
    ensures answer.Fetched? ==> r == (Ok(BlockEvents(height, answer.events)), height + 1)
    ensures !answer.Fetched? ==> r.0.Err? && r.0.error == answer.error && r.1 == height
  {
    match answer
    case WaitFailed(e) => (Err(e), height)
    case FetchFailed(e) => (Err(e), height)
    case Fetched(events) => (Ok(BlockEvents(height, events)), height + 1)
  }

  /** The items emitted for a run of answers, and the state after them. */
  function Run(height: nat, answers: seq<StepAnswer>): (r: (seq<Result<BlockEvents, string>>, nat))
    ensures |r.0| == |answers|
    ensures forall i :: 0 <= i < |answers| ==> (r.0[i].Ok? <==> answers[i].Fetched?)
    ensures forall i :: 0 <= i < |answers| && answers[i].Fetched? ==> r.0[i].value.events == answers[i].events
    decreases |answers|
  {
    if |answers| == 0 then ([], height)
    else
      var s := Step(height, answers[0]);
      var rest := Run(s.1, answers[1..]);
      assert forall i :: 1 <= i < |answers| ==> answers[i] == answers[1..][i - 1];
      ([s.0] + rest.0, rest.1)
  }

  /** The number of successful items. */
  function OkCount(items: seq<Result<BlockEvents, string>>): nat
    decreases |items|
  {
    if |items| == 0 then 0 else (if items[|items| - 1].Ok? then 1 else 0) + OkCount(items[..|items| - 1])
  }

  lemma {:induction false} OkCountPrepend(x: Result<BlockEvents, string>, items: seq<Result<BlockEvents, string>>)
    ensures OkCount([x] + items) == (if x.Ok? then 1 else 0) + OkCount(items)
    decreases |items|
  {
    if |items| > 0 {
      assert ([x] + items)[..|items|] == [x] + items[..|items| - 1];
      OkCountPrepend(x, items[..|items| - 1]);
    } else {
      assert ([x] + items)[..0] == [];
    }
  }

  /** The stream's successful heights count up by one from where it started: the item at
      position i, when successful, is for the start height plus the number of successes
      before it; and the state ends past every success. */
  lemma {:induction false} RunHeights(start: nat, answers: seq<StepAnswer>)
    ensures var r := Run(start, answers);
            && (forall i :: 0 <= i < |r.0| && r.0[i].Ok? ==> r.0[i].value.height == start + OkCount(r.0[..i]))
            && r.1 == start + OkCount(r.0)
    decreases |answers|
  {
    if |answers| > 0 {
      var s := Step(start, answers[0]);
      var rest := Run(s.1, answers[1..]);
      RunHeights(s.1, answers[1..]);
      assert Run(start, answers) == ([s.0] + rest.0, rest.1);
      OkCountPrepend(s.0, rest.0);
      PrependHeights(start, s.0, rest.0, s.1);
    }
  }

  /** Putting an item for `start` in front of items numbered from `next` keeps the
      numbering, when `next` is `start` moved past that item. */
  lemma {:induction false} PrependHeights(start: nat, x: Result<BlockEvents, string>, rest: seq<Result<BlockEvents, string>>, next: nat)
    requires next == start + (if x.Ok? then 1 else 0)
    requires x.Ok? ==> x.value.height == start
    requires forall i :: 0 <= i < |rest| && rest[i].Ok? ==> rest[i].value.height == next + OkCount(rest[..i])
    ensures forall i :: 0 <= i < |rest| + 1 && ([x] + rest)[i].Ok? ==> ([x] + rest)[i].value.height == start + OkCount(([x] + rest)[..i])
  {
    var items := [x] + rest;
    forall i | 0 <= i < |items| && items[i].Ok?
      ensures items[i].value.height == start + OkCount(items[..i])
    {
      if i == 0 {
        assert items[..0] == [];
      } else {
        assert items[i] == rest[i - 1];
        assert items[..i] == [x] + rest[..i - 1];
        OkCountPrepend(x, rest[..i - 1]);
      }
    }
  }

  /** Consecutive successful items are for consecutive heights, however many failures lie
      between them. */
  lemma {:induction false} NextOkIsNextHeight(start: nat, answers: seq<StepAnswer>, i: nat, j: nat)
    requires i < j < |answers|
    requires Run(start, answers).0[i].Ok? && Run(start, answers).0[j].Ok?
    requires forall k :: i < k < j ==> Run(start, answers).0[k].Err?
    ensures Run(start, answers).0[j].value.height == Run(start, answers).0[i].value.height + 1
  {
    var items := Run(start, answers).0;
    RunHeights(start, answers);
    OkCountGap(items, i, j);
  }

  lemma {:induction false} OkCountGap(items: seq<Result<BlockEvents, string>>, i: nat, j: nat)
    requires i < j <= |items|
    requires items[i].Ok?
    requires forall k :: i < k < j ==> items[k].Err?
    ensures OkCount(items[..j]) == OkCount(items[..i]) + 1
    decreases j - i
  {
    var p := items[..j];
    assert p[..|p| - 1] == items[..j - 1];
    if j - 1 > i {
      OkCountGap(items, i, j - 1);
    }
  }

  /** `stream_block_events`: reading the block height when the stream is created can fail;
      otherwise the first successful item is for that height. */
  function StreamBlockEvents(startHeight: Result<nat, string>, answers: seq<StepAnswer>)
    : (r: Result<seq<Result<BlockEvents, string>>, string>)
    ensures r.Err? <==> startHeight.Err?
    ensures r.Ok? ==> |r.value| == |answers|
    ensures r.Ok? ==> forall i :: 0 <= i < |answers| && answers[i].Fetched? && (forall k :: 0 <= k < i ==> !answers[k].Fetched?) ==>
                        r.value[i] == Ok(BlockEvents(startHeight.value, answers[i].events))
  {
    var start :- startHeight;
    var items := Run(start, answers).0;
    assert forall i :: 0 <= i < |answers| && answers[i].Fetched? && (forall k :: 0 <= k < i ==> !answers[k].Fetched?) ==>
             items[i] == Ok(BlockEvents(start, answers[i].events)) by {
      forall i | 0 <= i < |answers| && answers[i].Fetched? && (forall k :: 0 <= k < i ==> !answers[k].Fetched?)
        ensures items[i] == Ok(BlockEvents(start, answers[i].events))
      {
        FirstOkIsStart(start, answers, i);
      }
    }
    Ok(items)
  }

  /** Before the first fetch succeeds, the stream stays at its start height. */
  lemma {:induction false} FirstOkIsStart(start: nat, answers: seq<StepAnswer>, i: nat)
    requires i < |answers| && answers[i].Fetched?
    requires forall k :: 0 <= k < i ==> !answers[k].Fetched?
    ensures Run(start, answers).0[i] == Ok(BlockEvents(start, answers[i].events))
  {
    var items := Run(start, answers).0;
    assert forall k :: 0 <= k < i ==> items[k].Err?;
    assert forall k :: 0 <= k < |items[..i]| ==> items[..i][k] == items[k];
    OkCountNone(items[..i]);
    RunHeights(start, answers);
    assert items[i].value.height == start && items[i].value.events == answers[i].events;
  }

  lemma {:induction false} OkCountNone(items: seq<Result<BlockEvents, string>>)
    requires forall k :: 0 <= k < |items| ==> items[k].Err?
    ensures OkCount(items) == 0
    decreases |items|
  {
    if |items| > 0 {
      OkCountNone(items[..|items| - 1]);
    }
  }
}
