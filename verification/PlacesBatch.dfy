/** The Apple Maps batch: fourteen category searches, at most four under way, whose handlers may be
    called at once, late, or in any order, and re-enter the launching loop. */
module PlacesBatch {
  import opened Wrappers

  const QUERIES: nat := 14
  const MAX_PARALLEL: nat := 4

  /** What a category search answers. */
  datatype Answer<I> = Items(items: seq<I>) | Refused

  type Answers<I> = nat -> Answer<I>

  /** The batch's counters and flags; `loops` are the launching loops still on the stack,
      `outstanding` the searches whose handler was not called yet, `delivered` the completions. */
  datatype Batch<I> = Batch(
    next: nat, active: nat, results: map<nat, seq<I>>, successful: bool, lastError: Option<nat>,
    started: bool, finished: bool, cancelled: bool,
    loops: nat, outstanding: set<nat>, delivered: seq<(seq<I>, Option<nat>)>)

  function Idle<I>(): Batch<I> {
    Batch(0, 0, map[], false, None, false, false, false, 0, {}, [])
  }

  /** `partial_items`: the batches in query order. */
  function InOrder<I>(results: map<nat, seq<I>>, upTo: nat): seq<I> {
    if upTo == 0 then []
    else InOrder(results, upTo - 1) + if upTo - 1 in results then results[upTo - 1] else []
  }

  predicate MayLaunch<I>(b: Batch<I>) {
    !b.cancelled && !b.finished && b.active < MAX_PARALLEL && b.next < QUERIES
  }

  function FinishIfComplete<I>(b: Batch<I>): Batch<I> {
    if b.cancelled || b.finished || b.active != 0 || b.next < QUERIES || !b.started then b
    else b.(finished := true,
            delivered := b.delivered + [(InOrder(b.results, QUERIES), if b.successful then None else b.lastError)])
  }

  datatype Event =
    | Start
    | Launch             // one turn of some launching loop
    | LoopEnds           // a loop finds its guard false and checks for completion
    | Callback(index: nat)
    | Cancel

  function OneLess(n: nat): nat { if n > 0 then n - 1 else 0 }

  function CallbackStep<I>(b: Batch<I>, answers: Answers<I>, index: nat): Batch<I> {
    if index !in b.outstanding then b
    else
      var b1 := b.(outstanding := b.outstanding - {index});
      if b.cancelled || b.finished then b1
      else
        var less := OneLess(b.active);
        match answers(index)
        case Refused => b1.(lastError := Some(index), active := less, loops := b.loops + 1)
        case Items(items) =>
          b1.(successful := true, results := b.results[index := items], active := less, loops := b.loops + 1)
  }

  function Step<I>(b: Batch<I>, answers: Answers<I>, e: Event): Batch<I> {
    match e
    case Start => if b.started then b else b.(started := true, loops := b.loops + 1)
    case Launch =>
      if b.loops == 0 || !MayLaunch(b) then b
      else b.(next := b.next + 1, active := b.active + 1, outstanding := b.outstanding + {b.next})
    case LoopEnds => if b.loops == 0 || MayLaunch(b) then b else FinishIfComplete(b.(loops := b.loops - 1))
    case Callback(index) => CallbackStep(b, answers, index)
    case Cancel => b.(cancelled := true)
  }

  function After<I>(b: Batch<I>, answers: Answers<I>, events: seq<Event>): Batch<I>
    decreases |events|
  {
    if events == [] then b else After(Step(b, answers, events[0]), answers, events[1..])
  }

  // ------------------------------------------------------------------- invariant

  /** The batches a complete run collects. */
  ghost predicate Collected<I>(b: Batch<I>, answers: Answers<I>) {
    && (forall i: nat :: i in b.results <==> i < b.next && i !in b.outstanding && answers(i).Items?)
    && (forall i :: i in b.results ==> b.results[i] == answers(i).items)
    && (b.successful <==> b.results != map[])
    && (b.lastError.Some? ==> b.lastError.value < b.next && answers(b.lastError.value).Refused?)
    && (b.lastError.None? ==> forall i: nat :: i < b.next && i !in b.outstanding ==> answers(i).Items?)
  }

  /** Nothing the answers still owe is forgotten: as long as the batch is open and no loop is on the
      stack, some search is under way. */
  ghost predicate Inv<I>(b: Batch<I>, answers: Answers<I>) {
    && b.next <= QUERIES && b.active <= MAX_PARALLEL
    && (forall i :: i in b.outstanding ==> i < b.next)
    && (!b.cancelled && !b.finished ==> b.active == |b.outstanding| && Collected(b, answers))
    && (!b.started ==> b.loops == 0 && b.next == 0 && !b.finished && b.outstanding == {})
    && (b.started && !b.cancelled && !b.finished && b.loops == 0 ==> b.active > 0)
    && |b.delivered| == (if b.finished then 1 else 0)
    && (b.finished ==> Answered(b.delivered[0], answers))
  }

  function AllItems<I>(answers: Answers<I>, upTo: nat): seq<I> {
    if upTo == 0 then []
    else AllItems(answers, upTo - 1) + match answers(upTo - 1) case Items(items) => items case Refused => []
  }

  /** The completion a batch owes its caller: all items in query order, and an error only when every
      category was refused. */
  ghost predicate Answered<I>(completion: (seq<I>, Option<nat>), answers: Answers<I>) {
    && completion.0 == AllItems(answers, QUERIES)
    && (completion.1.None? <==> exists i: nat :: i < QUERIES && answers(i).Items?)
    && (completion.1.Some? ==> completion.1.value < QUERIES && answers(completion.1.value).Refused?)
  }

  lemma {:induction false} OrderIsByQuery<I>(results: map<nat, seq<I>>, answers: Answers<I>, upTo: nat)
    requires forall i: nat | i < upTo :: (i in results <==> answers(i).Items?) && (i in results ==> results[i] == answers(i).items)
    ensures InOrder(results, upTo) == AllItems(answers, upTo)
    decreases upTo
  {
    if upTo > 0 {
      OrderIsByQuery(results, answers, upTo - 1);
    }
  }

  lemma CompletionIsRight<I>(b: Batch<I>, answers: Answers<I>)
    requires Collected(b, answers) && b.next == QUERIES && b.outstanding == {}
    ensures Answered((InOrder(b.results, QUERIES), if b.successful then None else b.lastError), answers)
  {
    OrderIsByQuery(b.results, answers, QUERIES);
    if b.successful {
      var i :| i in b.results;
      assert i < QUERIES && answers(i).Items?;
    } else {
      forall i: nat | i < QUERIES ensures answers(i).Refused? {
        assert i !in b.results;
      }
      assert answers(0).Refused?;
    }
  }

  lemma LaunchKeeps<I>(b: Batch<I>, answers: Answers<I>)
    requires Inv(b, answers) && b.started && MayLaunch(b)
    ensures Inv(b.(next := b.next + 1, active := b.active + 1, outstanding := b.outstanding + {b.next}), answers)
  {
  }

  lemma LoopEndsKeeps<I>(b: Batch<I>, answers: Answers<I>)
    requires Inv(b, answers) && b.loops > 0 && !MayLaunch(b)
    ensures Inv(FinishIfComplete(b.(loops := b.loops - 1)), answers)
  {
    if !b.cancelled && !b.finished && b.active == 0 && b.next == QUERIES {
      assert b.outstanding == {};
      CompletionIsRight(b, answers);
    }
    hide Collected, Answered;
  }

  lemma CollectedOne<I>(b: Batch<I>, answers: Answers<I>, index: nat)
    requires Collected(b, answers) && index in b.outstanding && index < b.next && !b.cancelled && !b.finished
    ensures Collected(CallbackStep(b, answers, index), answers)
  {
  }

  lemma CallbackKeeps<I>(b: Batch<I>, answers: Answers<I>, index: nat)
    requires Inv(b, answers)
    ensures Inv(CallbackStep(b, answers, index), answers)
  {
    if index in b.outstanding && !b.cancelled && !b.finished {
      CollectedOne(b, answers, index);
    }
    hide Collected, Answered;
  }

  lemma StepKeeps<I>(b: Batch<I>, answers: Answers<I>, e: Event)
    requires Inv(b, answers)
    ensures Inv(Step(b, answers, e), answers)
  {
    match e
    case Launch =>
      if b.loops > 0 && MayLaunch(b) {
        LaunchKeeps(b, answers);
      }
    case LoopEnds =>
      if b.loops > 0 && !MayLaunch(b) {
        LoopEndsKeeps(b, answers);
      }
    case Callback(index) => CallbackKeeps(b, answers, index);
    case _ =>
  }

  lemma {:induction false} RunKeeps<I>(b: Batch<I>, answers: Answers<I>, events: seq<Event>)
    requires Inv(b, answers)
    ensures Inv(After(b, answers, events), answers)
    decreases |events|
  {
    if events != [] {
      StepKeeps(b, answers, events[0]);
      RunKeeps(Step(b, answers, events[0]), answers, events[1..]);
    }
  }

  // ------------------------------------------------------------------- what follows

  /** Whatever order the handlers are called in: never more than four searches under way, at most one
      completion, and that one lists every item in query order. */
  lemma BatchIsOrderly<I>(answers: Answers<I>, events: seq<Event>)
    ensures var b := After(Idle(), answers, events);
            && b.active <= 4 && (!b.cancelled && !b.finished ==> |b.outstanding| <= 4)
            && |b.delivered| <= 1 && (|b.delivered| == 1 ==> Answered(b.delivered[0], answers))
  {
    assert Inv(Idle(), answers);
    RunKeeps(Idle(), answers, events);
  }

  /** What was found by one query, if it was answered with anything. */
  function FoundBy<I>(answers: Answers<I>, i: nat): seq<I> {
    match answers(i)
    case Items(items) => items
    case Refused => []
  }

  /** The completion lists the items of the fourteen queries one after the other; it names an error exactly when
      all of them were refused, and then that of one of them. */
  lemma CompletionSpelledOut<I>(completion: (seq<I>, Option<nat>), answers: Answers<I>)
    ensures Answered(completion, answers)
            <==> && completion.0
                    == FoundBy(answers, 0) + FoundBy(answers, 1) + FoundBy(answers, 2) + FoundBy(answers, 3)
                       + FoundBy(answers, 4) + FoundBy(answers, 5) + FoundBy(answers, 6) + FoundBy(answers, 7)
                       + FoundBy(answers, 8) + FoundBy(answers, 9) + FoundBy(answers, 10) + FoundBy(answers, 11)
                       + FoundBy(answers, 12) + FoundBy(answers, 13)
                 && (completion.1.None? <==> exists i: nat :: i < 14 && answers(i).Items?)
                 && (completion.1.Some? ==> completion.1.value < 14 && answers(completion.1.value).Refused?)
  {
    assert AllItems(answers, 4) == FoundBy(answers, 0) + FoundBy(answers, 1) + FoundBy(answers, 2) + FoundBy(answers, 3);
    assert AllItems(answers, 8)
           == AllItems(answers, 4) + FoundBy(answers, 4) + FoundBy(answers, 5) + FoundBy(answers, 6) + FoundBy(answers, 7);
    assert AllItems(answers, 12)
           == AllItems(answers, 8) + FoundBy(answers, 8) + FoundBy(answers, 9) + FoundBy(answers, 10) + FoundBy(answers, 11);
  }

  /** A started batch that is not cancelled completes once every handler was called and the loops have
      unwound: the completion cannot get lost. */
  lemma CompletionIsNotLost<I>(answers: Answers<I>, events: seq<Event>)
    ensures var b := After(Idle(), answers, events);
            b.started && !b.cancelled && b.loops == 0 && b.outstanding == {} ==> b.finished && |b.delivered| == 1
  {
    assert Inv(Idle(), answers);
    RunKeeps(Idle(), answers, events);
  }

  /** What moves a batch: it starts once, launches the next query while a loop runs, fewer than four are under way
      and some are left, and takes each answer once; a loop that can launch nothing ends, and the last one to
      end with nothing under way delivers. */
  lemma BatchMovesExactly<I>(b: Batch<I>, answers: Answers<I>, index: nat)
    ensures Step(b, answers, Start) == if b.started then b else b.(started := true, loops := b.loops + 1)
    ensures var may := b.loops > 0 && !b.cancelled && !b.finished && b.active < 4 && b.next < 14;
            && Step(b, answers, Launch) == (if may
                 then b.(next := b.next + 1, active := b.active + 1, outstanding := b.outstanding + {b.next}) else b)
            && (b.loops > 0 && !may ==>
                  var over := b.started && !b.cancelled && !b.finished && b.active == 0 && b.next >= 14;
                  var t := Step(b, answers, LoopEnds);
                  && t.loops == b.loops - 1 && t.finished == (b.finished || over)
                  && |t.delivered| == |b.delivered| + (if over then 1 else 0))
    ensures index in b.outstanding ==>
              var t := Step(b, answers, Callback(index));
              && t.outstanding == b.outstanding - {index} && t.next == b.next
              && (if b.cancelled || b.finished then t == b.(outstanding := t.outstanding)
                  else && t.loops == b.loops + 1 && (b.active > 0 ==> t.active == b.active - 1)
                       && t.successful == (b.successful || answers(index).Items?)
                       && t.results == if answers(index).Items? then b.results[index := answers(index).items] else b.results)
  {
  }

  /** A new batch launches four searches and then waits for an answer. */
  lemma FirstFourLaunched<I>(answers: Answers<I>)
    ensures var b := After(Idle(), answers, [Start, Launch, Launch, Launch, Launch]);
            b.outstanding == {0, 1, 2, 3} && b.active == 4 && Step(b, answers, Launch) == b && !b.cancelled
  {
    var events := [Start, Launch, Launch, Launch, Launch];
    var b1: Batch<I> := Step(Idle(), answers, Start);
    var b2 := Step(b1, answers, Launch);
    var b3 := Step(b2, answers, Launch);
    var b4 := Step(b3, answers, Launch);
    var b5 := Step(b4, answers, Launch);
    assert events[1..] == [Launch, Launch, Launch, Launch] && events[1..][1..] == [Launch, Launch, Launch];
    assert events[1..][1..][1..] == [Launch, Launch] && events[1..][1..][1..][1..] == [Launch];
    assert After(b5, answers, []) == b5 && After(b4, answers, [Launch]) == b5;
    assert After(b3, answers, [Launch, Launch]) == b5 && After(b2, answers, [Launch, Launch, Launch]) == b5;
  }

  /** After a cancellation nothing is launched and nothing delivered. */
  lemma {:induction false} CancelIsFinal<I>(b: Batch<I>, answers: Answers<I>, events: seq<Event>)
    requires b.cancelled
    ensures var end := After(b, answers, events);
            end.cancelled && end.delivered == b.delivered && end.next == b.next && end.results == b.results
    decreases |events|
  {
    if events != [] {
      CancelIsFinal(Step(b, answers, events[0]), answers, events[1..]);
    }
  }

  // ------------------------------------------------------------------- the object

  /** The batch as it runs: the handler of a search may be called inside the loop that starts it, and
      then launches further searches itself. `immediate` says for which searches that happens. */
  class BatchSearch<I> {
    ghost const answers: Answers<I>
    var next: nat
    var active: nat
    var results: map<nat, seq<I>>
    var successful: bool
    var lastError: Option<nat>
    var started: bool
    var finished: bool
    var cancelled: bool
    ghost var outstanding: set<nat>
    ghost var delivered: seq<(seq<I>, Option<nat>)>

    constructor (answers: Answers<I>)
      ensures this.answers == answers && View(0) == Idle()
    {
      this.answers := answers;
      next, active, results, successful, lastError := 0, 0, map[], false, None;
      started, finished, cancelled := false, false, false;
      outstanding, delivered := {}, [];
    }

    /** The batch with `loops` launching loops on the stack. */
    ghost function View(loops: nat): Batch<I>
      reads this
    {
      Batch(next, active, results, successful, lastError, started, finished, cancelled, loops, outstanding, delivered)
    }

    method StartBatch(immediate: nat -> bool, answer: nat -> Answer<I>)
      requires Inv(View(0), answers) && !started && answer == answers
      modifies this
      ensures Inv(View(0), answers) && started
    {
      StepKeeps(View(0), answers, Start);
      started := true;
      LaunchAvailable(0, immediate, answer);
    }

    /** `_launch_available`, entered with `outer` loops already on the stack. */
    method LaunchAvailable(ghost outer: nat, immediate: nat -> bool, answer: nat -> Answer<I>)
      requires Inv(View(outer + 1), answers) && started && answer == answers
      modifies this
      ensures Inv(View(outer), answers) && started && old(next) <= next
      decreases QUERIES - next, 1
    {
      hide Collected, Answered, InOrder, Inv;
      while !cancelled && !finished && active < MAX_PARALLEL && next < QUERIES
        invariant Inv(View(outer + 1), answers) && started && old(next) <= next
        decreases QUERIES - next
      {
        LaunchKeeps(View(outer + 1), answers);
        var index := next;
        next, active := next + 1, active + 1;
        outstanding := outstanding + {index};
        if immediate(index) {
          FinishQuery(outer + 1, index, immediate, answer);
        }
      }
      ghost var last := View(outer + 1);
      LoopEndsKeeps(last, answers);
      if !cancelled && !finished && active == 0 && next >= QUERIES {
        finished := true;
        var items := PartialItems();
        delivered := delivered + [(items, if successful then None else lastError)];
      }
      assert View(outer) == FinishIfComplete(last.(loops := outer));
    }

    /** `_finish_query`: a handler called with `outer` loops on the stack, at most once per search. */
    method FinishQuery(ghost outer: nat, index: nat, immediate: nat -> bool, answer: nat -> Answer<I>)
      requires Inv(View(outer), answers) && started && answer == answers && index in outstanding
      modifies this
      ensures Inv(View(outer), answers) && started && old(next) <= next
      decreases QUERIES - next, 2
    {
      hide Collected, Answered, InOrder, Inv;
      CallbackKeeps(View(outer), answers, index);
      outstanding := outstanding - {index};
      if cancelled || finished {
        return;
      }
      match answer(index) {
        case Refused => lastError := Some(index);
        case Items(items) =>
          successful := true;
          results := results[index := items];
      }
      active := OneLess(active);
      LaunchAvailable(outer, immediate, answer);
    }

    method PartialItems() returns (items: seq<I>)
      ensures items == InOrder(results, QUERIES)
    {
      items := [];
      var index := 0;
      while index < QUERIES
        invariant 0 <= index <= QUERIES && items == InOrder(results, index)
      {
        if index in results {
          items := items + results[index];
        }
        index := index + 1;
      }
    }

    method CancelBatch()
      requires Inv(View(0), answers)
      modifies this`cancelled
      ensures Inv(View(0), answers) && cancelled
    {
      cancelled := true;
    }
  }
}
