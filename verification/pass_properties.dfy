/** Properties of a processing pass that relate several messages: how the
    fold composes, what the stop flag cuts off, how the counter, the calls
    and the loop-carried `event_data` follow the fetched messages. */
module PassProperties {
  import opened Json
  import opened Calendar
  import opened RecentEmails
  import opened Lifecycle
  import opened Processing

  // ---------------------------------------------------------------------------
  // Reference definitions.

  function Judgments(xs: seq<Incoming>): (js: seq<Judgment>)
    ensures |js| == |xs|
  {
    seq(|xs|, i requires 0 <= i < |xs| => xs[i].judgment)
  }

  function Texts(xs: seq<Incoming>): (ts: seq<string>)
    ensures |ts| == |xs|
  {
    seq(|xs|, i requires 0 <= i < |xs| => ClassificationText(xs[i].message))
  }

  /** The value of `event_data` after the judgments `js`, starting from `b0`:
      the `EventData` of the LAST event-intent judgment, or `b0` if none. */
  function LatestEventData(b0: Binding, js: seq<Judgment>): Binding
    decreases |js|
  {
    if |js| == 0 then b0
    else if IsEventIntent(Get(js[|js| - 1].intent)) then Bound(Get(js[|js| - 1].eventData))
    else LatestEventData(b0, js[..|js| - 1])
  }

  /** The number of calendar calls in a trace that returned. */
  function CreatedCount(t: seq<Effect>): nat
    decreases |t|
  {
    if |t| == 0 then 0
    else (if t[0].CalendarCall? && t[0].created then 1 else 0) + CreatedCount(t[1..])
  }

  /** The texts handed to extraction, in call order. */
  function ClassifiedTexts(t: seq<Effect>): seq<string>
    decreases |t|
  {
    if |t| == 0 then []
    else (if t[0].Classify? then [t[0].text] else []) + ClassifiedTexts(t[1..])
  }

  /** Every mark-read call comes right after a calendar call for the same
      message that returned. */
  predicate MarkReadFollowsCreation(t: seq<Effect>) {
    forall i :: 0 <= i < |t| && t[i].MarkReadCall? ==>
      0 < i && t[i - 1] == CalendarCall(t[i].messageId, true)
  }

  /** The calls a pass made after the state `s`. */
  function Delta(s: PassState, r: Progress): seq<Effect>
    requires |s.trace| <= |r.state.trace|
  {
    r.state.trace[|s.trace|..]
  }

  // ---------------------------------------------------------------------------
  // Helpers on traces.

  lemma {:induction false} CreatedCountAppend(a: seq<Effect>, b: seq<Effect>)
    ensures CreatedCount(a + b) == CreatedCount(a) + CreatedCount(b)
    decreases |a|
  {
    if |a| > 0 {
      assert (a + b)[1..] == a[1..] + b;
      CreatedCountAppend(a[1..], b);
    } else {
      assert a + b == b;
    }
  }

  lemma {:induction false} ClassifiedTextsAppend(a: seq<Effect>, b: seq<Effect>)
    ensures ClassifiedTexts(a + b) == ClassifiedTexts(a) + ClassifiedTexts(b)
    decreases |a|
  {
    if |a| > 0 {
      assert (a + b)[1..] == a[1..] + b;
      ClassifiedTextsAppend(a[1..], b);
    } else {
      assert a + b == b;
    }
  }

  /** The trace of a fold is the trace of its first step followed by the
      trace of the rest. */
  lemma FoldTraceSplits(s: PassState, xs: seq<Incoming>)
    requires |xs| > 0 && Step(s, xs[0]).ending == Finished
    ensures Fold(s, xs) == Fold(Step(s, xs[0]).state, xs[1..])
    ensures Delta(s, Fold(s, xs))
              == EffectsOf(s, xs[0]) + Delta(Step(s, xs[0]).state, Fold(s, xs))
  {
    var p := Step(s, xs[0]);
    var t := Fold(p.state, xs[1..]).state.trace;
    SuffixAfterPrefix(t, s.trace, EffectsOf(s, xs[0]));
  }

  /** A sequence that starts with `a + e` continues, after `a`, with `e`. */
  lemma SuffixAfterPrefix<T>(t: seq<T>, a: seq<T>, e: seq<T>)
    requires |a| + |e| <= |t| && t[..|a| + |e|] == a + e
    ensures t[|a|..] == e + t[|a| + |e|..]
  {
    assert t == t[..|a| + |e|] + t[|a| + |e|..];
  }

  // ---------------------------------------------------------------------------
  // Composition.

  /** Handling `xs + ys` is handling `xs` and, if that finished, going on
      with `ys` from where it left off; otherwise `ys` is never looked at. */
  lemma {:induction false} FoldAppend(s: PassState, xs: seq<Incoming>, ys: seq<Incoming>)
    ensures Fold(s, xs + ys)
              == (if Fold(s, xs).ending == Finished then Fold(Fold(s, xs).state, ys) else Fold(s, xs))
    decreases |xs|
  {
    if |xs| == 0 {
      assert xs + ys == ys;
    } else {
      assert (xs + ys)[0] == xs[0];
      assert (xs + ys)[1..] == xs[1..] + ys;
      var p := Step(s, xs[0]);
      if p.ending == Finished {
        FoldAppend(p.state, xs[1..], ys);
      }
    }
  }

  /** Once a message observes the stop flag, it and every later message are
      left untouched: the pass ends in the state reached before it. */
  lemma StopLeavesRestUntouched(s: PassState, xs: seq<Incoming>, k: nat)
    requires k < |xs| && !xs[k].stillRunning
    requires Fold(s, xs[..k]).ending == Finished
    ensures Fold(s, xs) == Progress(Fold(s, xs[..k]).state, StopObserved)
  {
    assert xs == xs[..k] + xs[k..];
    FoldAppend(s, xs[..k], xs[k..]);
    assert xs[k..][0] == xs[k];
  }

  // ---------------------------------------------------------------------------
  // Counting and ordering.

  /** The creation counter grows by exactly the number of calendar calls that
      returned. */
  lemma {:induction false} FoldCountsCreations(s: PassState, xs: seq<Incoming>)
    ensures Fold(s, xs).state.agent.createdToday == s.agent.createdToday + CreatedCount(Delta(s, Fold(s, xs)))
    decreases |xs|
  {
    var r := Fold(s, xs);
    if |xs| > 0 {
      var p := Step(s, xs[0]);
      var e := EffectsOf(s, xs[0]);
      assert CreatedCount(e) == (if Creates(s, xs[0]) then 1 else 0) by {
        if xs[0].stillRunning {
          var call := if CallsCalendar(s, xs[0]) then [CalendarCall(xs[0].message.id, Creates(s, xs[0]))] else [];
          var mark := if Creates(s, xs[0]) && s.agent.gmail.Some? then [MarkReadCall(xs[0].message.id)] else [];
          assert e == [Classify(ClassificationText(xs[0].message))] + call + mark;
          CreatedCountAppend([Classify(ClassificationText(xs[0].message))] + call, mark);
          CreatedCountAppend([Classify(ClassificationText(xs[0].message))], call);
        }
      }
      if p.ending == Finished {
        FoldTraceSplits(s, xs);
        FoldCountsCreations(p.state, xs[1..]);
        CreatedCountAppend(e, Delta(p.state, r));
      } else {
        assert Delta(s, r) == e;
      }
    }
  }

  /** Messages go to extraction in fetch order: the texts classified in a
      pass are those of a prefix of the fetch, the whole fetch when the pass
      finished. */
  lemma {:induction false} FoldClassifiesInFetchOrder(s: PassState, xs: seq<Incoming>)
    ensures |ClassifiedTexts(Delta(s, Fold(s, xs)))| <= |xs|
    ensures ClassifiedTexts(Delta(s, Fold(s, xs))) == Texts(xs[..|ClassifiedTexts(Delta(s, Fold(s, xs)))|])
    ensures Fold(s, xs).ending == Finished ==> |ClassifiedTexts(Delta(s, Fold(s, xs)))| == |xs|
    decreases |xs|
  {
    var r := Fold(s, xs);
    if |xs| == 0 {
      assert Delta(s, r) == [];
    } else {
      var p := Step(s, xs[0]);
      var e := EffectsOf(s, xs[0]);
      if !xs[0].stillRunning {
        assert Delta(s, r) == [];
      } else {
        StepClassifiesOnce(s, xs[0]);
        if p.ending == Finished {
          FoldTraceSplits(s, xs);
          FoldClassifiesInFetchOrder(p.state, xs[1..]);
          ClassifiedTextsAppend(e, Delta(p.state, r));
          TextsOfPrefix(xs, |ClassifiedTexts(Delta(p.state, r))|);
        } else {
          assert Delta(s, r) == e;
          TextsOfPrefix(xs, 0);
        }
      }
    }
  }

  /** A message that reads the flag true is classified exactly once. */
  lemma StepClassifiesOnce(s: PassState, x: Incoming)
    requires x.stillRunning
    ensures ClassifiedTexts(EffectsOf(s, x)) == [ClassificationText(x.message)]
  {
    var e := EffectsOf(s, x);
    var tail := e[1..];
    assert e == [Classify(ClassificationText(x.message))] + tail;
    TextsOfCallsAreEmpty(tail);
    ClassifiedTextsAppend([Classify(ClassificationText(x.message))], tail);
  }

  /** The texts of a non-empty prefix are the first message's text followed
      by the texts of the rest of the prefix. */
  lemma TextsOfPrefix(xs: seq<Incoming>, n: nat)
    requires n < |xs|
    ensures Texts(xs[..n + 1]) == [ClassificationText(xs[0].message)] + Texts(xs[1..][..n])
  {
    assert xs[..n + 1][1..] == xs[1..][..n];
  }

  lemma {:induction false} TextsOfCallsAreEmpty(t: seq<Effect>)
    requires forall i :: 0 <= i < |t| ==> !t[i].Classify?
    ensures ClassifiedTexts(t) == []
    decreases |t|
  {
    if |t| > 0 {
      TextsOfCallsAreEmpty(t[1..]);
    }
  }

  /** In a whole pass, `mark_as_read` is called only right after a
      `create_event` for the same message returned. */
  lemma {:induction false} FoldMarksOnlyAfterCreation(s: PassState, xs: seq<Incoming>)
    ensures MarkReadFollowsCreation(Delta(s, Fold(s, xs)))
    ensures |Delta(s, Fold(s, xs))| > 0 ==> Delta(s, Fold(s, xs))[0].Classify?
    decreases |xs|
  {
    var r := Fold(s, xs);
    if |xs| == 0 {
      assert Delta(s, r) == [];
    } else {
      var p := Step(s, xs[0]);
      var e := EffectsOf(s, xs[0]);
      assert MarkReadFollowsCreation(e);
      if p.ending == Finished {
        FoldTraceSplits(s, xs);
        FoldMarksOnlyAfterCreation(p.state, xs[1..]);
        var d := Delta(p.state, r);
        assert Delta(s, r) == e + d;
        forall i | 0 <= i < |e + d| && (e + d)[i].MarkReadCall?
          ensures 0 < i && (e + d)[i - 1] == CalendarCall((e + d)[i].messageId, true)
        {
          if i >= |e| {
            assert d[i - |e|].MarkReadCall?;
            assert i - |e| > 0;
            assert (e + d)[i - 1] == d[i - |e| - 1];
          }
        }
      } else {
        assert Delta(s, r) == e;
      }
    }
  }

  // ---------------------------------------------------------------------------
  // The loop-carried `event_data`.

  /** After a finished fold, `event_data` holds the `EventData` of the last
      event-intent message, or what it held before if there was none. */
  lemma {:induction false} FoldBindsLatestEventData(s: PassState, xs: seq<Incoming>)
    requires Fold(s, xs).ending == Finished
    ensures Fold(s, xs).state.eventData == LatestEventData(s.eventData, Judgments(xs))
    decreases |xs|
  {
    if |xs| > 0 {
      var n := |xs|;
      var init, last := xs[..n - 1], xs[n - 1];
      assert xs == init + [last];
      FoldLastStep(s, init, last);
      FoldBindsLatestEventData(s, init);
      assert Judgments(xs)[..n - 1] == Judgments(init);
      assert Judgments(xs)[n - 1] == last.judgment;
    }
  }

  /** Appending one message to a fold: it is stepped from the state the
      fold reached if the fold finished, and ignored otherwise. */
  lemma FoldLastStep(s: PassState, init: seq<Incoming>, last: Incoming)
    ensures Fold(s, init).ending != Finished ==> Fold(s, init + [last]) == Fold(s, init)
    ensures Fold(s, init).ending == Finished ==> Fold(s, init + [last]) == Step(Fold(s, init).state, last)
  {
    FoldAppend(s, init, [last]);
    assert [last][0] == last && [last][1..] == [];
  }

  /** The summary of a Medium or High message comes from the `EventData` of
      the most recent EARLIER event-intent message of the pass (or from the
      state the fold started in). When there is none, reading `event_data`
      raises: nothing is inserted and the rest of the fetch is abandoned. */
  lemma SummaryComesFromLatestEventMessage(s: PassState, xs: seq<Incoming>, k: nat)
    requires k < |xs|
    requires Fold(s, xs[..k]).ending == Finished
    requires xs[k].stillRunning && IsPriority(Importance(xs[k].judgment))
    ensures LatestEventData(s.eventData, Judgments(xs[..k])).Unbound? ==>
              Fold(s, xs).ending == Aborted(UnboundEventData)
              && Fold(s, xs).state.agent == Fold(s, xs[..k]).state.agent
    ensures LatestEventData(s.eventData, Judgments(xs[..k])).Bound? ==>
              |Fold(s, xs[..k + 1]).state.agent.recentEmails| > 0
              && Fold(s, xs[..k + 1]).state.agent.recentEmails[0].summary
                   == Summary(LatestEventData(s.eventData, Judgments(xs[..k])).value)
  {
    FoldBindsLatestEventData(s, xs[..k]);
    assert xs[..k + 1] == xs[..k] + [xs[k]];
    FoldLastStep(s, xs[..k], xs[k]);
    if Step(Fold(s, xs[..k]).state, xs[k]).ending != Finished {
      UnboundReadAbandonsRest(s, xs, k);
    }
  }

  /** When the message at `k` raises, the pass ends there, in the state the
      step reached. */
  lemma UnboundReadAbandonsRest(s: PassState, xs: seq<Incoming>, k: nat)
    requires k < |xs|
    requires Fold(s, xs[..k]).ending == Finished
    requires Step(Fold(s, xs[..k]).state, xs[k]).ending != Finished
    ensures Fold(s, xs) == Step(Fold(s, xs[..k]).state, xs[k])
  {
    assert xs == xs[..k] + xs[k..];
    FoldAppend(s, xs[..k], xs[k..]);
    assert xs[k..][0] == xs[k];
  }

  // ---------------------------------------------------------------------------
  // Single messages.

  /** The fallback judgment, and any judgment without an event intent or
      with a falsy `EventData`, leads to no calendar call, no mark-read and
      no change to the counter. */
  lemma NoCalendarWithoutEventAndData(s: PassState, x: Incoming)
    requires !IsEventIntent(Get(x.judgment.intent))
             || Get(x.judgment.eventData).None?
             || !Get(x.judgment.eventData).value.Truthy()
    ensures Step(s, x).state.agent.createdToday == s.agent.createdToday
    ensures Step(s, x).state.trace == s.trace + (if x.stillRunning then [Classify(ClassificationText(x.message))] else [])
  {
  }

  /** The extraction fallback changes nothing but the extraction call itself:
      its importance defaults to "Low" and its intent is "None". */
  lemma FallbackTakesNoAction(s: PassState, x: Incoming)
    requires x.stillRunning && x.judgment == Fallback
    ensures Step(s, x) == Progress(s.(trace := s.trace + [Classify(ClassificationText(x.message))]), Finished)
  {
  }

  /** Whether `mark_as_read` raises makes no difference: the increment that
      preceded it stays. `Step` never reads the outcome, so this holds by
      construction; it records that the `except` at agent.py:129 swallows the
      raise after the counter has moved. */
  lemma MarkOutcomeIsIrrelevant(s: PassState, x: Incoming, m: MarkOutcome)
    ensures Step(s, x.(mark := m)) == Step(s, x)
  {
  }

  /** A `create_event` that raises leaves the counter as it was and is not
      followed by `mark_as_read`; the fold goes on with the next message. */
  lemma CalendarFailureIsContained(s: PassState, x: Incoming)
    requires CallsCalendar(s, x) && !Creates(s, x)
    ensures Step(s, x).ending == Finished
    ensures Step(s, x).state.agent.createdToday == s.agent.createdToday
    ensures Step(s, x).state.trace
              == s.trace + [Classify(ClassificationText(x.message)), CalendarCall(x.message.id, false)]
  {
  }

  /** A `create_event` that returns adds exactly one to the counter and is
      followed by exactly one `mark_as_read` for the same message. */
  lemma CalendarSuccessCountsAndMarks(s: PassState, x: Incoming)
    requires Creates(s, x) && s.agent.gmail.Some?
    ensures Step(s, x).state.agent.createdToday == s.agent.createdToday + 1
    ensures Step(s, x).state.trace
              == s.trace + [Classify(ClassificationText(x.message)),
                            CalendarCall(x.message.id, true), MarkReadCall(x.message.id)]
  {
  }

  // ---------------------------------------------------------------------------
  // Whole passes.

  /** An empty fetch leaves the agent as it was. */
  lemma EmptyFetchChangesNothing(a: Agent)
    requires a.gmail.Some?
    ensures ProcessEmails(a, Fetched([])).state.agent == a
    ensures ProcessEmails(a, Fetched([])).state.trace == []
  {
  }

  /** A Medium or High message at the head of a fetch makes the pass raise
      before anything else happens, whatever its intent: `event_data` has
      not been bound yet in this pass. */
  lemma LeadingPriorityMessageAbortsPass(a: Agent, x: Incoming, rest: seq<Incoming>)
    requires a.gmail.Some?
    requires x.stillRunning && IsPriority(Importance(x.judgment))
    ensures ProcessEmails(a, Fetched([x] + rest))
              == Progress(PassState(a, Unbound, [Classify(ClassificationText(x.message))]), Aborted(UnboundEventData))
  {
  }

  /** A run of passes from a valid agent keeps it valid, never lowers the
      counter and never touches the lifecycle fields. */
  lemma {:induction false} RunLoopKeepsInvariant(a: Agent, turns: seq<Turn>, k: nat)
    requires Valid(a)
    requires k <= |turns|
    ensures Valid(RunLoop(a, turns[..k]))
    ensures a.createdToday <= RunLoop(a, turns[..k]).createdToday <= RunLoop(a, turns).createdToday
    decreases |turns|
  {
    if k > 0 && turns[0].runningAtTop {
      var b := ProcessEmails(a, turns[0].fetch).state.agent;
      assert turns[..k][1..] == turns[1..][..k - 1];
      RunLoopKeepsInvariant(b, turns[1..], k - 1);
    }
  }

  /** Over a whole pass, the creation counter grows by exactly the number of
      calendar calls in the pass's trace that returned. */
  lemma PassCountsCreations(a: Agent, fetch: Fetch)
    ensures ProcessEmails(a, fetch).state.agent.createdToday
              == a.createdToday + CreatedCount(ProcessEmails(a, fetch).state.trace)
  {
    var r := ProcessEmails(a, fetch);
    if a.gmail.Some? && fetch.Fetched? {
      FoldCountsCreations(Begin(a), fetch.items);
      assert Delta(Begin(a), r) == r.state.trace;
    }
  }

  /** The agent after one pass per turn, whatever the flag reads: the
      reference the loop is measured against, built from the last turn
      backwards. */
  function PassesOver(a: Agent, ts: seq<Turn>): Agent
    decreases |ts|
  {
    if |ts| == 0 then a
    else ProcessEmails(PassesOver(a, ts[..|ts| - 1]), ts[|ts| - 1].fetch).state.agent
  }

  /** A turn that reads the flag true runs exactly one pass, and the next
      turn starts from the state that pass reached, whether it finished, saw
      the stop flag or raised: a raise is caught at the top of the loop, so
      counter increments and recent entries made before it are kept. */
  lemma EachTurnRunsOnePass(a: Agent, t: Turn, rest: seq<Turn>)
    requires t.runningAtTop
    ensures RunLoop(a, [t] + rest) == RunLoop(ProcessEmails(a, t.fetch).state.agent, rest)
  {
    assert ([t] + rest)[1..] == rest;
  }

  /** One more running turn at the end of a run of running turns adds one
      pass on top of the agent they reached. */
  lemma {:induction false} RunLoopAppendRunning(a: Agent, ts: seq<Turn>, t: Turn)
    requires forall i :: 0 <= i < |ts| ==> ts[i].runningAtTop
    requires t.runningAtTop
    ensures RunLoop(a, ts + [t]) == ProcessEmails(RunLoop(a, ts), t.fetch).state.agent
    decreases |ts|
  {
    if |ts| == 0 {
      assert ts + [t] == [t];
      assert [t][1..] == [];
    } else {
      assert (ts + [t])[0] == ts[0];
      assert (ts + [t])[1..] == ts[1..] + [t];
      RunLoopAppendRunning(ProcessEmails(a, ts[0].fetch).state.agent, ts[1..], t);
    }
  }

  /** While the flag reads true at the top of every turn, the loop runs
      exactly one pass per turn, in order. */
  lemma {:induction false} RunLoopRunsEveryRunningTurn(a: Agent, ts: seq<Turn>)
    requires forall i :: 0 <= i < |ts| ==> ts[i].runningAtTop
    ensures RunLoop(a, ts) == PassesOver(a, ts)
    decreases |ts|
  {
    if |ts| > 0 {
      var n := |ts|;
      assert ts == ts[..n - 1] + [ts[n - 1]];
      RunLoopRunsEveryRunningTurn(a, ts[..n - 1]);
      RunLoopAppendRunning(a, ts[..n - 1], ts[n - 1]);
    }
  }

  /** The loop runs one pass per turn for as long as the flag reads true at
      the top, and ends at the first turn where it reads false: later turns
      are never looked at. */
  lemma {:induction false} RunLoopStopsAtFirstClearedFlag(a: Agent, ts: seq<Turn>, t: Turn, us: seq<Turn>)
    requires forall i :: 0 <= i < |ts| ==> ts[i].runningAtTop
    requires !t.runningAtTop
    ensures RunLoop(a, ts + [t] + us) == RunLoop(a, ts)
    ensures RunLoop(a, ts + [t] + us) == PassesOver(a, ts)
    decreases |ts|
  {
    if |ts| == 0 {
      assert ts + [t] + us == [t] + us;
    } else {
      var b := ProcessEmails(a, ts[0].fetch).state.agent;
      assert (ts + [t] + us)[0] == ts[0];
      assert (ts + [t] + us)[1..] == ts[1..] + [t] + us;
      RunLoopStopsAtFirstClearedFlag(b, ts[1..], t, us);
    }
    RunLoopRunsEveryRunningTurn(a, ts);
  }
}
