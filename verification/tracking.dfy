/** The experiment tracker (MLflow) as seen by the pipeline: an append-only log
    of what was recorded, and the stack of runs that are open. */
module Tracking {

  /** A value recorded as a parameter or carried in document metadata. */
  datatype Value = IntVal(i: int) | StrVal(s: string)

  /** One call into the tracker. A metric keeps only its key: the timings it
      carries are wall-clock differences and are not modelled. */
  datatype Event =
    | Started(name: string, nested: bool)
    | Ended
    | Param(key: string, value: Value)
    | Metric(key: string)
    | Dict(artifact: string, payload: seq<map<string, Value>>)

  /** The open-run stack after one event: a start pushes the run's name, an end
      closes the innermost open run (and does nothing when none is open). */
  function Step(open: seq<string>, e: Event): seq<string>
  {
    match e
    case Started(name, _) => open + [name]
    case Ended => if open == [] then [] else open[..|open| - 1]
    case _ => open
  }

  /** The open-run stack after replaying `events` from `open`. */
  function Replay(open: seq<string>, events: seq<Event>): seq<string>
    decreases |events|
  {
    if events == [] then open else Replay(Step(open, events[0]), events[1..])
  }

  /** Replaying a log in two pieces is replaying it whole. */
  lemma {:induction false} ReplayAppend(open: seq<string>, a: seq<Event>, b: seq<Event>)
    ensures Replay(open, a + b) == Replay(Replay(open, a), b)
    decreases |a|
  {
    if a == [] {
      assert a + b == b;
    } else {
      ReplayAppend(Step(open, a[0]), a[1..], b);
      assert (a + b)[1..] == a[1..] + b;
    }
  }

  /** Events that neither open nor close a run. */
  predicate NoRunChange(events: seq<Event>)
  {
    forall k :: 0 <= k < |events| ==> !events[k].Started? && !events[k].Ended?
  }

  /** Parameters, metrics and artifacts leave the open-run stack alone. */
  lemma {:induction false} ReplayRecords(open: seq<string>, events: seq<Event>)
    requires NoRunChange(events)
    ensures Replay(open, events) == open
    decreases |events|
  {
    if events != [] {
      ReplayRecords(open, events[1..]);
    }
  }

  /** A run opened, a log in which every run opened is closed again, and an end:
      the stack comes back to where it was. */
  lemma ReplayScoped(open: seq<string>, name: string, nested: bool, body: seq<Event>)
    requires Replay(open + [name], body) == open + [name]
    ensures Replay(open, [Started(name, nested)] + body + [Ended]) == open
  {
    ReplayAppend(open, [Started(name, nested)], body + [Ended]);
    ReplayAppend(open + [name], body, [Ended]);
    assert [Started(name, nested)] + body + [Ended] == [Started(name, nested)] + (body + [Ended]);
    assert (open + [name])[..|open|] == open;
  }

  /** The tracker: everything logged so far, and the runs currently open. */
  class Tracker {
    var events: seq<Event>
    var open: seq<string>

    ghost predicate Valid()
      reads this
    {
      open == Replay([], events)
    }

    constructor ()
      ensures Valid() && events == [] && open == []
    {
      events := [];
      open := [];
    }

    /** `mlflow.start_run(run_name=name, nested=nested)`, entering its `with` block. */
    method StartRun(name: string, nested: bool)
      requires Valid()
      modifies this
      ensures Valid()
      ensures events == old(events) + [Started(name, nested)]
      ensures open == old(open) + [name]
    {
      ReplayAppend([], events, [Started(name, nested)]);
      events := events + [Started(name, nested)];
      open := open + [name];
    }

    /** Leaving a run's `with` block, normally or by an exception. */
    method EndRun()
      requires Valid()
      modifies this
      ensures Valid()
      ensures events == old(events) + [Ended]
      ensures open == if old(open) == [] then [] else old(open)[..|old(open)| - 1]
    {
      ReplayAppend([], events, [Ended]);
      events := events + [Ended];
      if open != [] {
        open := open[..|open| - 1];
      }
    }

    /** `mlflow.log_param(key, value)`. */
    method LogParam(key: string, value: Value)
      requires Valid()
      modifies this
      ensures Valid()
      ensures events == old(events) + [Param(key, value)]
      ensures open == old(open)
    {
      ReplayAppend([], events, [Param(key, value)]);
      events := events + [Param(key, value)];
    }

    /** `mlflow.log_metric(key, ...)`; the number is not modelled. */
    method LogMetric(key: string)
      requires Valid()
      modifies this
      ensures Valid()
      ensures events == old(events) + [Metric(key)]
      ensures open == old(open)
    {
      ReplayAppend([], events, [Metric(key)]);
      events := events + [Metric(key)];
    }

    /** `mlflow.log_dict(payload, artifact)`. */
    method LogDict(payload: seq<map<string, Value>>, artifact: string)
      requires Valid()
      modifies this
      ensures Valid()
      ensures events == old(events) + [Dict(artifact, payload)]
      ensures open == old(open)
    {
      ReplayAppend([], events, [Dict(artifact, payload)]);
      events := events + [Dict(artifact, payload)];
    }
  }
}
