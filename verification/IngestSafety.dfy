/** What every interleaving of pushes, manual requests and workflow steps keeps. */
module IngestSafety {
  import opened Domain
  import opened StoreModel
  import opened Ingest
  import Workflow

  ghost predicate Distinct<T>(s: seq<T>) { forall i, j :: 0 <= i < j < |s| ==> s[i] != s[j] }

  /** A push that reserved its fingerprint, and so is the one to create or forward. */
  predicate Winner(call: Call) {
    call.Push? && !call.at.Reserving? && !call.at.Rereading? && !(call.at.Answered? && call.at.outcome.Duplicate?)
  }

  /** A fingerprint has at most one winner; it is tried when the winner gets past creating, and once. */
  ghost predicate TriedOnce(w: World) {
    && Distinct(w.tried)
    && (forall fp :: fp in w.tried ==> fp in w.st.eventMaps)
    && (forall k :: 0 <= k < |w.calls| && Winner(w.calls[k]) ==>
          w.calls[k].ly.fp in w.st.eventMaps && (w.calls[k].ly.fp in w.tried <==> w.calls[k].at != Creating))
    && (forall k, l :: 0 <= k < l < |w.calls| && Winner(w.calls[k]) && Winner(w.calls[l]) ==>
          w.calls[k].ly.fp != w.calls[l].ly.fp)
  }

  /** The call whose answer a binding holds. */
  predicate Source(call: Call, fp: string, id: ID) { call.Push? && call.ly.fp == fp && Made(call) == id }

  ghost predicate BindingsMade(w: World) {
    forall fp :: fp in w.st.eventMaps && BoundID(w.st, fp) != NO_ID ==>
      exists k :: 0 <= k < |w.calls| && Source(w.calls[k], fp, BoundID(w.st, fp))
  }

  /** Without an upstream, what a call made is an event, and no two calls made the same one. */
  ghost predicate EventsMade(w: World) {
    && NO_ID !in w.st.events
    && (forall k :: 0 <= k < |w.calls| && Made(w.calls[k]) != NO_ID ==> Made(w.calls[k]) in w.st.events)
    && (forall k, l :: 0 <= k < l < |w.calls| && Made(w.calls[k]) != NO_ID ==> Made(w.calls[k]) != Made(w.calls[l]))
  }

  /** Nobody binds or announces nothing, and what a duplicate was told was some binding. */
  ghost predicate AnswerOk(st: Store, call: Call) {
    && (call.at.Binding? || call.at.Announcing? || (call.at.Answered? && call.at.outcome.Created?) ==> Made(call) != NO_ID)
    && (call.at.Answered? && call.at.outcome.Duplicate? && call.at.outcome.id != NO_ID ==> call.at.outcome.id in st.events)
  }

  ghost predicate AnswersOk(w: World) {
    forall k :: 0 <= k < |w.calls| ==> AnswerOk(w.st, w.calls[k])
  }

  ghost predicate Inv(upstream: bool, w: World) {
    TriedOnce(w) && BindingsMade(w) && (!upstream ==> EventsMade(w) && AnswersOk(w))
  }

  // ------------------------------------------------------------------ the steps

  lemma WorkflowKeeps(st: Store, e: ID, op: Workflow.Op)
    ensures var st' := Workflow.Apply(st, e, op); st'.eventMaps == st.eventMaps && st'.events.Keys == st.events.Keys
  {
    hide MessageRow, TaskRow, ActionRow, CommandRow, ExecutionRow, StoreModel.SummaryRow, Find, PatchTask, PatchAction, PatchCommand, Drew;
  }

  /** What one turn does to fingerprints and events. */
  lemma StepKeeps(upstream: bool, st: Store, call: Call, answer: Answer)
    ensures var (st', at') := Step(upstream, st, call, answer);
            && (forall fp :: fp in st.eventMaps ==> fp in st'.eventMaps)
            && (forall e :: e in st.events ==> e in st'.events)
            && (forall fp :: BoundID(st', fp) != BoundID(st, fp) ==> call.Push? && fp == call.ly.fp && call.at == Binding(BoundID(st', fp)))
            && (Winner(At(call, at')) && !Winner(call) ==>
                  call.at == Reserving && at' == Creating && call.ly.fp !in st.eventMaps && call.ly.fp in st'.eventMaps)
            && (Winner(call) ==> Winner(At(call, at')) && at' != Creating)
  {
    hide LocalEvent, EventRow, MessageRow, Drew, Notification;
  }

  lemma {:induction false} TurnKeepsTried(upstream: bool, w: World, k: nat, answer: Answer)
    requires TriedOnce(w) && k < |w.calls|
    ensures TriedOnce(Next(upstream, w, Turn(k, answer)))
  {
    StepKeeps(upstream, w.st, w.calls[k], answer);
    hide Step;
  }

  /** What a turn makes: nothing new, or an event that was not there. */
  lemma StepMakes(st: Store, call: Call, answer: Answer)
    requires NO_ID !in st.events && (Made(call) != NO_ID ==> Made(call) in st.events)
    ensures var (st', at') := Step(false, st, call, answer);
            var call' := At(call, at');
            && NO_ID !in st'.events
            && (Made(call) != NO_ID ==> Made(call') == Made(call))
            && (Made(call) == NO_ID && Made(call') != NO_ID ==>
                  call.at == Creating && Made(call') !in st.events && Made(call') in st'.events)
  {
    hide MessageRow, Drew, Notification, LyEventToDeepSOC;
    if call.Push? { LocalEventIsNamed(call.ly); }
    hide LocalEvent;
  }

  lemma {:induction false} TurnKeepsBindings(upstream: bool, w: World, k: nat, answer: Answer)
    requires BindingsMade(w) && k < |w.calls|
    requires !upstream ==> EventsMade(w)
    ensures BindingsMade(Next(upstream, w, Turn(k, answer)))
  {
    var w' := Next(upstream, w, Turn(k, answer));
    var call := w.calls[k];
    StepKeeps(upstream, w.st, call, answer);
    forall fp | fp in w'.st.eventMaps && BoundID(w'.st, fp) != NO_ID
      ensures exists l :: 0 <= l < |w'.calls| && Source(w'.calls[l], fp, BoundID(w'.st, fp))
    {
      var id := BoundID(w'.st, fp);
      if id == BoundID(w.st, fp) {
        var l :| 0 <= l < |w.calls| && Source(w.calls[l], fp, id);
        MadeStays(upstream, w.st, call, answer);
        assert Source(w'.calls[l], fp, id);
      } else {
        MadeStays(upstream, w.st, call, answer);
        assert Source(w'.calls[k], fp, id);
      }
    }
  }

  lemma MadeStays(upstream: bool, st: Store, call: Call, answer: Answer)
    ensures Made(call) != NO_ID ==> Made(At(call, Step(upstream, st, call, answer).1)) == Made(call)
  {
    hide LocalEvent, EventRow, MessageRow, Drew, Notification;
  }

  lemma {:induction false} TurnKeepsEvents(w: World, k: nat, answer: Answer)
    requires EventsMade(w) && k < |w.calls|
    ensures EventsMade(Next(false, w, Turn(k, answer)))
  {
    StepKeeps(false, w.st, w.calls[k], answer);
    StepMakes(w.st, w.calls[k], answer);
    hide Step, Made;
  }

  lemma StepAnswers(st: Store, call: Call, answer: Answer)
    requires NO_ID !in st.events && AnswerOk(st, call)
    requires call.Push? && BoundID(st, call.ly.fp) != NO_ID ==> BoundID(st, call.ly.fp) in st.events
    ensures var (st', at') := Step(false, st, call, answer); AnswerOk(st', At(call, at'))
  {
    hide MessageRow, Drew, Notification, LyEventToDeepSOC;
    if call.Push? { LocalEventIsNamed(call.ly); }
    hide LocalEvent;
  }

  lemma AnswerStays(st: Store, st': Store, call: Call)
    requires AnswerOk(st, call) && forall e :: e in st.events ==> e in st'.events
    ensures AnswerOk(st', call)
  {
  }

  lemma {:induction false} BindingIsEvent(w: World, fp: string)
    requires BindingsMade(w) && EventsMade(w) && BoundID(w.st, fp) != NO_ID
    ensures BoundID(w.st, fp) in w.st.events
  {
    hide Made;
  }

  lemma {:induction false} TurnKeepsAnswers(w: World, k: nat, answer: Answer)
    requires Inv(false, w) && k < |w.calls|
    ensures AnswersOk(Next(false, w, Turn(k, answer)))
  {
    var call := w.calls[k];
    StepKeeps(false, w.st, call, answer);
    if call.Push? && BoundID(w.st, call.ly.fp) != NO_ID { BindingIsEvent(w, call.ly.fp); }
    StepAnswers(w.st, call, answer);
    var w' := Next(false, w, Turn(k, answer));
    hide Step, AnswerOk;
    forall l | 0 <= l < |w.calls| && l != k ensures AnswerOk(w'.st, w'.calls[l]) {
      AnswerStays(w.st, w'.st, w.calls[l]);
    }
  }

  lemma {:induction false} ArrivalKeepsInv(upstream: bool, w: World, call: Call)
    requires Inv(upstream, w) && call.at == Reserving
    ensures Inv(upstream, w.(calls := w.calls + [call]))
  {
    var w' := w.(calls := w.calls + [call]);
    assert BindingsMade(w') by {
      forall fp | fp in w'.st.eventMaps && BoundID(w'.st, fp) != NO_ID
        ensures exists l :: 0 <= l < |w'.calls| && Source(w'.calls[l], fp, BoundID(w'.st, fp))
      {
        var l :| 0 <= l < |w.calls| && Source(w.calls[l], fp, BoundID(w.st, fp));
        assert Source(w'.calls[l], fp, BoundID(w'.st, fp));
      }
    }
    hide Source;
  }

  lemma {:induction false} SameIndexKeepsInv(upstream: bool, w: World, st': Store)
    requires Inv(upstream, w) && st'.eventMaps == w.st.eventMaps && st'.events.Keys == w.st.events.Keys
    ensures Inv(upstream, w.(st := st'))
  {
    var w' := w.(st := st');
    forall fp ensures BoundID(w'.st, fp) == BoundID(w.st, fp) {}
    assert BindingsMade(w') by {
      forall fp | fp in w'.st.eventMaps && BoundID(w'.st, fp) != NO_ID
        ensures exists l :: 0 <= l < |w'.calls| && Source(w'.calls[l], fp, BoundID(w'.st, fp))
      {
        var l :| 0 <= l < |w.calls| && Source(w.calls[l], fp, BoundID(w.st, fp));
        assert Source(w'.calls[l], fp, BoundID(w'.st, fp));
      }
    }
    hide Source, Made;
    forall e ensures e in st'.events <==> e in w.st.events {
      assert e in st'.events.Keys <==> e in w.st.events.Keys;
    }
  }

  lemma {:induction false} NextKeepsInv(upstream: bool, w: World, l: Label)
    requires Inv(upstream, w)
    ensures Inv(upstream, Next(upstream, w, l))
  {
    match l
    case Pushed(ly) =>
      ArrivalKeepsInv(upstream, w, Push(ly, Reserving));
    case Requested(event) =>
      ArrivalKeepsInv(upstream, w, Manual(event, Reserving));
    case Turn(k, answer) =>
      if k < |w.calls| {
        TurnKeepsTried(upstream, w, k, answer);
        TurnKeepsBindings(upstream, w, k, answer);
        if !upstream {
          TurnKeepsEvents(w, k, answer);
          TurnKeepsAnswers(w, k, answer);
        }
        hide TriedOnce, BindingsMade, EventsMade, AnswersOk, Step;
      }
    case Elsewhere(e, op) =>
      WorkflowKeeps(w.st, e, op);
      SameIndexKeepsInv(upstream, w, Workflow.Apply(w.st, e, op));
  }

  /** Whatever the order of turns, crashes included. */
  lemma {:induction false} ReachableInv(upstream: bool, w: World, labels: seq<Label>)
    requires Initial(w)
    ensures Inv(upstream, Execute(upstream, w, labels))
  {
    if labels != [] {
      ReachableInv(upstream, w, labels[..|labels| - 1]);
      NextKeepsInv(upstream, Execute(upstream, w, labels[..|labels| - 1]), labels[|labels| - 1]);
      hide Next, Inv;
    }
  }

  // ------------------------------------------------------------------- theorems

  /** At most one event is created here or forwarded upstream for a fingerprint, ever; of all pushes of
      it, all but one are told it is a duplicate. */
  lemma {:induction false} TriedAtMostOnce(upstream: bool, w: World, labels: seq<Label>)
    requires Initial(w)
    ensures var w' := Execute(upstream, w, labels);
            && Distinct(w'.tried)
            && (forall k, l :: 0 <= k < l < |w'.calls| && Winner(w'.calls[k]) && Winner(w'.calls[l]) ==>
                  w'.calls[k].ly.fp != w'.calls[l].ly.fp)
  {
    ReachableInv(upstream, w, labels);
    hide Execute;
  }

  /** Without an upstream every binding that is not empty names an existing event. */
  lemma {:induction false} BindingsNameEvents(w: World, labels: seq<Label>, fp: string)
    requires Initial(w)
    ensures var st := Execute(false, w, labels).st; BoundID(st, fp) != NO_ID ==> BoundID(st, fp) in st.events
  {
    ReachableInv(false, w, labels);
    if BoundID(Execute(false, w, labels).st, fp) != NO_ID { BindingIsEvent(Execute(false, w, labels), fp); }
    hide Execute;
  }

  /** Without an upstream two fingerprints are never bound to one event. */
  lemma {:induction false} BindingsAreOneToOne(w: World, labels: seq<Label>, fp: string, fp': string)
    requires Initial(w)
    ensures var st := Execute(false, w, labels).st;
            BoundID(st, fp) == BoundID(st, fp') != NO_ID ==> fp == fp'
  {
    ReachableInv(false, w, labels);
    var w' := Execute(false, w, labels);
    hide Execute, Made;
    if BoundID(w'.st, fp) == BoundID(w'.st, fp') != NO_ID {
      var k :| 0 <= k < |w'.calls| && Source(w'.calls[k], fp, BoundID(w'.st, fp));
      var l :| 0 <= l < |w'.calls| && Source(w'.calls[l], fp', BoundID(w'.st, fp'));
    }
  }

  /** Without an upstream a call that returned no error returned an existing event exactly when it
      returned an identifier at all: the only exception is a duplicate of a fingerprint that is
      reserved but not bound. */
  lemma {:induction false} AnswersNameEvents(w: World, labels: seq<Label>, k: nat)
    requires Initial(w)
    ensures var w' := Execute(false, w, labels);
            k < |w'.calls| && w'.calls[k].at.Answered? && !w'.calls[k].at.outcome.Failure? ==>
              var outcome := w'.calls[k].at.outcome;
              && (outcome.id in w'.st.events <==> outcome.id != NO_ID)
              && (outcome.id == NO_ID ==> outcome.Duplicate?)
  {
    ReachableInv(false, w, labels);
    hide Execute;
  }
}
