/** When a push runs the workflow, on which event, and what it leaves the flag at: told from the stored flag, the
    path, the body and the answer alone. */
module DrivingFlag {
  import opened Json
  import opened Strings
  import opened Domain
  import opened StoreModel
  import opened Ingest
  import opened Sync
  import opened DrivingMode
  import Hook = DrivingMode
  import W = Workflow

  // ------------------------------------------------------- what a request asks for

  /** The value can be read as this flag. */
  ghost predicate ReadsAs(v: Value, on: bool) {
    || v == Bool(on)
    || (v.Str? && ToLower(TrimSpace(v.s)) in if on then ["1", "true", "yes", "y", "on"] else ["0", "false", "no", "n", "off"])
  }

  ghost predicate Readable(m: Fields, key: string) { key in m && (ReadsAs(m[key], true) || ReadsAs(m[key], false)) }

  /** The key holds the flag's value, and no key before it holds a readable one. */
  ghost predicate Decides(m: Fields, keys: seq<string>, k: int, on: bool) {
    0 <= k < |keys| && keys[k] in m && ReadsAs(m[keys[k]], on) && forall j :: 0 <= j < k ==> !Readable(m, keys[j])
  }

  ghost predicate Undecided(m: Fields, keys: seq<string>) { forall k :: 0 <= k < |keys| ==> !Readable(m, keys[k]) }

  /** The request wants automation: its first readable flag is on, or it has none and came in where events are
      created. */
  ghost predicate Wants(path: string, m: Fields) {
    var keys := ["auto_driving", "autoDriving", "driving_mode", "drivingMode", "autopilot", "ai_analysis", "aiAnalysis"];
    || (exists k :: Decides(m, keys, k, true))
    || (Undecided(m, keys) && (path == "/api/event/create" || path == "/internal/event/push"))
  }

  /** No word reads both ways: they differ in their first letters or, `on` and `off`, in length. */
  lemma WordsDiffer(s: string)
    ensures s in ["1", "true", "yes", "y", "on"] ==> s != "" && s[0] in ['1', 't', 'y', 'o'] && (s[0] == 'o' ==> |s| == 2)
    ensures s in ["0", "false", "no", "n", "off"] ==> s != "" && s[0] in ['0', 'f', 'n', 'o'] && (s[0] == 'o' ==> |s| == 3)
  {
  }

  lemma FlagReads(v: Value, on: bool)
    ensures FlagOf(v) == Some(on) <==> ReadsAs(v, on)
  {
    hide ToLower, TrimSpace;
    if v.Str? { WordsDiffer(ToLower(TrimSpace(v.s))); }
  }

  lemma EitherReads(v: Value)
    ensures FlagOf(v).Some? <==> ReadsAs(v, true) || ReadsAs(v, false)
    ensures !(ReadsAs(v, true) && ReadsAs(v, false))
  {
    FlagReads(v, true);
    FlagReads(v, false);
    if FlagOf(v).Some? { FlagReads(v, FlagOf(v).value); }
    hide FlagOf, ReadsAs;
  }

  lemma {:induction false} FirstReadable(m: Fields, keys: seq<string>, on: bool)
    ensures BoolRequestValue(m, keys) == Some(on) <==> exists k :: Decides(m, keys, k, on)
  {
    hide ReadsAs, FlagOf, Decides;
    if keys == [] {
      NoKeys(m, on);
    } else {
      if keys[0] in m {
        FlagReads(m[keys[0]], on);
        EitherReads(m[keys[0]]);
      }
      if Readable(m, keys[0]) {
        OnlyFirst(m, keys, on);
      } else {
        NotFirst(m, keys, on);
        FirstReadable(m, keys[1..], on);
      }
    }
  }

  lemma NoKeys(m: Fields, on: bool)
    ensures !exists k :: Decides(m, [], k, on)
  {
  }

  lemma {:induction false} NoneReadable(m: Fields, keys: seq<string>)
    ensures BoolRequestValue(m, keys) == None <==> Undecided(m, keys)
  {
    hide ReadsAs, FlagOf;
    if keys != [] {
      if keys[0] in m {
        EitherReads(m[keys[0]]);
      }
      if !Readable(m, keys[0]) {
        UndecidedFirst(m, keys);
        NoneReadable(m, keys[1..]);
      }
    }
  }

  lemma OnlyFirst(m: Fields, keys: seq<string>, on: bool)
    requires keys != [] && Readable(m, keys[0])
    ensures (exists k :: Decides(m, keys, k, on)) <==> ReadsAs(m[keys[0]], on)
  {
    hide ReadsAs;
    if ReadsAs(m[keys[0]], on) { assert Decides(m, keys, 0, on); }
    if k :| Decides(m, keys, k, on) { assert k == 0; }
  }

  lemma NotFirst(m: Fields, keys: seq<string>, on: bool)
    requires keys != [] && !Readable(m, keys[0])
    ensures (exists k :: Decides(m, keys, k, on)) <==> (exists k :: Decides(m, keys[1..], k, on))
  {
    hide ReadsAs;
    var rest := keys[1..];
    if k :| Decides(m, keys, k, on) {
      assert k != 0;
      forall j | 0 <= j < k - 1 ensures !Readable(m, rest[j]) { assert !Readable(m, keys[j + 1]); }
      assert Decides(m, rest, k - 1, on);
    }
    if k :| Decides(m, rest, k, on) {
      forall j | 0 <= j < k + 1 ensures !Readable(m, keys[j]) { if j > 0 { assert !Readable(m, rest[j - 1]); } }
      assert Decides(m, keys, k + 1, on);
    }
  }

  lemma UndecidedFirst(m: Fields, keys: seq<string>)
    requires keys != [] && !Readable(m, keys[0])
    ensures Undecided(m, keys) <==> Undecided(m, keys[1..])
  {
    hide Readable;
    if Undecided(m, keys[1..]) {
      forall k | 0 <= k < |keys| ensures !Readable(m, keys[k]) { if k > 0 { assert !Readable(m, keys[1..][k - 1]); } }
    }
  }

  lemma WantsExactly(path: string, m: Fields)
    ensures ShouldAutoDrive(path, m) <==> Wants(path, m)
  {
    FirstReadable(m, FLAG_KEYS, true);
    NoneReadable(m, FLAG_KEYS);
    hide Decides, Undecided, BoolRequestValue;
  }

  // ------------------------------------------------------- which event is meant

  /** `v` is the text at the first of the keys that holds a text, or "" when none does. */
  ghost predicate FirstText(m: Fields, keys: seq<string>, v: string) {
    || (v == "" && forall k :: 0 <= k < |keys| ==> !HoldsText(m, keys[k]))
    || (v != "" && exists k :: 0 <= k < |keys| && HoldsText(m, keys[k]) && m[keys[k]].s == v
                               && forall j :: 0 <= j < k ==> !HoldsText(m, keys[j]))
  }

  ghost predicate HoldsText(m: Fields, key: string) { key in m && m[key].Str? && m[key].s != "" }

  lemma {:induction false} FirstStringExact(m: Fields, keys: seq<string>)
    ensures FirstText(m, keys, FirstString(m, keys))
  {
    if keys != [] && !HoldsText(m, keys[0]) {
      var rest, v := keys[1..], FirstString(m, keys);
      FirstStringExact(m, rest);
      if v == "" {
        forall k | 0 <= k < |keys| ensures !HoldsText(m, keys[k]) { if k > 0 { assert !HoldsText(m, rest[k - 1]); } }
      } else {
        var k :| 0 <= k < |rest| && HoldsText(m, rest[k]) && m[rest[k]].s == v && forall j :: 0 <= j < k ==> !HoldsText(m, rest[j]);
        forall j | 0 <= j < k + 1 ensures !HoldsText(m, keys[j]) { if j > 0 { assert !HoldsText(m, rest[j - 1]); } }
        assert m[keys[k + 1]].s == v;
      }
    }
  }

  /** The event an object names: at the first of seven keys that holds a text or, when none does, by what it
      carries as its upstream's answer. */
  ghost predicate Names(v: Value, id: string)
    requires v.Obj?
  {
    var top := FirstOf(v.fields);
    if top == "" && "upstream" in v.fields && v.fields["upstream"].Obj? then Names(v.fields["upstream"], id) else id == top
  }

  ghost function FirstOf(m: Fields): (v: string)
    ensures FirstText(m, ["event_id", "eventId", "eventID", "deepsoc_event_id", "deepSOCEventID", "deepSocEventID", "id"], v)
  {
    FirstStringExact(m, EVENT_KEYS);
    FirstString(m, EVENT_KEYS)
  }

  lemma {:induction false} NamesExactly(v: Value, id: string)
    requires v.Obj?
    ensures Names(v, id) <==> DrivingEventFrom(v) == id
  {
    hide FirstString, FirstText;
    if FirstOf(v.fields) == "" && "upstream" in v.fields && v.fields["upstream"].Obj? { NamesExactly(v.fields["upstream"], id); }
  }

  /** What a push resolves to: the event bound to the record; failing that what the upstream's reply names, if it
      was asked; failing that what the body names. */
  ghost predicate MeantBy(up: Upstream, d: Server, req: Request, e: string) {
    var outcome := Process(up, d.st, d.asked, req.ly).2;
    !outcome.Failure? &&
    var bound := if outcome.id.Text? then outcome.id.s else "";
    var asked := outcome.Created? && up.On? && up.answer(d.asked).Accepted?;
    if bound != "" then e == bound
    else if asked && !Names(Obj(up.answer(d.asked).reply, ""), "") then Names(Obj(up.answer(d.asked).reply, ""), e)
    else Names(Obj(req.body, ""), e)
  }

  lemma ResolvesTo(up: Upstream, d: Server, req: Request, e: string)
    requires MeantBy(up, d, req, e)
    ensures Resolve(up, d.asked, req, Process(up, d.st, d.asked, req.ly).2) == Text(e)
  {
    var outcome := Process(up, d.st, d.asked, req.ly).2;
    var reply := if up.On? && up.answer(d.asked).Accepted? then Some(up.answer(d.asked).reply) else None;
    ResponseNames(req.ly, outcome, reply);
    NamesExactly(Obj(req.body, ""), e);
    if reply.Some? {
      NamesExactly(Obj(reply.value, ""), "");
      NamesExactly(Obj(reply.value, ""), e);
    }
    hide Process, Response, DrivingEventFromResponse, DrivingEventFrom, Names;
  }

  /** A push in full. One that failed changes what taking the record in changed, and so does one that names no
      event. Any other runs the workflow on the event it means, and leaves the flag on, exactly when the flag
      was on or the request wants it; and leaves store and flag as they were otherwise. */
  lemma PushDrivesExactly(up: Upstream, d: Server, req: Request, e: string)
    ensures var (st', asked', outcome) := Process(up, d.st, d.asked, req.ly);
            && (outcome.Failure? ==> Hook.Push(up, d, req) == Server(st', asked', d.driving))
            && (MeantBy(up, d, req, e) ==>
                  Hook.Push(up, d, req) ==
                  if e != "" && (d.driving || Wants(req.path, req.body)) then Server(W.RunWorkflow(st', Text(e)), asked', true)
                  else Server(st', asked', d.driving))
  {
    if MeantBy(up, d, req, e) { ResolvesTo(up, d, req, e); }
    WantsExactly(req.path, req.body);
    hide Process, W.RunWorkflow, Resolve, ShouldAutoDrive, Wants;
  }

  /** Every push that did not fail means something, if only nothing. */
  lemma SomethingMeant(up: Upstream, d: Server, req: Request)
    requires !Process(up, d.st, d.asked, req.ly).2.Failure?
    ensures exists e: string :: MeantBy(up, d, req, e)
  {
    var outcome := Process(up, d.st, d.asked, req.ly).2;
    hide Process, DrivingEventFrom;
    var bound := if outcome.id.Text? then outcome.id.s else "";
    NamesExactly(Obj(req.body, ""), DrivingEventFrom(Obj(req.body, "")));
    if bound != "" {
      assert MeantBy(up, d, req, bound);
    } else if outcome.Created? && up.On? && up.answer(d.asked).Accepted? && !Names(Obj(up.answer(d.asked).reply, ""), "") {
      var reply := Obj(up.answer(d.asked).reply, "");
      NamesExactly(reply, DrivingEventFrom(reply));
      assert MeantBy(up, d, req, DrivingEventFrom(reply));
    } else {
      assert MeantBy(up, d, req, DrivingEventFrom(Obj(req.body, "")));
    }
  }

  /** What a push answers: a known fingerprint is skipped as a duplicate of what it is bound to; a new one
      succeeds with what it was bound to, and carries the upstream's reply if there was one. */
  lemma AnswerSays(up: Upstream, d: Server, req: Request)
    requires !Process(up, d.st, d.asked, req.ly).2.Failure?
    ensures var (st', _, outcome) := Process(up, d.st, d.asked, req.ly);
            var reply := if up.On? && up.answer(d.asked).Accepted? then Some(up.answer(d.asked).reply) else None;
            var (answer, bound) := (Response(req.ly, outcome, reply), BoundID(st', req.ly.fp));
            && (bound.Text? ==> "deepsoc_event_id" in answer && answer["deepsoc_event_id"] == Str(bound.s))
            && "fingerprint" in answer && answer["fingerprint"] == Str(req.ly.fp)
            && (req.ly.fp in d.st.eventMaps ==>
                  && answer.Keys == {"skipped", "reason", "fingerprint", "ly_id", "deepsoc_event_id"}
                  && answer["skipped"] == Bool(true) && answer["reason"] == Str("duplicate") && answer["ly_id"] == Str(req.ly.lyID))
            && (req.ly.fp !in d.st.eventMaps ==>
                  && answer.Keys == {"success", "fingerprint", "ly_event_id", "deepsoc_event_id"} + (if up.On? then {"upstream"} else {})
                  && answer["success"] == Bool(true) && answer["ly_event_id"] == Str(req.ly.lyID)
                  && (up.On? ==> answer["upstream"] == Obj(up.answer(d.asked).reply, "")))
  {
    ProcessEnds(up, d.st, d.asked, req.ly);
    hide Process, LocalEvent, CreateEvent, MessageRow, Notification, ExtractEventID;
  }
}
