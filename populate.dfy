/** `tidy` and `populate`: normalization, then (when `tidy.populate` is on)
    the expansion of every `{url: ...}` element found under a
    `tidy.populateKeys` field into the tidied document fetched from `url`.

    The expansion runs sequentially here: keys in the configured order,
    elements in index order, and the first failure ends the call. The GET is
    the parameter `fetch`; the `prePopulate` / `postPopulate` events are an
    appended trace. `fuel` bounds the recursion tidy -> populate -> tidy. */
module Populate {
  import opened Document
  import opened Normalizer
  import opened Transport

  datatype Event = PrePopulate(item: Json) | PostPopulate(item: Json, resolved: Json)

  /** What a call produces: its result and the events it emitted, in order. */
  datatype Outcome<+T> = Outcome(result: Result<T>, events: seq<Event>)

  /** The collaborators: the library calls of the normalizer and the GET. */
  datatype Env = Env(lib: Foreign, fetch: Json -> Response)

  // ---------------------------------------------------------------------
  // Specification functions
  // ---------------------------------------------------------------------

  /** `tidy(j, config)`: normalize from the root, then populate if enabled. */
  function TidyRun(j: Json, opts: TidyOptions, env: Env, fuel: nat): Outcome<Json>
    decreases fuel, 5, 0
  {
    var normalized := Normalize(j, Root, opts, env.lib);
    if !opts.populate then Outcome(Ok(normalized), [])
    else PopulateRun(normalized, opts, env, fuel)
  }

  /** `populate(obj, config)`: every populate key, in order. */
  function PopulateRun(obj: Json, opts: TidyOptions, env: Env, fuel: nat): Outcome<Json>
    decreases fuel, 4, 0
  {
    KeysRun(obj, |opts.populateKeys|, opts, env, fuel)
  }

  /** The state after the first `n` populate keys; a failure ends the run. */
  function KeysRun(obj: Json, n: nat, opts: TidyOptions, env: Env, fuel: nat): Outcome<Json>
    requires n <= |opts.populateKeys|
    decreases fuel, 3, n
  {
    if n == 0 then Outcome(Ok(obj), [])
    else
      var prev := KeysRun(obj, n - 1, opts, env, fuel);
      if prev.result.Err? then prev
      else
        var step := KeyStep(prev.result.value, opts.populateKeys[n - 1], opts, env, fuel);
        Outcome(step.result, prev.events + step.events)
  }

  /** One populate key: a missing field (or one that is not a sequence) is
      skipped; otherwise its elements are resolved and the field is written back. */
  function KeyStep(obj: Json, key: string, opts: TidyOptions, env: Env, fuel: nat): Outcome<Json>
    decreases fuel, 2, 0
  {
    match Field(obj, key)
    case Some(Arr(items)) =>
      var run := ItemsRun(items, |items|, opts, env, fuel);
      (match run.result
       case Ok(out) => Outcome(Ok(SetField(obj, key, Arr(out))), run.events)
       case Err(e) => Outcome(Err(e), run.events))
    case _ => Outcome(Ok(obj), [])
  }

  /** The sequence after its first `m` elements were resolved. */
  function ItemsRun(items: seq<Json>, m: nat, opts: TidyOptions, env: Env, fuel: nat): (r: Outcome<seq<Json>>)
    requires m <= |items|
    ensures r.result.Ok? ==> |r.result.value| == |items|
    decreases fuel, 1, m
  {
    if m == 0 then Outcome(Ok(items), [])
    else
      var prev := ItemsRun(items, m - 1, opts, env, fuel);
      if prev.result.Err? then prev
      else
        var step := ItemStep(items[m - 1], opts, env, fuel);
        match step.result
        case Err(e) => Outcome(Err(e), prev.events + step.events)
        case Ok(v) => Outcome(Ok(prev.result.value[m - 1 := v]), prev.events + step.events)
  }

  /** One element: without `url` it stays; with `url` it is announced,
      fetched, checked for `error`, tidied and announced again. */
  function ItemStep(item: Json, opts: TidyOptions, env: Env, fuel: nat): Outcome<Json>
    decreases fuel, 0, 0
  {
    if !HasField(item, "url") then Outcome(Ok(item), [])
    else
      var pre := [PrePopulate(item)];
      match env.fetch(Field(item, "url").value)
      case Failed(reason) => Outcome(Err(TransportError(reason)), pre)
      case Received(body) =>
        match BodyError(body)
        case Some(e) => Outcome(Err(RemoteError(e)), pre)
        case None =>
          if fuel == 0 then Outcome(Err(OutOfFuel), pre)
          else
            var t := TidyRun(body, opts, env, fuel - 1);
            match t.result
            case Err(e) => Outcome(Err(e), pre + t.events)
            case Ok(v) => Outcome(Ok(v), pre + t.events + [PostPopulate(item, v)])
  }

  // ---------------------------------------------------------------------
  // The engine
  // ---------------------------------------------------------------------

  /** `ot.tidy`: the method counterpart of `TidyRun`. */
  method Tidy(j: Json, opts: TidyOptions, env: Env, fuel: nat) returns (r: Result<Json>, events: seq<Event>)
    ensures Outcome(r, events) == TidyRun(j, opts, env, fuel)
    ensures !opts.populate ==> r == Ok(Normalize(j, Root, opts, env.lib)) && events == []
    ensures opts.populate ==> Outcome(r, events) == PopulateRun(Normalize(j, Root, opts, env.lib), opts, env, fuel)
    decreases fuel, 3
  {
    var normalized := Normalize(j, Root, opts, env.lib);
    if !opts.populate {
      return Ok(normalized), [];
    }
    r, events := Populate(normalized, opts, env, fuel);
  }

  /** `ot.populate`: the loop over `populateKeys`. */
  method Populate(obj: Json, opts: TidyOptions, env: Env, fuel: nat) returns (r: Result<Json>, events: seq<Event>)
    ensures Outcome(r, events) == PopulateRun(obj, opts, env, fuel)
    decreases fuel, 2
  {
    var keys := opts.populateKeys;
    var doc := obj;
    events := [];
    var k := 0;
    while k < |keys|
      invariant 0 <= k <= |keys|
      invariant KeysRun(obj, k, opts, env, fuel) == Outcome(Ok(doc), events)
    {
      var key := keys[k];
      KeysNext(obj, k, doc, opts, env, fuel);
      var value := Field(doc, key);
      if value.Some? && value.value.Arr? {
        var out, itemEvents := ResolveItems(value.value.items, opts, env, fuel);
        assert KeyStep(doc, key, opts, env, fuel) ==
          if out.Err? then Outcome(Err(out.error), itemEvents)
          else Outcome(Ok(SetField(doc, key, Arr(out.value))), itemEvents);
        events := events + itemEvents;
        if out.Err? {
          KeysErrorSticks(obj, k + 1, |keys|, opts, env, fuel);
          return Err(out.error), events;
        }
        doc := SetField(doc, key, Arr(out.value));
      } else {
        assert KeyStep(doc, key, opts, env, fuel) == Outcome(Ok(doc), []);
      }
      k := k + 1;
    }
    r := Ok(doc);
  }

  /** The inner loop over `obj[key]`: each resolved element is written back
      at its own index, `obj[key][itemIndex] = tidied`. */
  method ResolveItems(items: seq<Json>, opts: TidyOptions, env: Env, fuel: nat)
    returns (r: Result<seq<Json>>, events: seq<Event>)
    ensures Outcome(r, events) == ItemsRun(items, |items|, opts, env, fuel)
    decreases fuel, 1
  {
    var out := items;
    events := [];
    var i := 0;
    while i < |items|
      invariant 0 <= i <= |items|
      invariant ItemsRun(items, i, opts, env, fuel) == Outcome(Ok(out), events)
    {
      var res, stepEvents := ResolveItem(items[i], opts, env, fuel);
      ItemsNext(items, i, out, opts, env, fuel);
      events := events + stepEvents;
      if res.Err? {
        ItemsErrorSticks(items, i + 1, |items|, opts, env, fuel);
        return Err(res.error), events;
      }
      out := out[i := res.value];
      i := i + 1;
    }
    r := Ok(out);
  }

  /** The per-element callback of the inner loop: the method counterpart of
      `ItemStep`. */
  method ResolveItem(item: Json, opts: TidyOptions, env: Env, fuel: nat) returns (r: Result<Json>, events: seq<Event>)
    ensures Outcome(r, events) == ItemStep(item, opts, env, fuel)
    decreases fuel, 0
  {
    if !HasField(item, "url") {
      return Ok(item), [];
    }
    events := [PrePopulate(item)];
    var response := env.fetch(Field(item, "url").value);
    match response
    case Failed(reason) =>
      return Err(TransportError(reason)), events;
    case Received(body) =>
      var remote := BodyError(body);
      if remote.Some? {
        return Err(RemoteError(remote.value)), events;
      }
      if fuel == 0 {
        return Err(OutOfFuel), events;
      }
      var tidied, nested := Tidy(body, opts, env, fuel - 1);
      events := events + nested;
      if tidied.Err? {
        return tidied, events;
      }
      events := events + [PostPopulate(item, tidied.value)];
      r := tidied;
  }

  // ---------------------------------------------------------------------
  // Properties of the specification
  // ---------------------------------------------------------------------

  /** Once an element fails, the later elements are not visited. */
  lemma {:induction false} ItemsErrorSticks(items: seq<Json>, m: nat, m': nat, opts: TidyOptions, env: Env, fuel: nat)
    requires m <= m' <= |items|
    requires ItemsRun(items, m, opts, env, fuel).result.Err?
    ensures ItemsRun(items, m', opts, env, fuel) == ItemsRun(items, m, opts, env, fuel)
    decreases m' - m
  {
    if m < m' {
      ItemsErrorSticks(items, m, m' - 1, opts, env, fuel);
    }
  }

  /** Once a populate key fails, the later keys are not visited. */
  lemma {:induction false} KeysErrorSticks(obj: Json, n: nat, n': nat, opts: TidyOptions, env: Env, fuel: nat)
    requires n <= n' <= |opts.populateKeys|
    requires KeysRun(obj, n, opts, env, fuel).result.Err?
    ensures KeysRun(obj, n', opts, env, fuel) == KeysRun(obj, n, opts, env, fuel)
    decreases n' - n
  {
    if n < n' {
      KeysErrorSticks(obj, n, n' - 1, opts, env, fuel);
    }
  }

  lemma ItemsNext(items: seq<Json>, i: nat, out: seq<Json>, opts: TidyOptions, env: Env, fuel: nat)
    requires i < |items| && ItemsRun(items, i, opts, env, fuel).result == Ok(out)
    ensures
      var step := ItemStep(items[i], opts, env, fuel);
      var events := ItemsRun(items, i, opts, env, fuel).events + step.events;
      ItemsRun(items, i + 1, opts, env, fuel) ==
        if step.result.Err? then Outcome(Err(step.result.error), events)
        else Outcome(Ok(out[i := step.result.value]), events)
  {
  }

  lemma KeysNext(obj: Json, k: nat, doc: Json, opts: TidyOptions, env: Env, fuel: nat)
    requires k < |opts.populateKeys| && KeysRun(obj, k, opts, env, fuel).result == Ok(doc)
    ensures
      var step := KeyStep(doc, opts.populateKeys[k], opts, env, fuel);
      KeysRun(obj, k + 1, opts, env, fuel) ==
        Outcome(step.result, KeysRun(obj, k, opts, env, fuel).events + step.events)
  {
  }

  /** The events of the first `n` element steps, in order. */
  function StepEvents(items: seq<Json>, n: nat, opts: TidyOptions, env: Env, fuel: nat): seq<Event>
    requires n <= |items|
  {
    if n == 0 then [] else StepEvents(items, n - 1, opts, env, fuel) + ItemStep(items[n - 1], opts, env, fuel).events
  }

  /** `item` was replaced by `v`: its `url` was fetched without a transport
      error, the body carries no `error`, and tidying the body gave `v`. */
  ghost predicate ResolvedFrom(item: Json, v: Json, opts: TidyOptions, env: Env, fuel: nat) {
    HasField(item, "url") && fuel > 0 &&
    exists body ::
      && env.fetch(Field(item, "url").value) == Received(body)
      && BodyError(body).None?
      && TidyRun(body, opts, env, fuel - 1).result == Ok(v)
  }

  /** The event and failure rules for one element: no `url` means no event
      and no change; with `url` the first event is `prePopulate(item)`, a
      success ends with `postPopulate(item, v)` after the nested events, and
      a failure (transport error, `error` in the body, failed nested tidy)
      emits no `postPopulate` for it. */
  lemma ItemStepRules(item: Json, opts: TidyOptions, env: Env, fuel: nat)
    ensures var s := ItemStep(item, opts, env, fuel);
      && (!HasField(item, "url") ==> s == Outcome(Ok(item), []))
      && (HasField(item, "url") ==> |s.events| > 0 && s.events[0] == PrePopulate(item))
      && (HasField(item, "url") ==>
            var resp := env.fetch(Field(item, "url").value);
            && (s.result.Ok? ==>
                  && ResolvedFrom(item, s.result.value, opts, env, fuel)
                  && s.events == [PrePopulate(item)] + TidyRun(resp.body, opts, env, fuel - 1).events
                                 + [PostPopulate(item, s.result.value)])
            && (s.result.Err? ==>
                  || s.events == [PrePopulate(item)]
                  || (resp.Received? && fuel > 0 &&
                      s.events == [PrePopulate(item)] + TidyRun(resp.body, opts, env, fuel - 1).events))
            && (s.result.Err? <==>
                  || resp.Failed?
                  || BodyError(resp.body).Some?
                  || fuel == 0
                  || TidyRun(resp.body, opts, env, fuel - 1).result.Err?))
  {
    if HasField(item, "url") {
      var resp := env.fetch(Field(item, "url").value);
      if resp.Received? && BodyError(resp.body).None? && fuel > 0 {
        var t := TidyRun(resp.body, opts, env, fuel - 1);
        assert ItemStep(item, opts, env, fuel).events == [PrePopulate(item)] + t.events +
          (if t.result.Ok? then [PostPopulate(item, t.result.value)] else []);
      }
    }
  }

  /** Resolving the first `m` elements: on success every one of them
      succeeded and the events are theirs in index order; on failure the
      error is that of the first failing element, and the events stop with it. */
  lemma {:induction false} ItemsRunFirstFailure(items: seq<Json>, m: nat, opts: TidyOptions, env: Env, fuel: nat)
    requires m <= |items|
    ensures var run := ItemsRun(items, m, opts, env, fuel);
      run.result.Ok? ==>
        && (forall i :: 0 <= i < m ==> ItemStep(items[i], opts, env, fuel).result.Ok?)
        && run.events == StepEvents(items, m, opts, env, fuel)
    ensures var run := ItemsRun(items, m, opts, env, fuel);
      run.result.Err? ==>
        exists i ::
          && 0 <= i < m
          && (forall k :: 0 <= k < i ==> ItemStep(items[k], opts, env, fuel).result.Ok?)
          && ItemStep(items[i], opts, env, fuel).result == Err(run.result.error)
          && run.events == StepEvents(items, i + 1, opts, env, fuel)
  {
    ItemsRunAllSteps(items, m, opts, env, fuel);
    if ItemsRun(items, m, opts, env, fuel).result.Err? {
      var i := ItemsFailureAt(items, m, opts, env, fuel);
    }
  }

  /** The failure half of `ItemsRunFirstFailure`, with the failing index
      returned. */
  lemma {:induction false} ItemsFailureAt(items: seq<Json>, m: nat, opts: TidyOptions, env: Env, fuel: nat)
    returns (i: nat)
    requires m <= |items| && ItemsRun(items, m, opts, env, fuel).result.Err?
    ensures i < m
    ensures forall k :: 0 <= k < i ==> ItemStep(items[k], opts, env, fuel).result.Ok?
    ensures ItemStep(items[i], opts, env, fuel).result == Err(ItemsRun(items, m, opts, env, fuel).result.error)
    ensures ItemsRun(items, m, opts, env, fuel).events == StepEvents(items, i + 1, opts, env, fuel)
  {
    var prev := ItemsRun(items, m - 1, opts, env, fuel);
    var run := ItemsRun(items, m, opts, env, fuel);
    if prev.result.Err? {
      i := ItemsFailureAt(items, m - 1, opts, env, fuel);
      assert run == prev;
    } else {
      ItemsRunAllSteps(items, m - 1, opts, env, fuel);
      var step := ItemStep(items[m - 1], opts, env, fuel);
      i := m - 1;
      assert run.events == prev.events + step.events;
    }
  }

  /** The success half of `ItemsRunFirstFailure`: every visited element's
      step succeeded and the events are theirs in index order. */
  lemma {:induction false} ItemsRunAllSteps(items: seq<Json>, m: nat, opts: TidyOptions, env: Env, fuel: nat)
    requires m <= |items|
    ensures var run := ItemsRun(items, m, opts, env, fuel);
      run.result.Ok? ==>
        && (forall i :: 0 <= i < m ==> ItemStep(items[i], opts, env, fuel).result.Ok?)
        && run.events == StepEvents(items, m, opts, env, fuel)
  {
    if m > 0 {
      var prev := ItemsRun(items, m - 1, opts, env, fuel);
      var run := ItemsRun(items, m, opts, env, fuel);
      if run.result.Ok? {
        assert prev.result.Ok?;
        ItemsRunAllSteps(items, m - 1, opts, env, fuel);
        var step := ItemStep(items[m - 1], opts, env, fuel);
        assert step.result.Ok? && run.events == prev.events + step.events;
      }
    }
  }

  /** A successful run over the first `m` elements leaves the others as they
      were and puts at each visited index the value its own step produced. */
  lemma {:induction false} ItemsRunFrame(items: seq<Json>, m: nat, opts: TidyOptions, env: Env, fuel: nat)
    requires m <= |items|
    requires ItemsRun(items, m, opts, env, fuel).result.Ok?
    ensures var out := ItemsRun(items, m, opts, env, fuel).result.value;
      && |out| == |items|
      && (forall i :: m <= i < |items| ==> out[i] == items[i])
      && (forall i :: 0 <= i < m ==> ItemStep(items[i], opts, env, fuel).result == Ok(out[i]))
  {
    if m > 0 {
      ItemsRunFrame(items, m - 1, opts, env, fuel);
    }
  }

  /** `populate` on a sequence of references: same length, same order;
      every element without `url` is kept, and every element with `url` is
      replaced at its own index by the tidied document fetched from it. */
  lemma ResolvedSequence(items: seq<Json>, opts: TidyOptions, env: Env, fuel: nat)
    requires ItemsRun(items, |items|, opts, env, fuel).result.Ok?
    ensures var out := ItemsRun(items, |items|, opts, env, fuel).result.value;
      && |out| == |items|
      && (forall i :: 0 <= i < |items| && !HasField(items[i], "url") ==> out[i] == items[i])
      && (forall i :: 0 <= i < |items| && HasField(items[i], "url") ==> ResolvedFrom(items[i], out[i], opts, env, fuel))
  {
    ItemsRunFrame(items, |items|, opts, env, fuel);
    forall i | 0 <= i < |items| {
      ItemStepRules(items[i], opts, env, fuel);
    }
  }

  /** `obj[key]` is present and is a sequence. */
  predicate HasSequence(obj: Json, key: string) {
    Field(obj, key).Some? && Field(obj, key).value.Arr?
  }

  /** A populate key that is absent, or not a sequence, changes nothing and
      emits nothing. */
  lemma {:induction false} AbsentKeysSkipped(obj: Json, n: nat, opts: TidyOptions, env: Env, fuel: nat)
    requires n <= |opts.populateKeys|
    requires forall k :: 0 <= k < n ==> !HasSequence(obj, opts.populateKeys[k])
    ensures KeysRun(obj, n, opts, env, fuel) == Outcome(Ok(obj), [])
  {
    if n > 0 {
      AbsentKeysSkipped(obj, n - 1, opts, env, fuel);
    }
  }

  /** One populate key that is absent from the document reached so far, or
      does not hold a sequence, changes nothing and emits nothing. */
  lemma SkippedKey(obj: Json, k: nat, opts: TidyOptions, env: Env, fuel: nat)
    requires k < |opts.populateKeys| && KeysRun(obj, k, opts, env, fuel).result.Ok?
    requires !HasSequence(KeysRun(obj, k, opts, env, fuel).result.value, opts.populateKeys[k])
    ensures KeysRun(obj, k + 1, opts, env, fuel) == KeysRun(obj, k, opts, env, fuel)
  {
    KeysNext(obj, k, KeysRun(obj, k, opts, env, fuel).result.value, opts, env, fuel);
  }

  /** A successful `populate` keeps the document's keys and their order and
      changes no field whose key is not among the populate keys already
      handled; a document that is not a mapping comes back as it was. */
  lemma {:induction false} KeysRunFrame(obj: Json, n: nat, opts: TidyOptions, env: Env, fuel: nat)
    requires n <= |opts.populateKeys|
    requires KeysRun(obj, n, opts, env, fuel).result.Ok?
    ensures var doc := KeysRun(obj, n, opts, env, fuel).result.value;
      && (!obj.Obj? ==> doc == obj)
      && (obj.Obj? ==>
            && doc.Obj? && |doc.fields| == |obj.fields|
            && (forall i :: 0 <= i < |obj.fields| ==> doc.fields[i].0 == obj.fields[i].0)
            && (forall i :: 0 <= i < |obj.fields| && obj.fields[i].0 !in opts.populateKeys[..n] ==>
                  doc.fields[i].1 == obj.fields[i].1))
  {
    if n > 0 {
      KeysRunFrame(obj, n - 1, opts, env, fuel);
      var prev := KeysRun(obj, n - 1, opts, env, fuel).result.value;
      var key := opts.populateKeys[n - 1];
      assert opts.populateKeys[..n] == opts.populateKeys[..n - 1] + [key];
      if HasSequence(prev, key) {
        var items := Field(prev, key).value.items;
        var run := ItemsRun(items, |items|, opts, env, fuel);
        SetFieldFrame(prev, key, Arr(run.result.value));
      }
    }
  }

  /** Every successful `populate` of a mapping keeps its keys, their order, and
      every field that is not a populate key. */
  lemma PopulateKeepsOtherFields(obj: Json, opts: TidyOptions, env: Env, fuel: nat)
    requires obj.Obj? && PopulateRun(obj, opts, env, fuel).result.Ok?
    ensures var doc := PopulateRun(obj, opts, env, fuel).result.value;
      && doc.Obj? && |doc.fields| == |obj.fields|
      && (forall i :: 0 <= i < |obj.fields| ==> doc.fields[i].0 == obj.fields[i].0)
      && (forall i :: 0 <= i < |obj.fields| && obj.fields[i].0 !in opts.populateKeys ==>
            doc.fields[i].1 == obj.fields[i].1)
  {
    KeysRunFrame(obj, |opts.populateKeys|, opts, env, fuel);
    assert opts.populateKeys[..|opts.populateKeys|] == opts.populateKeys;
  }

  /** A failed `populate` failed on some element of some populate key: the
      keys before it were handled successfully, and that element's own step
      reported the error. */
  lemma {:induction false} KeysRunFailure(obj: Json, n: nat, opts: TidyOptions, env: Env, fuel: nat)
    requires n <= |opts.populateKeys|
    requires KeysRun(obj, n, opts, env, fuel).result.Err?
    ensures exists k, doc, i ::
      && 0 <= k < n
      && KeysRun(obj, k, opts, env, fuel).result == Ok(doc)
      && HasSequence(doc, opts.populateKeys[k])
      && 0 <= i < |Field(doc, opts.populateKeys[k]).value.items|
      && ItemStep(Field(doc, opts.populateKeys[k]).value.items[i], opts, env, fuel).result
         == KeysRun(obj, n, opts, env, fuel).result
  {
    var prev := KeysRun(obj, n - 1, opts, env, fuel);
    if prev.result.Err? {
      KeysRunFailure(obj, n - 1, opts, env, fuel);
    } else {
      var doc := prev.result.value;
      var key := opts.populateKeys[n - 1];
      var items := Field(doc, key).value.items;
      ItemsRunFirstFailure(items, |items|, opts, env, fuel);
    }
  }

  /** The populate key at position `k` is reached with no earlier failure,
      and, when the document then holds a sequence under it, every element
      of that sequence resolves. */
  ghost predicate KeyResolved(obj: Json, k: nat, opts: TidyOptions, env: Env, fuel: nat) {
    && k < |opts.populateKeys|
    && KeysRun(obj, k, opts, env, fuel).result.Ok?
    && var doc := KeysRun(obj, k, opts, env, fuel).result.value;
       HasSequence(doc, opts.populateKeys[k]) ==>
         var items := Field(doc, opts.populateKeys[k]).value.items;
         forall i :: 0 <= i < |items| ==> ItemStep(items[i], opts, env, fuel).result.Ok?
  }

  /** The first `n` populate keys succeed exactly when every element they
      reach resolves (which `ItemStepRules` spells out: no transport error,
      no `error` in the body, and a successful nested tidy). */
  lemma {:induction false} KeysRunSucceeds(obj: Json, n: nat, opts: TidyOptions, env: Env, fuel: nat)
    requires n <= |opts.populateKeys|
    ensures KeysRun(obj, n, opts, env, fuel).result.Ok? <==>
      forall k :: 0 <= k < n ==> KeyResolved(obj, k, opts, env, fuel)
  {
    if n > 0 {
      KeysRunSucceeds(obj, n - 1, opts, env, fuel);
      KeyResolvedStep(obj, n - 1, opts, env, fuel);
    }
  }

  /** One more populate key succeeds exactly when the keys before it did and
      it resolves. */
  lemma KeyResolvedStep(obj: Json, k: nat, opts: TidyOptions, env: Env, fuel: nat)
    requires k < |opts.populateKeys|
    ensures KeysRun(obj, k + 1, opts, env, fuel).result.Ok? <==> KeyResolved(obj, k, opts, env, fuel)
  {
    var prev := KeysRun(obj, k, opts, env, fuel);
    if prev.result.Ok? {
      var doc := prev.result.value;
      var key := opts.populateKeys[k];
      KeysNext(obj, k, doc, opts, env, fuel);
      if HasSequence(doc, key) {
        var items := Field(doc, key).value.items;
        ItemsRunFirstFailure(items, |items|, opts, env, fuel);
      }
    }
  }

  /** `populate` succeeds exactly when every element it reaches resolves,
      and fails otherwise. */
  lemma PopulateSucceeds(obj: Json, opts: TidyOptions, env: Env, fuel: nat)
    ensures PopulateRun(obj, opts, env, fuel).result.Ok? <==>
      forall k :: 0 <= k < |opts.populateKeys| ==> KeyResolved(obj, k, opts, env, fuel)
  {
    KeysRunSucceeds(obj, |opts.populateKeys|, opts, env, fuel);
  }

  // ---------------------------------------------------------------------
  // Worked example
  // ---------------------------------------------------------------------

  const PopulatingDefaults := DefaultOptions.(populate := true)

  function Reference(url: string): Json { Obj([("url", Leaf(Str(url)))]) }

  function SourceBody(n: int): Json { Obj([("sourceData", Leaf(Num(n)))]) }

  /** A fetched body with no underscored key, no date key and no `records`
      tidies to itself without events. */
  lemma SourceBodyTidiesToItself(n: int, env: Env, fuel: nat)
    ensures TidyRun(SourceBody(n), PopulatingDefaults, env, fuel) == Outcome(Ok(SourceBody(n)), [])
  {
    var opts := PopulatingDefaults;
    var b := SourceBody(n);
    assert !HasUnderscoreKey(Entries(b)) by {
      assert '_' !in b.fields[0].0;
    }
    var k := "sourceData";
    DefaultDateKeys(k);
    assert k[|k| - 4..] != "Date" by {
      assert k[|k| - 4..][3] == 'a';
    }
    assert !DateKeyMatches(opts.dateKeys, Named(k));
    assert Normalize(b.fields[0].1, Named(k), opts, env.lib) == b.fields[0].1;
    assert Normalize(b, Root, opts, env.lib) == b by {
      assert Normalize(b, Root, opts, env.lib) == Obj(WalkFields(b, b.fields, opts, env.lib));
    }
    assert Field(b, "records").None?;
    assert KeysRun(b, 0, opts, env, fuel) == Outcome(Ok(b), []);
    assert KeysRun(b, 1, opts, env, fuel) == Outcome(Ok(b), []);
  }

  /** A reference whose url answers `{sourceData: n}` resolves to that body,
      between its two events. */
  lemma ReferenceResolves(url: string, n: int, env: Env)
    requires env.fetch(Leaf(Str(url))) == Received(SourceBody(n))
    ensures ItemStep(Reference(url), PopulatingDefaults, env, 1) ==
      Outcome(Ok(SourceBody(n)), [PrePopulate(Reference(url)), PostPopulate(Reference(url), SourceBody(n))])
  {
    SourceBodyTidiesToItself(n, env, 0);
    assert Field(Reference(url), "url") == Some(Leaf(Str(url)));
    assert Field(SourceBody(n), "error").None?;
  }

  /** The element loop over `[{url: "U1"}, {url: "U2"}]` with that stub. */
  lemma BothReferencesResolve(env: Env)
    requires env.fetch(Leaf(Str("U1"))) == Received(SourceBody(1))
    requires env.fetch(Leaf(Str("U2"))) == Received(SourceBody(2))
    ensures ItemsRun([Reference("U1"), Reference("U2")], 2, PopulatingDefaults, env, 1) ==
      Outcome(Ok([SourceBody(1), SourceBody(2)]),
              [PrePopulate(Reference("U1")), PostPopulate(Reference("U1"), SourceBody(1)),
               PrePopulate(Reference("U2")), PostPopulate(Reference("U2"), SourceBody(2))])
  {
    var opts := PopulatingDefaults;
    var items := [Reference("U1"), Reference("U2")];
    var half := [SourceBody(1), items[1]];
    var first := [PrePopulate(items[0]), PostPopulate(items[0], SourceBody(1))];
    var second := [PrePopulate(items[1]), PostPopulate(items[1], SourceBody(2))];
    assert ItemsRun(items, 1, opts, env, 1) == Outcome(Ok(half), first) by {
      ReferenceResolves("U1", 1, env);
      assert ItemsRun(items, 0, opts, env, 1) == Outcome(Ok(items), []);
      ItemsNext(items, 0, items, opts, env, 1);
      assert items[0 := SourceBody(1)] == half;
    }
    assert ItemsRun(items, 2, opts, env, 1) == Outcome(Ok([SourceBody(1), SourceBody(2)]), first + second) by {
      ReferenceResolves("U2", 2, env);
      ItemsNext(items, 1, half, opts, env, 1);
      assert half[1 := SourceBody(2)] == [SourceBody(1), SourceBody(2)];
    }
  }

  /** `{records: [{url: "U1"}, {url: "U2"}]}` with a stub GET returning
      `{sourceData: ...}` for each: both elements are replaced, in order, and
      exactly two prePopulate / postPopulate pairs are emitted. */
  lemma TwoReferencesExample(env: Env)
    requires env.fetch(Leaf(Str("U1"))) == Received(SourceBody(1))
    requires env.fetch(Leaf(Str("U2"))) == Received(SourceBody(2))
    ensures PopulateRun(Obj([("records", Arr([Reference("U1"), Reference("U2")]))]), PopulatingDefaults, env, 1)
      == Outcome(Ok(Obj([("records", Arr([SourceBody(1), SourceBody(2)]))])),
                 [PrePopulate(Reference("U1")), PostPopulate(Reference("U1"), SourceBody(1)),
                  PrePopulate(Reference("U2")), PostPopulate(Reference("U2"), SourceBody(2))])
  {
    var opts := PopulatingDefaults;
    var items := [Reference("U1"), Reference("U2")];
    var doc := Obj([("records", Arr(items))]);
    var events := [PrePopulate(items[0]), PostPopulate(items[0], SourceBody(1)),
                   PrePopulate(items[1]), PostPopulate(items[1], SourceBody(2))];
    BothReferencesResolve(env);
    assert KeyStep(doc, "records", opts, env, 1) ==
      Outcome(Ok(Obj([("records", Arr([SourceBody(1), SourceBody(2)]))])), events) by {
      assert Field(doc, "records") == Some(Arr(items));
      assert SetField(doc, "records", Arr([SourceBody(1), SourceBody(2)])) ==
        Obj([("records", Arr([SourceBody(1), SourceBody(2)]))]);
    }
    assert KeysRun(doc, 1, opts, env, 1) == KeyStep(doc, "records", opts, env, 1);
  }
}
