/** Sequences of footer events. `Run` replays a trace through `Step`; the
    `...After` functions characterise the resulting state independently, by
    looking only at the most recent event that writes each part of it. */
module EditorTrace {
  import opened JsValues
  import opened EditorState
  import opened EditorFooter

  function EffectSeq(o: Option<Effect>): seq<Effect>
  {
    if o.Some? then [o.value] else []
  }

  /** The number of events in `es` that call out to the parent. */
  function CommitCount(es: seq<Event>): nat
  {
    if |es| == 0 then 0 else (if Commits(es[0]) then 1 else 0) + CommitCount(es[1..])
  }

  predicate EffectWellShaped(x: Effect)
  {
    x.SaveSelected? ==> WellShaped(x.payload)
  }

  /** The final state and the calls made, in order, when the footer in state
      `s` receives the events `es` one after another. */
  function Run(s: State, es: seq<Event>): (r: (State, seq<Effect>))
    ensures |r.1| == CommitCount(es)
    ensures forall i :: 0 <= i < |r.1| ==> EffectWellShaped(r.1[i])
    decreases |es|
  {
    if |es| == 0 then (s, [])
    else
      var (t, o) := Step(s, es[0]);
      var (u, rest) := Run(t, es[1..]);
      (u, EffectSeq(o) + rest)
  }

  /** Replaying one more event is one more step. */
  lemma {:induction false} RunSnoc(s: State, es: seq<Event>, e: Event)
    ensures Run(s, es + [e]).0 == Step(Run(s, es).0, e).0
    ensures Run(s, es + [e]).1 == Run(s, es).1 + EffectSeq(Step(Run(s, es).0, e).1)
    decreases |es|
  {
    if |es| == 0 {
      assert es + [e] == [e];
      assert [e][1..] == [];
    } else {
      var t := Step(s, es[0]).0;
      assert (es + [e])[0] == es[0];
      assert (es + [e])[1..] == es[1..] + [e];
      RunSnoc(t, es[1..], e);
      var pre := EffectSeq(Step(s, es[0]).1);
      var mid := Run(t, es[1..]).1;
      var last := EffectSeq(Step(Run(t, es[1..]).0, e).1);
      assert pre + (mid + last) == (pre + mid) + last;
    }
  }

  /** The calls a trace makes do not depend on the state it starts from. */
  lemma {:induction false} RunEffectsIgnoreState(s: State, t: State, es: seq<Event>)
    ensures Run(s, es).1 == Run(t, es).1
    decreases |es|
  {
    if |es| > 0 {
      StepEffectIgnoresState(s, t, es[0]);
      RunEffectsIgnoreState(Step(s, es[0]).0, Step(t, es[0]).0, es[1..]);
    }
  }

  /** Whether `e` overwrites the override of `f`: a choice for `f` does, and so
      does a completed save, which writes the sentinel. */
  predicate WritesOverride(e: Event, f: Field)
  {
    (e.InputChange? && e.name == f) || (e.DidUpdate? && SaveCompleted(e.prev, e.cur))
  }

  /** The override of `f` after `es`, started from `init`: what the most recent
      event writing `f` wrote. */
  function OverrideAfter(init: JsValue, es: seq<Event>, f: Field): JsValue
    decreases |es|
  {
    if |es| == 0 then init
    else
      var e := es[|es| - 1];
      if WritesOverride(e, f) then (if e.InputChange? then e.value else NoChange)
      else OverrideAfter(init, es[..|es| - 1], f)
  }

  /** The tags-saving flag after `es`: set by applying tags, cleared by a
      completed save. */
  function SavingTagsAfter(init: bool, es: seq<Event>): bool
    decreases |es|
  {
    if |es| == 0 then init
    else
      var e := es[|es| - 1];
      if e.ApplyTagsPress? then true
      else if e.DidUpdate? && SaveCompleted(e.prev, e.cur) then false
      else SavingTagsAfter(init, es[..|es| - 1])
  }

  /** The tags modal flag after `es`: opened by the Set Tags button, closed by
      its close handler or by applying tags. */
  function TagsModalAfter(init: bool, es: seq<Event>): bool
    decreases |es|
  {
    if |es| == 0 then init
    else
      var e := es[|es| - 1];
      if e.TagsPress? then true
      else if e.TagsModalClose? || e.ApplyTagsPress? then false
      else TagsModalAfter(init, es[..|es| - 1])
  }

  /** The delete modal flag after `es`: opened by the Delete button, closed by
      its close handler and by nothing else. */
  function DeleteModalAfter(init: bool, es: seq<Event>): bool
    decreases |es|
  {
    if |es| == 0 then init
    else
      var e := es[|es| - 1];
      if e.DeleteSelectedPress? then true
      else if e.DeleteSeriesModalClose? then false
      else DeleteModalAfter(init, es[..|es| - 1])
  }

  /** The state a trace leaves behind, component by component, is the one the
      most recent writing event determines. */
  lemma {:induction false} RunState(s: State, es: seq<Event>)
    ensures forall f :: Run(s, es).0.Get(f) == OverrideAfter(s.Get(f), es, f)
    ensures Run(s, es).0.savingTags == SavingTagsAfter(s.savingTags, es)
    ensures Run(s, es).0.isTagsModalOpen == TagsModalAfter(s.isTagsModalOpen, es)
    ensures Run(s, es).0.isDeleteSeriesModalOpen == DeleteModalAfter(s.isDeleteSeriesModalOpen, es)
    decreases |es|
  {
    if |es| > 0 {
      var n := |es| - 1;
      var front, e := es[..n], es[n];
      assert es == front + [e];
      RunSnoc(s, front, e);
      RunState(s, front);
    }
  }

  /** Events that do not write `f` leave its override as it was. */
  lemma {:induction false} OverrideAfterSkips(init: JsValue, a: seq<Event>, b: seq<Event>, f: Field)
    requires forall i :: 0 <= i < |b| ==> !WritesOverride(b[i], f)
    ensures OverrideAfter(init, a + b, f) == OverrideAfter(init, a, f)
    decreases |b|
  {
    if |b| > 0 {
      var n := |b| - 1;
      assert (a + b)[..|a + b| - 1] == a + b[..n];
      assert (a + b)[|a + b| - 1] == b[n];
      OverrideAfterSkips(init, a, b[..n], f);
    } else {
      assert a + b == a;
    }
  }

  /** A choice stays recorded, whatever else happens, until the same field is
      chosen again or a save completes; in particular a save that ends in an
      error does not discard it. */
  lemma ChoicePersists(s: State, es: seq<Event>, f: Field, v: JsValue, rest: seq<Event>)
    requires forall i :: 0 <= i < |rest| ==> !WritesOverride(rest[i], f)
    ensures Run(s, es + [InputChange(f, v)] + rest).0.Get(f) == v
  {
    var a := es + [InputChange(f, v)];
    RunState(s, a + rest);
    OverrideAfterSkips(s.Get(f), a, rest, f);
    assert a[..|a| - 1] == es;
  }

  /** A completed save returns every override to its initial value and clears
      the tags-saving flag, whatever the trace before it did, and leaves both
      modals as they were. */
  lemma CompletedSaveClearsHistory(s: State, es: seq<Event>, prev: Props, cur: Props)
    requires SaveCompleted(prev, cur)
    ensures Untouched(Run(s, es + [DidUpdate(prev, cur)]).0)
    ensures SameOverrides(Run(s, es + [DidUpdate(prev, cur)]).0, Init())
    ensures !Run(s, es + [DidUpdate(prev, cur)]).0.savingTags
    ensures Run(s, es + [DidUpdate(prev, cur)]).0.isTagsModalOpen == Run(s, es).0.isTagsModalOpen
    ensures Run(s, es + [DidUpdate(prev, cur)]).0.isDeleteSeriesModalOpen == Run(s, es).0.isDeleteSeriesModalOpen
    ensures Run(s, es + [DidUpdate(prev, cur)]).1 == Run(s, es).1
  {
    RunSnoc(s, es, DidUpdate(prev, cur));
  }

  /** Any props update other than a completed save changes nothing. */
  lemma OtherUpdateKeepsState(s: State, es: seq<Event>, prev: Props, cur: Props)
    requires !SaveCompleted(prev, cur)
    ensures Run(s, es + [DidUpdate(prev, cur)]) == Run(s, es)
  {
    RunSnoc(s, es, DidUpdate(prev, cur));
    assert Run(s, es).1 + [] == Run(s, es).1;
  }
}
