/**
 * One confirmation dialog of the trash, restore, permanent-delete and
 * privacy flows: whether it is open and which note it is about. The pages
 * keep these two values in their own state variables; their methods are
 * specified by the transitions below.
 */
module ConfirmDialog {
  import opened Wrappers
  import opened Js

  datatype Slot = Slot(open: bool, target: Option<string>) {

    /** The action button (`handleTrashNote(id)` and its siblings): open on `id`. */
    function Ask(id: string): (t: Slot)
      ensures t.open && t.target == Some(id)
    {
      Slot(true, Some(id))
    }

    /** The Cancel button: closed, target cleared. */
    function Cancel(): (t: Slot)
      ensures t == Closed
    {
      Closed
    }

    /** The dialog's `onOpenChange` (Escape, overlay click): only the open flag changes. */
    function SetOpen(b: bool): (t: Slot)
      ensures t.open == b && t.target == target
    {
      this.(open := b)
    }

    /** The guard `if (!target) return`: confirm proceeds only on a truthy target. */
    predicate Armed() {
      Truthy(target)
    }
  }

  const Closed := Slot(false, None)

  /** The user's interactions with one dialog. */
  datatype Event = AskFor(id: string) | CancelPressed | OpenChanged(open: bool) | ConfirmPressed

  /**
   * One interaction, with the confirm handler run to completion (its
   * `finally` done) before the next one: the new slot and the note id a
   * request was issued for, if any.
   */
  function Step(s: Slot, e: Event): (r: (Slot, Option<string>))
    ensures r.1.Some? <==> e.ConfirmPressed? && s.Armed()
    ensures r.1.Some? ==> r.1 == s.target
    ensures e.ConfirmPressed? ==> r.0 == (if s.Armed() then Closed else s)
  {
    match e
    case AskFor(id) => (s.Ask(id), None)
    case CancelPressed => (s.Cancel(), None)
    case OpenChanged(b) => (s.SetOpen(b), None)
    case ConfirmPressed => if s.Armed() then (Closed, s.target) else (s, None)
  }

  /** A sequence of interactions: the final slot and the ids requested, in order. */
  function Run(s: Slot, es: seq<Event>): (Slot, seq<string>)
    decreases |es|
  {
    if es == [] then (s, [])
    else
      var (s', req) := Step(s, es[0]);
      var (t, reqs) := Run(s', es[1..]);
      (t, (if req.Some? then [req.value] else []) + reqs)
  }

  function Asks(es: seq<Event>): nat {
    if es == [] then 0 else (if es[0].AskFor? then 1 else 0) + Asks(es[1..])
  }

  function Confirms(es: seq<Event>): nat {
    if es == [] then 0 else (if es[0].ConfirmPressed? then 1 else 0) + Confirms(es[1..])
  }

  /**
   * Each request needs its own confirmation click and its own prior
   * `Ask`: a dialog never issues two requests for one opening, and never one
   * without a click.
   */
  lemma {:induction false} RequestsBounded(s: Slot, es: seq<Event>)
    ensures |Run(s, es).1| <= Confirms(es)
    ensures |Run(s, es).1| + (if Run(s, es).0.Armed() then 1 else 0)
            <= Asks(es) + (if s.Armed() then 1 else 0)
    decreases |es|
  {
    if es != [] {
      RequestsBounded(Step(s, es[0]).0, es[1..]);
    }
  }

  /** Every requested id is the initial target or an id some `Ask` named. */
  lemma {:induction false} RequestsWereAsked(s: Slot, es: seq<Event>, id: string)
    requires id in Run(s, es).1
    ensures (s.target == Some(id)) || AskFor(id) in es
    decreases |es|
  {
    var (s', req) := Step(s, es[0]);
    if req == Some(id) {
    } else {
      assert id in Run(s', es[1..]).1;
      RequestsWereAsked(s', es[1..], id);
      if s'.target == Some(id) && es[0] != AskFor(id) {
        assert s'.target == s.target;
      }
    }
  }
}
