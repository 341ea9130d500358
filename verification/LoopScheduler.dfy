/** The event loop of loop.cc: collect, prepare, check and dispatch sources by priority, one source per iteration. */
module LoopScheduler {
  import opened Basics

  datatype LoopState = Waiting | Prepared | NeedsDispatch

  /** Removed sources stay listed, detached. */
  datatype Source = Source(priority: int, state: LoopState, attached: bool)

  /** What happens to the sources of a loop while its lock is dropped around a callback. */
  datatype Change = Change(removed: set<nat>, added: seq<int>)

  /** The answer of a callback: if the source needs dispatching, or is to be kept. */
  datatype Answer = Answer(yes: bool, change: Change)

  const UNDEFINED := -32768

  const CEILING := 999

  predicate Legal(p: int) { 1 <= p <= CEILING }

  ghost predicate LegalSources(s: seq<Source>) {
    forall i :: 0 <= i < |s| ==> Legal(s[i].priority) && (!s[i].attached ==> s[i].state == Waiting)
  }

  predicate Needs(s: seq<Source>, i: nat) {
    i < |s| && s[i].attached && s[i].state == NeedsDispatch
  }

  /** p is the highest priority at which a source needs dispatching, or undefined. */
  ghost predicate Top(s: seq<Source>, p: int) {
    && (forall i :: 0 <= i < |s| && Needs(s, i) ==> s[i].priority <= p)
    && (p == UNDEFINED || exists i :: 0 <= i < |s| && Needs(s, i) && s[i].priority == p)
  }

  /** Source i is polled in an iteration that starts with top priority p. */
  predicate Polled(s: seq<Source>, p: int, i: nat) {
    i < |s| && s[i].attached && (p < s[i].priority || (p == s[i].priority && s[i].state == NeedsDispatch))
  }

  function Changed(s: seq<Source>, c: Change): (t: seq<Source>)
    ensures |t| == |s| + |c.added|
  {
    seq(|s| + |c.added|, i requires 0 <= i < |s| + |c.added| =>
      if i >= |s| then Source(c.added[i - |s|], Waiting, true)
      else if i in c.removed then Source(s[i].priority, Waiting, false)
      else s[i])
  }

  predicate LegalChange(c: Change) {
    forall p :: p in c.added ==> Legal(p)
  }

  // ----- one iteration of one loop, from the sources s it started with

  /** The sources t of a loop that is anywhere in an iteration: what was not polled has not changed, and the
      dispatch priority is not below any source that needs dispatching. */
  ghost predicate Going(s: seq<Source>, top: int, t: seq<Source>, p: int) {
    && |s| <= |t| && top <= p
    && (forall i :: 0 <= i < |s| ==> t[i].priority == s[i].priority && (t[i].attached ==> s[i].attached))
    && (forall i :: 0 <= i < |s| && t[i].attached && !Polled(s, top, i) ==> t[i].state == s[i].state)
    && (forall i :: |s| <= i < |t| ==> t[i].state == Waiting)
    && (forall i :: 0 <= i < |t| && Needs(t, i) ==> t[i].priority <= p)
  }

  lemma GoingChanged(s: seq<Source>, top: int, t: seq<Source>, p: int, c: Change)
    requires Going(s, top, t, p) && LegalSources(t) && LegalChange(c)
    ensures Going(s, top, Changed(t, c), p) && LegalSources(Changed(t, c))
  {
    var u := Changed(t, c);
    assert forall i :: 0 <= i < |c.added| ==> c.added[i] in c.added;
    assert forall i :: 0 <= i < |u| && Needs(u, i) ==> Needs(t, i) && u[i] == t[i];
  }

  lemma GoingSet(s: seq<Source>, top: int, t: seq<Source>, p: int, i: nat, st: LoopState)
    requires Going(s, top, t, p) && LegalSources(t) && i < |t| && t[i].attached && Polled(s, top, i)
    ensures var q := if st == NeedsDispatch then Max(p, t[i].priority) else p;
            Going(s, top, t[i := t[i].(state := st)], q) && LegalSources(t[i := t[i].(state := st)])
  {
    var u := t[i := t[i].(state := st)];
    assert forall k :: 0 <= k < |u| && k != i && Needs(u, k) ==> Needs(t, k) && u[k] == t[k];
  }

  /** One whole iteration: at most one source is dispatched; the sources in `refused` said they are not ready. */
  ghost predicate Iteration(s: seq<Source>, t: seq<Source>, dispatched: Option<nat>, refused: set<nat>) {
    exists top: int, m: seq<Source>, p: int :: IterationVia(s, t, dispatched, refused, top, m, p)
  }

  /** m are the sources after the check phase, p the dispatch priority then. */
  ghost predicate IterationVia(s: seq<Source>, t: seq<Source>, dispatched: Option<nat>, refused: set<nat>,
                               top: int, m: seq<Source>, p: int) {
    && Top(s, top) && Going(s, top, m, p)
    && (forall i :: i in refused ==> Polled(s, top, i))
    && (forall i :: 0 <= i < |s| && Polled(s, top, i) && m[i].attached ==> m[i].state == NeedsDispatch || i in refused)
    && |m| <= |t|
    && (forall i :: 0 <= i < |m| ==> t[i].priority == m[i].priority)
    && (forall i :: 0 <= i < |m| && t[i].attached ==>
          m[i].attached && t[i] == if dispatched == Some(i) then m[i].(state := Waiting) else m[i])
    && (dispatched.Some? ==>
          var d := dispatched.value;
          && Polled(s, top, d) && Needs(m, d) && m[d].priority == p && d !in refused
          && forall i :: 0 <= i < d ==> !(Polled(s, top, i) && Needs(m, i) && m[i].priority == p))
  }

  /** Highest priority first: whatever needs dispatching when a source is dispatched has no higher priority. */
  lemma HighestFirst(s: seq<Source>, t: seq<Source>, d: nat, refused: set<nat>, i: nat)
    requires Iteration(s, t, Some(d), refused) && i < |s| && Needs(t, i)
    ensures d < |s| && s[i].priority <= s[d].priority
  {
    var top: int, m: seq<Source>, p: int :| IterationVia(s, t, Some(d), refused, top, m, p);
    assert Needs(m, i);
  }

  /** What needed dispatching and was neither dispatched nor refused still does, and keeps out of the iteration
      all sources of its priority that did not need dispatching when it started. */
  lemma KeepsTurn(s: seq<Source>, t: seq<Source>, dispatched: Option<nat>, refused: set<nat>, a: nat, b: nat)
    requires Iteration(s, t, dispatched, refused)
    requires a < |s| && b < |s| && s[a].priority == s[b].priority
    requires Needs(s, b) && !Needs(s, a) && b < |t| && t[b].attached
    requires dispatched != Some(b) && b !in refused
    ensures a < |t| && Needs(t, b) && !Needs(t, a) && dispatched != Some(a)
    ensures t[a].priority == s[a].priority && t[b].priority == s[b].priority
  {
  }

  /** With b before a in the list and never refusing, a cannot come to need dispatching unless b does, and is not
      dispatched before b. */
  lemma EarlierGoesFirst(s: seq<Source>, t: seq<Source>, dispatched: Option<nat>, refused: set<nat>, a: nat, b: nat)
    requires Iteration(s, t, dispatched, refused)
    requires b < a < |s| && s[a].priority == s[b].priority && (Needs(s, a) ==> Needs(s, b))
    requires s[b].attached && b < |t| && t[b].attached && dispatched != Some(b) && b !in refused
    ensures a < |t| && (Needs(t, a) ==> Needs(t, b)) && dispatched != Some(a)
    ensures t[a].priority == s[a].priority && t[b].priority == s[b].priority
  {
  }

  // ----- runs of iterations

  datatype Round = Round(after: seq<Source>, dispatched: Option<nat>, refused: set<nat>)

  /** The rounds follow each other, starting with sources s. */
  ghost predicate History(s: seq<Source>, rounds: seq<Round>)
    decreases |rounds|
  {
    rounds == []
    || (Iteration(s, rounds[0].after, rounds[0].dispatched, rounds[0].refused) && History(rounds[0].after, rounds[1..]))
  }

  /** Source b stays in the loop, is ready whenever it is asked, and yet is not dispatched. */
  ghost predicate PassedOver(rounds: seq<Round>, b: nat) {
    forall k :: 0 <= k < |rounds| ==>
      b < |rounds[k].after| && rounds[k].after[b].attached && rounds[k].dispatched != Some(b) && b !in rounds[k].refused
  }

  /** A source that is ready and has its turn is not passed over until another one gets its next turn. */
  lemma {:induction false} NotPassedOver(s: seq<Source>, rounds: seq<Round>, a: nat, b: nat)
    requires History(s, rounds) && rounds != [] && PassedOver(rounds, b)
    requires a < |s| && b < |s| && a != b && s[a].priority == s[b].priority && s[b].attached
    requires !Needs(s, a) && (Needs(s, b) || b < a)
    ensures Last(rounds).dispatched != Some(a)
    decreases |rounds|
  {
    if Needs(s, b) {
      NeederNotPassedOver(s, rounds, a, b);
    } else {
      EarlierNotPassedOver(s, rounds, a, b);
    }
  }

  lemma {:induction false} NeederNotPassedOver(s: seq<Source>, rounds: seq<Round>, a: nat, b: nat)
    requires History(s, rounds) && rounds != [] && PassedOver(rounds, b)
    requires a < |s| && b < |s| && s[a].priority == s[b].priority && !Needs(s, a) && Needs(s, b)
    ensures Last(rounds).dispatched != Some(a)
    decreases |rounds|
  {
    hide Iteration;
    var r := rounds[0];
    KeepsTurn(s, r.after, r.dispatched, r.refused, a, b);
    if |rounds| > 1 {
      NeederNotPassedOver(r.after, rounds[1..], a, b);
    }
  }

  lemma {:induction false} EarlierNotPassedOver(s: seq<Source>, rounds: seq<Round>, a: nat, b: nat)
    requires History(s, rounds) && rounds != [] && PassedOver(rounds, b)
    requires b < a < |s| && s[a].priority == s[b].priority && s[b].attached && (Needs(s, a) ==> Needs(s, b))
    ensures Last(rounds).dispatched != Some(a)
    decreases |rounds|
  {
    hide Iteration;
    var r := rounds[0];
    EarlierGoesFirst(s, r.after, r.dispatched, r.refused, a, b);
    if |rounds| > 1 {
      EarlierNotPassedOver(r.after, rounds[1..], a, b);
    }
  }

  /** However the iterations go, a source that stays ready is passed over at most once: from a moment on at which a
      does not need dispatching, no run that passes b over dispatches a twice. */
  lemma {:induction false} PassedOverOnce(s: seq<Source>, rounds: seq<Round>, a: nat, b: nat, i: nat, j: nat)
    requires History(s, rounds) && PassedOver(rounds, b) && i < j < |rounds|
    requires a < |s| && b < |s| && a != b && s[a].priority == s[b].priority && s[b].attached
    requires Needs(s, a) ==> Needs(s, b)
    ensures !(rounds[i].dispatched == Some(a) && rounds[j].dispatched == Some(a))
    decreases |rounds|
  {
    hide Iteration;
    var r := rounds[0];
    NeedsTogether(s, r.after, r.dispatched, r.refused, a, b);
    if i > 0 {
      PassedOverOnce(r.after, rounds[1..], a, b, i - 1, j - 1);
    } else if r.dispatched == Some(a) {
      HistoryPrefix(r.after, rounds[1..], j);
      NeederNotPassedOver(r.after, rounds[1..][..j], a, b);
    }
  }

  /** When a comes to need dispatching, b that was asked as well needs it too, and still does after a had its turn. */
  lemma NeedsTogether(s: seq<Source>, t: seq<Source>, dispatched: Option<nat>, refused: set<nat>, a: nat, b: nat)
    requires Iteration(s, t, dispatched, refused)
    requires a < |s| && b < |s| && a != b && s[a].priority == s[b].priority && (Needs(s, a) ==> Needs(s, b))
    requires s[b].attached && b < |t| && t[b].attached && dispatched != Some(b) && b !in refused
    ensures a < |t| && t[a].priority == s[a].priority && t[b].priority == s[b].priority
    ensures Needs(t, a) ==> Needs(t, b)
    ensures dispatched == Some(a) ==> Needs(t, b) && !Needs(t, a)
  {
  }

  lemma {:induction false} HistoryPrefix(s: seq<Source>, rounds: seq<Round>, n: nat)
    requires History(s, rounds) && n <= |rounds|
    ensures History(s, rounds[..n])
    decreases |rounds|
  {
    hide Iteration;
    if n > 0 {
      HistoryPrefix(rounds[0].after, rounds[1..], n - 1);
      assert rounds[..n][1..] == rounds[1..][..n - 1];
    }
  }

  // ----- what one callback changes

  /** From s to t: source i was asked, was set to a state, and is kept if `keep` says so and nobody removed it; what
      its callback removed is detached, what it added follows, attached and waiting; nothing else has changed. */
  ghost predicate ChangedOnly(s: seq<Source>, t: seq<Source>, i: nat, c: Change, keep: bool, state: LoopState) {
    && i < |s| && |t| == |s| + |c.added|
    && t[i].priority == s[i].priority
    && (t[i].attached <==> s[i].attached && keep && i !in c.removed)
    && (t[i].attached ==> t[i].state == state)
    && (forall j :: 0 <= j < |s| && j != i && j !in c.removed ==> t[j] == s[j])
    && (forall j :: 0 <= j < |s| && j != i && j in c.removed ==> !t[j].attached && t[j].priority == s[j].priority)
    && (forall j :: 0 <= j < |c.added| ==>
          t[|s| + j].attached && t[|s| + j].state == Waiting && t[|s| + j].priority == c.added[j])
  }

  // ----- reference: prepare and check, source by source

  /** The sources of a loop, its dispatch priority, and who refused. */
  datatype Phase = Phase(sources: seq<Source>, priority: int, refused: set<nat>)

  function Entered(ph: Phase, i: nat, st: LoopState): Phase
    requires i < |ph.sources|
  {
    ph.(sources := ph.sources[i := ph.sources[i].(state := st)],
        priority := if st == NeedsDispatch then Max(ph.priority, ph.sources[i].priority) else ph.priority)
  }

  /** Source i is asked in the prepare phase, unless it is gone before or after. */
  function PreparedOne(ph: Phase, i: nat, a: Answer): Phase {
    if i >= |ph.sources| || !ph.sources[i].attached then ph
    else
      var u := ph.(sources := Changed(ph.sources, a.change));
      if !u.sources[i].attached then u else Entered(u, i, if a.yes then NeedsDispatch else Prepared)
  }

  /** Source i is asked in the check phase. */
  function CheckedOne(ph: Phase, i: nat, a: Answer): Phase {
    if i >= |ph.sources| || (!ph.sources[i].attached && ph.sources[i].state != Prepared) then ph
    else
      var u := ph.(sources := Changed(ph.sources, a.change));
      if !u.sources[i].attached then u
      else if a.yes then Entered(u, i, NeedsDispatch)
      else Entered(u, i, Waiting).(refused := u.refused + {i})
  }

  function PreparedAll(ph: Phase, list: seq<nat>, answers: nat -> Answer, n: nat): Phase
    requires n <= |list|
  {
    if n == 0 then ph else PreparedOne(PreparedAll(ph, list, answers, n - 1), list[n - 1], answers(n - 1))
  }

  function CheckedAll(ph: Phase, list: seq<nat>, answers: nat -> Answer, n: nat): Phase
    requires n <= |list|
  {
    if n == 0 then ph else CheckedOne(CheckedAll(ph, list, answers, n - 1), list[n - 1], answers(n - 1))
  }

  /** The first source of the list that needs dispatching at the dispatch priority. */
  function NextOf(ph: Phase, list: seq<nat>): Option<nat> {
    if list == [] then None
    else if Needs(ph.sources, list[0]) && ph.sources[list[0]].priority == ph.priority then Some(list[0])
    else NextOf(ph, list[1..])
  }

  lemma AskedChanges(ph: Phase, i: nat, a: Answer, state: LoopState)
    requires i < |ph.sources| && ph.sources[i].attached
    ensures var u := ph.(sources := Changed(ph.sources, a.change));
            var t := if u.sources[i].attached then Entered(u, i, state) else u;
            ChangedOnly(ph.sources, t.sources, i, a.change, true, state)
  {
  }

  /** A dispatched source stays exactly when its callback wants to be kept and did not remove it. */
  lemma DispatchedChanges(s: seq<Source>, d: nat, answer: Answer)
    requires d < |s| && s[d].attached
    ensures ChangedOnly(s, Dispatched(s, d, answer), d, answer.change, answer.yes, Waiting)
  {
  }

  // ----- collecting

  /** p is the top priority among the first n sources. */
  ghost predicate TopOf(s: seq<Source>, n: nat, p: int) {
    && (forall i :: 0 <= i < n && Needs(s, i) ==> s[i].priority <= p)
    && (p == UNDEFINED || exists i :: 0 <= i < n && i < |s| && Needs(s, i) && s[i].priority == p)
  }

  ghost predicate Ascending(list: seq<nat>) {
    forall j, k :: 0 <= j < k < |list| ==> list[j] < list[k]
  }

  /** The list holds exactly the polled sources, in order. */
  ghost predicate Listed(s: seq<Source>, p: int, list: seq<nat>) {
    Ascending(list) && forall i :: i in list <==> Polled(s, p, i)
  }

  /** Attached sources among the first n, with all that can still be polled at priority p or above. */
  ghost predicate Candidates(s: seq<Source>, p: int, list: seq<nat>, n: nat) {
    && Ascending(list)
    && (forall i :: i in list ==> i < n && i < |s| && s[i].attached)
    && (forall i :: 0 <= i < n && Polled(s, p, i) ==> i in list)
  }

  function Raised(s: seq<Source>, i: nat, p: int): int {
    if Needs(s, i) && s[i].priority > p then s[i].priority else p
  }

  lemma CollectStep(s: seq<Source>, i: nat, p: int, list: seq<nat>)
    requires i < |s| && TopOf(s, i, p) && Candidates(s, p, list, i)
    ensures TopOf(s, i + 1, Raised(s, i, p))
    ensures Candidates(s, Raised(s, i, p), if Polled(s, Raised(s, i, p), i) then list + [i] else list, i + 1)
  {
    hide TopOf, Candidates, Polled, Raised;
    RaiseTop(s, i, p);
    GrowCandidates(s, i, p, Raised(s, i, p), list);
  }

  lemma RaiseTop(s: seq<Source>, i: nat, p: int)
    requires i < |s| && TopOf(s, i, p)
    ensures TopOf(s, i + 1, Raised(s, i, p)) && p <= Raised(s, i, p)
  {
    var q := Raised(s, i, p);
    if q != p { assert Needs(s, i) && s[i].priority == q; }
  }

  lemma GrowCandidates(s: seq<Source>, i: nat, p: int, q: int, list: seq<nat>)
    requires i < |s| && Candidates(s, p, list, i) && p <= q
    ensures Candidates(s, q, if Polled(s, q, i) then list + [i] else list, i + 1)
  {
    var grown := if Polled(s, q, i) then list + [i] else list;
    assert forall j :: 0 <= j < |list| ==> list[j] in list;
    forall k | 0 <= k < i + 1 && Polled(s, q, k) ensures k in grown {
      if k < i { assert Polled(s, p, k); }
    }
  }

  /** The candidates looked at so far that are still to be polled. */
  ghost predicate Sifted(s: seq<Source>, p: int, list: seq<nat>, kept: seq<nat>) {
    && Ascending(kept)
    && (forall i :: i in kept <==> i in list && Polled(s, p, i))
  }

  lemma SiftStep(s: seq<Source>, p: int, list: seq<nat>, k: nat, kept: seq<nat>)
    requires k < |list| && Ascending(list) && Sifted(s, p, list[..k], kept)
    ensures Sifted(s, p, list[..k + 1], if Polled(s, p, list[k]) then kept + [list[k]] else kept)
  {
    assert list[..k + 1] == list[..k] + [list[k]];
    forall j | 0 <= j < |kept| ensures kept[j] < list[k] {
      assert kept[j] in kept;
    }
  }

  lemma SiftedAll(s: seq<Source>, p: int, list: seq<nat>, kept: seq<nat>)
    requires Candidates(s, p, list, |s|) && Sifted(s, p, list, kept)
    ensures Listed(s, p, kept)
  {
  }

  // ----- the rounds of the code

  /** What a loop has when its sources were asked in both phases. */
  function Outcome(s: seq<Source>, top: int, list: seq<nat>, prepares: nat -> Answer, checks: nat -> Answer): Phase {
    CheckedAll(PreparedAll(Phase(s, top, {}), list, prepares, |list|), list, checks, |list|)
  }

  ghost predicate LegalReplies(answers: nat -> Answer) {
    forall k :: LegalChange(answers(k).change)
  }

  /** The round that the answers of the sources determine, given if the loop is picked for dispatching. A loop that
      is alone in its main loop is picked whenever it has something to dispatch. */
  ghost predicate MadeVia(s: seq<Source>, r: Round, alone: bool, top: int, list: seq<nat>, prepares: nat -> Answer,
                          checks: nat -> Answer, keep: Answer, picked: bool) {
    var ph := Outcome(s, top, list, prepares, checks);
    && Top(s, top) && Listed(s, top, list) && r.refused == ph.refused
    && (picked ==> ph.priority > UNDEFINED) && (alone && ph.priority > UNDEFINED ==> picked)
    && r.dispatched == (if picked then NextOf(ph, list) else None)
    && (if r.dispatched.Some? then
          r.dispatched.value < |ph.sources| && r.after == Dispatched(ph.sources, r.dispatched.value, keep)
        else r.after == ph.sources)
  }

  /** A round that the code makes for some answers of its sources. */
  ghost predicate Made(s: seq<Source>, r: Round, alone: bool) {
    exists top: int, list: seq<nat>, prepares: nat -> Answer, checks: nat -> Answer, keep: Answer, picked: bool ::
      LegalReplies(prepares) && LegalReplies(checks) && LegalChange(keep.change)
      && MadeVia(s, r, alone, top, list, prepares, checks, keep, picked)
  }

  ghost predicate CodeHistory(s: seq<Source>, rounds: seq<Round>, alone: bool)
    decreases |rounds|
  {
    rounds == [] || (Made(s, rounds[0], alone) && CodeHistory(rounds[0].after, rounds[1..], alone))
  }

  /** A loop in the middle of its iteration. */
  ghost predicate InPhase(s: seq<Source>, top: int, ph: Phase) {
    && Going(s, top, ph.sources, ph.priority) && LegalSources(ph.sources)
    && forall i :: i in ph.refused ==> Polled(s, top, i)
  }

  lemma PreparedOneOk(s: seq<Source>, top: int, ph: Phase, i: nat, a: Answer)
    requires InPhase(s, top, ph) && Polled(s, top, i) && LegalChange(a.change)
    ensures var q := PreparedOne(ph, i, a);
            InPhase(s, top, q) && ph.priority <= q.priority && q.refused == ph.refused
  {
    hide Going, LegalSources, Polled, Changed, LegalChange;
    if i < |ph.sources| && ph.sources[i].attached {
      GoingChanged(s, top, ph.sources, ph.priority, a.change);
      var u := Changed(ph.sources, a.change);
      if u[i].attached {
        GoingSet(s, top, u, ph.priority, i, if a.yes then NeedsDispatch else Prepared);
      }
    }
  }

  lemma CheckedOneOk(s: seq<Source>, top: int, ph: Phase, list: seq<nat>, k: nat, a: Answer)
    requires InPhase(s, top, ph) && Listed(s, top, list) && k < |list| && LegalChange(a.change)
    requires AllDecided(ph.sources, list[..k], ph.refused)
    ensures var q := CheckedOne(ph, list[k], a);
            InPhase(s, top, q) && ph.priority <= q.priority && AllDecided(q.sources, list[..k + 1], q.refused)
  {
    hide Going, LegalSources, Polled, Changed, LegalChange, AllDecided;
    var i := list[k];
    assert i in list;
    OnceListed(s, top, list, k);
    assert list[..k + 1] == list[..k] + [i];
    PolledStays(s, top, ph, i);
    if ph.sources[i].attached {
      GoingChanged(s, top, ph.sources, ph.priority, a.change);
      AllDecidedChanged(ph.sources, a.change, list[..k], ph.refused);
      var u := Changed(ph.sources, a.change);
      if u[i].attached {
        GoingSet(s, top, u, ph.priority, i, if a.yes then NeedsDispatch else Waiting);
        AllDecidedSet(u, i, a.yes, list[..k], ph.refused);
      } else {
        AllDecidedGone(u, i, list[..k], ph.refused);
      }
    } else {
      AllDecidedGone(ph.sources, i, list[..k], ph.refused);
    }
  }

  lemma PolledStays(s: seq<Source>, top: int, ph: Phase, i: nat)
    requires InPhase(s, top, ph) && Polled(s, top, i)
    ensures i < |ph.sources| && (!ph.sources[i].attached ==> ph.sources[i].state == Waiting)
  {
  }

  lemma OnceListed(s: seq<Source>, top: int, list: seq<nat>, k: nat)
    requires Listed(s, top, list) && k < |list|
    ensures Polled(s, top, list[k]) && list[k] !in list[..k]
  {
    assert list[k] in list;
  }

  lemma {:induction false} PreparedAllOk(s: seq<Source>, top: int, list: seq<nat>, answers: nat -> Answer, n: nat)
    requires LegalSources(s) && Top(s, top) && Listed(s, top, list) && n <= |list| && LegalReplies(answers)
    ensures var ph := PreparedAll(Phase(s, top, {}), list, answers, n);
            InPhase(s, top, ph) && ph.refused == {} && top <= ph.priority
  {
    hide LegalChange, PreparedOne, Polled;
    if n > 0 {
      PreparedAllOk(s, top, list, answers, n - 1);
      OnceListed(s, top, list, n - 1);
      PreparedOneOk(s, top, PreparedAll(Phase(s, top, {}), list, answers, n - 1), list[n - 1], answers(n - 1));
    }
  }

  lemma {:induction false} CheckedAllOk(s: seq<Source>, top: int, ph: Phase, list: seq<nat>, answers: nat -> Answer,
                                        n: nat)
    requires InPhase(s, top, ph) && ph.refused == {} && Listed(s, top, list) && n <= |list| && LegalReplies(answers)
    ensures var q := CheckedAll(ph, list, answers, n);
            InPhase(s, top, q) && ph.priority <= q.priority && AllDecided(q.sources, list[..n], q.refused)
  {
    hide LegalChange, CheckedOne, InPhase, Listed;
    if n > 0 {
      CheckedAllOk(s, top, ph, list, answers, n - 1);
      CheckedOneOk(s, top, CheckedAll(ph, list, answers, n - 1), list, n - 1, answers(n - 1));
    }
  }

  lemma OutcomeOk(s: seq<Source>, top: int, list: seq<nat>, prepares: nat -> Answer, checks: nat -> Answer)
    requires LegalSources(s) && Top(s, top) && Listed(s, top, list) && LegalReplies(prepares) && LegalReplies(checks)
    ensures var ph := Outcome(s, top, list, prepares, checks);
            InPhase(s, top, ph) && AllDecided(ph.sources, list, ph.refused)
  {
    hide InPhase, AllDecided, LegalReplies;
    PreparedAllOk(s, top, list, prepares, |list|);
    CheckedAllOk(s, top, PreparedAll(Phase(s, top, {}), list, prepares, |list|), list, checks, |list|);
    assert list[..|list|] == list;
  }

  /** Every round of the code is an iteration. */
  lemma MadeIsIteration(s: seq<Source>, r: Round, alone: bool)
    requires LegalSources(s) && Made(s, r, alone)
    ensures Iteration(s, r.after, r.dispatched, r.refused) && LegalSources(r.after)
  {
    hide Iteration, LegalSources, LegalReplies, LegalChange, Going, AllDecided, Outcome, IsNext, Top;
    var top: int, list: seq<nat>, prepares: nat -> Answer, checks: nat -> Answer, keep: Answer, picked: bool :|
      LegalReplies(prepares) && LegalReplies(checks) && LegalChange(keep.change)
      && MadeVia(s, r, alone, top, list, prepares, checks, keep, picked);
    var ph := Outcome(s, top, list, prepares, checks);
    OutcomeOk(s, top, list, prepares, checks);
    if r.dispatched.Some? {
      NextIsFirst(s, top, ph, list, list);
      DispatchedRound(s, top, ph.sources, ph.priority, list, ph.refused, r.dispatched.value, keep);
    } else {
      IdleRound(s, top, ph.sources, ph.priority, list, ph.refused);
    }
  }

  /** What NextOf finds in the rest of the list is the first one, when the part before has none. */
  lemma {:induction false} NextIsFirst(s: seq<Source>, top: int, ph: Phase, list: seq<nat>, rest: seq<nat>)
    requires Listed(s, top, list) && NextOf(ph, rest).Some? && |rest| <= |list| && rest == list[|list| - |rest|..]
    requires forall j :: 0 <= j < |list| - |rest| ==>
               !(Needs(ph.sources, list[j]) && ph.sources[list[j]].priority == ph.priority)
    ensures IsNext(s, top, ph.sources, ph.priority, NextOf(ph, rest).value)
    decreases |rest|
  {
    hide IsNext, Listed;
    if Needs(ph.sources, rest[0]) && ph.sources[rest[0]].priority == ph.priority {
      FirstInList(s, top, ph.sources, ph.priority, list, |list| - |rest|);
    } else {
      NextIsFirst(s, top, ph, list, rest[1..]);
    }
  }

  lemma {:induction false} CodeIsHistory(s: seq<Source>, rounds: seq<Round>, alone: bool)
    requires LegalSources(s) && CodeHistory(s, rounds, alone)
    ensures History(s, rounds)
    decreases |rounds|
  {
    hide Made, Iteration, LegalSources;
    if rounds != [] {
      MadeIsIteration(s, rounds[0], alone);
      CodeIsHistory(rounds[0].after, rounds[1..], alone);
    }
  }

  // ----- prepare or check

  /** A source that was asked in both phases and is still there needs dispatching exactly when check() said so. */
  lemma {:induction false} CheckDecides(s: seq<Source>, top: int, ph: Phase, list: seq<nat>, answers: nat -> Answer,
                                        n: nat, k: nat)
    requires InPhase(s, top, ph) && ph.refused == {} && Listed(s, top, list) && k < n <= |list| && LegalReplies(answers)
    ensures var q := CheckedAll(ph, list, answers, n);
            list[k] < |q.sources| && (q.sources[list[k]].attached ==> (Needs(q.sources, list[k]) <==> answers(k).yes))
  {
    hide InPhase, Polled, Listed, LegalChange, AllDecided, CheckedOne, Needs;
    var q := CheckedAll(ph, list, answers, n - 1);
    CheckedAllOk(s, top, ph, list, answers, n - 1);
    OnceListed(s, top, list, n - 1);
    if k < n - 1 {
      CheckDecides(s, top, ph, list, answers, n - 1, k);
      assert list[k] in list[..n - 1];
      OtherChecked(q, list[n - 1], list[k], answers(n - 1));
    } else {
      PolledStays(s, top, q, list[n - 1]);
      SelfChecked(q, list[n - 1], answers(n - 1));
    }
  }

  lemma OtherChecked(q: Phase, i: nat, j: nat, a: Answer)
    requires i != j && j < |q.sources|
    ensures var r := CheckedOne(q, i, a);
            && j < |r.sources|
            && (r.sources[j].attached ==> q.sources[j].attached && (Needs(r.sources, j) <==> Needs(q.sources, j)))
  {
  }

  lemma SelfChecked(q: Phase, i: nat, a: Answer)
    requires i < |q.sources| && (!q.sources[i].attached ==> q.sources[i].state == Waiting)
    ensures var r := CheckedOne(q, i, a);
            i < |r.sources| && (r.sources[i].attached ==> (Needs(r.sources, i) <==> a.yes))
  {
  }

  /** The documented rule, that a source is dispatched if prepare() or check() returned true, holds for a source that
      is still there exactly when a yes of prepare() is followed by one of check(). */
  lemma EitherExact(s: seq<Source>, top: int, list: seq<nat>, prepares: nat -> Answer, checks: nat -> Answer, k: nat)
    requires LegalSources(s) && Top(s, top) && Listed(s, top, list) && k < |list|
    requires LegalReplies(prepares) && LegalReplies(checks)
    ensures var ph := Outcome(s, top, list, prepares, checks);
            list[k] < |ph.sources| && (ph.sources[list[k]].attached ==>
              ((Needs(ph.sources, list[k]) <==> prepares(k).yes || checks(k).yes)
               <==> (prepares(k).yes ==> checks(k).yes)))
  {
    hide InPhase, Listed, LegalReplies, PreparedAll, CheckedAll;
    PreparedAllOk(s, top, list, prepares, |list|);
    CheckDecides(s, top, PreparedAll(Phase(s, top, {}), list, prepares, |list|), list, checks, |list|, k);
  }

  /** A single source that is ready in prepare and no longer in check is not dispatched. */
  lemma PrepareOverridden()
    ensures var s := [Source(500, Waiting, true)];
            var yes := (k: nat) => Answer(true, Change({}, []));
            var no := (k: nat) => Answer(false, Change({}, []));
            && Top(s, UNDEFINED) && Listed(s, UNDEFINED, [0])
            && !Needs(Outcome(s, UNDEFINED, [0], yes, no).sources, 0)
            && NextOf(Outcome(s, UNDEFINED, [0], yes, no), [0]) == None
  {
    var s := [Source(500, Waiting, true)];
    var yes := (k: nat) => Answer(true, Change({}, []));
    var no := (k: nat) => Answer(false, Change({}, []));
    var p := PreparedAll(Phase(s, UNDEFINED, {}), [0], yes, 1);
    assert PreparedAll(Phase(s, UNDEFINED, {}), [0], yes, 0) == Phase(s, UNDEFINED, {});
    assert p.sources == [Source(500, NeedsDispatch, true)];
    assert CheckedAll(p, [0], no, 0) == p;
    assert CheckedAll(p, [0], no, 1).sources == [Source(500, Waiting, true)];
  }

  // ----- how a later source is passed over

  /** Callbacks that change no sources; those in `ready` say yes whenever they are asked. */
  function Says(list: seq<nat>, ready: set<nat>): nat -> Answer {
    (k: nat) => Answer(k < |list| && list[k] in ready, Change({}, []))
  }

  lemma SaysLegal(list: seq<nat>, ready: set<nat>)
    ensures LegalReplies(Says(list, ready))
  {
  }

  lemma NothingChanged(s: seq<Source>)
    ensures Changed(s, Change({}, [])) == s
  {
  }

  /** The listed sources have answered. */
  function Said(s: seq<Source>, list: seq<nat>, ready: set<nat>, no: LoopState): seq<Source> {
    seq(|s|, i requires 0 <= i < |s| =>
      if i in list then s[i].(state := if i in ready then NeedsDispatch else no) else s[i])
  }

  lemma SaidNext(s: seq<Source>, list: seq<nat>, n: nat, ready: set<nat>, no: LoopState)
    requires n < |list| && list[n] < |s| && list[n] !in list[..n]
    ensures var i := list[n]; var u := Said(s, list[..n], ready, no);
            |u| == |s| && u[i] == s[i]
            && Said(s, list[..n + 1], ready, no) == u[i := u[i].(state := if i in ready then NeedsDispatch else no)]
  {
    assert list[..n + 1] == list[..n] + [list[n]];
  }

  /** All ready sources have priority p, above the top priority the iteration starts with. */
  ghost predicate ReadyAt(s: seq<Source>, top: int, ready: set<nat>, p: int) {
    forall i :: i in ready ==> i < |s| && s[i].priority == p && top < p
  }

  lemma {:induction false} PreparedAsSaid(s: seq<Source>, top: int, list: seq<nat>, ready: set<nat>, p: int, n: nat)
    requires Listed(s, top, list) && n <= |list| && ReadyAt(s, top, ready, p)
    ensures var ph := PreparedAll(Phase(s, top, {}), list, Says(list, ready), n);
            && ph.sources == Said(s, list[..n], ready, Prepared) && ph.refused == {}
            && (ph.priority == top || (ready != {} && ph.priority == p))
  {
    hide Changed;
    if n > 0 {
      PreparedAsSaid(s, top, list, ready, p, n - 1);
      OnceListed(s, top, list, n - 1);
      SaidNext(s, list, n - 1, ready, Prepared);
      NothingChanged(Said(s, list[..n - 1], ready, Prepared));
    }
  }

  /** The answer of one source in the check phase. */
  lemma CheckedAsSaidOnce(ph: Phase, q: Phase, list: seq<nat>, ready: set<nat>, n: nat)
    requires n < |list| && list[n] < |ph.sources| && list[n] !in list[..n] && ph.sources[list[n]].attached
    requires q.sources == Said(ph.sources, list[..n], ready, Waiting)
    ensures var i, r := list[n], CheckedOne(q, list[n], Says(list, ready)(n));
            && r.sources == Said(ph.sources, list[..n + 1], ready, Waiting)
            && r.refused == (if i in ready then q.refused else q.refused + {i})
            && r.priority == (if i in ready then Max(q.priority, ph.sources[i].priority) else q.priority)
  {
    hide Changed, Said;
    SaidNext(ph.sources, list, n, ready, Waiting);
    NothingChanged(q.sources);
  }

  lemma RefusedNext(list: seq<nat>, ready: set<nat>, n: nat)
    requires n < |list|
    ensures (set i | i in list[..n + 1] && i !in ready)
            == (set i | i in list[..n] && i !in ready) + if list[n] in ready then {} else {list[n]}
  {
    assert list[..n + 1] == list[..n] + [list[n]];
  }

  /** After both phases the polled sources that are ready need dispatching, and the others wait. */
  lemma {:induction false} CheckedAsSaid(s: seq<Source>, top: int, ph: Phase, list: seq<nat>, ready: set<nat>,
                                         p: int, n: nat)
    requires Listed(s, top, list) && n <= |list| && ReadyAt(s, top, ready, p)
    requires ph.sources == Said(s, list, ready, Prepared) && ph.refused == {}
    requires ph.priority == top || (ready != {} && ph.priority == p)
    ensures var q := CheckedAll(ph, list, Says(list, ready), n);
            && q.sources == Said(ph.sources, list[..n], ready, Waiting)
            && q.refused == (set i | i in list[..n] && i !in ready)
            && (q.priority == top || (ready != {} && q.priority == p))
  {
    hide CheckedOne, Listed, Says;
    if n > 0 {
      CheckedAsSaid(s, top, ph, list, ready, p, n - 1);
      OnceListed(s, top, list, n - 1);
      CheckedAsSaidOnce(ph, CheckedAll(ph, list, Says(list, ready), n - 1), list, ready, n - 1);
      RefusedNext(list, ready, n - 1);
    }
  }

  /** The sources after an iteration in which everything that was asked refused, but for the ones in `ready`. */
  function Asked(s: seq<Source>, top: int, ready: set<nat>): seq<Source> {
    seq(|s|, i requires 0 <= i < |s| =>
      if Polled(s, top, i) then s[i].(state := if i in ready then NeedsDispatch else Waiting) else s[i])
  }

  function AskedSet(s: seq<Source>, top: int): set<nat> {
    set i: nat | i < |s| && Polled(s, top, i)
  }

  lemma OutcomeAsSaid(s: seq<Source>, top: int, list: seq<nat>, ready: set<nat>, p: int)
    requires Listed(s, top, list) && ReadyAt(s, top, ready, p)
    ensures var ph := Outcome(s, top, list, Says(list, ready), Says(list, ready));
            && ph.sources == Asked(s, top, ready) && ph.refused == AskedSet(s, top) - ready
            && (ph.priority == top || (ready != {} && ph.priority == p))
  {
    hide PreparedAll, CheckedAll, Says, ReadyAt;
    PreparedAsSaid(s, top, list, ready, p, |list|);
    assert list[..|list|] == list;
    CheckedAsSaid(s, top, PreparedAll(Phase(s, top, {}), list, Says(list, ready), |list|), list, ready, p, |list|);
  }

  function PollList(s: seq<Source>, top: int, n: nat): seq<nat> {
    if n == 0 then [] else PollList(s, top, n - 1) + if Polled(s, top, n - 1) then [n - 1] else []
  }

  lemma {:induction false} PollListed(s: seq<Source>, top: int, n: nat)
    ensures Ascending(PollList(s, top, n))
    ensures forall i: nat :: i in PollList(s, top, n) <==> i < n && Polled(s, top, i)
  {
    if n > 0 {
      PollListed(s, top, n - 1);
      var list := PollList(s, top, n - 1);
      assert forall j :: 0 <= j < |list| ==> list[j] in list;
    }
  }

  lemma PolledList(s: seq<Source>, top: int) returns (list: seq<nat>)
    ensures Listed(s, top, list)
  {
    PollListed(s, top, |s|);
    list := PollList(s, top, |s|);
  }

  lemma FindTop(s: seq<Source>) returns (top: int)
    requires LegalSources(s)
    ensures Top(s, top) && (top == UNDEFINED || Legal(top))
  {
    top := UNDEFINED;
    for i := 0 to |s|
      invariant forall k :: 0 <= k < i && Needs(s, k) ==> s[k].priority <= top
      invariant top == UNDEFINED || (Legal(top) && exists k :: 0 <= k < i && Needs(s, k) && s[k].priority == top)
    {
      if Needs(s, i) && top < s[i].priority {
        top := s[i].priority;
      }
    }
  }

  /** The round in which all sources asked refuse. */
  lemma RefusingRound(s: seq<Source>, top: int, alone: bool)
    requires LegalSources(s) && Top(s, top)
    ensures Made(s, Round(Asked(s, top, {}), None, AskedSet(s, top)), alone) && LegalSources(Asked(s, top, {}))
  {
    hide Outcome, Says, LegalReplies, Top;
    var list := PolledList(s, top);
    var ask := Says(list, {});
    SaysLegal(list, {});
    OutcomeAsSaid(s, top, list, {}, top);
    var ph := Outcome(s, top, list, ask, ask);
    NoneNeeds(s, top, ph, list, list);
    assert MadeVia(s, Round(Asked(s, top, {}), None, AskedSet(s, top)), alone, top, list, ask, ask,
                   Answer(true, Change({}, [])), ph.priority > UNDEFINED);
  }

  lemma {:induction false} NoneNeeds(s: seq<Source>, top: int, ph: Phase, list: seq<nat>, rest: seq<nat>)
    requires Listed(s, top, list) && ph.sources == Asked(s, top, {}) && forall i :: i in rest ==> i in list
    ensures NextOf(ph, rest) == None
  {
    if rest != [] {
      assert rest[0] in list;
      NoneNeeds(s, top, ph, list, rest[1..]);
    }
  }

  /** The round in which of all sources asked just a and b are ready, in prepare and in check; a comes first. */
  lemma ChoosingRound(s: seq<Source>, top: int, a: nat, b: nat, alone: bool)
    requires LegalSources(s) && Top(s, top) && a < b < |s| && s[a].attached && s[b].attached
    requires s[a].priority == s[b].priority && top < s[a].priority
    ensures var m := Asked(s, top, {a, b});
            Made(s, Round(m[a := m[a].(state := Waiting)], Some(a), AskedSet(s, top) - {a, b}), alone)
  {
    hide Outcome, Says, LegalReplies, Top;
    var list := PolledList(s, top);
    var ready := {a, b};
    var ask := Says(list, ready);
    SaysLegal(list, ready);
    OutcomeAsSaid(s, top, list, ready, s[a].priority);
    OutcomeOk(s, top, list, ask, ask);
    var ph := Outcome(s, top, list, ask, ask);
    assert Needs(ph.sources, a) && ph.sources[a].priority == s[a].priority;
    assert ph.priority == s[a].priority;
    assert a in list;
    var k :| 0 <= k < |list| && list[k] == a;
    NextFound(s, top, ph, list, k, b, 0);
    NothingChanged(ph.sources[a := ph.sources[a].(state := Waiting)]);
    var after := ph.sources[a := ph.sources[a].(state := Waiting)];
    assert MadeVia(s, Round(after, Some(a), AskedSet(s, top) - ready), alone,
                   top, list, ask, ask, Answer(true, Change({}, [])), true);
  }

  lemma {:induction false} NextFound(s: seq<Source>, top: int, ph: Phase, list: seq<nat>, k: nat, b: nat, n: nat)
    requires Listed(s, top, list) && n <= k < |list| && list[k] < b
    requires ph.sources == Asked(s, top, {list[k], b})
    requires Needs(ph.sources, list[k]) && ph.sources[list[k]].priority == ph.priority
    ensures NextOf(ph, list[n..]) == Some(list[k])
    decreases k - n
  {
    if n < k {
      assert list[n] in list;
      NextFound(s, top, ph, list, k, b, n + 1);
    }
  }

  function CountNeeds(s: seq<Source>): nat {
    if s == [] then 0
    else (if s[0].attached && s[0].state == NeedsDispatch then 1 else 0) + CountNeeds(s[1..])
  }

  lemma {:induction false} FewerNeeds(s: seq<Source>, t: seq<Source>)
    requires |s| == |t| && forall i :: 0 <= i < |s| && Needs(t, i) ==> Needs(s, i)
    ensures CountNeeds(t) <= CountNeeds(s)
    ensures (exists i :: 0 <= i < |s| && Needs(s, i) && !Needs(t, i)) ==> CountNeeds(t) < CountNeeds(s)
  {
    if s != [] {
      forall i | 0 <= i < |s| - 1 ensures Needs(t[1..], i) == Needs(t, i + 1) && Needs(s[1..], i) == Needs(s, i + 1) {
      }
      FewerNeeds(s[1..], t[1..]);
      assert Needs(t, 0) ==> Needs(s, 0);
      if i :| 0 <= i < |s| && Needs(s, i) && !Needs(t, i) {
        assert i == 0 || (Needs(s[1..], i - 1) && !Needs(t[1..], i - 1));
      }
    }
  }

  lemma AllAskedWait(s: seq<Source>, top: int, t: seq<Source>)
    requires LegalSources(s) && Top(s, top) && top != UNDEFINED && t == Asked(s, top, {})
    ensures forall i :: 0 <= i < |s| && Needs(t, i) ==> Needs(s, i)
    ensures exists i :: 0 <= i < |s| && Needs(s, i) && !Needs(t, i)
  {
    var i :| 0 <= i < |s| && Needs(s, i) && s[i].priority == top;
    assert !Needs(t, i);
  }

  /** A source that does not need dispatching and comes later in the list can be passed over, although it says that
      it is ready whenever it is asked. */
  lemma {:induction false} LaterPassedOver(s: seq<Source>, a: nat, b: nat, alone: bool) returns (rounds: seq<Round>)
    requires LegalSources(s) && a < b < |s| && s[a].attached && s[b].attached && s[a].priority == s[b].priority
    requires !Needs(s, a) && !Needs(s, b)
    ensures CodeHistory(s, rounds, alone) && rounds != [] && PassedOver(rounds, b) && Last(rounds).dispatched == Some(a)
    decreases CountNeeds(s)
  {
    hide Made;
    var top := FindTop(s);
    if top < s[a].priority {
      ChoosingRound(s, top, a, b, alone);
      var m := Asked(s, top, {a, b});
      rounds := [Round(m[a := m[a].(state := Waiting)], Some(a), AskedSet(s, top) - {a, b})];
      assert CodeHistory(rounds[0].after, rounds[1..], alone);
    } else {
      RefusingRound(s, top, alone);
      var t := Asked(s, top, {});
      AllAskedWait(s, top, t);
      FewerNeeds(s, t);
      var r := Round(t, None, AskedSet(s, top));
      var rest := LaterPassedOver(t, a, b, alone);
      rounds := [r] + rest;
      assert rounds[1..] == rest;
    }
  }

  /** The round-robin promise within a loop, on the runs of the code. After source a was dispatched, a source b of the
      same priority that stays ready cannot miss its turn before a is dispatched again exactly when b already needs
      dispatching or comes earlier in the list of sources. */
  lemma FairnessExact(s: seq<Source>, a: nat, b: nat, alone: bool)
    requires LegalSources(s) && a < |s| && b < |s| && a != b && s[a].attached && s[b].attached
    requires s[a].priority == s[b].priority && !Needs(s, a)
    ensures (forall rounds :: CodeHistory(s, rounds, alone) && rounds != [] && PassedOver(rounds, b)
                              ==> Last(rounds).dispatched != Some(a))
            <==> Needs(s, b) || b < a
  {
    if Needs(s, b) || b < a {
      forall rounds | CodeHistory(s, rounds, alone) && rounds != [] && PassedOver(rounds, b)
        ensures Last(rounds).dispatched != Some(a)
      {
        CodeIsHistory(s, rounds, alone);
        NotPassedOver(s, rounds, a, b);
      }
    } else {
      var rounds := LaterPassedOver(s, a, b, alone);
    }
  }

  // ----- the code

  class EventLoop {
    var sources: seq<Source>
    var pollSources: seq<nat>
    var dispatchPriority: int
    /** The sources and their top priority when the current iteration started, and who refused so far. */
    ghost var begun: seq<Source>
    ghost var top: int
    ghost var refused: set<nat>

    ghost predicate Valid()
      reads this
    {
      LegalSources(sources)
    }

    /** Collected: the poll list is exactly the polled sources, in list order. */
    ghost predicate Busy()
      reads this
    {
      Valid() && Top(begun, top) && Listed(begun, top, pollSources) && InPhase(begun, top, Now())
    }

    constructor ()
      ensures Valid() && sources == [] && pollSources == []
    {
      sources, pollSources, dispatchPriority := [], [], 0;
      begun, top, refused := [], UNDEFINED, {};
    }

    ghost function Now(): Phase
      reads `sources, `dispatchPriority, `refused
    {
      Phase(sources, dispatchPriority, refused)
    }

    method CollectSources()
      requires Valid()
      modifies this
      ensures Busy() && sources == old(sources) && begun == sources && dispatchPriority == top && refused == {}
    {
      hide LegalSources, TopOf, Candidates, Sifted, Listed;
      var candidates := CollectCandidates();
      begun, top, refused := sources, dispatchPriority, {};
      NothingListed(sources, top);
      for k := 0 to |candidates|
        modifies `pollSources
        invariant Sifted(sources, top, candidates[..k], pollSources)
      {
        var i := candidates[k];
        CandidateAttached(sources, top, candidates, k);
        SiftStep(sources, top, candidates, k, pollSources);
        if sources[i].priority > dispatchPriority
           || (sources[i].priority == dispatchPriority && sources[i].state == NeedsDispatch) {
          pollSources := pollSources + [i];
        }
      }
      assert candidates[..|candidates|] == candidates;
      SiftedAll(sources, top, candidates, pollSources);
      GoingStart(sources, top);
    }

    /** The lock is dropped: sources may be removed and added. */
    method Unlocked(change: Change)
      modifies `sources
      ensures sources == Changed(old(sources), change)
    {
      sources := Changed(sources, change);
    }

    method SetState(i: nat, st: LoopState)
      requires i < |sources|
      modifies `sources, `dispatchPriority
      ensures Now() == Entered(old(Now()), i, st)
    {
      if st == NeedsDispatch {
        dispatchPriority := Max(dispatchPriority, sources[i].priority);
      }
      sources := sources[i := sources[i].(state := st)];
    }

    method PrepareSources(answers: nat -> Answer) returns (dispatchable: bool)
      requires Busy() && LegalReplies(answers)
      modifies `sources, `dispatchPriority
      ensures Busy() && dispatchable == (dispatchPriority > UNDEFINED)
      ensures Now() == PreparedAll(old(Now()), pollSources, answers, |pollSources|)
      ensures old(dispatchPriority) <= dispatchPriority
    {
      hide Top, Going, LegalSources, LegalChange, Changed, PreparedOne;
      for k: nat := 0 to |pollSources|
        invariant Busy() && old(dispatchPriority) <= dispatchPriority
        invariant Now() == PreparedAll(old(Now()), pollSources, answers, k)
      {
        PrepareSource(k, answers(k));
      }
      dispatchable := dispatchPriority > UNDEFINED;
    }

    method PrepareSource(k: nat, answer: Answer)
      requires Busy() && k < |pollSources| && LegalChange(answer.change)
      modifies `sources, `dispatchPriority
      ensures Busy() && old(dispatchPriority) <= dispatchPriority
      ensures Now() == PreparedOne(old(Now()), pollSources[k], answer)
      ensures pollSources[k] < |old(sources)| && refused == old(refused)
      ensures if old(sources)[pollSources[k]].attached then
                ChangedOnly(old(sources), sources, pollSources[k], answer.change, true,
                            if answer.yes then NeedsDispatch else Prepared)
              else sources == old(sources)
      ensures dispatchPriority == if old(sources)[pollSources[k]].attached && Needs(sources, pollSources[k])
                                  then Max(old(dispatchPriority), sources[pollSources[k]].priority)
                                  else old(dispatchPriority)
    {
      hide Top, Going, LegalSources, LegalChange, Changed, Polled;
      var i := pollSources[k];
      StillThere(k);
      PreparedOneOk(begun, top, Now(), i, answer);
      if sources[i].attached { AskedChanges(Now(), i, answer, if answer.yes then NeedsDispatch else Prepared); }
      if !sources[i].attached { return; }
      Unlocked(answer.change);
      if !sources[i].attached { return; }
      if answer.yes {
        SetState(i, NeedsDispatch);
        return;
      }
      SetState(i, Prepared);
    }

    /** Every polled source that is still there needs dispatching or has refused. */
    ghost predicate Checked()
      reads this
    {
      Busy() && CheckedUpTo(|pollSources|)
    }

    ghost predicate CheckedUpTo(n: nat)
      requires n <= |pollSources|
      reads this
    {
      AllDecided(sources, pollSources[..n], refused)
    }

    /** All polled sources are asked again, also those that said in prepare() that they need dispatching; the
        answer now overrides the one then. */
    method CheckSources(answers: nat -> Answer) returns (dispatchable: bool)
      requires Busy() && refused == {} && LegalReplies(answers)
      modifies `sources, `dispatchPriority, `refused
      ensures Checked() && dispatchable == (dispatchPriority > UNDEFINED)
      ensures Now() == CheckedAll(old(Now()), pollSources, answers, |pollSources|)
      ensures old(dispatchPriority) <= dispatchPriority
    {
      hide Top, Going, LegalSources, LegalChange, Decided, CheckedOne;
      for k: nat := 0 to |pollSources|
        invariant Busy() && old(dispatchPriority) <= dispatchPriority
        invariant CheckedUpTo(k) && Now() == CheckedAll(old(Now()), pollSources, answers, k)
      {
        CheckSource(k, answers(k));
      }
      dispatchable := dispatchPriority > UNDEFINED;
    }

    method CheckSource(k: nat, answer: Answer)
      requires Busy() && k < |pollSources| && CheckedUpTo(k) && LegalChange(answer.change)
      modifies `sources, `dispatchPriority, `refused
      ensures Busy() && CheckedUpTo(k + 1) && old(dispatchPriority) <= dispatchPriority
      ensures Now() == CheckedOne(old(Now()), pollSources[k], answer)
      ensures pollSources[k] < |old(sources)|
      ensures if old(sources)[pollSources[k]].attached then
                ChangedOnly(old(sources), sources, pollSources[k], answer.change, true,
                            if answer.yes then NeedsDispatch else Waiting)
              else sources == old(sources)
      ensures dispatchPriority == if Needs(sources, pollSources[k])
                                  then Max(old(dispatchPriority), sources[pollSources[k]].priority)
                                  else old(dispatchPriority)
    {
      hide Top, Going, LegalSources, LegalChange, Changed, Polled, AllDecided;
      var i := pollSources[k];
      StillThere(k);
      CheckedOneOk(begun, top, Now(), pollSources, k, answer);
      if sources[i].attached { AskedChanges(Now(), i, answer, if answer.yes then NeedsDispatch else Waiting); }
      if !sources[i].attached && sources[i].state != Prepared { return; }
      Unlocked(answer.change);
      if !sources[i].attached { return; }
      if answer.yes {
        SetState(i, NeedsDispatch);
      } else {
        SetState(i, Waiting);
        refused := refused + {i};
      }
    }

    lemma StillThere(k: nat)
      requires Busy() && k < |pollSources|
      ensures Polled(begun, top, pollSources[k]) && pollSources[k] < |sources|
      ensures !sources[pollSources[k]].attached ==> sources[pollSources[k]].state == Waiting
      ensures forall j :: 0 <= j < k ==> pollSources[j] != pollSources[k]
    {
      assert pollSources[k] in pollSources;
    }

    /** The first source of the poll list to dispatch at the dispatch priority. */
    method FindDispatchSource() returns (found: Option<nat>)
      requires Busy()
      ensures found == NextOf(Now(), pollSources)
      ensures found.Some? ==> IsNext(begun, top, sources, dispatchPriority, found.value)
    {
      hide Top, Going;
      for k := 0 to |pollSources|
        invariant forall j :: 0 <= j < k ==>
                  !(Needs(sources, pollSources[j]) && sources[pollSources[j]].priority == dispatchPriority)
        invariant NextOf(Now(), pollSources) == NextOf(Now(), pollSources[k..])
      {
        StillThere(k);
        var i := pollSources[k];
        if sources[i].attached && sources[i].priority == dispatchPriority && sources[i].state == NeedsDispatch {
          FirstInList(begun, top, sources, dispatchPriority, pollSources, k);
          return Some(i);
        }
      }
      return None;
    }

    /** Dispatches at most one source, and completes the iteration. */
    method DispatchSource(answer: Answer) returns (dispatched: Option<nat>)
      requires Checked() && LegalChange(answer.change)
      modifies `sources, `dispatchPriority
      ensures Valid() && Iteration(begun, sources, dispatched, refused)
      ensures dispatched == NextOf(old(Now()), pollSources)
      ensures dispatched.Some? ==>
              dispatched.value < |old(sources)| && sources == Dispatched(old(sources), dispatched.value, answer)
      ensures dispatched.Some? ==>
              ChangedOnly(old(sources), sources, dispatched.value, answer.change, answer.yes, Waiting)
      ensures dispatched == None ==> sources == old(sources)
      ensures Below(sources, old(dispatchPriority))
      ensures dispatched.Some? ==>
              dispatched.value < |sources| && sources[dispatched.value].priority == old(dispatchPriority)
    {
      hide Top, Going, IsNext, IterationVia, Changed, LegalSources, Below;
      dispatched := FindDispatchSource();
      if dispatched.Some? {
        DispatchedRound(begun, top, sources, dispatchPriority, pollSources, refused, dispatched.value, answer);
        var d := dispatched.value;
        NextThere(begun, top, sources, dispatchPriority, d);
        DispatchedChanges(sources, d, answer);
        dispatchPriority := UNDEFINED;
        sources := sources[d := sources[d].(state := Waiting)];
        sources := Changed(sources, answer.change);
        if sources[d].attached && !answer.yes {
          sources := sources[d := Source(sources[d].priority, Waiting, false)];
        }
      } else {
        IdleRound(begun, top, sources, dispatchPriority, pollSources, refused);
        dispatchPriority := UNDEFINED;
      }
    }

    /** A loop that is not picked for dispatching has completed its iteration after the check. */
    lemma NotPicked()
      requires Checked()
      ensures Valid() && Iteration(begun, sources, None, refused) && Below(sources, dispatchPriority)
    {
      IdleRound(begun, top, sources, dispatchPriority, pollSources, refused);
    }

    method UnpollSources()
      requires Valid()
      modifies `pollSources
      ensures Valid() && pollSources == []
    {
      pollSources := [];
    }

    /** The first loop of collect_sources: the top priority, and candidates that later sources may rule out. */
    method CollectCandidates() returns (candidates: seq<nat>)
      modifies `pollSources, `dispatchPriority
      ensures pollSources == [] && TopOf(sources, |sources|, dispatchPriority)
      ensures Candidates(sources, dispatchPriority, candidates, |sources|)
    {
      hide TopOf, Candidates;
      pollSources := [];
      dispatchPriority := UNDEFINED;
      candidates := [];
      NoCandidates(sources);
      for i := 0 to |sources|
        invariant pollSources == [] && TopOf(sources, i, dispatchPriority)
        invariant Candidates(sources, dispatchPriority, candidates, i)
      {
        CollectStep(sources, i, dispatchPriority, candidates);
        if !sources[i].attached { continue; }
        if sources[i].priority > dispatchPriority && sources[i].state == NeedsDispatch {
          dispatchPriority := sources[i].priority;
        }
        if sources[i].priority > dispatchPriority
           || (sources[i].priority == dispatchPriority && sources[i].state == NeedsDispatch) {
          candidates := candidates + [i];
        }
      }
    }
  }

  // ----- the main loop

  const WORD := 0x1_0000_0000

  /** The timeout for poll(): INT64_MAX or a number of milliseconds; 0 does not block. */
  function PollTimeout(mayBlock: bool, anyDispatchable: bool, usecs: nat): nat {
    var msecs := usecs / 1000;
    if !mayBlock || anyDispatchable then 0 else if usecs > 0 && msecs <= 0 then 1 else msecs
  }

  /** The timeout sleeps for the time given, in whole milliseconds, but not for less than one unless for none. */
  predicate Milliseconds(timeout: nat, usecs: nat) {
    if usecs == 0 then timeout == 0
    else 0 < timeout && usecs < (timeout + 1) * 1000 && (timeout == 1 || timeout * 1000 <= usecs)
  }

  lemma TimeoutRounds(mayBlock: bool, anyDispatchable: bool, usecs: nat)
    ensures var r := PollTimeout(mayBlock, anyDispatchable, usecs);
            if mayBlock && !anyDispatchable then Milliseconds(r, usecs) else r == 0
  {
  }

  /** No source needs dispatching, nor says so when it is prepared. */
  ghost predicate Quiet(s: seq<Source>, prepares: nat -> Answer) {
    (forall i :: 0 <= i < |s| ==> !Needs(s, i)) && forall k :: !prepares(k).yes
  }

  lemma {:induction false} QuietStays(ph: Phase, list: seq<nat>, prepares: nat -> Answer, n: nat)
    requires n <= |list| && forall k :: !prepares(k).yes
    ensures PreparedAll(ph, list, prepares, n).priority == ph.priority
  {
    hide Changed;
    if n > 0 { QuietStays(ph, list, prepares, n - 1); }
  }

  lemma QuietPrepared(l: EventLoop, s: Snapshot, prepares: nat -> Answer, dispatchable: bool)
    requires PreparedLoop(l, s, prepares, dispatchable) && Started(s) && Quiet(s.begun, prepares)
    ensures !dispatchable
  {
    QuietStays(s.now, s.list, prepares, |s.list|);
  }

  lemma NeedyPrepared(l: EventLoop, s: Snapshot, prepares: nat -> Answer, dispatchable: bool, k: nat)
    requires PreparedLoop(l, s, prepares, dispatchable) && Started(s) && Needs(s.begun, k)
    ensures dispatchable
  {
    assert s.begun[k].priority <= s.top;
    assert l.Busy();
  }

  /** A loop without dispatch priority has nothing that needs dispatching. */
  lemma NothingNeeds(l: EventLoop)
    requires l.Checked() && l.dispatchPriority <= UNDEFINED
    ensures forall k :: !Needs(l.sources, k)
  {
  }

  /** The loop that the d-th step of the round-robin counter r looks at. */
  function Turn(r: nat, d: nat, n: nat): nat
    requires 0 < n
  {
    ((r + d) % WORD) % n
  }

  /** How many steps the 32 bit counter needs at most to reach loop k of n, past its wrap-around. */
  function StepsTo(r: nat, k: nat, n: nat): nat
    requires k < n
  {
    StepsFrom(r, r % n, k, n)
  }

  function StepsFrom(r: nat, at: nat, k: nat, n: nat): nat
    requires k < n && at < n
  {
    var d := if at <= k then k - at else k + n - at;
    if r + d < WORD then d else (if r < WORD then WORD - r else 0) + k
  }

  lemma NextStep(r: nat, k: nat, n: nat)
    requires k < n <= WORD && r < WORD && r % n != k
    ensures StepsTo((r + 1) % WORD, k, n) < StepsTo(r, k, n)
  {
    ModNext(r, n);
    if r + 1 == WORD {
      ModUnique(r + 1, WORD, 1, 0);
      ModUnique(0, n, 0, 0);
      StepWraps(r, r % n, k, n);
    } else {
      ModUnique(r + 1, WORD, 0, r + 1);
      StepCounts(r, r % n, k, n);
    }
  }

  lemma StepWraps(r: nat, at: nat, k: nat, n: nat)
    requires k < n <= WORD && at < n && at != k && r + 1 == WORD
    ensures StepsFrom(0, 0, k, n) < StepsFrom(r, at, k, n)
  {
  }

  lemma StepCounts(r: nat, at: nat, k: nat, n: nat)
    requires k < n <= WORD && at < n && at != k && r + 1 < WORD
    ensures StepsFrom(r + 1, if at + 1 == n then 0 else at + 1, k, n) < StepsFrom(r, at, k, n)
  {
  }

  lemma ModNext(r: nat, n: nat)
    requires 0 < n
    ensures (r + 1) % n == if r % n + 1 == n then 0 else r % n + 1
  {
    var q, m := r / n, r % n;
    assert r == n * q + m;
    if m + 1 == n {
      assert r + 1 == n * (q + 1);
      ModUnique(r + 1, n, q + 1, 0);
    } else {
      ModUnique(r + 1, n, q, m + 1);
    }
  }

  /** A loop that may be picked: it has something to dispatch, and nothing of higher priority is in any loop. */
  predicate Eligible(dispatchable: seq<bool>, priorities: seq<int>, highest: int, i: nat) {
    i < |dispatchable| && i < |priorities| && dispatchable[i] && highest <= priorities[i]
  }

  /** The `while (true)` that picks a loop: it ends, at the first eligible loop in round-robin order, although the
      counter wraps around. */
  method PickLoop(rrIndex: nat, dispatchable: seq<bool>, priorities: seq<int>, highest: int, ghost k: nat)
    returns (index: nat, rr: nat, ghost steps: nat)
    requires |dispatchable| == |priorities| <= WORD && rrIndex < WORD && Eligible(dispatchable, priorities, highest, k)
    ensures Eligible(dispatchable, priorities, highest, index) && rr < WORD
    ensures index == Turn(rrIndex, steps, |dispatchable|) && rr == (rrIndex + steps + 1) % WORD
    ensures forall d :: 0 <= d < steps ==>
            !Eligible(dispatchable, priorities, highest, Turn(rrIndex, d, |dispatchable|))
    ensures FirstInTurn(rrIndex, Eligibles(dispatchable, priorities, highest), index)
  {
    hide StepsTo;
    rr := rrIndex;
    steps := 0;
    ModUnique(rrIndex, WORD, 0, rrIndex);
    while true
      invariant rr < WORD && rr == (rrIndex + steps) % WORD
      invariant forall d :: 0 <= d < steps ==>
                !Eligible(dispatchable, priorities, highest, Turn(rrIndex, d, |dispatchable|))
      decreases StepsTo(rr, k, |dispatchable|)
    {
      index := rr % |dispatchable|;
      CounterWraps(rrIndex, steps);
      if index != k { NextStep(rr, k, |dispatchable|); }
      rr := (rr + 1) % WORD;
      if !dispatchable[index] {
        steps := steps + 1;
        continue;
      }
      if priorities[index] < highest {
        steps := steps + 1;
        continue;
      }
      break;
    }
    assert TurnAt(rrIndex, Eligibles(dispatchable, priorities, highest), index, steps);
  }

  lemma CounterWraps(r: nat, d: nat)
    ensures ((r + d) % WORD + 1) % WORD == (r + d + 1) % WORD
  {
  }

  // ----- which loop should be picked

  /** Priorities from here on are documented to count across loops, lower ones only within a loop. */
  const ASCENT := 800

  /** The d-th step of the counter is the first at a loop that is ok. */
  ghost predicate TurnAt(r: nat, ok: seq<bool>, index: nat, d: nat) {
    && index < |ok| && ok[index] && Turn(r, d, |ok|) == index
    && forall e: nat :: e < d ==> !ok[Turn(r, e, |ok|)]
  }

  /** The first loop that is ok, in round-robin order from counter r. */
  ghost predicate FirstInTurn(r: nat, ok: seq<bool>, index: nat) {
    exists d: nat :: TurnAt(r, ok, index, d)
  }

  function Eligibles(dispatchable: seq<bool>, priorities: seq<int>, highest: int): seq<bool> {
    seq(|dispatchable|, i requires 0 <= i < |dispatchable| => Eligible(dispatchable, priorities, highest, i))
  }

  /** The loops that may be picked according to the documentation: any dispatchable one, unless a priority that
      counts across loops is up. */
  function Promised(dispatchable: seq<bool>, priorities: seq<int>, highest: int): seq<bool> {
    if ASCENT <= highest then Eligibles(dispatchable, priorities, highest) else dispatchable
  }

  lemma FirstIsOne(r: nat, ok: seq<bool>, i: nat, j: nat)
    requires FirstInTurn(r, ok, i) && FirstInTurn(r, ok, j)
    ensures i == j
  {
    var d: nat :| TurnAt(r, ok, i, d);
    var e: nat :| TurnAt(r, ok, j, e);
    assert d < e || e < d || d == e;
  }

  /** Where some loop is ok there is a first one in turn. */
  lemma {:induction false} FirstComes(r: nat, ok: seq<bool>, k: nat) returns (index: nat)
    requires r < WORD && k < |ok| <= WORD && ok[k]
    ensures FirstInTurn(r, ok, index)
    decreases StepsTo(r, k, |ok|)
  {
    hide StepsTo;
    index := r % |ok|;
    ModUnique(r, WORD, 0, r);
    if ok[index] {
      assert TurnAt(r, ok, index, 0);
    } else {
      NextStep(r, k, |ok|);
      var next := (r + 1) % WORD;
      index := FirstComes(next, ok, k);
      var d: nat :| TurnAt(next, ok, index, d);
      forall e: nat | e < d + 1 ensures !ok[Turn(r, e, |ok|)] {
        if e > 0 { TurnNext(r, e - 1, |ok|); }
      }
      TurnNext(r, d, |ok|);
      assert TurnAt(r, ok, index, d + 1);
    }
  }

  lemma TurnNext(r: nat, d: nat, n: nat)
    requires 0 < n
    ensures Turn(r, d + 1, n) == Turn((r + 1) % WORD, d, n)
  {
    var y := (r + 1) % WORD + d;
    ModUnique(r + 1 + d, WORD, (r + 1) / WORD + y / WORD, y % WORD);
  }

  /** The loop the code picks is the documented one exactly when a priority that counts across loops is up, or the
      first dispatchable loop in turn has the highest priority anyway. */
  lemma AscentExact(r: nat, ds: seq<bool>, ps: seq<int>, some: bool, highest: int, leader: nat,
                    picked: nat, promised: nat, first: nat)
    requires Leads(ds, ps, some, highest, leader)
    requires FirstInTurn(r, Eligibles(ds, ps, highest), picked) && FirstInTurn(r, Promised(ds, ps, highest), promised)
    requires FirstInTurn(r, ds, first)
    ensures picked == promised <==> ASCENT <= highest || ps[first] == highest
  {
    if ASCENT <= highest {
      FirstIsOne(r, Eligibles(ds, ps, highest), picked, promised);
    } else {
      FirstIsOne(r, ds, first, promised);
      if ps[first] == highest {
        var d: nat :| TurnAt(r, ds, first, d);
        assert TurnAt(r, Eligibles(ds, ps, highest), first, d);
        FirstIsOne(r, Eligibles(ds, ps, highest), picked, first);
      }
    }
  }

  /** Two loops with priorities 500 and 400, the counter at the second: it is its turn, but the first is picked. */
  lemma AscentIgnored()
    ensures var ds, ps := [true, true], [500, 400];
            && Leads(ds, ps, true, 500, 0)
            && FirstInTurn(1, Promised(ds, ps, 500), 1) && FirstInTurn(1, Eligibles(ds, ps, 500), 0)
  {
    var ds, ps := [true, true], [500, 400];
    assert TurnAt(1, Promised(ds, ps, 500), 1, 0);
    assert TurnAt(1, Eligibles(ds, ps, 500), 0, 1);
    assert ds[0];
  }

  /** What callbacks answer, and do meanwhile, by loop and position in the poll list. */
  type Answers = (nat, nat) -> Answer

  class MainLoop {
    var loops: seq<EventLoop>
    var rrIndex: nat

    ghost predicate Valid()
      reads this, loops
    {
      && 0 < |loops| <= WORD && rrIndex < WORD
      && (forall i, j :: 0 <= i < j < |loops| ==> loops[i] != loops[j])
      && (forall i :: 0 <= i < |loops| ==> loops[i].Valid())
    }

    constructor (main: EventLoop)
      requires main.Valid()
      ensures Valid() && loops == [main]
    {
      loops, rrIndex := [main], 0;
    }

    method CollectAll()
      requires Valid()
      modifies loops
      ensures forall i :: 0 <= i < |loops| ==> Collected(loops[i]) && loops[i].begun == old(loops[i].sources)
      ensures forall i :: 0 <= i < |loops| ==> loops[i].Now() == Phase(old(loops[i].sources), loops[i].top, {})
    {
      for i := 0 to |loops|
        modifies loops
        invariant forall j :: 0 <= j < i ==> Collected(loops[j]) && loops[j].begun == old(loops[j].sources)
        invariant forall j :: 0 <= j < i ==> loops[j].Now() == Phase(old(loops[j].sources), loops[j].top, {})
        invariant forall j :: i <= j < |loops| ==> loops[j].Valid() && loops[j].sources == old(loops[j].sources)
      {
        loops[i].CollectSources();
      }
    }

    method PrepareAll(answers: Answers) returns (dispatchable: seq<bool>, anyDispatchable: bool)
      requires (forall i, j :: 0 <= i < j < |loops| ==> loops[i] != loops[j])
      requires (forall i :: 0 <= i < |loops| ==> Collected(loops[i])) && LegalAnswers(answers)
      modifies loops
      ensures |dispatchable| == |loops| && (anyDispatchable <==> exists i :: 0 <= i < |loops| && dispatchable[i])
      ensures forall i: nat :: i < |loops| ==>
              PreparedLoop(loops[i], old(Snap(loops[i])), ForLoop(answers, i), dispatchable[i])
    {
      hide Collected, PreparedLoop, LegalAnswers, LegalChange, ForLoop;
      dispatchable, anyDispatchable := [], false;
      for i: nat := 0 to |loops|
        modifies loops
        invariant |dispatchable| == i && (anyDispatchable <==> exists j :: 0 <= j < i && dispatchable[j])
        invariant forall j :: i <= j < |loops| ==> Collected(loops[j]) && Snap(loops[j]) == old(Snap(loops[j]))
        invariant forall j: nat :: j < i ==>
                  PreparedLoop(loops[j], old(Snap(loops[j])), ForLoop(answers, j), dispatchable[j])
      {
        LoopAnswers(answers, i);
        var d := PrepareLoop(loops[i], ForLoop(answers, i));
        AnyGrows(dispatchable, d);
        dispatchable := dispatchable + [d];
        anyDispatchable := anyDispatchable || d;
      }
    }

    static method PrepareLoop(l: EventLoop, answers: nat -> Answer) returns (dispatchable: bool)
      requires Collected(l) && LegalReplies(answers)
      modifies l
      ensures PreparedLoop(l, old(Snap(l)), answers, dispatchable)
    {
      hide EventLoop.Busy;
      dispatchable := l.PrepareSources(answers);
    }

    static method CheckLoop(l: EventLoop, answers: nat -> Answer, prepared: bool, ghost before: Snapshot,
                            ghost asked: nat -> Answer)
      returns (dispatchable: bool)
      requires PreparedLoop(l, before, asked, prepared) && LegalReplies(answers)
      modifies l
      ensures CheckedLoop(l, old(Snap(l)), answers)
      ensures dispatchable == (l.dispatchPriority > UNDEFINED) && (prepared ==> dispatchable)
    {
      hide EventLoop.Busy, EventLoop.Checked;
      dispatchable := l.CheckSources(answers);
    }

    /** Checks all loops. A loop that could be dispatched after prepare still can. */
    method CheckAll(answers: Answers, prepared: seq<bool>, ghost before: seq<Snapshot>, ghost asked: Answers)
      returns (dispatchable: seq<bool>, anyDispatchable: bool, highest: int, priorities: seq<int>, ghost leader: nat)
      requires (forall i, j :: 0 <= i < j < |loops| ==> loops[i] != loops[j])
      requires LegalAnswers(answers) && |prepared| == |loops| == |before|
      requires forall i: nat :: i < |loops| ==> PreparedLoop(loops[i], before[i], ForLoop(asked, i), prepared[i])
      modifies loops
      ensures |priorities| == |loops| && forall i :: 0 <= i < |loops| ==> priorities[i] == loops[i].dispatchPriority
      ensures Leads(dispatchable, priorities, anyDispatchable, highest, leader)
      ensures forall i :: 0 <= i < |loops| && prepared[i] ==> priorities[i] > UNDEFINED
      ensures forall i: nat :: i < |loops| ==> CheckedLoop(loops[i], old(Snap(loops[i])), ForLoop(answers, i))
    {
      hide PreparedLoop, CheckedLoop, LegalAnswers, LegalChange, ForLoop, Leads;
      dispatchable, anyDispatchable, highest, leader, priorities := [], false, UNDEFINED, 0, [];
      NoLeader();
      for i: nat := 0 to |loops|
        modifies loops
        invariant |priorities| == i && Leads(dispatchable, priorities, anyDispatchable, highest, leader)
        invariant forall j: nat :: j < i ==>
          CheckedLoop(loops[j], old(Snap(loops[j])), ForLoop(answers, j)) && priorities[j] == loops[j].dispatchPriority
        invariant forall j :: 0 <= j < i && prepared[j] ==> priorities[j] > UNDEFINED
        invariant forall j: nat :: i <= j < |loops| ==>
          PreparedLoop(loops[j], before[j], ForLoop(asked, j), prepared[j]) && Snap(loops[j]) == old(Snap(loops[j]))
      {
        LoopAnswers(answers, i);
        var d := CheckLoop(loops[i], ForLoop(answers, i), prepared[i], before[i], ForLoop(asked, i));
        d := d || prepared[i];
        LeadStep(dispatchable, priorities, anyDispatchable, highest, leader, loops[i].dispatchPriority);
        priorities := priorities + [loops[i].dispatchPriority];
        dispatchable := dispatchable + [d];
        if !d { continue; }
        anyDispatchable := true;
        if highest < loops[i].dispatchPriority {
          highest, leader := loops[i].dispatchPriority, i;
        }
      }
    }

    /** One iteration of the main loop: every loop makes an iteration, and at most one source of one loop is
        dispatched. It does not block when a loop left out a source that could have been polled. */
    method IterateLoops(mayBlock: bool, mayDispatch: bool, usecs: nat, prepares: Answers, checks: Answers, keep: Answer)
      returns (timeout: nat, again: bool, picked: Option<nat>, dispatched: Option<nat>)
      requires Valid() && LegalAnswers(prepares) && LegalAnswers(checks) && LegalChange(keep.change)
      modifies this, loops
      ensures Valid() && loops == old(loops)
      ensures forall i :: 0 <= i < |loops| ==> loops[i].begun == old(loops[i].sources)
      ensures forall i :: 0 <= i < |loops| ==> Completed(loops[i], if picked == Some(i) then dispatched else None)
      ensures dispatched.Some? ==> mayDispatch && picked.Some? && HighestOfAll(loops, picked.value, dispatched.value)
      ensures forall i: nat :: i < |loops| ==>
                Followed(loops[i], old(loops[i].sources), ForLoop(prepares, i), ForLoop(checks, i), keep,
                         picked == Some(i), dispatched, mayDispatch && |loops| == 1)
      ensures picked.Some? <==> mayDispatch && again
      ensures !again ==> forall i, k :: 0 <= i < |loops| ==> !Needs(loops[i].sources, k)
      ensures forall i, k :: 0 <= i < |loops| && LeftOut(loops[i].begun, loops[i].top, k) ==> timeout == 0
      ensures timeout == 0 || (mayBlock && Milliseconds(timeout, usecs))
      ensures forall i, k :: 0 <= i < |loops| && Needs(old(loops[i].sources), k) ==> timeout == 0
      ensures mayBlock && (forall i: nat :: i < |loops| ==> Quiet(old(loops[i].sources), ForLoop(prepares, i)))
              ==> Milliseconds(timeout, usecs)
    {
      hide Iteration, EventLoop.Busy, EventLoop.Checked, LegalAnswers, LegalSources, LegalChange, Leads, LeftOut,
        Followed, WasDispatched, ForLoop, AskedLoop, Answered, Quiet, Needs, Milliseconds;
      ghost var before := Snaps(loops);
      var msecs, ready, some, highest, priorities, leader, asked := AskAll(mayBlock, usecs, prepares, checks);
      timeout := msecs;
      again := some;
      forall i: nat | i < |loops|
        ensures loops[i].Checked() && Snap(loops[i]) == asked[i] && loops[i].begun == before[i].now.sources
        ensures Answered(before[i].now.sources, asked[i], ForLoop(prepares, i), ForLoop(checks, i))
      {
        AskedFacts(loops[i], before[i].now.sources, ForLoop(prepares, i), ForLoop(checks, i), asked[i]);
      }
      picked, dispatched := DispatchPhase(mayDispatch, ready, some, highest, priorities, leader, keep);
      forall i: nat | i < |loops|
        ensures Followed(loops[i], before[i].now.sources, ForLoop(prepares, i), ForLoop(checks, i), keep,
                         picked == Some(i), dispatched, mayDispatch && |loops| == 1)
      {
        assert asked[i].now.priority == priorities[i];
        FollowedAll(loops[i], before[i].now.sources, ForLoop(prepares, i), ForLoop(checks, i), asked[i], keep,
                    picked == Some(i), dispatched, mayDispatch && |loops| == 1);
      }
    }

    /** Collect, prepare and poll. */
    method PollPhase(mayBlock: bool, usecs: nat, prepares: Answers)
      returns (timeout: nat, dispatchable: seq<bool>, anyDispatchable: bool, ghost collected: seq<Snapshot>)
      requires Valid() && LegalAnswers(prepares)
      modifies loops
      ensures |dispatchable| == |loops| == |collected|
      ensures anyDispatchable <==> exists i :: 0 <= i < |loops| && dispatchable[i]
      ensures forall i: nat :: i < |loops| ==>
                && Started(collected[i]) && collected[i].begun == old(loops[i].sources)
                && PreparedLoop(loops[i], collected[i], ForLoop(prepares, i), dispatchable[i])
      ensures timeout == 0 || (mayBlock && Milliseconds(timeout, usecs))
      ensures forall i: nat, k :: i < |loops| && LeftOut(collected[i].begun, collected[i].top, k) ==> timeout == 0
      ensures forall i: nat, k :: i < |loops| && Needs(collected[i].begun, k) ==> timeout == 0
      ensures mayBlock && (forall i: nat :: i < |loops| ==> Quiet(collected[i].begun, ForLoop(prepares, i)))
              ==> Milliseconds(timeout, usecs)
    {
      hide EventLoop.Busy, LegalAnswers, LegalSources, LegalChange, LeftOut, Collected, PreparedLoop, ForLoop, Needs,
        Quiet, Milliseconds, PollTimeout;
      CollectAll();
      collected := Snaps(loops);
      forall i | 0 <= i < |loops| ensures Started(collected[i]) && collected[i].begun == old(loops[i].sources) {
        CollectedList(loops[i]);
      }
      dispatchable, anyDispatchable := PrepareAll(prepares);
      timeout := PollTimeout(mayBlock, anyDispatchable, usecs);
      TimeoutRounds(mayBlock, anyDispatchable, usecs);
      forall i: nat, k | i < |loops| && LeftOut(collected[i].begun, collected[i].top, k) ensures timeout == 0 {
        LeftOutReady(loops[i], collected[i], ForLoop(prepares, i), dispatchable[i], k);
      }
      forall i: nat, k | i < |loops| && Needs(collected[i].begun, k) ensures timeout == 0 {
        NeedyPrepared(loops[i], collected[i], ForLoop(prepares, i), dispatchable[i], k);
      }
      forall i: nat | i < |loops| && Quiet(collected[i].begun, ForLoop(prepares, i)) ensures !dispatchable[i] {
        QuietPrepared(loops[i], collected[i], ForLoop(prepares, i), dispatchable[i]);
      }
    }

    /** Collect, prepare, poll and check. */
    method AskAll(mayBlock: bool, usecs: nat, prepares: Answers, checks: Answers)
      returns (timeout: nat, ready: seq<bool>, some: bool, highest: int, priorities: seq<int>, ghost leader: nat,
               ghost asked: seq<Snapshot>)
      requires Valid() && LegalAnswers(prepares) && LegalAnswers(checks)
      modifies loops
      ensures |priorities| == |loops| && forall i :: 0 <= i < |loops| ==> priorities[i] == loops[i].dispatchPriority
      ensures Leads(ready, priorities, some, highest, leader)
      ensures |asked| == |loops| && forall i: nat :: i < |loops| ==>
                asked[i] == Snap(loops[i])
                  && AskedLoop(loops[i], old(loops[i].sources), ForLoop(prepares, i), ForLoop(checks, i), asked[i])
      ensures forall i, k :: 0 <= i < |loops| && LeftOut(loops[i].begun, loops[i].top, k) ==> timeout == 0
      ensures timeout == 0 || (mayBlock && Milliseconds(timeout, usecs))
      ensures forall i, k :: 0 <= i < |loops| && Needs(old(loops[i].sources), k) ==> timeout == 0
      ensures mayBlock && (forall i: nat :: i < |loops| ==> Quiet(old(loops[i].sources), ForLoop(prepares, i)))
              ==> Milliseconds(timeout, usecs)
    {
      hide EventLoop.Busy, EventLoop.Checked, LegalAnswers, LegalSources, LegalChange, Leads, LeftOut,
        Collected, PreparedLoop, CheckedLoop, ForLoop, AskedLoop, Quiet, Needs, Milliseconds;
      var dispatchable, anyDispatchable;
      ghost var collected;
      timeout, dispatchable, anyDispatchable, collected := PollPhase(mayBlock, usecs, prepares);
      ghost var prepared := Snaps(loops);
      forall i: nat | i < |loops| ensures prepared[i] == AfterPrepare(collected[i], ForLoop(prepares, i)) {
        PreparedFacts(loops[i], collected[i], ForLoop(prepares, i), dispatchable[i]);
      }
      ready, some, highest, priorities, leader := CheckAll(checks, dispatchable, collected, prepares);
      asked := Snaps(loops);
      AnyStays(dispatchable, anyDispatchable, ready, priorities, some, highest, leader);
      forall i: nat | i < |loops|
        ensures AskedLoop(loops[i], old(loops[i].sources), ForLoop(prepares, i), ForLoop(checks, i), asked[i])
        ensures loops[i].begun == collected[i].begun && loops[i].top == collected[i].top
      {
        WasAnswered(loops[i], collected[i], prepared[i], ForLoop(prepares, i), ForLoop(checks, i));
      }
    }

    /** Picks a loop among those with the highest dispatch priority, and lets it dispatch; cleans up. */
    method DispatchPhase(mayDispatch: bool, dispatchable: seq<bool>, some: bool, highest: int, priorities: seq<int>,
                         ghost leader: nat, keep: Answer) returns (picked: Option<nat>, dispatched: Option<nat>)
      requires 0 < |loops| <= WORD && rrIndex < WORD && LegalChange(keep.change)
      requires forall i, j :: 0 <= i < j < |loops| ==> loops[i] != loops[j]
      requires forall i :: 0 <= i < |loops| ==> loops[i].Checked()
      requires |priorities| == |loops| && forall i :: 0 <= i < |loops| ==> priorities[i] == loops[i].dispatchPriority
      requires Leads(dispatchable, priorities, some, highest, leader)
      modifies this, loops
      ensures Valid() && loops == old(loops)
      ensures forall i :: 0 <= i < |loops| ==> SameBegun(loops[i], old(loops[i].begun), old(loops[i].top))
      ensures forall i :: 0 <= i < |loops| ==> Completed(loops[i], if picked == Some(i) then dispatched else None)
      ensures forall i: nat :: i < |loops| ==>
                WasDispatched(loops[i], old(loops[i].Now()), old(loops[i].pollSources), picked == Some(i),
                              dispatched, keep)
      ensures picked.Some? <==> mayDispatch && some
      ensures !some ==> forall i, k :: 0 <= i < |loops| ==> !Needs(loops[i].sources, k)
      ensures picked.Some? ==> picked.value < |loops| && priorities[picked.value] > UNDEFINED
      ensures mayDispatch && (exists i :: 0 <= i < |loops| && priorities[i] > UNDEFINED) ==> picked.Some?
      ensures dispatched.Some? ==> mayDispatch && picked.Some? && picked.value < |loops|
      ensures dispatched.Some? ==> HighestOfAll(loops, picked.value, dispatched.value)
    {
      hide Iteration, EventLoop.Busy, EventLoop.Checked, LegalSources, LegalChange, Leads, Eligible, Below;
      picked, dispatched := None, None;
      CompleteIdle(highest, dispatchable, priorities, some, leader);
      SomeLeads(dispatchable, priorities, some, highest, leader);
      NothingLeft(dispatchable, priorities, some, highest, leader);
      if mayDispatch && some {
        LeaderEligible(dispatchable, priorities, some, highest, leader);
        var index, rr, steps := PickLoop(rrIndex, dispatchable, priorities, highest, leader);
        PickedHighest(dispatchable, priorities, some, highest, leader, index);
        rrIndex := rr;
        picked := Some(index);
        dispatched := DispatchIn(index, highest, keep);
      }
      UnpollAll();
    }

    lemma NothingLeft(ds: seq<bool>, ps: seq<int>, some: bool, highest: int, leader: nat)
      requires Leads(ds, ps, some, highest, leader) && |ps| == |loops|
      requires forall i :: 0 <= i < |loops| ==> loops[i].Checked() && ps[i] == loops[i].dispatchPriority
      ensures !some ==> forall i, k :: 0 <= i < |loops| ==> !Needs(loops[i].sources, k)
    {
      hide EventLoop.Checked, Needs;
      forall i | 0 <= i < |loops| && !some ensures forall k :: !Needs(loops[i].sources, k) {
        assert !ds[i];
        NothingNeeds(loops[i]);
      }
    }

    /** Loops that do not dispatch have completed their iteration. */
    lemma CompleteIdle(highest: int, ds: seq<bool>, priorities: seq<int>, some: bool, leader: nat)
      requires forall i :: 0 <= i < |loops| ==> loops[i].Checked()
      requires |priorities| == |loops| && forall i :: 0 <= i < |loops| ==> priorities[i] == loops[i].dispatchPriority
      requires Leads(ds, priorities, some, highest, leader)
      ensures forall i :: 0 <= i < |loops| ==> Completed(loops[i], None)
      ensures some ==> forall i :: 0 <= i < |loops| ==> Below(loops[i].sources, highest)
    {
      hide Iteration, EventLoop.Busy, EventLoop.Checked, LegalSources, Below;
      forall i | 0 <= i < |loops| ensures Completed(loops[i], None) && (some ==> Below(loops[i].sources, highest)) {
        loops[i].NotPicked();
        BelowUp(loops[i].sources, priorities[i], highest);
      }
    }

    method DispatchIn(index: nat, highest: int, keep: Answer) returns (dispatched: Option<nat>)
      requires index < |loops| && LegalChange(keep.change)
      requires forall i, j :: 0 <= i < j < |loops| ==> loops[i] != loops[j]
      requires loops[index].Checked() && loops[index].dispatchPriority == highest
      requires forall i :: 0 <= i < |loops| ==> Completed(loops[i], None) && Below(loops[i].sources, highest)
      modifies loops[index]
      ensures forall i :: 0 <= i < |loops| ==> SameBegun(loops[i], old(loops[i].begun), old(loops[i].top))
      ensures forall i: nat :: i < |loops| ==>
                WasDispatched(loops[i], old(loops[i].Now()), old(loops[i].pollSources), i == index, dispatched, keep)
      ensures forall i :: 0 <= i < |loops| ==> Completed(loops[i], if i == index then dispatched else None)
      ensures dispatched.Some? ==> HighestOfAll(loops, index, dispatched.value)
    {
      hide Iteration, EventLoop.Busy, EventLoop.Checked, LegalSources, LegalChange, Below;
      dispatched := loops[index].DispatchSource(keep);
    }

    method UnpollAll()
      requires forall i :: 0 <= i < |loops| ==> loops[i].Valid()
      modifies loops
      ensures forall i :: 0 <= i < |loops| ==>
              loops[i].Valid() && SameIteration(loops[i], old(loops[i].begun), old(loops[i].top),
                                                old(loops[i].sources), old(loops[i].refused))
    {
      for i := 0 to |loops|
        modifies loops
        invariant forall i :: 0 <= i < |loops| ==>
                  loops[i].Valid() && SameIteration(loops[i], old(loops[i].begun), old(loops[i].top),
                                                    old(loops[i].sources), old(loops[i].refused))
      {
        loops[i].UnpollSources();
      }
    }
  }

  ghost predicate SameIteration(l: EventLoop, begun: seq<Source>, top: int, sources: seq<Source>, refused: set<nat>)
    reads l
  {
    l.begun == begun && l.top == top && l.sources == sources && l.refused == refused
  }

  /** The loop has made an iteration that dispatched the given source. */
  ghost predicate Completed(l: EventLoop, dispatched: Option<nat>)
    reads l
  {
    l.Valid() && Iteration(l.begun, l.sources, dispatched, l.refused)
  }

  lemma BelowUp(s: seq<Source>, p: int, q: int)
    requires Below(s, p)
    ensures p <= q ==> Below(s, q)
  {
  }

  lemma PickedHighest(ds: seq<bool>, ps: seq<int>, some: bool, highest: int, leader: nat, i: nat)
    requires Leads(ds, ps, some, highest, leader) && Eligible(ds, ps, highest, i)
    ensures ps[i] == highest > UNDEFINED
  {
  }

  lemma SomeLeads(ds: seq<bool>, ps: seq<int>, some: bool, highest: int, leader: nat)
    requires Leads(ds, ps, some, highest, leader)
    ensures some <==> exists i :: 0 <= i < |ps| && ps[i] > UNDEFINED
  {
  }

  lemma LeaderEligible(ds: seq<bool>, ps: seq<int>, some: bool, highest: int, leader: nat)
    requires Leads(ds, ps, some, highest, leader) && some
    ensures |ds| == |ps| && Eligible(ds, ps, highest, leader)
  {
  }

  /** Nothing in any loop that needs dispatching has a higher priority than source d of loop i. */
  ghost predicate HighestOfAll(loops: seq<EventLoop>, i: nat, d: nat)
    reads loops
  {
    && i < |loops| && d < |loops[i].sources|
    && forall j :: 0 <= j < |loops| ==> Below(loops[j].sources, loops[i].sources[d].priority)
  }

  lemma LeftOutReady(l: EventLoop, s: Snapshot, answers: nat -> Answer, dispatchable: bool, k: nat)
    requires PreparedLoop(l, s, answers, dispatchable) && LeftOut(s.begun, s.top, k)
    ensures dispatchable
  {
  }

  lemma AnyStays(before: seq<bool>, any: bool, ds: seq<bool>, ps: seq<int>, some: bool, highest: int, leader: nat)
    requires |before| == |ps| && (any <==> exists i :: 0 <= i < |before| && before[i])
    requires Leads(ds, ps, some, highest, leader) && forall i :: 0 <= i < |before| && before[i] ==> ps[i] > UNDEFINED
    ensures any ==> some
  {
  }

  /** Source k was in the loop when the iteration started but was not polled. */
  ghost predicate LeftOut(begun: seq<Source>, top: int, k: nat) {
    k < |begun| && begun[k].attached && !Polled(begun, top, k)
  }

  /** `highest` is the highest dispatch priority of the dispatchable loops, found at loop `leader`. */
  ghost predicate Leads(dispatchable: seq<bool>, priorities: seq<int>, some: bool, highest: int, leader: nat) {
    && |dispatchable| == |priorities|
    && (forall i :: 0 <= i < |priorities| ==> dispatchable[i] == (priorities[i] > UNDEFINED))
    && (forall i :: 0 <= i < |priorities| && dispatchable[i] ==> priorities[i] <= highest)
    && (some <==> exists i :: 0 <= i < |dispatchable| && dispatchable[i])
    && (if some then leader < |dispatchable| && dispatchable[leader] && priorities[leader] == highest
        else highest == UNDEFINED)
  }

  lemma NoLeader()
    ensures Leads([], [], false, UNDEFINED, 0)
  {
  }

  lemma LeadStep(ds: seq<bool>, ps: seq<int>, some: bool, highest: int, leader: nat, p: int)
    requires Leads(ds, ps, some, highest, leader)
    ensures var d := p > UNDEFINED;
            Leads(ds + [d], ps + [p], some || d, if d && highest < p then p else highest,
                  if d && highest < p then |ds| else leader)
  {
    AnyGrows(ds, p > UNDEFINED);
  }

  function ForLoop(answers: Answers, i: nat): nat -> Answer {
    (k: nat) => answers(i, k)
  }

  lemma LoopAnswers(answers: Answers, i: nat)
    requires LegalAnswers(answers)
    ensures LegalReplies(ForLoop(answers, i))
  {
  }

  lemma AnyGrows(ds: seq<bool>, d: bool)
    ensures (exists j :: 0 <= j < |ds| + 1 && (ds + [d])[j]) <==> d || exists j :: 0 <= j < |ds| && ds[j]
  {
    assert (ds + [d])[|ds|] == d;
    assert forall j :: 0 <= j < |ds| ==> (ds + [d])[j] == ds[j];
  }

  ghost predicate LegalAnswers(answers: Answers) {
    forall i, k :: LegalChange(answers(i, k).change)
  }

  /** What a loop starts a phase with. */
  datatype Snapshot = Snapshot(begun: seq<Source>, top: int, list: seq<nat>, now: Phase)

  ghost function Snap(l: EventLoop): Snapshot
    reads l
  {
    Snapshot(l.begun, l.top, l.pollSources, l.Now())
  }

  ghost function Snaps(loops: seq<EventLoop>): seq<Snapshot>
    reads loops
  {
    seq(|loops|, i requires 0 <= i < |loops| reads loops => Snap(loops[i]))
  }

  /** After prepare, with the result of prepare. */
  ghost predicate PreparedLoop(l: EventLoop, s: Snapshot, answers: nat -> Answer, dispatchable: bool)
    reads l
  {
    && Collected(l) && dispatchable == (l.dispatchPriority > UNDEFINED)
    && l.begun == s.begun && l.top == s.top && l.pollSources == s.list
    && l.Now() == PreparedAll(s.now, s.list, answers, |s.list|)
  }

  /** After check. */
  ghost predicate CheckedLoop(l: EventLoop, s: Snapshot, answers: nat -> Answer)
    reads l
  {
    && l.Checked() && l.begun == s.begun && l.top == s.top && l.pollSources == s.list
    && l.Now() == CheckedAll(s.now, s.list, answers, |s.list|)
  }

  /** A loop that has just collected. */
  ghost predicate Started(s: Snapshot) {
    Top(s.begun, s.top) && Listed(s.begun, s.top, s.list) && s.now == Phase(s.begun, s.top, {})
  }

  function AfterPrepare(s: Snapshot, prepares: nat -> Answer): Snapshot {
    s.(now := PreparedAll(s.now, s.list, prepares, |s.list|))
  }

  /** A loop that went through collect, prepare and check. */
  ghost predicate AskedLoop(l: EventLoop, before: seq<Source>, prepares: nat -> Answer, checks: nat -> Answer,
                            asked: Snapshot)
    reads l
  {
    l.Checked() && asked == Snap(l) && l.begun == before && Answered(before, asked, prepares, checks)
  }

  /** The sources a loop ends up with when it asks its sources in both phases. */
  ghost predicate Answered(before: seq<Source>, asked: Snapshot, prepares: nat -> Answer, checks: nat -> Answer) {
    && Top(before, asked.top) && Listed(before, asked.top, asked.list)
    && asked.now == Outcome(before, asked.top, asked.list, prepares, checks)
  }

  lemma PreparedFacts(l: EventLoop, s: Snapshot, prepares: nat -> Answer, dispatchable: bool)
    requires PreparedLoop(l, s, prepares, dispatchable)
    ensures Snap(l) == AfterPrepare(s, prepares)
  {
  }

  lemma WasAnswered(l: EventLoop, collected: Snapshot, prepared: Snapshot, prepares: nat -> Answer,
                    checks: nat -> Answer)
    requires Started(collected) && prepared == AfterPrepare(collected, prepares) && CheckedLoop(l, prepared, checks)
    ensures AskedLoop(l, collected.begun, prepares, checks, Snap(l))
    ensures l.begun == collected.begun && l.top == collected.top
  {
  }

  lemma AskedFacts(l: EventLoop, before: seq<Source>, prepares: nat -> Answer, checks: nat -> Answer, asked: Snapshot)
    requires AskedLoop(l, before, prepares, checks, asked)
    ensures l.Checked() && asked == Snap(l) && l.begun == before && Answered(before, asked, prepares, checks)
  {
  }

  lemma CollectedList(l: EventLoop)
    requires Collected(l) && l.Now() == Phase(l.begun, l.top, {})
    ensures Started(Snap(l))
  {
  }

  lemma FollowedAll(l: EventLoop, before: seq<Source>, prepares: nat -> Answer, checks: nat -> Answer, asked: Snapshot,
                    keep: Answer, picked: bool, dispatched: Option<nat>, alone: bool)
    requires Answered(before, asked, prepares, checks)
    requires WasDispatched(l, asked.now, asked.list, picked, dispatched, keep)
    requires picked ==> asked.now.priority > UNDEFINED
    requires alone && asked.now.priority > UNDEFINED ==> picked
    ensures Followed(l, before, prepares, checks, keep, picked, dispatched, alone)
  {
    assert MadeVia(before, RoundOf(l, picked, dispatched), alone, asked.top, asked.list, prepares, checks, keep,
                   picked);
  }

  ghost predicate SameBegun(l: EventLoop, begun: seq<Source>, top: int)
    reads l
  {
    l.begun == begun && l.top == top
  }

  /** The loop went through the dispatch phase; `mine` tells if it was picked. */
  ghost predicate WasDispatched(l: EventLoop, checked: Phase, list: seq<nat>, mine: bool, dispatched: Option<nat>,
                                keep: Answer)
    reads l
  {
    && l.refused == checked.refused
    && (mine ==> dispatched == NextOf(checked, list))
    && (if mine && dispatched.Some? then
          dispatched.value < |checked.sources| && l.sources == Dispatched(checked.sources, dispatched.value, keep)
        else l.sources == checked.sources)
  }

  /** The round a loop has made, if it was picked and what was dispatched. */
  ghost function RoundOf(l: EventLoop, picked: bool, dispatched: Option<nat>): Round
    reads l
  {
    Round(l.sources, if picked then dispatched else None, l.refused)
  }

  /** The loop made the round that the answers of its sources determine. */
  ghost predicate Followed(l: EventLoop, before: seq<Source>, prepares: nat -> Answer, checks: nat -> Answer,
                           keep: Answer, picked: bool, dispatched: Option<nat>, alone: bool)
    reads l
  {
    exists top: int, list: seq<nat> ::
      MadeVia(before, RoundOf(l, picked, dispatched), alone, top, list, prepares, checks, keep, picked)
  }

  /** What the main loop does is a round of the code for every loop. */
  lemma FollowedIsMade(l: EventLoop, before: seq<Source>, prepares: nat -> Answer, checks: nat -> Answer, keep: Answer,
                       picked: bool, dispatched: Option<nat>, alone: bool)
    requires Followed(l, before, prepares, checks, keep, picked, dispatched, alone)
    requires LegalReplies(prepares) && LegalReplies(checks) && LegalChange(keep.change)
    ensures Made(before, RoundOf(l, picked, dispatched), alone)
  {
  }

  /** Between collect and check: who refuses is still open. */
  ghost predicate Collected(l: EventLoop)
    reads l
  {
    l.Busy() && l.refused == {} && l.top <= l.dispatchPriority
  }

  /** Source i is gone, or it has refused, or else it needs dispatching. */
  ghost predicate Decided(s: seq<Source>, i: nat, refused: set<nat>) {
    i < |s| && (s[i].attached ==> (s[i].state == NeedsDispatch <==> i !in refused))
  }

  /** Source d is the first polled one that needs dispatching at priority p. */
  ghost predicate IsNext(s: seq<Source>, top: int, m: seq<Source>, p: int, d: nat) {
    && Polled(s, top, d) && Needs(m, d) && m[d].priority == p
    && forall i :: 0 <= i < d ==> !(Polled(s, top, i) && Needs(m, i) && m[i].priority == p)
  }

  lemma FirstInList(s: seq<Source>, top: int, m: seq<Source>, p: int, list: seq<nat>, k: nat)
    requires Listed(s, top, list) && k < |list| && Needs(m, list[k]) && m[list[k]].priority == p
    requires forall j :: 0 <= j < k ==> !(Needs(m, list[j]) && m[list[j]].priority == p)
    ensures IsNext(s, top, m, p, list[k])
  {
    assert list[k] in list;
    forall i | 0 <= i < list[k] && Polled(s, top, i) ensures !(Needs(m, i) && m[i].priority == p) {
      assert i in list;
      var j :| 0 <= j < |list| && list[j] == i;
      assert j < k;
    }
  }

  lemma NextThere(s: seq<Source>, top: int, m: seq<Source>, p: int, d: nat)
    requires IsNext(s, top, m, p, d)
    ensures d < |m| && m[d].attached
  {
  }

  ghost predicate Below(s: seq<Source>, p: int) {
    forall i :: 0 <= i < |s| && Needs(s, i) ==> s[i].priority <= p
  }

  /** The sources after d was dispatched, while the lock was dropped, and the answer was if d is to be kept. */
  function Dispatched(m: seq<Source>, d: nat, answer: Answer): (t: seq<Source>)
    requires d < |m|
    ensures d < |t|
  {
    var u := Changed(m[d := m[d].(state := Waiting)], answer.change);
    if u[d].attached && !answer.yes then u[d := Source(u[d].priority, Waiting, false)] else u
  }

  lemma DispatchedRound(s: seq<Source>, top: int, m: seq<Source>, p: int, list: seq<nat>, refused: set<nat>, d: nat,
                        answer: Answer)
    requires LegalSources(m) && LegalChange(answer.change) && Top(s, top) && Going(s, top, m, p) && Listed(s, top, list)
    requires AllDecided(m, list, refused) && (forall i :: i in refused ==> Polled(s, top, i))
    requires IsNext(s, top, m, p, d)
    ensures d < |m| && LegalSources(Dispatched(m, d, answer))
    ensures Iteration(s, Dispatched(m, d, answer), Some(d), refused)
    ensures Below(Dispatched(m, d, answer), p) && Dispatched(m, d, answer)[d].priority == p
  {
    var t := Dispatched(m, d, answer);
    ListDecided(s, top, m, list, refused);
    assert forall i :: 0 <= i < |answer.change.added| ==> answer.change.added[i] in answer.change.added;
    assert IterationVia(s, t, Some(d), refused, top, m, p);
    assert forall i :: 0 <= i < |t| && Needs(t, i) ==> Needs(m, i) && t[i] == m[i];
  }

  lemma IdleRound(s: seq<Source>, top: int, m: seq<Source>, p: int, list: seq<nat>, refused: set<nat>)
    requires Top(s, top) && Going(s, top, m, p) && Listed(s, top, list)
    requires AllDecided(m, list, refused) && (forall i :: i in refused ==> Polled(s, top, i))
    ensures Iteration(s, m, None, refused) && Below(m, p)
  {
    ListDecided(s, top, m, list, refused);
    assert IterationVia(s, m, None, refused, top, m, p);
  }

  lemma ListDecided(s: seq<Source>, top: int, m: seq<Source>, list: seq<nat>, refused: set<nat>)
    requires Listed(s, top, list) && AllDecided(m, list, refused)
    ensures forall i :: 0 <= i < |s| && Polled(s, top, i) ==> Decided(m, i, refused)
  {
    forall i: nat | i < |s| && Polled(s, top, i) ensures Decided(m, i, refused) {
      assert i in list;
      var k :| 0 <= k < |list| && list[k] == i;
      assert Decided(m, list[k], refused);
    }
  }

  ghost predicate AllDecided(s: seq<Source>, list: seq<nat>, refused: set<nat>) {
    && (forall i :: i in refused ==> i in list)
    && (forall k :: 0 <= k < |list| ==> Decided(s, list[k], refused))
  }

  lemma AllDecidedChanged(s: seq<Source>, c: Change, list: seq<nat>, refused: set<nat>)
    requires AllDecided(s, list, refused)
    ensures AllDecided(Changed(s, c), list, refused)
  {
    assert forall k :: 0 <= k < |list| ==> Decided(s, list[k], refused);
  }

  lemma AllDecidedSet(s: seq<Source>, i: nat, yes: bool, list: seq<nat>, refused: set<nat>)
    requires AllDecided(s, list, refused) && i < |s| && i !in list
    ensures AllDecided(s[i := s[i].(state := if yes then NeedsDispatch else Waiting)], list + [i],
                       if yes then refused else refused + {i})
  {
    assert forall k :: 0 <= k < |list| ==> Decided(s, list[k], refused);
  }

  lemma AllDecidedGone(s: seq<Source>, i: nat, list: seq<nat>, refused: set<nat>)
    requires AllDecided(s, list, refused) && i < |s| && !s[i].attached
    ensures AllDecided(s, list + [i], refused)
  {
  }

  lemma NoCandidates(s: seq<Source>)
    ensures TopOf(s, 0, UNDEFINED) && Candidates(s, UNDEFINED, [], 0)
  {
  }

  lemma NothingListed(s: seq<Source>, p: int)
    ensures Sifted(s, p, [], [])
  {
  }

  lemma CandidateAttached(s: seq<Source>, p: int, list: seq<nat>, k: nat)
    requires Candidates(s, p, list, |s|) && k < |list|
    ensures list[k] < |s| && s[list[k]].attached && Ascending(list)
  {
    assert list[k] in list;
  }

  lemma GoingStart(s: seq<Source>, p: int)
    requires TopOf(s, |s|, p)
    ensures Top(s, p) && Going(s, p, s, p)
  {
  }
}
