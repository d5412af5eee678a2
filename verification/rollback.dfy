/**
 * Vocabulary for the driver's goto-unwinding chains: a chain acquires kernel resources one
 * after another and, when a step fails, releases what it already holds, last acquired first,
 * and returns the failing step's error code.
 */
module Rollback {
  import opened Common

  /** One entry of the resource log: a resource taken or given back. */
  datatype Event<R> = Got(res: R) | Put(res: R)

  /** Replays one event on a stack of held resources; a release must give back the top one. */
  function Step<R(==)>(s: seq<R>, e: Event<R>): Option<seq<R>>
  {
    match e
    case Got(r) => Some(s + [r])
    case Put(r) => if s != [] && s[|s| - 1] == r then Some(s[..|s| - 1]) else None
  }

  /** Replays a log from the stack `s`; None when some release is out of last-in-first-out order. */
  function Replay<R(==)>(s: seq<R>, ev: seq<Event<R>>): Option<seq<R>>
    decreases |ev|
  {
    if ev == [] then Some(s)
    else
      match Replay(s, ev[..|ev| - 1])
      case None => None
      case Some(t) => Step(t, ev[|ev| - 1])
  }

  /** The log of a failed chain: every release in reverse order of acquisition, and nothing left held. */
  ghost predicate RolledBack<R>(ev: seq<Event<R>>)
  {
    Replay([], ev) == Some([])
  }

  /** Acquiring rs in order. */
  function Gets<R>(rs: seq<R>): seq<Event<R>>
  {
    seq(|rs|, i requires 0 <= i < |rs| => Got(rs[i]))
  }

  /** Releasing rs, last one first. */
  function PutsRev<R>(rs: seq<R>): seq<Event<R>>
  {
    seq(|rs|, i requires 0 <= i < |rs| => Put(rs[|rs| - 1 - i]))
  }

  /** Resources taken in a log, counted with multiplicity. */
  function Acquired<R>(ev: seq<Event<R>>): multiset<R>
  {
    if ev == [] then multiset{}
    else Acquired(ev[..|ev| - 1]) + (if ev[|ev| - 1].Got? then multiset{ev[|ev| - 1].res} else multiset{})
  }

  /** Resources given back in a log, counted with multiplicity. */
  function Released<R>(ev: seq<Event<R>>): multiset<R>
  {
    if ev == [] then multiset{}
    else Released(ev[..|ev| - 1]) + (if ev[|ev| - 1].Put? then multiset{ev[|ev| - 1].res} else multiset{})
  }

  /** Replaying a concatenation is replaying its parts one after the other. */
  lemma {:induction false} ReplayAppend<R>(s: seq<R>, a: seq<Event<R>>, b: seq<Event<R>>)
    ensures Replay(s, a + b) == if Replay(s, a).None? then None else Replay(Replay(s, a).value, b)
    decreases |b|
  {
    if b == [] {
      assert a + b == a;
    } else {
      assert (a + b)[..|a + b| - 1] == a + b[..|b| - 1];
      assert (a + b)[|a + b| - 1] == b[|b| - 1];
      ReplayAppend(s, a, b[..|b| - 1]);
    }
  }

  /** Acquiring rs pushes rs on the stack. */
  lemma {:induction false} ReplayGets<R>(s: seq<R>, rs: seq<R>)
    ensures Replay(s, Gets(rs)) == Some(s + rs)
    decreases |rs|
  {
    if rs == [] {
      assert Gets(rs) == [];
      assert s + rs == s;
    } else {
      var front := rs[..|rs| - 1];
      assert Gets(rs)[..|rs| - 1] == Gets(front);
      ReplayGets(s, front);
      assert s + front + [rs[|rs| - 1]] == s + rs;
    }
  }

  /** Releasing rs, last first, pops exactly rs off the stack. */
  lemma {:induction false} ReplayPutsRev<R>(s: seq<R>, rs: seq<R>)
    ensures Replay(s + rs, PutsRev(rs)) == Some(s)
    decreases |rs|
  {
    if rs == [] {
      assert PutsRev(rs) == [];
      assert s + rs == s;
    } else {
      var tail := rs[1..];
      assert PutsRev(rs) == PutsRev(tail) + [Put(rs[0])];
      ReplayAppend(s + rs, PutsRev(tail), [Put(rs[0])]);
      assert s + rs == (s + [rs[0]]) + tail;
      ReplayPutsRev(s + [rs[0]], tail);
      assert (s + [rs[0]])[..|s|] == s;
    }
  }

  /** Acquiring one more resource extends the acquisition log by one event. */
  lemma GetsSnoc<R>(rs: seq<R>, r: R)
    ensures Gets(rs + [r]) == Gets(rs) + [Got(r)]
  {
  }

  /** Acquiring a sequence of resources and releasing them in reverse order leaves the stack as it was. */
  lemma UnwindBalanced<R>(s: seq<R>, rs: seq<R>)
    ensures Replay(s, Gets(rs) + PutsRev(rs)) == Some(s)
  {
    ReplayAppend(s, Gets(rs), PutsRev(rs));
    ReplayGets(s, rs);
    ReplayPutsRev(s, rs);
  }

  /** A replay that never pops below its starting stack does the same on top of any stack. */
  lemma {:induction false} ReplayOnTop<R>(s: seq<R>, ev: seq<Event<R>>, t: seq<R>)
    requires Replay([], ev) == Some(t)
    ensures Replay(s, ev) == Some(s + t)
    decreases |ev|
  {
    if ev == [] {
      assert s + t == s;
    } else {
      var front := ev[..|ev| - 1];
      var u := Replay([], front).value;
      ReplayOnTop(s, front, u);
      match ev[|ev| - 1]
      case Got(r) =>
        assert s + u + [r] == s + (u + [r]);
      case Put(r) =>
        assert (s + u)[..|s + u| - 1] == s + u[..|u| - 1];
    }
  }

  /** Taking rs, running a rolled-back chain, and giving rs back, last first, is a rollback. */
  lemma RolledBackWrap<R>(rs: seq<R>, inner: seq<Event<R>>)
    requires RolledBack(inner)
    ensures RolledBack(Gets(rs) + inner + PutsRev(rs))
  {
    var none: seq<R> := [];
    ReplayAppend(none, Gets(rs) + inner, PutsRev(rs));
    ReplayAppend(none, Gets(rs), inner);
    ReplayGets(none, rs);
    assert none + rs == rs;
    ReplayOnTop(rs, inner, none);
    assert rs + none == rs;
    ReplayPutsRev(none, rs);
  }

  /** A replay that succeeds accounts for every resource: what was held plus what was taken
    * equals what is held afterwards plus what was given back. */
  lemma {:induction false} ReplayAccounts<R>(s: seq<R>, ev: seq<Event<R>>, t: seq<R>)
    requires Replay(s, ev) == Some(t)
    ensures multiset(s) + Acquired(ev) == multiset(t) + Released(ev)
    decreases |ev|
  {
    if ev != [] {
      var front := ev[..|ev| - 1];
      var u := Replay(s, front).value;
      ReplayAccounts(s, front, u);
      var e := ev[|ev| - 1];
      assert Step(u, e) == Some(t);
      if e.Put? {
        assert u == t + [e.res];
        assert multiset(u) == multiset(t) + multiset{e.res};
        assert Released(ev) == Released(front) + multiset{e.res};
        assert Acquired(ev) == Acquired(front);
      } else {
        assert t == u + [e.res];
        assert multiset(t) == multiset(u) + multiset{e.res};
        assert Acquired(ev) == Acquired(front) + multiset{e.res};
        assert Released(ev) == Released(front);
        calc {
          multiset(s) + Acquired(ev);
          (multiset(s) + Acquired(front)) + multiset{e.res};
          (multiset(u) + Released(front)) + multiset{e.res};
          multiset(t) + Released(ev);
        }
      }
    }
  }

  /** Accounting a concatenation is accounting its parts. */
  lemma {:induction false} AccountsAppend<R>(a: seq<Event<R>>, b: seq<Event<R>>)
    ensures Acquired(a + b) == Acquired(a) + Acquired(b)
    ensures Released(a + b) == Released(a) + Released(b)
    decreases |b|
  {
    if b == [] {
      assert a + b == a;
    } else {
      assert (a + b)[..|a + b| - 1] == a + b[..|b| - 1];
      AccountsAppend(a, b[..|b| - 1]);
    }
  }

  /** Acquiring rs takes exactly rs and gives nothing back. */
  lemma {:induction false} AccountsGets<R>(rs: seq<R>)
    ensures Acquired(Gets(rs)) == multiset(rs) && Released(Gets(rs)) == multiset{}
    decreases |rs|
  {
    if rs != [] {
      var front := rs[..|rs| - 1];
      assert Gets(rs)[..|rs| - 1] == Gets(front);
      AccountsGets(front);
      assert rs == front + [rs[|rs| - 1]];
    }
  }

  /** Releasing rs, last first, gives back exactly rs and takes nothing. */
  lemma {:induction false} AccountsPutsRev<R>(rs: seq<R>)
    ensures Acquired(PutsRev(rs)) == multiset{} && Released(PutsRev(rs)) == multiset(rs)
    decreases |rs|
  {
    if rs != [] {
      var tail := rs[1..];
      assert PutsRev(rs)[..|rs| - 1] == PutsRev(tail);
      AccountsPutsRev(tail);
      assert rs == [rs[0]] + tail;
    }
  }

  /** A rolled-back log gives back exactly what it took. */
  lemma RolledBackLeaksNothing<R>(ev: seq<Event<R>>)
    requires RolledBack(ev)
    ensures Acquired(ev) == Released(ev)
  {
    var none: seq<R> := [];
    ReplayAccounts(none, ev, none);
    assert multiset(none) == multiset{};
    assert multiset(none) + Acquired(ev) == Acquired(ev);
    assert multiset(none) + Released(ev) == Released(ev);
  }

  /**
   * Index of the first nonzero (failing) code in a chain of step results, or |codes| when
   * every step succeeded.
   */
  function FailingStep(codes: seq<int>): (k: nat)
    ensures k <= |codes|
  {
    if codes == [] then 0
    else if codes[0] != 0 then 0
    else 1 + FailingStep(codes[1..])
  }

  /** What a chain returns: the code of its first failing step, or 0. */
  function FirstFailure(codes: seq<int>): int
  {
    var k := FailingStep(codes);
    if k < |codes| then codes[k] else 0
  }

  /** Every step before the failing one succeeded and the failing one did not; the chain
    * returns 0 exactly when every step succeeded, and the failing step's code otherwise. */
  lemma {:induction false} FailingStepIsFirst(codes: seq<int>)
    ensures forall j :: 0 <= j < FailingStep(codes) ==> codes[j] == 0
    ensures FailingStep(codes) < |codes| ==> codes[FailingStep(codes)] != 0
    ensures FirstFailure(codes) == 0 <==> forall j :: 0 <= j < |codes| ==> codes[j] == 0
    ensures FirstFailure(codes) != 0 ==> FirstFailure(codes) == codes[FailingStep(codes)]
    decreases |codes|
  {
    if codes != [] && codes[0] == 0 {
      FailingStepIsFirst(codes[1..]);
      assert forall j :: 1 <= j < |codes| ==> codes[j] == codes[1..][j - 1];
    }
  }

  /** A chain split in two fails in its first part, or else where its second part fails. */
  lemma {:induction false} FailureOfAppend(a: seq<int>, b: seq<int>)
    ensures FailingStep(a + b) == if FirstFailure(a) != 0 then FailingStep(a) else |a| + FailingStep(b)
    ensures FirstFailure(a + b) == if FirstFailure(a) != 0 then FirstFailure(a) else FirstFailure(b)
    decreases |a|
  {
    if a == [] {
      assert a + b == b;
    } else if a[0] == 0 {
      assert (a + b)[1..] == a[1..] + b;
      FailureOfAppend(a[1..], b);
      assert FirstFailure(a) == FirstFailure(a[1..]);
    }
  }

  /** A chain whose first steps all succeeded fails where its remaining steps fail. */
  lemma PassesThen(a: seq<int>, b: seq<int>)
    requires forall j :: 0 <= j < |a| ==> a[j] == 0
    ensures FailingStep(a + b) == |a| + FailingStep(b) && FirstFailure(a + b) == FirstFailure(b)
  {
    FailsNowhere(a);
    FailureOfAppend(a, b);
  }

  /** A chain whose step k is the first to fail returns that step's code. */
  lemma FailsAt(codes: seq<int>, k: nat)
    requires k < |codes| && codes[k] != 0
    requires forall j :: 0 <= j < k ==> codes[j] == 0
    ensures FailingStep(codes) == k && FirstFailure(codes) == codes[k]
  {
    FailingStepIsFirst(codes);
  }

  /** A chain whose steps all succeed returns 0. */
  lemma FailsNowhere(codes: seq<int>)
    requires forall j :: 0 <= j < |codes| ==> codes[j] == 0
    ensures FailingStep(codes) == |codes| && FirstFailure(codes) == 0
  {
    FailingStepIsFirst(codes);
  }

  /** A log extended by a step's own entry, an inner chain's entries and the step's undo is
    * the log extended by the step's whole entries. */
  lemma Regroup<T>(log0: seq<T>, a: seq<T>, inner: seq<T>, b: seq<T>)
    ensures log0 + a + inner == log0 + (a + inner)
    ensures log0 + a + inner + b == log0 + (a + inner + b)
  {
  }

  /** Taking x, running a rolled-back chain and giving x back is a rollback. */
  lemma Bracket<R>(x: R, inner: seq<Event<R>>)
    requires RolledBack(inner)
    ensures RolledBack([Got(x)] + inner + [Put(x)])
  {
    assert Gets([x]) == [Got(x)];
    assert PutsRev([x]) == [Put(x)];
    RolledBackWrap([x], inner);
  }

  lemma PutsRevSnoc<R>(rs: seq<R>, r: R)
    ensures PutsRev(rs + [r]) == [Put(r)] + PutsRev(rs)
  {
  }

  /** After taking rec: taking x, running a rolled-back chain, giving x back and then rec,
    * last first, is a rollback of the whole. */
  lemma WrapAfter<R>(rec: seq<R>, x: R, inner: seq<Event<R>>)
    requires RolledBack(inner)
    ensures RolledBack(Gets(rec) + ([Got(x)] + inner + [Put(x)] + PutsRev(rec)))
  {
    GetsSnoc(rec, x);
    PutsRevSnoc(rec, x);
    assert Gets(rec) + ([Got(x)] + inner + [Put(x)] + PutsRev(rec))
      == Gets(rec + [x]) + inner + PutsRev(rec + [x]);
    RolledBackWrap(rec + [x], inner);
  }

  /** The log ev gives back everything it takes except `kept`, which stays held: the counting
    * form of an unwinding that misses some resources. */
  ghost predicate Keeps<R>(ev: seq<Event<R>>, kept: multiset<R>)
  {
    Acquired(ev) == Released(ev) + kept
  }

  /** Taking x alone keeps x. */
  lemma KeepsOne<R>(x: R)
    ensures Keeps([Got(x)], multiset{x})
  {
    assert Gets([x]) == [Got(x)];
    AccountsGets([x]);
  }

  /** Taking x before a chain that keeps `kept` and giving x back after it keeps the same. */
  lemma BracketKeeps<R>(x: R, inner: seq<Event<R>>, kept: multiset<R>)
    requires Keeps(inner, kept)
    ensures Keeps([Got(x)] + inner + [Put(x)], kept)
  {
    AccountsAppend([Got(x)] + inner, [Put(x)]);
    AccountsAppend([Got(x)], inner);
    assert Gets([x]) == [Got(x)];
    assert PutsRev([x]) == [Put(x)];
    AccountsGets([x]);
    AccountsPutsRev([x]);
  }

  /** After taking rec: taking x, running a chain that keeps `kept`, giving x back and then
    * rec, last first, keeps the same. */
  lemma WrapAfterKeeps<R>(rec: seq<R>, x: R, inner: seq<Event<R>>, kept: multiset<R>)
    requires Keeps(inner, kept)
    ensures Keeps(Gets(rec) + ([Got(x)] + inner + [Put(x)] + PutsRev(rec)), kept)
  {
    BracketKeeps(x, inner, kept);
    var mid := [Got(x)] + inner + [Put(x)];
    assert Gets(rec) + (mid + PutsRev(rec)) == Gets(rec) + mid + PutsRev(rec);
    AccountsAppend(Gets(rec) + mid, PutsRev(rec));
    AccountsAppend(Gets(rec), mid);
    AccountsGets(rec);
    AccountsPutsRev(rec);
  }
}
