/** Notices that switch items of a set on and off, and what replaying them rebuilds. */
module Toggles {

  datatype Toggle<T> = Toggle(item: T, on: bool)

  // The set that stands after replaying a log.
  function Standing<T>(start: set<T>, log: seq<Toggle<T>>): set<T> {
    if log == [] then start
    else
      var last := log[|log| - 1];
      var before := Standing(start, log[..|log| - 1]);
      if last.on then before + {last.item} else before - {last.item}
  }

  // Every toggle changes something: raised only while down, resolved only while up.
  ghost predicate Alternates<T>(start: set<T>, log: seq<Toggle<T>>) {
    forall i :: 0 <= i < |log| ==> (log[i].on <==> log[i].item !in Standing(start, log[..i]))
  }

  ghost predicate Distinct<T>(log: seq<Toggle<T>>) {
    forall i, j :: 0 <= i < j < |log| ==> log[i].item != log[j].item
  }

  // The log names each item on which the two sets differ, once and with its new status, in any order.
  ghost predicate Explains<T(!new)>(before: set<T>, after: set<T>, log: seq<Toggle<T>>) {
    && Distinct(log)
    && (forall t <- log :: (t.on <==> t.item in after) && (t.on <==> t.item !in before))
    && (forall x :: (x in before) != (x in after) ==> Named(log, x))
  }

  ghost predicate Named<T>(log: seq<Toggle<T>>, x: T) {
    exists t <- log :: t.item == x
  }

  lemma {:induction false} StandingMeans<T(!new)>(start: set<T>, log: seq<Toggle<T>>, x: T)
    requires Distinct(log)
    ensures x in Standing(start, log) <==> if Named(log, x) then exists t <- log :: t.item == x && t.on else x in start
    decreases |log|
  {
    if log != [] {
      var front, last := log[..|log| - 1], log[|log| - 1];
      assert log == front + [last];
      StandingMeans(start, front, x);
      assert forall t :: t in log <==> t in front || t == last;
      if Named(front, x) {
        var t :| t in front && t.item == x;
        assert last.item != x;
      }
    }
  }

  lemma ExplainsRebuilds<T(!new)>(before: set<T>, after: set<T>, log: seq<Toggle<T>>)
    requires Explains(before, after, log)
    ensures Standing(before, log) == after && Alternates(before, log)
  {
    forall x
      ensures x in Standing(before, log) <==> x in after
    {
      StandingMeans(before, log, x);
    }
    forall i | 0 <= i < |log|
      ensures log[i].on <==> log[i].item !in Standing(before, log[..i])
    {
      StandingMeans(before, log[..i], log[i].item);
      assert log[i] in log;
      assert !Named(log[..i], log[i].item);
    }
  }

  lemma {:induction false} StandingConcat<T>(start: set<T>, a: seq<Toggle<T>>, b: seq<Toggle<T>>)
    ensures Standing(start, a + b) == Standing(Standing(start, a), b)
    decreases |b|
  {
    if b == [] {
      assert a + b == a;
    } else {
      StandingConcat(start, a, b[..|b| - 1]);
      assert (a + b)[..|a + b| - 1] == a + b[..|b| - 1];
    }
  }

  lemma AlternatesConcat<T>(start: set<T>, a: seq<Toggle<T>>, b: seq<Toggle<T>>)
    requires Alternates(start, a) && Alternates(Standing(start, a), b)
    ensures Alternates(start, a + b)
  {
    var c := a + b;
    forall i | 0 <= i < |c|
      ensures c[i].on <==> c[i].item !in Standing(start, c[..i])
    {
      if i < |a| {
        assert c[..i] == a[..i];
      } else {
        assert c[..i] == a + b[..i - |a|];
        StandingConcat(start, a, b[..i - |a|]);
      }
    }
  }

  // Between two toggles of an item there is another one, or they switch it opposite ways.
  lemma {:induction false} StrictAlternation<T>(start: set<T>, log: seq<Toggle<T>>, i: nat, j: nat)
    requires Alternates(start, log) && i < j < |log| && log[i].item == log[j].item
    requires forall k :: i < k < j ==> log[k].item != log[i].item
    ensures log[i].on != log[j].on
  {
    Undisturbed(start, log, i + 1, j, log[i].item);
    assert log[..i + 1][..i] == log[..i];
  }

  lemma {:induction false} Undisturbed<T>(start: set<T>, log: seq<Toggle<T>>, i: nat, j: nat, x: T)
    requires i <= j <= |log| && forall k :: i <= k < j ==> log[k].item != x
    ensures x in Standing(start, log[..i]) <==> x in Standing(start, log[..j])
    decreases j
  {
    if i < j {
      Undisturbed(start, log, i, j - 1, x);
      assert log[..j][..j - 1] == log[..j - 1];
    }
  }

  function Flatten<T>(logs: seq<seq<T>>): seq<T> {
    if logs == [] then [] else Flatten(logs[..|logs| - 1]) + logs[|logs| - 1]
  }

  ghost predicate Explained<T(!new)>(states: seq<set<T>>, logs: seq<seq<Toggle<T>>>) {
    && |states| == |logs| + 1
    && forall i :: 0 <= i < |logs| ==> Explains(states[i], states[i + 1], logs[i])
  }

  lemma OneMore<T(!new)>(a: seq<Toggle<T>>, b: seq<Toggle<T>>, now: set<T>, next: set<T>)
    requires Standing({}, a) == now && Alternates({}, a) && Explains(now, next, b)
    ensures Standing({}, a + b) == next && Alternates({}, a + b)
  {
    ExplainsRebuilds(now, next, b);
    StandingConcat({}, a, b);
    AlternatesConcat({}, a, b);
  }

  /** A run that starts from the empty set and explains every change rebuilds the current set. */
  lemma {:induction false} RunRebuilds<T(!new)>(states: seq<set<T>>, logs: seq<seq<Toggle<T>>>)
    requires Explained(states, logs) && states[0] == {}
    ensures Standing({}, Flatten(logs)) == states[|logs|] && Alternates({}, Flatten(logs))
    decreases |logs|
  {
    if logs != [] {
      var n := |logs| - 1;
      assert Explains(states[n], states[n + 1], logs[n]);
      RunRebuilds(states[..n + 1], logs[..n]);
      OneMore(Flatten(logs[..n]), logs[n], states[n], states[n + 1]);
    }
  }
}
