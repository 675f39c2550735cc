/** How tap events become reports to the server, and why the votes agree with the mirror. */
module CovererSpec {
  import opened Edges
  import opened Rib
  import opened GuardSpec
  import opened Sequences
  import opened Wrappers

  datatype Report =
    | DeathVote(edge: EdgeId, down: bool, soft: bool)
    | MemberEdge(edge: EdgeId, members: seq<Prefix>, down: bool)

  // seen is the coverer's own canary memory, which session events do not clear; due are the end-of-RIB
  // snapshots started that have not read the mirror yet, answered those that have, and sending what each
  // of the latter still has to send.
  datatype State = State(
    mirror: Mirror, seen: set<(EdgeId, Prefix)>, sent: seq<Report>,
    due: seq<(EdgeId, Family)>, answered: seq<(EdgeId, Family)>, sending: seq<seq<Report>>)

  const EMPTY := State(map[], {}, [], [], [], [])
  const NO_CANARY := LargeCommunity(0, 0, 0)

  // The coverer only looks for a canary when one is configured.
  predicate IsCanaryHere(canary: LargeCommunity, e: Event) {
    canary != NO_CANARY && IsCanary(canary, e)
  }

  // The reports and the canary memory after the guard has folded e.
  function React(canary: LargeCommunity, t: State, e: Event): State {
    match e
    case PeerUp(_) => t
    case PeerDown(edge) => t.(sent := t.sent + [DeathVote(edge, true, false)])
    case EOR(edge, f) => t.(due := t.due + [(edge, f)])
    case Withdrawal(edge, f, p, _) =>
      if IsCanaryHere(canary, e) then t.(sent := t.sent + [DeathVote(edge, true, true)])
      else if (edge, p) in t.seen then
        t.(seen := t.seen - {(edge, p)}, sent := t.sent + [DeathVote(edge, true, true)])
      else if IsHost(p) && Valid(ViewOf(t.mirror, edge), f) && ShouldWithdraw(t.mirror, edge, p) then
        t.(sent := t.sent + [MemberEdge(edge, [p], true)])
      else t
    case PathUpdate(edge, f, p, _) =>
      if IsCanaryHere(canary, e) then
        t.(seen := t.seen + {(edge, p)},
           sent := t.sent + [DeathVote(edge, false, true), DeathVote(edge, false, false)])
      else if IsHost(p) && Valid(ViewOf(t.mirror, edge), f) && ShouldAdvertise(t.mirror, edge, p) then
        t.(sent := t.sent + [MemberEdge(edge, [p], false)])
      else t
  }

  // TapHandler: the guard folds first, the reports look at the folded mirror.
  function Handle(canary: LargeCommunity, s: State, e: Event): State {
    React(canary, s.(mirror := FoldMirror(canary, s.mirror, e)), e)
  }

  // The reports carry exactly these members of e, once each; an empty set still makes a report.
  ghost predicate IsSnapshot(rs: seq<Report>, e: EdgeId, hosts: set<Prefix>) {
    && rs != []
    && (forall r <- rs :: r.MemberEdge? && r.edge == e && !r.down)
    && Unique(Members(rs))
    && forall p :: p in Members(rs) <==> p in hosts
  }

  // The i-th due snapshot may read the mirror whenever it is scheduled, and shows it as it stands then.
  ghost predicate Answers(s: State, i: nat, rs: seq<Report>) {
    i < |s.due| && IsSnapshot(rs, s.due[i].0, OfFamily(ViewOf(s.mirror, s.due[i].0).hosts, s.due[i].1))
  }

  // Drift repair and snapshots run beside the handler and cast no votes. A snapshot reads the mirror at
  // once and then sends its reports one by one, with anything in between.
  datatype Action =
    | Tap(e: Event)
    | ReadDue(i: nat, reports: seq<Report>)
    | SendPart(j: nat)
    | Repaired(edge: EdgeId, family: Family, authoritative: seq<Prefix>)
    | SendMembers(edge: EdgeId, members: seq<Prefix>, down: bool)

  ghost function Step(canary: LargeCommunity, s: State, a: Action): State {
    match a
    case Tap(e) => Handle(canary, s, e)
    case ReadDue(i, rs) =>
      if Answers(s, i, rs) then
        s.(due := s.due[..i] + s.due[i + 1..], answered := s.answered + [s.due[i]], sending := s.sending + [rs])
      else s
    case SendPart(j) =>
      if j < |s.sending| && s.sending[j] != [] then
        s.(sent := s.sent + [s.sending[j][0]], sending := s.sending[j := s.sending[j][1..]])
      else s
    case Repaired(e, f, ps) => s.(mirror := RepairMirror(s.mirror, e, f, ps))
    case SendMembers(e, ms, down) => s.(sent := s.sent + [MemberEdge(e, ms, down)])
  }

  ghost function After(canary: LargeCommunity, s: State, run: seq<Action>): State {
    if run == [] then s else Step(canary, After(canary, s, run[..|run| - 1]), run[|run| - 1])
  }

  // The last vote of a kind cast for an edge.
  function LastVote(sent: seq<Report>, edge: EdgeId, soft: bool): Option<bool> {
    if sent == [] then None
    else
      var last := sent[|sent| - 1];
      if last.DeathVote? && last.edge == edge && last.soft == soft then Some(last.down)
      else LastVote(sent[..|sent| - 1], edge, soft)
  }

  lemma LastVoteAppend(sent: seq<Report>, r: Report, edge: EdgeId, soft: bool)
    ensures LastVote(sent + [r], edge, soft) ==
            if r.DeathVote? && r.edge == edge && r.soft == soft then Some(r.down) else LastVote(sent, edge, soft)
  {
    assert (sent + [r])[..|sent|] == sent;
  }

  ghost predicate OnlyMembersSending(s: State) {
    forall rs <- s.sending, r <- rs :: r.MemberEdge?
  }

  lemma OnlyMembersStep(canary: LargeCommunity, s: State, a: Action)
    requires OnlyMembersSending(s)
    ensures OnlyMembersSending(Step(canary, s, a))
  {
    match a {
      case Tap(e) => assert Handle(canary, s, e).sending == s.sending;
      case SendPart(j) =>
        if j < |s.sending| && s.sending[j] != [] {
          assert s.sending[j] in s.sending && forall r <- s.sending[j][1..] :: r in s.sending[j];
        }
      case _ =>
    }
  }

  lemma {:induction false} OnlyMembersRun(canary: LargeCommunity, run: seq<Action>)
    ensures OnlyMembersSending(After(canary, EMPTY, run))
    decreases |run|
  {
    if run != [] {
      OnlyMembersRun(canary, run[..|run| - 1]);
      OnlyMembersStep(canary, After(canary, EMPTY, run[..|run| - 1]), run[|run| - 1]);
    }
  }

  // Member reports cast no votes.
  lemma PartCastsNoVote(canary: LargeCommunity, s: State, j: nat, edge: EdgeId, soft: bool)
    requires OnlyMembersSending(s)
    ensures LastVote(Step(canary, s, SendPart(j)).sent, edge, soft) == LastVote(s.sent, edge, soft)
  {
    if j < |s.sending| && s.sending[j] != [] {
      assert s.sending[j] in s.sending && s.sending[j][0] in s.sending[j];
      LastVoteAppend(s.sent, s.sending[j][0], edge, soft);
    }
  }

  // A trusted view of an edge never stands beside a standing vote that it is down.
  ghost predicate VotesAgree(s: State) {
    forall e, f :: Valid(ViewOf(s.mirror, e), f) ==>
      LastVote(s.sent, e, false) == Some(false) && LastVote(s.sent, e, true) == Some(false)
  }

  // Which edges may announce the canary with which prefixes.
  type Announcers = iset<(EdgeId, Prefix)>

  ghost predicate WithinAnnouncers(canary: LargeCommunity, run: seq<Action>, who: Announcers) {
    forall a <- run :: a.Tap? && a.e.PathUpdate? && IsCanary(canary, a.e) ==> (a.e.edge, a.e.prefix) in who
  }

  ghost predicate OnePrefixPerEdge(who: Announcers) {
    forall x, y :: x in who && y in who && x.0 == y.0 ==> x == y
  }

  ghost predicate EdgeAgrees(s: State, who: Announcers, e: EdgeId) {
    var v := ViewOf(s.mirror, e);
    && (v.canaryUp ==>
          && LastVote(s.sent, e, false) == Some(false) && LastVote(s.sent, e, true) == Some(false)
          && (e, v.canaryPrefix) in who)
    && (forall p :: (e, p) in s.seen ==> (e, p) in who)
  }

  // What one handled event does to the votes of an edge.
  lemma VotesMove(canary: LargeCommunity, s: State, e: Event, edge: EdgeId, soft: bool)
    ensures var t := Handle(canary, s, e);
            var was, now := LastVote(s.sent, edge, soft), LastVote(t.sent, edge, soft);
            if e.edge != edge then now == was
            else if e.PeerDown? then now == if soft then was else Some(true)
            else if e.PathUpdate? && IsCanaryHere(canary, e) then now == Some(false)
            else if e.Withdrawal? && (IsCanaryHere(canary, e) || (edge, e.prefix) in s.seen)
            then now == if soft then Some(true) else was
            else now == was
  {
    var t := Handle(canary, s, e);
    if |t.sent| == |s.sent| + 1 {
      LastVoteAppend(s.sent, t.sent[|s.sent|], edge, soft);
      assert t.sent == s.sent + [t.sent[|s.sent|]];
    } else if |t.sent| == |s.sent| + 2 {
      LastVoteAppend(s.sent, DeathVote(e.edge, false, true), edge, soft);
      LastVoteAppend(s.sent + [DeathVote(e.edge, false, true)], DeathVote(e.edge, false, false), edge, soft);
      assert t.sent == s.sent + [DeathVote(e.edge, false, true)] + [DeathVote(e.edge, false, false)];
    } else {
      assert t.sent == s.sent;
    }
  }

  ghost predicate GoodAnnouncers(canary: LargeCommunity, who: Announcers) {
    canary != NO_CANARY && OnePrefixPerEdge(who) && forall x <- who :: x.1 != NoPrefix
  }

  // The mirror's and the coverer's canary memory after an event.
  lemma MemoriesMove(canary: LargeCommunity, s: State, e: Event, edge: EdgeId)
    requires canary != NO_CANARY
    ensures var t, v, w := Handle(canary, s, e), ViewOf(s.mirror, edge), ViewOf(Handle(canary, s, e).mirror, edge);
            var announced := e.edge == edge && e.PathUpdate? && IsCanary(canary, e);
            && (forall p :: (edge, p) in t.seen ==> (edge, p) in s.seen || (announced && p == e.prefix))
            && (w.canaryUp ==>
                if announced then w.canaryPrefix == e.prefix else v.canaryUp && w.canaryPrefix == v.canaryPrefix)
            && (w.canaryUp && e.edge == edge ==>
                e.PathUpdate? || e.EOR? || (e.Withdrawal? && !CanaryRead(canary, v, e)))
  {
  }

  lemma TapAgrees(canary: LargeCommunity, s: State, e: Event, who: Announcers, edge: EdgeId)
    requires GoodAnnouncers(canary, who) && EdgeAgrees(s, who, edge)
    requires e.PathUpdate? && IsCanary(canary, e) ==> (e.edge, e.prefix) in who
    ensures EdgeAgrees(Handle(canary, s, e), who, edge)
  {
    VotesMove(canary, s, e, edge, false);
    VotesMove(canary, s, e, edge, true);
    MemoriesMove(canary, s, e, edge);
    var v, w := ViewOf(s.mirror, edge), ViewOf(Handle(canary, s, e).mirror, edge);
    if w.canaryUp && e.edge == edge && e.Withdrawal? {
      // Both memories hold the edge's one prefix, so neither reads this as the canary's.
      var p, q := e.prefix, v.canaryPrefix;
      assert (edge, q) in who && ((edge, p) in who ==> (edge, p) == (edge, q));
      assert p != q && (edge, p) !in s.seen;
    }
  }

  lemma StepAgrees(canary: LargeCommunity, s: State, a: Action, who: Announcers, edge: EdgeId)
    requires GoodAnnouncers(canary, who) && EdgeAgrees(s, who, edge) && OnlyMembersSending(s)
    requires a.Tap? && a.e.PathUpdate? && IsCanary(canary, a.e) ==> (a.e.edge, a.e.prefix) in who
    ensures EdgeAgrees(Step(canary, s, a), who, edge)
  {
    match a {
      case Tap(e) => TapAgrees(canary, s, e, who, edge);
      case ReadDue(_, _) =>
      case SendPart(j) =>
        PartCastsNoVote(canary, s, j, edge, false);
        PartCastsNoVote(canary, s, j, edge, true);
      case Repaired(_, _, _) =>
      case SendMembers(e, ms, down) =>
        LastVoteAppend(s.sent, MemberEdge(e, ms, down), edge, false);
        LastVoteAppend(s.sent, MemberEdge(e, ms, down), edge, true);
    }
  }

  lemma {:induction false} RunAgrees(canary: LargeCommunity, run: seq<Action>, who: Announcers, edge: EdgeId)
    requires GoodAnnouncers(canary, who) && WithinAnnouncers(canary, run, who)
    ensures EdgeAgrees(After(canary, EMPTY, run), who, edge)
    decreases |run|
  {
    if run != [] {
      var n := |run| - 1;
      assert run[n] in run && forall a <- run[..n] :: a in run;
      RunAgrees(canary, run[..n], who, edge);
      OnlyMembersRun(canary, run[..n]);
      StepAgrees(canary, After(canary, EMPTY, run[..n]), run[n], who, edge);
    }
  }

  ghost predicate AlwaysAgree(canary: LargeCommunity, who: Announcers) {
    forall run :: WithinAnnouncers(canary, run, who) ==> VotesAgree(After(canary, EMPTY, run))
  }

  /** The votes handed to the server agree with the mirror in every reachable state if and only if no
      edge announces the canary with two prefixes. */
  lemma VotesAgreeExactly(canary: LargeCommunity, who: Announcers)
    requires canary != NO_CANARY && forall x <- who :: x.1 != NoPrefix
    ensures AlwaysAgree(canary, who) <==> OnePrefixPerEdge(who)
  {
    if OnePrefixPerEdge(who) {
      forall run | WithinAnnouncers(canary, run, who)
        ensures VotesAgree(After(canary, EMPTY, run))
      {
        forall e, f | Valid(ViewOf(After(canary, EMPTY, run).mirror, e), f)
          ensures var s := After(canary, EMPTY, run);
                  LastVote(s.sent, e, false) == Some(false) && LastVote(s.sent, e, true) == Some(false)
        {
          RunAgrees(canary, run, who, e);
        }
      }
    } else {
      var x, y :| x in who && y in who && x.0 == y.0 && x != y;
      var run := TwoPrefixRun(canary, x.0, x.1, y.1);
      assert WithinAnnouncers(canary, run, who);
      TwoPrefixesDisagree(canary, x.0, x.1, y.1);
    }
  }

  // Announce the canary with two prefixes in turn, then withdraw the first.
  function TwoPrefixRun(canary: LargeCommunity, e: EdgeId, p: Prefix, q: Prefix): seq<Action> {
    [Tap(PeerUp(e)), Tap(PathUpdate(e, FamilyOf(p), p, [canary])), Tap(PathUpdate(e, FamilyOf(q), q, [canary])),
     Tap(EOR(e, FamilyOf(p))), Tap(Withdrawal(e, FamilyOf(p), p, []))]
  }

  lemma AfterAppend(canary: LargeCommunity, s: State, run: seq<Action>, a: Action)
    ensures After(canary, s, run + [a]) == Step(canary, After(canary, s, run), a)
  {
    assert (run + [a])[..|run|] == run;
  }

  lemma AnnounceEffect(canary: LargeCommunity, s: State, e: EdgeId, p: Prefix)
    requires canary != NO_CANARY
    ensures var t := Step(canary, s, Tap(PathUpdate(e, FamilyOf(p), p, [canary])));
            && ViewOf(t.mirror, e) == ViewOf(s.mirror, e).(canaryUp := true, canaryPrefix := p)
            && t.seen == s.seen + {(e, p)}
  {
  }

  // The coverer remembers p, the guard a later prefix: only the coverer hears the withdrawal of p.
  lemma StaleLossEffect(canary: LargeCommunity, s: State, e: EdgeId, p: Prefix)
    requires (e, p) in s.seen && ViewOf(s.mirror, e).canaryPrefix != p
    ensures var t := Step(canary, s, Tap(Withdrawal(e, FamilyOf(p), p, [])));
            && LastVote(t.sent, e, true) == Some(true)
            && forall f :: Valid(ViewOf(t.mirror, e), f) <==> Valid(ViewOf(s.mirror, e), f)
  {
    VotesMove(canary, s, Withdrawal(e, FamilyOf(p), p, []), e, true);
  }

  lemma AfterFive(canary: LargeCommunity, s: State, run: seq<Action>)
    requires |run| == 5
    ensures var s1 := Step(canary, s, run[0]);
            var s2 := Step(canary, s1, run[1]);
            var s3 := Step(canary, s2, run[2]);
            After(canary, s, run) == Step(canary, Step(canary, s3, run[3]), run[4])
  {
    forall n | 0 <= n < 5
      ensures After(canary, s, run[..n + 1]) == Step(canary, After(canary, s, run[..n]), run[n])
    {
      assert run[..n + 1] == run[..n] + [run[n]];
      AfterAppend(canary, s, run[..n], run[n]);
    }
    assert run[..5] == run && run[..0] == [];
    assert After(canary, s, run[..1]) == Step(canary, s, run[0]);
    assert After(canary, s, run[..2]) == Step(canary, After(canary, s, run[..1]), run[1]);
    assert After(canary, s, run[..3]) == Step(canary, After(canary, s, run[..2]), run[2]);
    assert After(canary, s, run[..4]) == Step(canary, After(canary, s, run[..3]), run[3]);
  }

  lemma TwoPrefixesDisagree(canary: LargeCommunity, e: EdgeId, p: Prefix, q: Prefix)
    requires canary != NO_CANARY && p != q
    ensures !VotesAgree(After(canary, EMPTY, TwoPrefixRun(canary, e, p, q)))
  {
    var run := TwoPrefixRun(canary, e, p, q);
    AfterFive(canary, EMPTY, run);
    var s1 := Step(canary, EMPTY, run[0]);
    assert ViewOf(s1.mirror, e) == NOTHING.(peerUp := true);
    var s2 := Step(canary, s1, run[1]);
    AnnounceEffect(canary, s1, e, p);
    var s3 := Step(canary, s2, run[2]);
    AnnounceEffect(canary, s2, e, q);
    var s4 := Step(canary, s3, run[3]);
    assert s4.seen == s3.seen && Valid(ViewOf(s4.mirror, e), FamilyOf(p)) && ViewOf(s4.mirror, e).canaryPrefix == q;
    StaleLossEffect(canary, s4, e, p);
  }

  /** The hard vote needs no such condition: while a view is trusted, the last hard vote is "up". */
  lemma {:induction false} HardVoteAlwaysAgrees(canary: LargeCommunity, run: seq<Action>, e: EdgeId)
    requires canary != NO_CANARY
    ensures var s := After(canary, EMPTY, run);
            ViewOf(s.mirror, e).canaryUp ==> LastVote(s.sent, e, false) == Some(false)
    decreases |run|
  {
    if run != [] {
      var n := |run| - 1;
      HardVoteAlwaysAgrees(canary, run[..n], e);
      var s := After(canary, EMPTY, run[..n]);
      OnlyMembersRun(canary, run[..n]);
      match run[n] {
        case Tap(ev) => VotesMove(canary, s, ev, e, false);
        case ReadDue(_, _) =>
        case SendPart(j) => PartCastsNoVote(canary, s, j, e, false);
        case Repaired(_, _, _) =>
        case SendMembers(x, ms, down) => LastVoteAppend(s.sent, MemberEdge(x, ms, down), e, false);
      }
    }
  }

  // ---- end-of-RIB snapshots ----

  function Ends(run: seq<Action>): seq<(EdgeId, Family)> {
    if run == [] then []
    else Ends(run[..|run| - 1]) + EndIn(run[|run| - 1])
  }

  // An action's own end-of-RIB.
  function EndIn(a: Action): seq<(EdgeId, Family)> {
    if a.Tap? && a.e.EOR? then [(a.e.edge, a.e.family)] else []
  }

  lemma RemoveOne<T>(xs: seq<T>, i: nat)
    requires i < |xs|
    ensures multiset(xs[..i] + xs[i + 1..]) + multiset{xs[i]} == multiset(xs)
  {
    assert xs == xs[..i] + [xs[i]] + xs[i + 1..];
  }

  lemma TapDue(canary: LargeCommunity, s: State, e: Event)
    ensures Handle(canary, s, e).due == s.due + EndIn(Tap(e)) && Handle(canary, s, e).answered == s.answered
  {
  }

  lemma DueMoves(canary: LargeCommunity, s: State, a: Action)
    ensures var t := Step(canary, s, a);
            multiset(t.answered) + multiset(t.due) == multiset(s.answered) + multiset(s.due) + multiset(EndIn(a))
  {
    match a {
      case Tap(e) => TapDue(canary, s, e);
      case ReadDue(i, rs) =>
        if Answers(s, i, rs) {
          RemoveOne(s.due, i);
        }
      case _ =>
    }
  }

  /** Every end-of-RIB is due one snapshot and gets at most one, in whatever order they are scheduled:
      in every reachable state the markers seen are those answered and those still due. */
  lemma {:induction false} EndsAreAnswered(canary: LargeCommunity, run: seq<Action>)
    ensures var s := After(canary, EMPTY, run); multiset(Ends(run)) == multiset(s.answered) + multiset(s.due)
    decreases |run|
  {
    if run != [] {
      var n := |run| - 1;
      EndsAreAnswered(canary, run[..n]);
      DueMoves(canary, After(canary, EMPTY, run[..n]), run[n]);
    }
  }

  // A snapshot that nothing comes in between.
  function Answered(s: State, i: nat, rs: seq<Report>): State
    requires i < |s.due|
  {
    s.(due := s.due[..i] + s.due[i + 1..], answered := s.answered + [s.due[i]],
       sending := s.sending + [[]], sent := s.sent + rs)
  }

  lemma {:induction false} SendsParts(canary: LargeCommunity, s: State, rs: seq<Report>, k: nat)
    requires s.sending != [] && s.sending[|s.sending| - 1] == rs && k <= |rs|
    ensures var n := |s.sending| - 1;
            After(canary, s, seq(k, x => SendPart(n))) ==
            s.(sent := s.sent + rs[..k], sending := s.sending[n := rs[k..]])
    decreases k
  {
    var n := |s.sending| - 1;
    if k == 0 {
      assert s.sending[n := rs[0..]] == s.sending && s.sent + rs[..0] == s.sent;
    } else {
      SendsParts(canary, s, rs, k - 1);
      var run := seq(k, x => SendPart(n));
      assert run[..k - 1] == seq(k - 1, x => SendPart(n));
      assert s.sent + rs[..k] == s.sent + rs[..k - 1] + [rs[k - 1]];
      assert s.sending[n := rs[k - 1..]][n := rs[k - 1..][1..]] == s.sending[n := rs[k..]];
    }
  }

  // It is a run of steps: one reading, then one per report.
  lemma AnsweredIsARun(canary: LargeCommunity, s: State, i: nat, rs: seq<Report>)
    requires Answers(s, i, rs)
    ensures exists run ::
              && (forall a <- run :: a == ReadDue(i, rs) || a == SendPart(|s.sending|))
              && After(canary, s, run) == Answered(s, i, rs)
  {
    var t := Step(canary, s, ReadDue(i, rs));
    var parts := seq(|rs|, x => SendPart(|s.sending|));
    SendsParts(canary, t, rs, |rs|);
    AfterConcat(canary, s, [ReadDue(i, rs)], parts);
    assert [ReadDue(i, rs)][..0] == [];
    assert After(canary, s, [ReadDue(i, rs)]) == t;
    assert rs[..|rs|] == rs && rs[|rs|..] == [];
    assert t.sending[|s.sending| := []] == s.sending + [[]];
    var run := [ReadDue(i, rs)] + parts;
    assert forall a <- run :: a == ReadDue(i, rs) || a == SendPart(|s.sending|);
    assert After(canary, s, run) == Answered(s, i, rs);
  }

  lemma {:induction false} AfterConcat(canary: LargeCommunity, s: State, a: seq<Action>, b: seq<Action>)
    ensures After(canary, s, a + b) == After(canary, After(canary, s, a), b)
    decreases |b|
  {
    if b == [] {
      assert a + b == a;
    } else {
      AfterConcat(canary, s, a, b[..|b| - 1]);
      assert (a + b)[..|a + b| - 1] == a + b[..|b| - 1];
    }
  }

  // ---- batching of member reports ----

  function Batches(size: nat, edge: EdgeId, members: seq<Prefix>, down: bool): seq<Report>
    requires size > 0
    decreases |members|
  {
    if |members| <= size then [MemberEdge(edge, members, down)]
    else [MemberEdge(edge, members[..size], down)] + Batches(size, edge, members[size..], down)
  }

  function Members(rs: seq<Report>): seq<Prefix> {
    if rs == [] then [] else (if rs[0].MemberEdge? then rs[0].members else []) + Members(rs[1..])
  }

  // All batches but the last are full.
  ghost predicate Full(rs: seq<Report>, size: nat) {
    forall i :: 0 <= i < |rs| - 1 ==> rs[i].MemberEdge? && |rs[i].members| == size
  }

  lemma {:induction false} BatchMembers(size: nat, edge: EdgeId, members: seq<Prefix>, down: bool)
    requires size > 0
    ensures Batches(size, edge, members, down) != [] && Members(Batches(size, edge, members, down)) == members
    decreases |members|
  {
    var rs := Batches(size, edge, members, down);
    if |members| > size {
      BatchMembers(size, edge, members[size..], down);
      assert rs[1..] == Batches(size, edge, members[size..], down);
      assert members[..size] + members[size..] == members;
    } else {
      assert rs[1..] == [];
    }
  }

  // The k-th batch, from its place among the members.
  lemma {:induction false} BatchAt(size: nat, edge: EdgeId, members: seq<Prefix>, down: bool, k: nat)
    requires size > 0 && k < |Batches(size, edge, members, down)|
    ensures var rs := Batches(size, edge, members, down);
            && rs[k].MemberEdge? && rs[k].edge == edge && rs[k].down == down
            && (if k < |rs| - 1 then |rs[k].members| == size else |rs[k].members| <= size)
            && (members != [] ==> rs[k].members != [])
    decreases |members|
  {
    if |members| > size && k > 0 {
      BatchAt(size, edge, members[size..], down, k - 1);
    } else if |members| > size {
      BatchMembers(size, edge, members[size..], down);
    }
  }

  /** Batching loses, duplicates and reorders nothing; batches are full but for the last; only an empty
      set makes an empty report. */
  lemma BatchesAreFaithful(size: nat, edge: EdgeId, members: seq<Prefix>, down: bool)
    requires size > 0
    ensures var rs := Batches(size, edge, members, down);
            && rs != [] && Members(rs) == members && Full(rs, size)
            && (forall r <- rs :: r.MemberEdge? && r.edge == edge && r.down == down && |r.members| <= size)
            && (members != [] ==> forall r <- rs :: r.MemberEdge? && r.members != [])
  {
    BatchMembers(size, edge, members, down);
    forall k: nat | k < |Batches(size, edge, members, down)|
      ensures var rs := Batches(size, edge, members, down);
              && rs[k].MemberEdge? && rs[k].edge == edge && rs[k].down == down
              && (if k < |rs| - 1 then |rs[k].members| == size else |rs[k].members| <= size)
              && (members != [] ==> rs[k].members != [])
    {
      BatchAt(size, edge, members, down, k);
    }
  }
}
