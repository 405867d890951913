/**
 Order: first attempts are submitted in admission order, attempts are numbered and bounded, and a
 runtime with one slot finishes all attempts of an invocation before it starts the next.
 */
module SchedulerOrder {
  import opened SchedulerModel
  import opened SchedulerPlaces
  import opened SchedulerSlots

  /** The invocations submitted for the first time, in submission order. */
  function Firsts(sub: seq<Submission>): seq<nat> {
    if sub == [] then []
    else
      var init, last := sub[..|sub| - 1], sub[|sub| - 1];
      if last.attempt == 1 then Firsts(init) + [last.inv] else Firsts(init)
  }

  /** How often an invocation was submitted. */
  function Tries(sub: seq<Submission>, inv: nat): nat {
    if sub == [] then 0
    else Tries(sub[..|sub| - 1], inv) + if sub[|sub| - 1].inv == inv then 1 else 0
  }

  /** The members of `q` that belong to runtime `rid`, in order. */
  function Mine(book: map<nat, Record>, q: seq<nat>, rid: nat): seq<nat> {
    if q == [] then []
    else if q[0] in book && book[q[0]].rid == rid then [q[0]] + Mine(book, q[1..], rid)
    else Mine(book, q[1..], rid)
  }

  /** What has been dispatched so far: submitted for the first time, then taken from the queue. */
  function Line(s: Sched, rid: nat): seq<nat>
    requires rid in s.submitted
  {
    Firsts(s.submitted[rid]) + Mine(s.book, s.ready, rid)
  }

  ghost predicate LineOk(s: Sched, rid: nat)
    requires rid in s.submitted && rid in s.admitted
  {
    && Line(s, rid) <= s.admitted[rid]
    && (rid !in s.cancelled ==> s.admitted[rid] == Line(s, rid) + QueueOf(s, rid))
  }

  ghost predicate AdmittedOk(s: Sched, rid: nat)
    requires rid in s.admitted
  {
    && Distinct(s.admitted[rid])
    && (forall x :: x in s.admitted[rid] ==>
          x in s.book && s.book[x].rid == rid && !s.book[x].place.Admitting?)
  }

  /** Every submission carries the number of its attempt. */
  ghost predicate Numbered(sub: seq<Submission>) {
    forall i {:trigger sub[i]} :: 0 <= i < |sub| ==> sub[i].attempt == Tries(sub[..i], sub[i].inv) + 1
  }

  ghost predicate SubmittedOk(s: Sched, rid: nat)
    requires rid in s.submitted
  {
    && Numbered(s.submitted[rid])
    && (forall e :: e in s.submitted[rid] ==> e.inv in s.book && s.book[e.inv].rid == rid)
  }

  ghost predicate MadeOk(s: Sched) {
    forall inv :: inv in s.book ==>
      s.book[inv].rid in s.submitted && s.book[inv].made == Tries(s.submitted[s.book[inv].rid], inv)
  }

  ghost predicate RuntimeOrder(s: Sched, rid: nat) {
    rid in s.admitted && rid in s.submitted && LineOk(s, rid) && AdmittedOk(s, rid) && SubmittedOk(s, rid)
  }

  ghost predicate OrderOk(s: Sched) {
    MadeOk(s) && forall rid :: rid in s.runtimes ==> RuntimeOrder(s, rid)
  }

  // ---- Small facts ----

  lemma SnocFacts(sub: seq<Submission>, e: Submission)
    ensures Firsts(sub + [e]) == Firsts(sub) + if e.attempt == 1 then [e.inv] else []
    ensures forall inv :: Tries(sub + [e], inv) == Tries(sub, inv) + if e.inv == inv then 1 else 0
  {
  }

  lemma NumberedSnoc(sub: seq<Submission>, e: Submission)
    requires Numbered(sub) && e.attempt == Tries(sub, e.inv) + 1
    ensures Numbered(sub + [e])
  {
    var n := sub + [e];
    forall i | 0 <= i < |n| ensures n[i].attempt == Tries(n[..i], n[i].inv) + 1 {
      if i < |sub| {
        assert n[i] == sub[i] && n[..i] == sub[..i];
      } else {
        assert n[..i] == sub;
      }
    }
  }

  lemma {:induction false} NeverTried(sub: seq<Submission>, inv: nat)
    requires forall e :: e in sub ==> e.inv != inv
    ensures Tries(sub, inv) == 0
  {
    if sub != [] {
      NeverTried(sub[..|sub| - 1], inv);
      assert sub[|sub| - 1] in sub;
    }
  }

  lemma {:induction false} MineSame(a: map<nat, Record>, b: map<nat, Record>, q: seq<nat>, rid: nat)
    requires forall x :: x in q ==> x in a && x in b && a[x].rid == b[x].rid
    ensures Mine(a, q, rid) == Mine(b, q, rid)
  {
    if q != [] {
      assert q[0] in q;
      MineSame(a, b, q[1..], rid);
    }
  }

  lemma {:induction false} MineSnoc(book: map<nat, Record>, q: seq<nat>, x: nat, rid: nat)
    ensures Mine(book, q + [x], rid) == Mine(book, q, rid) + if x in book && book[x].rid == rid then [x] else []
  {
    if q != [] {
      assert (q + [x])[1..] == q[1..] + [x] && (q + [x])[0] == q[0];
      MineSnoc(book, q[1..], x, rid);
    }
  }

  // ---- Every step keeps the order ----

  /** Which submission a step makes, if any. */
  function Submits(s: Sched, t: Step): (e: seq<(nat, Submission)>)
    requires Enabled(s, t)
    ensures |e| <= 1
    ensures e == [] ==> Do(s, t).submitted == if t.Register? then s.submitted[t.rid := []] else s.submitted
    ensures e != [] ==> e[0].0 in s.submitted && e[0].1.inv in s.book && s.book[e[0].1.inv].rid == e[0].0
    ensures e != [] ==> Do(s, t).submitted == s.submitted[e[0].0 := s.submitted[e[0].0] + [e[0].1]]
  {
    match t
    case SubmitReady(_) => [(s.book[s.ready[0]].rid, Submission(s.ready[0], s.book[s.ready[0]].attempt))]
    case Resubmit(inv, _) => [(s.book[inv].rid, Submission(inv, s.book[inv].attempt))]
    case _ => []
  }

  /** Invocations stay in the book and keep their runtime. */
  ghost predicate Grown(a: map<nat, Record>, b: map<nat, Record>) {
    forall inv :: inv in a ==> inv in b && b[inv].rid == a[inv].rid
  }

  lemma BookGrows(s: Sched, t: Step)
    requires Enabled(s, t)
    ensures Grown(s.book, Do(s, t).book)
  {
    var w := Writes(s, t);
  }

  lemma SubmittedKept(s: Sched, n: Sched, rid: nat)
    requires rid in s.submitted && rid in n.submitted && SubmittedOk(s, rid)
    requires Grown(s.book, n.book) && n.submitted[rid] == s.submitted[rid]
    ensures SubmittedOk(n, rid)
  {
  }

  /** `e` is the next attempt of an invocation of runtime `rid`. */
  ghost predicate NextTry(s: Sched, rid: nat, e: Submission) {
    && rid in s.submitted && e.inv in s.book && s.book[e.inv].rid == rid
    && e.attempt == Tries(s.submitted[rid], e.inv) + 1
  }

  lemma SubmittedSnoc(s: Sched, n: Sched, rid: nat, e: Submission)
    requires rid in s.submitted && rid in n.submitted && SubmittedOk(s, rid)
    requires Grown(s.book, n.book) && n.submitted[rid] == s.submitted[rid] + [e]
    requires NextTry(s, rid, e)
    ensures SubmittedOk(n, rid)
  {
    NumberedSnoc(s.submitted[rid], e);
  }

  lemma StepSubmitted(s: Sched, t: Step, rid: nat)
    requires Enabled(s, t) && rid in s.submitted && SubmittedOk(s, rid) && !(t.Register? && t.rid == rid)
    requires Submits(s, t) != [] ==> NextTry(s, Submits(s, t)[0].0, Submits(s, t)[0].1)
    ensures rid in Do(s, t).submitted && SubmittedOk(Do(s, t), rid)
  {
    var e := Submits(s, t);
    BookGrows(s, t);
    if e != [] && e[0].0 == rid {
      SubmittedSnoc(s, Do(s, t), rid, e[0].1);
    } else {
      SubmittedKept(s, Do(s, t), rid);
    }
  }

  /** A step that submits raises the submission count of that invocation alone. */
  lemma MadeChange(s: Sched, t: Step, inv: nat)
    requires Enabled(s, t) && inv in s.book
    ensures Do(s, t).book[inv].made == s.book[inv].made +
      if Submits(s, t) != [] && Submits(s, t)[0].1.inv == inv then 1 else 0
  {
  }

  lemma StepMadeOf(s: Sched, t: Step, inv: nat)
    requires Enabled(s, t) && inv in s.book && s.book[inv].rid in s.submitted
    requires !(t.Register? && t.rid == s.book[inv].rid)
    requires s.book[inv].made == Tries(s.submitted[s.book[inv].rid], inv)
    ensures inv in Do(s, t).book && Do(s, t).book[inv].rid in Do(s, t).submitted
    ensures Do(s, t).book[inv].made == Tries(Do(s, t).submitted[Do(s, t).book[inv].rid], inv)
  {
    var e := Submits(s, t);
    BookGrows(s, t);
    MadeChange(s, t, inv);
    if e != [] { SnocFacts(s.submitted[e[0].0], e[0].1); }
  }

  lemma StepMade(s: Sched, t: Step)
    requires SlotsOk(s) && OrderOk(s) && Enabled(s, t)
    ensures MadeOk(Do(s, t))
  {
    hide Do;
    var n := Do(s, t);
    forall inv | inv in n.book
      ensures n.book[inv].rid in n.submitted && n.book[inv].made == Tries(n.submitted[n.book[inv].rid], inv)
    {
      if inv in s.book {
        StepMadeOf(s, t, inv);
      } else {
        JustAcquired(s, t, inv);
        assert RuntimeOrder(s, t.rid);
        NeverTried(s.submitted[t.rid], inv);
      }
    }
  }

  lemma JustAcquired(s: Sched, t: Step, inv: nat)
    requires Enabled(s, t) && inv in Do(s, t).book && inv !in s.book
    ensures t.Acquire? && t.inv == inv && Do(s, t).book[inv].rid == t.rid && Do(s, t).book[inv].made == 0
    ensures Do(s, t).submitted == s.submitted
  {
  }

  lemma AdmittedKept(s: Sched, n: Sched, rid: nat)
    requires rid in s.admitted && rid in n.admitted && AdmittedOk(s, rid) && n.admitted[rid] == s.admitted[rid]
    requires Grown(s.book, n.book)
    requires forall x :: x in s.book && !s.book[x].place.Admitting? ==> !n.book[x].place.Admitting?
    ensures AdmittedOk(n, rid)
  {
  }

  lemma StaysReceived(s: Sched, t: Step)
    requires Enabled(s, t)
    ensures forall x :: x in s.book && !s.book[x].place.Admitting? ==>
      x in Do(s, t).book && !Do(s, t).book[x].place.Admitting?
  {
    var w := Writes(s, t);
  }

  lemma StepAdmitted(s: Sched, t: Step, rid: nat)
    requires Enabled(s, t) && rid in s.admitted && AdmittedOk(s, rid) && !(t.Register? && t.rid == rid)
    ensures rid in Do(s, t).admitted && AdmittedOk(Do(s, t), rid)
  {
    BookGrows(s, t);
    StaysReceived(s, t);
    if t.Admit? && s.book[t.inv].rid == rid {
      assert t.inv !in s.admitted[rid];
      DistinctSnoc(s.admitted[rid], t.inv);
    } else {
      AdmittedKept(s, Do(s, t), rid);
    }
  }

  /** Nothing that matters to the line of `rid` changed, or its queue is being dropped. */
  lemma LineKept(s: Sched, n: Sched, rid: nat)
    requires rid in s.submitted && rid in s.admitted && rid in n.submitted && rid in n.admitted
    requires LineOk(s, rid) && s.cancelled <= n.cancelled
    requires Line(n, rid) == Line(s, rid) && n.admitted[rid] == s.admitted[rid]
    requires rid in n.cancelled || QueueOf(n, rid) == QueueOf(s, rid)
    ensures LineOk(n, rid)
  {
  }

  lemma LineMoves(s: Sched, n: Sched, rid: nat, x: nat)
    requires rid in s.submitted && rid in s.admitted && rid in n.submitted && rid in n.admitted
    requires LineOk(s, rid) && rid !in s.cancelled && n.cancelled == s.cancelled
    requires
      || (&& Line(n, rid) == Line(s, rid) && n.admitted[rid] == s.admitted[rid] + [x]
          && QueueOf(n, rid) == QueueOf(s, rid) + [x])
      || (&& Line(n, rid) == Line(s, rid) + [x] && n.admitted[rid] == s.admitted[rid]
          && QueueOf(s, rid) == [x] + QueueOf(n, rid))
    ensures LineOk(n, rid)
  {
  }

  lemma MineAfter(s: Sched, t: Step, rid: nat)
    requires Enabled(s, t) && (forall x :: x in s.ready ==> x in s.book)
    ensures Mine(Do(s, t).book, s.ready, rid) == Mine(s.book, s.ready, rid)
  {
    BookGrows(s, t);
    MineSame(s.book, Do(s, t).book, s.ready, rid);
  }

  /** How a step moves the line of `rid`. */
  lemma LineChange(s: Sched, t: Step, rid: nat)
    requires Enabled(s, t) && rid in s.submitted && !(t.Register? && t.rid == rid)
    requires forall x :: x in s.ready ==> x in s.book
    requires t.Resubmit? ==> s.book[t.inv].attempt != 1
    requires t.SubmitReady? ==> s.book[s.ready[0]].attempt == 1
    requires t.TakeOne? ==> s.book[s.states[t.rid].queue[0]].rid == t.rid
    ensures rid in Do(s, t).submitted
    ensures Line(Do(s, t), rid) == Line(s, rid) +
      if t.TakeOne? && t.rid == rid then [s.states[rid].queue[0]] else []
  {
    var n, e := Do(s, t), Submits(s, t);
    MineAfter(s, t, rid);
    if e != [] { SnocFacts(s.submitted[e[0].0], e[0].1); }
    if t.TakeOne? {
      MineSnoc(n.book, s.ready, s.states[t.rid].queue[0], rid);
    }
  }

  lemma StepLine(s: Sched, t: Step, rid: nat)
    requires PlacesOk(s) && KeysOk(s) && Enabled(s, t) && rid in s.runtimes && LineOk(s, rid)
    ensures rid in Do(s, t).admitted && rid in Do(s, t).submitted && LineOk(Do(s, t), rid)
  {
    var n := Do(s, t);
    LineSetup(s, t);
    LineChange(s, t, rid);
    if t.Admit? && s.book[t.inv].rid == rid {
      LineMoves(s, n, rid, t.inv);
    } else if t.TakeOne? && t.rid == rid {
      var q := s.states[rid].queue;
      assert q == [q[0]] + q[1..];
      LineMoves(s, n, rid, q[0]);
    } else {
      QueueUnlessCancelled(s, t, rid);
      LineKept(s, n, rid);
    }
  }

  lemma LineSetup(s: Sched, t: Step)
    requires PlacesOk(s) && Enabled(s, t)
    ensures forall x :: x in s.ready ==> x in s.book
    ensures t.Resubmit? ==> s.book[t.inv].attempt != 1
    ensures t.SubmitReady? ==> s.book[s.ready[0]].attempt == 1
    ensures t.TakeOne? ==> s.book[s.states[t.rid].queue[0]].rid == t.rid
  {
    if t.TakeOne? { HeadQueued(s, t.rid); }
    if t.SubmitReady? { assert s.ready[0] in s.ready; }
  }

  lemma QueueUnlessCancelled(s: Sched, t: Step, rid: nat)
    requires Enabled(s, t) && !(t.Admit? && s.book[t.inv].rid == rid) && !(t.TakeOne? && t.rid == rid)
    requires forall r :: r in s.states && s.states[r].shuttingDown ==> r in s.cancelled
    ensures rid in Do(s, t).cancelled || QueueOf(Do(s, t), rid) == QueueOf(s, rid)
    ensures s.cancelled <= Do(s, t).cancelled
  {
  }

  lemma RegisterOrder(s: Sched, t: Step)
    requires PlacesOk(s) && KeysOk(s) && Enabled(s, t) && t.Register?
    ensures var n := Do(s, t); LineOk(n, t.rid) && AdmittedOk(n, t.rid) && SubmittedOk(n, t.rid)
  {
    LineSetup(s, t);
    NoneMine(s.book, s.ready, t.rid);
  }

  lemma {:induction false} NoneMine(book: map<nat, Record>, q: seq<nat>, rid: nat)
    requires forall x :: x in q ==> x in book && book[x].rid != rid
    ensures Mine(book, q, rid) == []
  {
    if q != [] {
      assert q[0] in q;
      NoneMine(book, q[1..], rid);
    }
  }

  lemma SubmitsNextTry(s: Sched, t: Step)
    requires PlacesOk(s) && MadeOk(s) && Enabled(s, t) && Submits(s, t) != []
    ensures NextTry(s, Submits(s, t)[0].0, Submits(s, t)[0].1)
  {
  }

  lemma StepOrderOf(s: Sched, t: Step, rid: nat)
    requires PlacesOk(s) && KeysOk(s) && MadeOk(s) && Enabled(s, t)
    requires rid in s.runtimes && RuntimeOrder(s, rid)
    ensures RuntimeOrder(Do(s, t), rid)
  {
    if Submits(s, t) != [] { SubmitsNextTry(s, t); }
    StepLine(s, t, rid);
    StepAdmitted(s, t, rid);
    StepSubmitted(s, t, rid);
  }

  lemma StepOrder(s: Sched, t: Step)
    requires PlacesOk(s) && SlotsOk(s) && OrderOk(s) && Enabled(s, t)
    ensures OrderOk(Do(s, t))
  {
    StepMade(s, t);
    forall rid | rid in Do(s, t).runtimes ensures RuntimeOrder(Do(s, t), rid) {
      if rid in s.runtimes {
        StepOrderOf(s, t, rid);
      } else {
        RegisterOrder(s, t);
      }
    }
  }
}
