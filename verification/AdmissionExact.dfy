/** The bound of Admission is exact: runs that reach it, and the part that timeouts play. */
module AdmissionExact {
  import opened Basics
  import opened Tools
  import opened Admission
  import C = Circuit
  import S = Supervisor

  ghost predicate Reaches(s: Sys, t: Sys) {
    exists es :: Run(s, es) && After(s, es) == t
  }

  lemma {:induction false} Concat(s: Sys, a: seq<Event>, b: seq<Event>)
    requires Run(s, a) && Run(After(s, a), b)
    ensures Run(s, a + b) && After(s, a + b) == After(After(s, a), b)
    decreases |a|
  {
    if a == [] {
      assert a + b == b;
    } else {
      assert (a + b)[0] == a[0] && (a + b)[1..] == a[1..] + b;
      Concat(Step(s, a[0]), a[1..], b);
    }
  }

  lemma Chain(s: Sys, t: Sys, u: Sys)
    requires Reaches(s, t) && Reaches(t, u)
    ensures Reaches(s, u)
  {
    var a :| Run(s, a) && After(s, a) == t;
    var b :| Run(t, b) && After(t, b) == u;
    Concat(s, a, b);
  }

  lemma Stay(s: Sys)
    ensures Reaches(s, s)
  {
    assert Run(s, []);
  }

  lemma One(s: Sys, e: Event)
    requires CanTake(s, e)
    ensures Reaches(s, Step(s, e))
  {
    var es := [e];
    assert es[1..] == [];
    assert Run(Step(s, e), es[1..]);
    assert After(s, es) == After(Step(s, e), es[1..]);
  }

  /** Nothing queued, tool and breaker willing. */
  predicate Ready(s: Sys) {
    && s.mailbox == []
    && s.sup.tool.id == s.toolID
    && s.sup.tool.state != Disabled
    && s.sup.tool.maxSessions >= 1
    && !s.sup.draining
    && s.sup.circuit.state == C.Closed
  }

  function Registered(s: Sys, who: Session): Sys {
    s.(sup := s.sup.(sessions := s.sup.sessions[NameOf(s.toolID, who) := S.Registration(who.tenant, who.client)]))
  }

  function WithSlot(s: Sys, i: nat, slot: Slot): Sys
    requires i < |s.slots|
  {
    s.(slots := s.slots[i := slot])
  }

  lemma Admit(s: Sys, i: nat, who: Session)
    requires Ready(s) && i < |s.slots| && s.slots[i].phase == Idle && |s.sup.sessions| < s.sup.tool.maxSessions
    ensures Reaches(s, WithSlot(s, i, Slot(Admitted, who, Some(who))))
  {
    var t := Step(s, StartRoute(i, who));
    One(s, StartRoute(i, who));
    var u := Step(t, Deliver(0, false, false));
    One(t, Deliver(0, false, false));
    Chain(s, t, u);
    assert u == WithSlot(s, i, Slot(Admitted, who, Some(who)));
  }

  lemma Register(s: Sys, i: nat, who: Session)
    requires Ready(s) && i < |s.slots| && s.slots[i] == Slot(Admitted, who, Some(who))
    ensures Reaches(s, WithSlot(Registered(s, who), i, Slot(Executing, who, Some(who))))
  {
    var t := Step(s, AskSession(i));
    One(s, AskSession(i));
    var u := Step(t, Deliver(0, true, true));
    One(t, Deliver(0, true, true));
    Chain(s, t, u);
    assert u == WithSlot(s, i, Slot(Executing, who, Some(who))).(mailbox := [Activated(i, who)]);
    var v := Step(u, Deliver(0, false, false));
    One(u, Deliver(0, false, false));
    Chain(s, u, v);
    assert v == WithSlot(Registered(s, who), i, Slot(Executing, who, Some(who)));
  }

  /** A family of sessions whose names all differ in length. */
  function Who(n: nat): Session {
    Session(seq(n + 1, _ => 'a'), "c")
  }

  /** Exactly m sessions, all with names shorter than that of Who(m). */
  predicate Filled(s: Sys, m: nat) {
    && |s.sup.sessions| == m
    && forall x :: x in s.sup.sessions.Keys ==> |x| < |NameOf(s.toolID, Who(m))|
  }

  lemma RegisteredFills(s: Sys, m: nat)
    requires Filled(s, m)
    ensures Filled(Registered(s, Who(m)), m + 1)
  {
    var name := NameOf(s.toolID, Who(m));
    assert name !in s.sup.sessions;
    assert |NameOf(s.toolID, Who(m + 1))| == |name| + 1;
    assert Registered(s, Who(m)).sup.sessions.Keys == s.sup.sessions.Keys + {name};
  }

  /** One whole route that leaves its session behind. */
  lemma ServeRoute(s: Sys, i: nat, w: Session)
    requires Ready(s) && i < |s.slots| && s.slots[i].phase == Idle && |s.sup.sessions| < s.sup.tool.maxSessions
    ensures Reaches(s, WithSlot(Registered(s, w), i, Slot(Idle, w, Some(w))))
  {
    var a := WithSlot(s, i, Slot(Admitted, w, Some(w)));
    Admit(s, i, w);
    Register(a, i, w);
    var b := WithSlot(Registered(a, w), i, Slot(Executing, w, Some(w)));
    Chain(s, a, b);
    One(b, EndRoute(i));
    Chain(s, b, Step(b, EndRoute(i)));
    assert Step(b, EndRoute(i)) == WithSlot(Registered(s, w), i, Slot(Idle, w, Some(w)));
  }

  predicate AllIdle(s: Sys) {
    forall i :: 0 <= i < |s.slots| ==> s.slots[i].phase == Idle
  }

  /** One router, route after route, fills the tool up to its cap less one. */
  lemma {:induction false} Fill(s: Sys, m: nat) returns (t: Sys)
    requires Ready(s) && |s.slots| > 0 && AllIdle(s)
    requires Filled(s, m) && m < s.sup.tool.maxSessions
    ensures Reaches(s, t) && Ready(t) && |t.slots| == |s.slots| && t.sup.tool == s.sup.tool
    ensures AllIdle(t) && Filled(t, s.sup.tool.maxSessions - 1)
    decreases s.sup.tool.maxSessions - m
  {
    if m == s.sup.tool.maxSessions - 1 {
      Stay(s);
      return s;
    }
    ServeRoute(s, 0, Who(m));
    RegisteredFills(s, m);
    var c := WithSlot(Registered(s, Who(m)), 0, Slot(Idle, Who(m), Some(Who(m))));
    t := Fill(c, m + 1);
    Chain(s, c, t);
  }

  // ---- Routes given up on -----------------------------------------------------

  /** A session that is not registered leaves the map as it was when it comes and goes. */
  lemma ComeAndGo(s: Sys, m: nat, w: Session)
    requires Filled(s, m) && |w.tenant| > m && w.client == "c"
    ensures Registered(s, w).sup.sessions - {NameOf(s.toolID, w)} == s.sup.sessions
  {
    assert |NameOf(s.toolID, w)| >= |NameOf(s.toolID, Who(m))|;
    assert NameOf(s.toolID, w) !in s.sup.sessions;
  }

  /** The grain of an executing route is passivated before its invocation arrives. */
  lemma Passivate(s: Sys, w: Session)
    requires Ready(s)
    ensures Reaches(s, s.(sup := s.sup.(sessions := s.sup.sessions - {NameOf(s.toolID, w)})))
  {
    var gone := S.SessionDeactivated(s.toolID, w.tenant, w.client);
    var t := Step(s, Tell(gone));
    One(s, Tell(gone));
    var u := Step(t, Deliver(0, false, false));
    One(t, Deliver(0, false, false));
    Chain(s, t, u);
    assert u == s.(sup := s.sup.(sessions := s.sup.sessions - {NameOf(s.toolID, w)}));
  }

  /** A route that executes on a grain passivated again. */
  lemma ExecuteOnPassive(s: Sys, m: nat, i: nat, w: Session)
    requires Ready(s) && i < |s.slots| && s.slots[i].phase == Idle && |s.sup.sessions| < s.sup.tool.maxSessions
    requires Filled(s, m) && |w.tenant| > m && w.client == "c"
    ensures Reaches(s, WithSlot(s, i, Slot(Executing, w, Some(w))))
  {
    var a := WithSlot(s, i, Slot(Admitted, w, Some(w)));
    Admit(s, i, w);
    var b := WithSlot(Registered(a, w), i, Slot(Executing, w, Some(w)));
    Register(a, i, w);
    Chain(s, a, b);
    ComeAndGo(s, m, w);
    Passivate(b, w);
    var c := b.(sup := b.sup.(sessions := b.sup.sessions - {NameOf(b.toolID, w)}));
    Chain(s, b, c);
    assert c == WithSlot(s, i, Slot(Executing, w, Some(w)));
  }

  function Stranded(s: Sys, i: nat, w: Session): Sys
    requires i < |s.slots|
  {
    s.(slots := s.slots[i := Slot(LateCall, w, Some(w))] + [Slot(Idle, NOBODY, None)])
  }

  /** If its router then gives up on the invocation, no session is registered and one is
      still to come. */
  lemma Strand(s: Sys, m: nat, i: nat, w: Session)
    requires Ready(s) && i < |s.slots| && s.slots[i].phase == Idle && |s.sup.sessions| < s.sup.tool.maxSessions
    requires Filled(s, m) && |w.tenant| > m && w.client == "c"
    ensures Reaches(s, Stranded(s, i, w))
  {
    var c := WithSlot(s, i, Slot(Executing, w, Some(w)));
    ExecuteOnPassive(s, m, i, w);
    One(c, Abandon(i));
    assert Step(c, Abandon(i)) == Stranded(s, i, w);
    Chain(s, c, Stranded(s, i, w));
  }

  /** Slot i is about to have session Who(m + i) registered. */
  predicate Armed(s: Sys, m: nat, i: nat)
    requires i < |s.slots|
  {
    s.slots[i] in {Slot(LateCall, Who(m + i), Some(Who(m + i))), Slot(Admitted, Who(m + i), Some(Who(m + i)))}
  }

  predicate ArmedFrom(s: Sys, m: nat, from: nat) {
    forall i :: from <= i < |s.slots| ==> Armed(s, m, i)
  }

  /** All slots are idle but those from k - 1 up to the last, which are stranded. */
  predicate Strung(s: Sys, m: nat, k: nat) {
    0 < k <= |s.slots| && forall i :: 0 <= i < |s.slots| ==>
      if k - 1 <= i < |s.slots| - 1 then Armed(s, m, i) else s.slots[i].phase == Idle
  }

  lemma StrungOneMore(s: Sys, m: nat, k: nat)
    requires Strung(s, m, k)
    ensures Strung(Stranded(s, |s.slots| - 1, Who(m + |s.slots| - 1)), m, k)
  {
    var t := Stranded(s, |s.slots| - 1, Who(m + |s.slots| - 1));
    forall i | 0 <= i < |t.slots|
      ensures if k - 1 <= i < |t.slots| - 1 then Armed(t, m, i) else t.slots[i].phase == Idle
    {
      assert k - 1 <= i < |s.slots| - 1 ==> Armed(s, m, i);
    }
  }

  /** Below the cap with exactly m sessions, and ready for more. */
  predicate Open(s: Sys, m: nat) {
    Ready(s) && Filled(s, m) && m < s.sup.tool.maxSessions
  }

  lemma StrandLast(s: Sys, m: nat, k: nat) returns (t: Sys)
    requires Open(s, m) && Strung(s, m, k)
    ensures Reaches(s, t) && Open(t, m) && Strung(t, m, k) && |t.slots| == |s.slots| + 1
  {
    var i := |s.slots| - 1;
    Strand(s, m, i, Who(m + i));
    StrungOneMore(s, m, k);
    t := Stranded(s, i, Who(m + i));
  }

  /** The last router strands n routes in a row. */
  lemma {:induction false} StrandAll(s: Sys, m: nat, k: nat, n: nat) returns (t: Sys)
    requires Open(s, m) && Strung(s, m, k) && |s.slots| == k
    ensures Reaches(s, t) && Open(t, m) && Strung(t, m, k) && |t.slots| == k + n
  {
    if n == 0 {
      Stay(s);
      return s;
    }
    var u := StrandAll(s, m, k, n - 1);
    t := StrandLast(u, m, k);
    Chain(s, u, t);
  }

  /** All idle routers are admitted before any session is registered. */
  lemma {:induction false} AdmitAll(s: Sys, m: nat, n: nat) returns (t: Sys)
    requires Ready(s) && n <= |s.slots| && |s.sup.sessions| < s.sup.tool.maxSessions
    requires forall i :: 0 <= i < |s.slots| ==> s.slots[i].phase == Idle || Armed(s, m, i)
    ensures Reaches(s, t) && Ready(t) && t.sup == s.sup && t.toolID == s.toolID && |t.slots| == |s.slots|
    ensures forall i :: 0 <= i < n ==> Armed(t, m, i)
    ensures forall i :: n <= i < |t.slots| ==> t.slots[i] == s.slots[i]
  {
    if n == 0 {
      Stay(s);
      return s;
    }
    var u := AdmitAll(s, m, n - 1);
    if Armed(s, m, n - 1) {
      assert u.slots[n - 1] == s.slots[n - 1];
      return u;
    }
    var w := Who(m + n - 1);
    Admit(u, n - 1, w);
    t := WithSlot(u, n - 1, Slot(Admitted, w, Some(w)));
    Chain(s, u, t);
    forall i | 0 <= i < n
      ensures Armed(t, m, i)
    {
      assert i < n - 1 ==> Armed(u, m, i);
    }
  }

  /** The invocation a router gave up on wakes the grain after all. */
  lemma WakeLate(s: Sys, i: nat, w: Session)
    requires Ready(s) && i < |s.slots| && s.slots[i] == Slot(LateCall, w, Some(w))
    ensures Reaches(s, Registered(s, w))
  {
    var t := Step(s, Reactivate(i));
    One(s, Reactivate(i));
    assert t == s.(mailbox := [Activated(i, w)]);
    var u := Step(t, Deliver(0, false, false));
    One(t, Deliver(0, false, false));
    Chain(s, t, u);
    assert u == Registered(s, w);
  }

  lemma RegisterArmed(s: Sys, m: nat, i: nat) returns (t: Sys)
    requires Ready(s) && i < |s.slots| && ArmedFrom(s, m, i) && Filled(s, m + i)
    ensures Reaches(s, t) && Ready(t) && |t.slots| == |s.slots|
    ensures ArmedFrom(t, m, i + 1) && Filled(t, m + i + 1)
  {
    var w := Who(m + i);
    RegisteredFills(s, m + i);
    assert Armed(s, m, i);
    if s.slots[i].phase == LateCall {
      WakeLate(s, i, w);
      t := Registered(s, w);
    } else {
      Register(s, i, w);
      t := WithSlot(Registered(s, w), i, Slot(Executing, w, Some(w)));
    }
    forall j | i < j < |t.slots|
      ensures Armed(t, m, j)
    {
      assert Armed(s, m, j);
    }
  }

  lemma {:induction false} RegisterAll(s: Sys, m: nat, n: nat) returns (t: Sys)
    requires Ready(s) && n <= |s.slots| && Filled(s, m) && ArmedFrom(s, m, 0)
    ensures Reaches(s, t) && Ready(t) && |t.slots| == |s.slots|
    ensures ArmedFrom(t, m, n) && Filled(t, m + n)
  {
    if n == 0 {
      Stay(s);
      return s;
    }
    var u := RegisterAll(s, m, n - 1);
    t := RegisterArmed(u, m, n - 1);
    Chain(s, u, t);
  }

  /** A run that ends with n more slots than it has routers never had more than n strays. */
  lemma {:induction false} SlotsBoundStrays(s: Sys, es: seq<Event>, n: nat)
    requires Run(s, es) && |After(s, es).slots| <= Routers(s.slots) + n
    ensures StraysWithin(s, es, n) && |s.slots| <= |After(s, es).slots|
    decreases |es|
  {
    HoldersAreRoutersOrStrays(s.slots, s.mailbox, |s.slots|);
    assert s.slots[..|s.slots|] == s.slots;
    if es != [] {
      StepKeepsRouters(s, es[0]);
      SlotsBoundStrays(Step(s, es[0]), es[1..], n);
    }
  }

  /** A run of k routers, with at most n strays in flight, that registers `count` sessions. */
  ghost predicate Attains(tool: Tool, override: Option<C.Config>, k: nat, n: nat, count: int) {
    exists es :: Run(Init(tool, override, k), es) && StraysWithin(Init(tool, override, k), es, n) &&
      |After(Init(tool, override, k), es).sup.sessions| == count
  }

  /** From cap - 1 sessions and all routers idle, n strays and k routers more. */
  lemma Overfill(s: Sys, m: nat, k: nat, n: nat) returns (t: Sys)
    requires Open(s, m) && AllIdle(s) && |s.slots| == k > 0
    ensures Reaches(s, t) && |t.slots| == k + n && Filled(t, m + k + n)
  {
    var b := StrandAll(s, m, k, n);
    assert forall i :: 0 <= i < |b.slots| ==> b.slots[i].phase == Idle || Armed(b, m, i);
    var c := AdmitAll(b, m, k + n);
    Chain(s, b, c);
    t := RegisterAll(c, m, k + n);
    Chain(s, c, t);
  }

  /** For every cap, every number of routers and every number of strays the bound
      cap - 1 + k + n is attained. */
  lemma BoundAttained(tool: Tool, override: Option<C.Config>, k: nat, n: nat)
    requires tool.maxSessions >= 1 && tool.state != Disabled && k >= 1
    ensures Attains(tool, override, k, n, tool.maxSessions - 1 + k + n)
  {
    var s := Init(tool, override, k);
    var a := Fill(s, 0);
    var d := Overfill(a, tool.maxSessions - 1, k, n);
    Chain(s, a, d);
    var es :| Run(s, es) && After(s, es) == d;
    AllRouters(s.slots);
    SlotsBoundStrays(s, es, n);
  }

  /** So the cap holds in every run of k routers with at most n strays in flight if and only
      if there is one router and no stray. */
  lemma CapHoldsExactly(tool: Tool, override: Option<C.Config>, k: nat, n: nat)
    requires tool.maxSessions >= 1 && tool.state != Disabled && k >= 1
    ensures (forall es :: Run(Init(tool, override, k), es) && StraysWithin(Init(tool, override, k), es, n) ==>
               |After(Init(tool, override, k), es).sup.sessions| <= tool.maxSessions)
            <==> k + n <= 1
  {
    if k + n <= 1 {
      forall es | Run(Init(tool, override, k), es) && StraysWithin(Init(tool, override, k), es, n)
        ensures |After(Init(tool, override, k), es).sup.sessions| <= tool.maxSessions
      {
        RouterBound(tool, override, k, es, n);
      }
    } else {
      BoundAttained(tool, override, k, n);
      var es :| Run(Init(tool, override, k), es) && StraysWithin(Init(tool, override, k), es, n) &&
        |After(Init(tool, override, k), es).sup.sessions| == tool.maxSessions - 1 + k + n;
      assert |After(Init(tool, override, k), es).sup.sessions| > tool.maxSessions;
    }
  }
}
