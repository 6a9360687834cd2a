// The sender's credit gate: a counter under a lock and a one-slot wake-up channel.
// First the gate as an object, then every interleaving of takers and signallers.

module Credit {
  /** The lock-protected part of a gate, and whether its wake-up slot holds a token. */
  datatype GateState = GateState(n: int, token: bool, closed: bool)

  /** What can reach a taker that waits in its select. `wins`: the context has ended, and the select picks it even
      though a token is there as well. */
  datatype Event = Granted(k: int) | Shut | CtxDone(wins: bool)

  datatype Outcome = Took | Refused | GaveUp | StillParked

  /** add and close as they act on the gate; a non-positive grant is ignored, and a closed gate posts no token for a
      grant. */
  function Arrive(g: GateState, e: Event): GateState {
    match e
    case Granted(k) => if k <= 0 then g else GateState(g.n + k, g.token || !g.closed, g.closed)
    case Shut => GateState(g.n, true, true)
    case CtxDone(_) => g
  }

  /** A taker alone with its gate, while events arrive one by one whenever it is parked. */
  datatype TakeResult = TakeResult(outcome: Outcome, gate: GateState, used: nat)

  /** The select picks the ended context before the token that is there. */
  predicate CtxFirst(schedule: seq<Event>) {
    schedule != [] && schedule[0] == CtxDone(true)
  }

  /** take, from its lock if not parked, from its select if parked. */
  function TakeSpec(g: GateState, parked: bool, schedule: seq<Event>): (r: TakeResult)
    ensures r.used <= |schedule|
    decreases |schedule|, g.token, !parked
  {
    if !parked then
      if g.closed then TakeResult(Refused, g, 0)
      else if g.n > 0 then TakeResult(Took, g.(n := g.n - 1), 0)
      else TakeSpec(g, true, schedule)
    else if g.token && !CtxFirst(schedule) then TakeSpec(g.(token := false), false, schedule)
    else if schedule == [] then TakeResult(StillParked, g, 0)
    else if schedule[0].CtxDone? then TakeResult(GaveUp, g, 1)
    else var r := TakeSpec(Arrive(g, schedule[0]), true, schedule[1..]); r.(used := r.used + 1)
  }

  class CreditGate {
    var n: int
    var token: bool
    var closed: bool

    function State(): GateState
      reads this
    {
      GateState(n, token, closed)
    }

    constructor (initial: int)
      ensures State() == GateState(initial, false, false)
    {
      n, token, closed := initial, false, false;
    }

    method Add(k: int)
      modifies this
      ensures State() == Arrive(old(State()), Granted(k))
      ensures closed == old(closed) && n == old(n) + if k > 0 then k else 0
      ensures token <==> old(token) || (k > 0 && !closed)
    {
      if k <= 0 { return; }
      n := n + k;
      if !closed {
        token := true;
      }
    }

    method Close()
      modifies this
      ensures State() == Arrive(old(State()), Shut)
      ensures closed && token && n == old(n)
    {
      closed := true;
      token := true;
    }

    /** The retry loop of take. */
    method Take(schedule: seq<Event>) returns (outcome: Outcome, used: nat)
      modifies this
      ensures TakeResult(outcome, State(), used) == TakeSpec(old(State()), false, schedule)
    {
      used := 0;
      ghost var whole := TakeSpec(State(), false, schedule);
      while true
        invariant used <= |schedule|
        invariant Continues(whole, TakeSpec(State(), false, schedule[used..]), used)
        decreases |schedule| - used, token
      {
        if closed { return Refused, used; }
        if n > 0 {
          n := n - 1;
          return Took, used;
        }
        ghost var start, stale := used, token;
        // The select: events arrive until one of its cases is picked.
        while !token || CtxFirst(schedule[used..])
          invariant start <= used <= |schedule| && (used == start ==> token == stale)
          invariant Continues(whole, TakeSpec(State(), true, schedule[used..]), used)
          decreases |schedule| - used
        {
          if used == |schedule| { return StillParked, used; }
          var e := schedule[used];
          used := used + 1;
          assert schedule[used - 1..][1..] == schedule[used..];
          match e
          case Granted(k) => Add(k);
          case Shut => Close();
          case CtxDone(_) => return GaveUp, used;
        }
        token := false;
      }
    }
  }

  /** What is left to do after `used` events completes the whole. */
  predicate Continues(whole: TakeResult, rest: TakeResult, used: nat) {
    whole == rest.(used := used + rest.used)
  }

  /** The sum of the positive grants in a schedule. */
  function Grants(s: seq<Event>): (total: nat) {
    if s == [] then 0 else (if s[0].Granted? && s[0].k > 0 then s[0].k else 0) + Grants(s[1..])
  }

  /** Neither a close nor a cancellation among the events. */
  predicate Undisturbed(s: seq<Event>) {
    forall i :: 0 <= i < |s| ==> s[i].Granted?
  }

  /** Credit turns positive with the first i events, and no ended context is picked before the token that announces
      it. */
  ghost predicate GrantedBy(g: GateState, s: seq<Event>, i: nat) {
    i <= |s| && Undisturbed(s[..i]) && g.n + Grants(s[..i]) > 0 && !CtxFirst(s[i..])
  }

  /** A lone taker succeeds exactly when there is credit at once, or it turns positive before the gate is shut or the
      context ends, whatever stale token the slot held; and it never moves the counter by anything but the grants it saw
      and its one token. */
  lemma {:induction false} LoneTakerSucceedsIff(g: GateState, s: seq<Event>)
    requires !g.closed
    ensures TakeSpec(g, false, s).outcome == Took <==> g.n > 0 || exists i :: GrantedBy(g, s, i)
    ensures var r := TakeSpec(g, false, s); r.gate.n == g.n + Grants(s[..r.used]) - (if r.outcome == Took then 1 else 0)
    ensures TakeSpec(g, false, s).outcome == Took ==> TakeSpec(g, false, s).gate.n >= 0
  {
    assert s[..0] == [];
    if g.n <= 0 {
      ParkedTaker(g, s);
    }
  }

  /** Why a take ends: with a credit only while the gate is open; refused only by a closed gate; given up exactly when
      the last event it saw is the end of its context, and no earlier one was; still parked only when nothing more
      happens and no token is there. */
  lemma {:induction false} TakeExplained(g: GateState, parked: bool, s: seq<Event>)
    ensures var r := TakeSpec(g, parked, s);
      && (r.gate.closed <==> g.closed || exists i :: 0 <= i < r.used && s[i] == Shut)
      && (r.outcome == Took ==> !r.gate.closed)
      && (r.outcome == Refused ==> r.gate.closed)
      && (r.outcome == GaveUp <==> r.used > 0 && s[r.used - 1].CtxDone?)
      && (forall i :: 0 <= i < r.used - 1 ==> !s[i].CtxDone?)
      && (r.outcome == StillParked ==> r.used == |s| && !r.gate.token)
    decreases |s|, g.token, !parked
  {
    if !parked {
      if !g.closed && g.n <= 0 { TakeExplained(g, true, s); }
    } else if g.token && !CtxFirst(s) {
      TakeExplained(g.(token := false), false, s);
    } else if s != [] && !s[0].CtxDone? {
      TakeExplained(Arrive(g, s[0]), true, s[1..]);
      var r := TakeSpec(Arrive(g, s[0]), true, s[1..]);
      forall i | 0 < i < |s| ensures s[i] == s[1..][i - 1] {}
      if i :| 0 <= i < r.used && s[1..][i] == Shut { assert s[i + 1] == Shut; }
    }
  }

  /** The same from the select: a positive counter is announced by a token. */
  lemma {:induction false} ParkedTaker(g: GateState, s: seq<Event>)
    requires !g.closed && (g.n > 0 ==> g.token)
    ensures TakeSpec(g, true, s).outcome == Took <==> exists i :: GrantedBy(g, s, i)
    ensures var r := TakeSpec(g, true, s); r.gate.n == g.n + Grants(s[..r.used]) - (if r.outcome == Took then 1 else 0)
    ensures TakeSpec(g, true, s).outcome == Took ==> TakeSpec(g, true, s).gate.n >= 0
    decreases |s|, g.token, 1
  {
    assert s[..0] == [] && s[0..] == s;
    if g.token && !CtxFirst(s) {
      if g.n > 0 {
        assert GrantedBy(g, s, 0);
      } else {
        var h := g.(token := false);
        ParkedTaker(h, s);
        forall i ensures GrantedBy(g, s, i) <==> GrantedBy(h, s, i) { }
      }
    } else if s == [] {
    } else if s[0].Granted? {
      ParkedGrant(g, s);
    } else {
      forall i: nat ensures !GrantedBy(g, s, i) {
        if 0 < i <= |s| { assert s[..i][0] == s[0]; }
      }
      assert s[..1] == [s[0]];
      if s[0].Shut? {
        ShutTaker(Arrive(g, s[0]), s[1..]);
        var u := TakeSpec(Arrive(g, s[0]), true, s[1..]).used;
        assert s[..u + 1] == [s[0]] + s[1..][..u];
      }
    }
  }

  /** A parked taker on a closed gate is refused, or its context ends; either way it takes nothing. */
  lemma {:induction false} ShutTaker(g: GateState, s: seq<Event>)
    requires g.closed && g.token
    ensures var r := TakeSpec(g, true, s); r.outcome != Took && r.gate.n == g.n && Grants(s[..r.used]) == 0
  {
    if CtxFirst(s) {
      assert s[..1] == [s[0]];
    } else {
      assert TakeSpec(g.(token := false), false, s) == TakeResult(Refused, g.(token := false), 0);
      assert s[..0] == [];
    }
  }

  lemma {:induction false} ParkedGrant(g: GateState, s: seq<Event>)
    requires !g.closed && !g.token && g.n <= 0 && s != [] && s[0].Granted?
    ensures TakeSpec(g, true, s).outcome == Took <==> exists i :: GrantedBy(g, s, i)
    ensures var r := TakeSpec(g, true, s); r.gate.n == g.n + Grants(s[..r.used]) - (if r.outcome == Took then 1 else 0)
    ensures TakeSpec(g, true, s).outcome == Took ==> TakeSpec(g, true, s).gate.n >= 0
    decreases |s|, g.token, 0
  {
    var h := Arrive(g, s[0]);
    ParkedTaker(h, s[1..]);
    forall i: nat ensures GrantedBy(h, s[1..], i) <==> GrantedBy(g, s, i + 1) {
      ShiftGrant(g, s, i);
    }
    assert s[..0] == [] && !GrantedBy(g, s, 0);
    if i: nat :| GrantedBy(g, s, i) {
      assert GrantedBy(h, s[1..], i - 1);
    }
    var u := TakeSpec(h, true, s[1..]).used;
    assert s[..u + 1] == [s[0]] + s[1..][..u];
  }

  lemma {:induction false} ShiftGrant(g: GateState, s: seq<Event>, i: nat)
    requires s != [] && s[0].Granted? && !g.closed
    ensures GrantedBy(Arrive(g, s[0]), s[1..], i) <==> GrantedBy(g, s, i + 1)
  {
    if i <= |s| - 1 {
      assert s[..i + 1] == [s[0]] + s[1..][..i] && s[1..][i..] == s[i + 1..];
      assert Undisturbed(s[..i + 1]) <==> Undisturbed(s[1..][..i]) by {
        if Undisturbed(s[..i + 1]) {
          forall j | 0 <= j < i ensures s[1..][..i][j].Granted? { assert s[..i + 1][j + 1].Granted?; }
        }
      }
    }
  }

  // ---- all interleavings -----------------------------------------------------------

  /** Where one goroutine calling take is: not in the call, about to lock, or in the select after finding nothing. */
  datatype Pc = Outside | AtLock | Parked

  /** A gate with its takers, and the signallers that have left the lock but not yet posted their token.
      `added` and `taken` count tokens since the beginning. */
  datatype World = World(gate: GateState, takers: seq<Pc>, posting: nat, added: nat, taken: nat)

  datatype Step =
    | Call(i: nat)          // a goroutine calls take
    | Lock(i: nat)          // it inspects the gate under the lock
    | Wake(i: nat)          // it receives the token
    | Abandon(i: nat)       // its context ends while parked
    | AddLocked(k: nat)     // add has updated the counter
    | CloseLocked           // close has set the flag
    | PostToken             // a signaller performs its non-blocking send

  predicate Enabled(w: World, s: Step) {
    match s
    case Call(i) => i < |w.takers| && w.takers[i] == Outside
    case Lock(i) => i < |w.takers| && w.takers[i] == AtLock
    case Wake(i) => i < |w.takers| && w.takers[i] == Parked && w.gate.token
    case Abandon(i) => i < |w.takers| && w.takers[i] == Parked
    case AddLocked(k) => k > 0
    case CloseLocked => true
    case PostToken => w.posting > 0
  }

  function Next(w: World, s: Step): World
    requires Enabled(w, s)
  {
    match s
    case Call(i) => w.(takers := w.takers[i := AtLock])
    case Lock(i) =>
      if w.gate.closed then w.(takers := w.takers[i := Outside])
      else if w.gate.n > 0
        then w.(gate := w.gate.(n := w.gate.n - 1), takers := w.takers[i := Outside], taken := w.taken + 1)
      else w.(takers := w.takers[i := Parked])
    case Wake(i) => w.(gate := w.gate.(token := false), takers := w.takers[i := AtLock])
    case Abandon(i) => w.(takers := w.takers[i := Outside])
    case AddLocked(k) =>
      w.(gate := w.gate.(n := w.gate.n + k), added := w.added + k, posting := if w.gate.closed then w.posting
        else w.posting + 1)
    case CloseLocked => w.(gate := w.gate.(closed := true), posting := w.posting + 1)
    case PostToken => w.(gate := w.gate.(token := true), posting := w.posting - 1)
  }

  function Start(initial: nat, k: nat): World {
    World(GateState(initial, false, false), seq(k, _ => Outside), 0, 0, 0)
  }

  predicate Runnable(w: World, run: seq<Step>)
    decreases |run|
  {
    run == [] || (Enabled(w, run[0]) && Runnable(Next(w, run[0]), run[1..]))
  }

  function Run(w: World, run: seq<Step>): World
    requires Runnable(w, run)
    decreases |run|
  {
    if run == [] then w else Run(Next(w, run[0]), run[1..])
  }

  /** A taker sleeps although it could proceed, and no wake-up is there or about to be posted. */
  predicate Stranded(w: World) {
    Parked in w.takers && (w.gate.n > 0 || w.gate.closed) && !w.gate.token && w.posting == 0
  }

  predicate Conserved(initial: nat, w: World) {
    w.gate.n >= 0 && w.gate.n + w.taken == initial + w.added
  }

  /** Tokens are conserved in every run with any number of takers, so takes never exceed the initial window plus the
      grants. */
  lemma {:induction false} TakesNeverExceedGrants(initial: nat, w: World, run: seq<Step>)
    requires Conserved(initial, w) && Runnable(w, run)
    ensures Conserved(initial, Run(w, run))
    ensures Run(w, run).taken <= initial + Run(w, run).added
    decreases |run|
  {
    if run != [] {
      TakesNeverExceedGrants(initial, Next(w, run[0]), run[1..]);
    }
  }

  lemma {:induction false} LoneTakerNeverStranded(w: World, run: seq<Step>)
    requires |w.takers| <= 1 && !Stranded(w) && Runnable(w, run)
    ensures |Run(w, run).takers| == |w.takers| && !Stranded(Run(w, run))
    decreases |run|
  {
    if run != [] {
      var v := Next(w, run[0]);
      assert v.takers != [] ==> (Parked in v.takers <==> v.takers[0] == Parked);
      LoneTakerNeverStranded(v, run[1..]);
    }
  }

  /** Two takers park, a grant of two posts one token, and only one of them is woken. */
  lemma {:induction false} SecondTakerStranded(k: nat)
    requires k >= 2
    ensures var run := [Call(0), Call(1), Lock(0), Lock(1), AddLocked(2), PostToken, Wake(0), Lock(0)];
      Runnable(Start(0, k), run) && Stranded(Run(Start(0, k), run)) && Run(Start(0, k), run).gate.n == 1
  {
    var w0 := Start(0, k);
    var w1 := Next(w0, Call(0));
    var w2 := Next(w1, Call(1));
    var w3 := Next(w2, Lock(0));
    var w4 := Next(w3, Lock(1));
    var w5 := Next(w4, AddLocked(2));
    var w6 := Next(w5, PostToken);
    var w7 := Next(w6, Wake(0));
    var w8 := Next(w7, Lock(0));
    assert w8.takers[1] == Parked;
    var run := [Call(0), Call(1), Lock(0), Lock(1), AddLocked(2), PostToken, Wake(0), Lock(0)];
    RunCons(w7, [Lock(0)]);
    RunCons(w6, [Wake(0), Lock(0)]);
    RunCons(w5, [PostToken, Wake(0), Lock(0)]);
    RunCons(w4, [AddLocked(2), PostToken, Wake(0), Lock(0)]);
    RunCons(w3, [Lock(1), AddLocked(2), PostToken, Wake(0), Lock(0)]);
    RunCons(w2, [Lock(0), Lock(1), AddLocked(2), PostToken, Wake(0), Lock(0)]);
    RunCons(w1, [Call(1), Lock(0), Lock(1), AddLocked(2), PostToken, Wake(0), Lock(0)]);
    RunCons(w0, run);
  }

  /** Nothing has been signalled that has not been received. */
  predicate Silent(w: World) {
    !w.gate.token && w.posting == 0
  }

  /** What can still wake a taker parked in silence: a close, its own context, and an add unless the gate is closed. */
  predicate Wakes(w: World, s: Step, i: nat) {
    s == CloseLocked || s == Abandon(i) || (s.AddLocked? && !w.gate.closed)
  }

  /** A taker parked in silence sleeps on until the next close, its own context's end, or, on an open gate, the next
      add; however much credit there is and whatever the other goroutines do. */
  lemma {:induction false} SleepsUntilSignalled(w: World, run: seq<Step>, i: nat)
    requires i < |w.takers| && w.takers[i] == Parked && Silent(w) && Runnable(w, run)
    requires forall j :: 0 <= j < |run| ==> !Wakes(w, run[j], i)
    ensures var v := Run(w, run); i < |v.takers| && v.takers[i] == Parked && Silent(v)
    decreases |run|
  {
    if run != [] {
      assert !Wakes(w, run[0], i);
      forall j | 0 <= j < |run[1..]| ensures !Wakes(Next(w, run[0]), run[1..][j], i) {
        assert run[1..][j] == run[j + 1] && !Wakes(w, run[j + 1], i);
      }
      SleepsUntilSignalled(Next(w, run[0]), run[1..], i);
    }
  }

  const TWO_AND_CLOSE := [Call(0), Call(1), Lock(0), Lock(1), CloseLocked, PostToken, Wake(0), Lock(0)]

  /** Two takers park and the gate is closed: one is refused, the other sleeps on. A connection closes its gate only
      once, so the second sleeps until its own context ends, whatever is granted. */
  lemma {:induction false} CloseStrandsSecondTaker(k: nat, later: seq<Step>)
    requires k >= 2 && Runnable(Start(0, k), TWO_AND_CLOSE) && Runnable(Run(Start(0, k), TWO_AND_CLOSE), later)
    requires forall j :: 0 <= j < |later| ==> later[j] != CloseLocked && later[j] != Abandon(1)
    ensures var v := Run(Run(Start(0, k), TWO_AND_CLOSE), later); 1 < |v.takers| && v.takers[1] == Parked
  {
    CloseReaches(k);
    SleepsUntilSignalled(Run(Start(0, k), TWO_AND_CLOSE), later, 1);
  }

  lemma {:induction false} CloseReaches(k: nat)
    requires k >= 2
    ensures Runnable(Start(0, k), TWO_AND_CLOSE)
    ensures var v := Run(Start(0, k), TWO_AND_CLOSE);
      |v.takers| == k && v.takers[0] == Outside && v.takers[1] == Parked && v.gate.closed && Silent(v)
  {
    var w0 := Start(0, k);
    var w1 := Next(w0, Call(0));
    var w2 := Next(w1, Call(1));
    var w3 := Next(w2, Lock(0));
    var w4 := Next(w3, Lock(1));
    var w5 := Next(w4, CloseLocked);
    var w6 := Next(w5, PostToken);
    var w7 := Next(w6, Wake(0));
    RunCons(w7, [Lock(0)]);
    RunCons(w6, [Wake(0), Lock(0)]);
    RunCons(w5, [PostToken, Wake(0), Lock(0)]);
    RunCons(w4, [CloseLocked, PostToken, Wake(0), Lock(0)]);
    RunCons(w3, [Lock(1), CloseLocked, PostToken, Wake(0), Lock(0)]);
    RunCons(w2, [Lock(0), Lock(1), CloseLocked, PostToken, Wake(0), Lock(0)]);
    RunCons(w1, [Call(1), Lock(0), Lock(1), CloseLocked, PostToken, Wake(0), Lock(0)]);
    RunCons(w0, TWO_AND_CLOSE);
  }

  lemma RunCons(w: World, run: seq<Step>)
    requires run != [] && Enabled(w, run[0]) && Runnable(Next(w, run[0]), run[1..])
    ensures Runnable(w, run) && Run(w, run) == Run(Next(w, run[0]), run[1..])
  {
  }

  /** No wake-up is ever lost with k goroutines. */
  ghost predicate NeverStrands(k: nat) {
    forall initial: nat, run: seq<Step> {:trigger Runnable(Start(initial, k), run)} ::
      Runnable(Start(initial, k), run) ==> !Stranded(Run(Start(initial, k), run))
  }

  /** The gate loses no wake-up, in any interleaving with any adds and closes, exactly when at most one goroutine
      takes. */
  lemma NoLostWakeupIff(k: nat)
    ensures NeverStrands(k) <==> k <= 1
  {
    if k <= 1 {
      forall initial: nat, run: seq<Step> | Runnable(Start(initial, k), run)
        ensures !Stranded(Run(Start(initial, k), run))
      {
        LoneTakerNeverStranded(Start(initial, k), run);
      }
    } else {
      SecondTakerStranded(k);
    }
  }
}
