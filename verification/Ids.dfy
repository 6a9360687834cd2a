// Stream numbers: a uint32 counter that steps by two, starts odd on the client and even on
// the server, wraps, and is carried from one client endpoint to the next.

module Ids {
  import opened Wire

  const MODULUS := 0x1_0000_0000
  const HALF := 0x8000_0000

  /** `allocID`: the number handed out and the counter left behind. A zero counter means "not started". */
  function Alloc(client: bool, next: u32): (r: (u32, u32)) {
    var id := if next == 0 then (if client then 1 else 2) else next;
    (id, (id + 2) % MODULUS)
  }

  /** The counter is unstarted or has its side's parity. */
  predicate Sane(client: bool, next: u32) {
    next == 0 || next % 2 == if client then 1 else 0
  }

  /** A handed-out number is never 0 and always of its side's parity, also across the wrap. */
  lemma AllocKeepsParity(client: bool, next: u32)
    requires Sane(client, next)
    ensures Alloc(client, next).0 != 0 && Alloc(client, next).0 % 2 == (if client then 1 else 0)
    ensures Sane(client, Alloc(client, next).1)
    ensures next != 0 ==> Alloc(client, next).0 == next
  {
    var id := Alloc(client, next).0;
    assert (id + 2) % MODULUS == if id + 2 >= MODULUS then id + 2 - MODULUS else id + 2;
  }

  /** The counter after n allocations of one side, and the n-th number it hands out. */
  function Counter(client: bool, n: nat): u32 {
    if n == 0 then 0 else Alloc(client, Counter(client, n - 1)).1
  }

  function Nth(client: bool, n: nat): u32 {
    Alloc(client, Counter(client, n)).0
  }

  /** The length of the cycle: the server never hands out 0, so its cycle is one shorter. */
  function Period(client: bool): nat {
    if client then HALF else HALF - 1
  }

  function First(client: bool): int {
    if client then 1 else 2
  }

  lemma {:induction false} NthClosedForm(client: bool, n: nat)
    ensures Nth(client, n) == First(client) + 2 * (n % Period(client))
    ensures Nth(client, n) == if client then 1 + 2 * (n % 0x8000_0000) else 2 + 2 * (n % 0x7FFF_FFFF)
    decreases n
  {
    if n > 0 {
      NthClosedForm(client, n - 1);
      var p := Period(client);
      var r := (n - 1) % p;
      NextResidue(n - 1, p);
      var id := First(client) + 2 * r;
      assert Nth(client, n - 1) == id;
      assert Counter(client, n) == (id + 2) % MODULUS;
      if r == p - 1 {
        if client {
          assert id + 2 == MODULUS + 1 && (MODULUS + 1) % MODULUS == 1;
        } else {
          assert id + 2 == MODULUS && MODULUS % MODULUS == 0;
        }
      } else {
        assert 0 < id + 2 < MODULUS && (id + 2) % MODULUS == id + 2;
      }
    }
  }

  lemma NextResidue(n: nat, p: nat)
    requires p > 1
    ensures (n + 1) % p == if n % p == p - 1 then 0 else n % p + 1
  {
    var q, r := n / p, n % p;
    assert n == p * q + r;
    if r == p - 1 {
      assert n + 1 == p * (q + 1);
      Residue(n + 1, p, q + 1, 0);
    } else {
      Residue(n + 1, p, q, r + 1);
    }
  }

  lemma Residue(n: nat, p: nat, q: nat, r: nat)
    requires p > 0 && n == p * q + r && r < p
    ensures n % p == r
  {
    var d := n / p - q;
    assert n == p * (n / p) + n % p;
    assert p * (n / p) - p * q == p * d;
    assert p * d == r - n % p;
    assert d >= 1 ==> p * d >= p;
    assert d <= -1 ==> p * d + p <= 0;
  }

  /** Two allocations of one counter give the same number exactly when they are a whole number of cycles apart:
      2^31 allocations on the client, one fewer on the server. */
  lemma SameNumberIff(client: bool, i: nat, j: nat)
    ensures var p: nat := if client then 0x8000_0000 else 0x7FFF_FFFF;
      && (Nth(client, i) == Nth(client, j) <==> i % p == j % p)
      && (i < j < i + p ==> Nth(client, i) != Nth(client, j))
      && Nth(client, i + p) == Nth(client, i)
  {
    var p := Period(client);
    NthClosedForm(client, i);
    NthClosedForm(client, j);
    NthClosedForm(client, i + p);
    AddPeriod(i, p);
    if i < j < i + p {
      DistinctResidues(i, j, p);
    }
  }

  lemma AddPeriod(i: nat, p: nat)
    requires p > 0
    ensures (i + p) % p == i % p
  {
    assert i == p * (i / p) + i % p;
    assert i + p == p * (i / p + 1) + i % p;
    Residue(i + p, p, i / p + 1, i % p);
  }

  lemma DistinctResidues(i: nat, j: nat, p: nat)
    requires 0 < p && i < j < i + p
    ensures i % p != j % p
  {
    var d := j / p - i / p;
    assert i == p * (i / p) + i % p && j == p * (j / p) + j % p;
    assert p * (j / p) - p * (i / p) == p * d;
    assert j - i == p * d + (j % p - i % p);
    assert d >= 1 ==> p * d >= p;
    assert d <= 0 ==> p * d <= 0;
  }

  lemma SidesNeverCollide(i: nat, j: nat)
    ensures Nth(true, i) != Nth(false, j)
  {
    NthClosedForm(true, i);
    NthClosedForm(false, j);
  }

  // ---- the counter across reconnects ---------------------------------------------------------

  /** The client's endpoints, oldest first, each with its own counter; the last one is current.
      `wired` lists the numbers that went out on a live connection, `at` the allocation each came from,
      `drawn` how many allocations the current counter stands for. */
  datatype Client = Client(counters: seq<u32>, alive: bool, wired: seq<u32>, at: seq<nat>, drawn: nat)

  datatype Step =
    | Open(ep: nat)    // some goroutine allocates on an endpoint it looked up, possibly a stale one, and sends
    | Die              // the current connection dies
    | Reconnect        // bindSession: a new endpoint continues the old counter

  predicate Enabled(c: Client, s: Step) {
    match s
    case Open(ep) => ep < |c.counters|
    case Die => true
    case Reconnect => !c.alive
  }

  function Next(c: Client, s: Step): Client
    requires Enabled(c, s)
  {
    match s
    case Open(ep) =>
      var (id, n) := Alloc(true, c.counters[ep]);
      var current := ep == |c.counters| - 1;
      var d := c.(counters := c.counters[ep := n], drawn := if current then c.drawn + 1 else c.drawn);
      if current && c.alive then d.(wired := c.wired + [id], at := c.at + [c.drawn]) else d
    case Die => c.(alive := false)
    case Reconnect => Client(c.counters + [if c.counters == [] then 0 else c.counters[|c.counters| - 1]], true,
      c.wired, c.at, c.drawn)
  }

  const NEW_CLIENT := Client([], false, [], [], 0)

  predicate Runnable(c: Client, run: seq<Step>)
    decreases |run|
  {
    run == [] || (Enabled(c, run[0]) && Runnable(Next(c, run[0]), run[1..]))
  }

  function Run(c: Client, run: seq<Step>): Client
    requires Runnable(c, run)
    decreases |run|
  {
    if run == [] then c else Run(Next(c, run[0]), run[1..])
  }

  /** The current counter stands for `drawn` allocations, and every wired number is the one its allocation gives. */
  predicate Tracks(c: Client) {
    && (c.counters == [] ==> c.drawn == 0 && !c.alive)
    && (c.counters != [] ==> c.counters[|c.counters| - 1] == Counter(true, c.drawn))
    && |c.at| == |c.wired|
    && (forall i :: 0 <= i < |c.at| ==> c.at[i] < c.drawn && c.wired[i] == Nth(true, c.at[i]))
    && (forall i, j :: 0 <= i < j < |c.at| ==> c.at[i] < c.at[j])
  }

  lemma {:induction false} TracksForever(c: Client, run: seq<Step>)
    requires Tracks(c) && Runnable(c, run)
    ensures Tracks(Run(c, run))
    decreases |run|
  {
    if run != [] {
      TracksForever(Next(c, run[0]), run[1..]);
    }
  }

  /** Over any number of reconnects, with stale endpoints still being asked for numbers, the numbers a client puts on
      live connections are odd, and pairwise distinct as long as it has made at most 2^31 allocations. */
  lemma WiredNumbersDistinct(run: seq<Step>)
    requires Runnable(NEW_CLIENT, run)
    ensures var c := Run(NEW_CLIENT, run);
      && (forall i :: 0 <= i < |c.wired| ==> c.wired[i] % 2 == 1)
      && (c.drawn <= 0x8000_0000 ==> forall i, j :: 0 <= i < j < |c.wired| ==> c.wired[i] != c.wired[j])
  {
    TracksForever(NEW_CLIENT, run);
    var c := Run(NEW_CLIENT, run);
    forall i | 0 <= i < |c.wired| ensures c.wired[i] % 2 == 1 {
      NthClosedForm(true, c.at[i]);
    }
    if c.drawn <= HALF {
      forall i, j | 0 <= i < j < |c.wired| ensures c.wired[i] != c.wired[j] {
        SameNumberIff(true, c.at[i], c.at[j]);
      }
    }
  }
}
