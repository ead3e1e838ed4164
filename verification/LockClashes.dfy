/** The pairs of handlers that can block one another for good, with runs of their programs in which they
    do; and that no others can. */
module LockClashes {
  import opened Locks
  import opened LockPrograms

  /** Every task is about to run the program of its handler on some path. */
  ghost predicate AsWritten(ts: seq<Task>) {
    forall i :: 0 <= i < |ts| ==> Written(ts[i].handler, ts[i].rest)
  }

  ghost predicate DeadlockFreeAsWritten(mix: set<Handler>) {
    forall trace :: Run(trace, mix) && AsWritten(trace[0]) ==> !Stuck(trace[|trace| - 1])
  }

  lemma WrittenProper(h: Handler, program: seq<Step>)
    requires Written(h, program)
    ensures Proper(h, Outside, program)
  {
    var p :| program == Program(h, p);
    ProgramProper(h, p);
  }

  // ---------------------------------------------------------------- two tasks

  ghost function Stepped(t: Task): Task
    requires t.rest != [] && Follows(t.position, t.rest[0])
  {
    Task(t.handler, Moved(t.position, t.rest[0]), t.rest[1..])
  }

  /** The first of two tasks takes a step. */
  lemma Go(trace: seq<seq<Task>>, mix: set<Handler>, t: Task, u: Task) returns (trace': seq<seq<Task>>)
    requires Run(trace, mix) && trace[|trace| - 1] == [t, u]
    requires t.rest != [] && Follows(t.position, t.rest[0])
    requires t.rest[0].Down? ==> !Holds(t.position, t.rest[0].lock) && !Holds(u.position, t.rest[0].lock)
    ensures Run(trace', mix) && trace'[0] == trace[0] && trace'[|trace'| - 1] == [Stepped(t), u]
  {
    var last := [Stepped(t), u];
    trace' := trace + [last];
    assert last == [t, u][0 := Stepped(t)];
    assert Steps([t, u], last, 0);
    forall k | 0 < k < |trace'| ensures SomeStep(trace'[k - 1], trace'[k]) {
      if k < |trace| {
        assert SomeStep(trace[k - 1], trace[k]);
      }
    }
  }

  lemma GoSecond(trace: seq<seq<Task>>, mix: set<Handler>, t: Task, u: Task) returns (trace': seq<seq<Task>>)
    requires Run(trace, mix) && trace[|trace| - 1] == [t, u]
    requires u.rest != [] && Follows(u.position, u.rest[0])
    requires u.rest[0].Down? ==> !Holds(u.position, u.rest[0].lock) && !Holds(t.position, u.rest[0].lock)
    ensures Run(trace', mix) && trace'[0] == trace[0] && trace'[|trace'| - 1] == [t, Stepped(u)]
  {
    var last := [t, Stepped(u)];
    trace' := trace + [last];
    assert last == [t, u][1 := Stepped(u)];
    assert Steps([t, u], last, 1);
    forall k | 0 < k < |trace'| ensures SomeStep(trace'[k - 1], trace'[k]) {
      if k < |trace| {
        assert SomeStep(trace[k - 1], trace[k]);
      }
    }
  }

  /** The second task runs by itself, outside of all sections again after `a`. */
  lemma {:induction false} RunSecond(trace: seq<seq<Task>>, mix: set<Handler>, t: Task, h: Handler, p: Position,
      a: seq<Step>, b: seq<Step>, q: Position)
    returns (trace': seq<seq<Task>>)
    requires Run(trace, mix) && trace[|trace| - 1] == [t, Task(h, p, a + b)] && t.position == Outside
    requires Reaches(h, p, a, q)
    ensures Run(trace', mix) && trace'[0] == trace[0] && trace'[|trace'| - 1] == [t, Task(h, q, b)]
    decreases |a|
  {
    if a == [] {
      assert a + b == b;
      trace' := trace;
    } else {
      var u := Task(h, p, a + b);
      assert (a + b)[0] == a[0] && (a + b)[1..] == a[1..] + b;
      trace' := GoSecond(trace, mix, t, u);
      trace' := RunSecond(trace', mix, t, h, Moved(p, a[0]), a[1..], b, q);
    }
  }

  /** The first task goes down its chain as far as depth `k`, past the second task. */
  lemma {:induction false} Descend(trace: seq<seq<Task>>, mix: set<Handler>, h: Handler, c: Chain, rest: seq<Step>,
      n: nat, k: nat, u: Task)
    returns (trace': seq<seq<Task>>)
    requires n <= k < 99 && k <= |rest| && Sectional(c)
    requires Run(trace, mix) && trace[|trace| - 1] == [Task(h, At(c, n), rest[n..]), u]
    requires forall j :: n <= j < k ==>
      rest[j] == Down(c, LockAt(c, j)) && Place(c, LockAt(c, j)) == j && !Holds(u.position, LockAt(c, j))
    ensures Run(trace', mix) && trace'[0] == trace[0]
    ensures trace'[|trace'| - 1] == [Task(h, At(c, k), rest[k..]), u]
    decreases k - n
  {
    trace' := trace;
    if n < k {
      assert rest[n..][0] == rest[n] && rest[n..][1..] == rest[n + 1..];
      trace' := Go(trace, mix, Task(h, At(c, n), rest[n..]), u);
      trace' := Descend(trace', mix, h, c, rest, n + 1, k, u);
    }
  }

  /** Each of two tasks waits for a lock that the other holds. */
  lemma FaceToFace(t: Task, u: Task)
    requires t.rest != [] && t.rest[0].Down? && Holds(u.position, t.rest[0].lock)
    requires u.rest != [] && u.rest[0].Down? && Holds(t.position, u.rest[0].lock)
    ensures Stuck([t, u])
  {
    var ts := [t, u];
    assert ts[0].rest != [];
    assert Blocked(ts, 0) by { assert Holds(ts[1].position, ts[0].rest[0].lock); }
    assert Blocked(ts, 1) by { assert Holds(ts[0].position, ts[1].rest[0].lock); }
  }

  lemma StartTwo(mix: set<Handler>, t: Task, g: Handler, program: seq<Step>) returns (trace: seq<seq<Task>>)
    requires t.handler in mix && t.position == Outside && Proper(t.handler, Outside, t.rest)
    requires g in mix && Proper(g, Outside, program)
    ensures Run(trace, mix) && trace == [[t, Task(g, Outside, program)]]
  {
    trace := [[t, Task(g, Outside, program)]];
  }

  /** The second task runs alone until it has taken `l0`. */
  lemma Begin(mix: set<Handler>, t: Task, g: Handler, a: seq<Step>, d: Chain, l0: Lock, rest: seq<Step>)
    returns (trace: seq<seq<Task>>)
    requires t.handler in mix && t.position == Outside && Proper(t.handler, Outside, t.rest) && g in mix
    requires Reaches(g, Outside, a, Outside) && Proper(g, Outside, a + ([Down(d, l0)] + rest)) && Place(d, l0) == 0
    ensures Run(trace, mix) && trace[0] == [t, Task(g, Outside, a + ([Down(d, l0)] + rest))]
    ensures trace[|trace| - 1] == [t, Task(g, Within(d, 1), rest)]
  {
    var program := [Down(d, l0)] + rest;
    var start := StartTwo(mix, t, g, a + program);
    var near := RunSecond(start, mix, t, g, Outside, a, program, Outside);
    trace := TakeFirst(near, mix, t, g, d, l0, rest);
  }

  lemma TakeFirst(trace: seq<seq<Task>>, mix: set<Handler>, t: Task, g: Handler, d: Chain, l0: Lock, rest: seq<Step>)
    returns (trace': seq<seq<Task>>)
    requires Run(trace, mix) && trace[|trace| - 1] == [t, Task(g, Outside, [Down(d, l0)] + rest)]
    requires t.position == Outside && Place(d, l0) == 0
    ensures Run(trace', mix) && trace'[0] == trace[0]
    ensures trace'[|trace'| - 1] == [t, Task(g, Within(d, 1), rest)]
  {
    assert ([Down(d, l0)] + rest)[1..] == rest;
    trace' := GoSecond(trace, mix, t, Task(g, Outside, [Down(d, l0)] + rest));
  }

  /** The program begins by going down the chain, at least as far as to take its lock at place `k`. */
  ghost predicate GoesDown(program: seq<Step>, c: Chain, k: nat) {
    k < |program| && forall j :: 0 <= j <= k ==> program[j] == Down(c, LockAt(c, j)) && Place(c, LockAt(c, j)) == j
  }

  /** A task going down `c` as far as `k` meets one that has taken the next lock of `c` and now wants
      one that `c` has passed. */
  lemma ClashRun(mix: set<Handler>, h: Handler, c: Chain, program: seq<Step>, k: nat,
                 g: Handler, a: seq<Step>, d: Chain, l0: Lock, l1: Lock, b: seq<Step>)
    returns (trace: seq<seq<Task>>)
    requires h in mix && g in mix && Sectional(c) && k < 99
    requires Proper(h, Outside, program) && GoesDown(program, c, k) && LockAt(c, k) == l0
    requires Reaches(g, Outside, a, Outside) && Proper(g, Outside, a + ([Down(d, l0)] + ([Down(d, l1)] + b)))
    requires Place(d, l0) == 0 && Place(c, l1) < k
    ensures Run(trace, mix) && Stuck(trace[|trace| - 1])
    ensures trace[0] == [Task(h, Outside, program), Task(g, Outside, a + ([Down(d, l0)] + ([Down(d, l1)] + b)))]
  {
    trace := Begin(mix, Task(h, Outside, program), g, a, d, l0, [Down(d, l1)] + b);
    trace := Meet(trace, mix, h, c, program, k, g, d, l0, l1, b);
  }

  /** The second task has taken `l0`; now the first one goes down to it. */
  lemma Meet(trace: seq<seq<Task>>, mix: set<Handler>, h: Handler, c: Chain, program: seq<Step>, k: nat,
             g: Handler, d: Chain, l0: Lock, l1: Lock, b: seq<Step>)
    returns (trace': seq<seq<Task>>)
    requires Run(trace, mix)
    requires trace[|trace| - 1] == [Task(h, Outside, program), Task(g, Within(d, 1), [Down(d, l1)] + b)]
    requires k < 99 && GoesDown(program, c, k) && LockAt(c, k) == l0 && Sectional(c)
    requires Place(d, l0) == 0 && Place(c, l1) < k
    ensures Run(trace', mix) && trace'[0] == trace[0] && Stuck(trace'[|trace'| - 1])
  {
    var u := Task(g, Within(d, 1), [Down(d, l1)] + b);
    assert Place(c, l0) == k;
    HoldsFirst(c, d, l0, k);
    assert program[0..] == program;
    trace' := Descend(trace, mix, h, c, program, 0, k, u);
    FaceToFace(Task(h, At(c, k), program[k..]), u);
  }

  /** Two programs as written that get stuck. */
  lemma NotFree(mix: set<Handler>, trace: seq<seq<Task>>, t: Task, u: Task)
    requires Run(trace, mix) && trace[0] == [t, u] && Stuck(trace[|trace| - 1])
    requires Written(t.handler, t.rest) && Written(u.handler, u.rest)
    ensures !DeadlockFreeAsWritten(mix)
  {
    assert AsWritten(trace[0]);
  }

  lemma HoldsFirst(c: Chain, d: Chain, l0: Lock, k: nat)
    requires Place(d, l0) == 0 && forall j :: 0 <= j < k ==> LockAt(c, j) != l0
    ensures forall j :: 0 <= j < k ==> !Holds(Within(d, 1), LockAt(c, j))
  {
    forall j | 0 <= j < k ensures !Holds(Within(d, 1), LockAt(c, j)) {
      if Place(d, LockAt(c, j)) == 0 {
        PlaceInjective(d, LockAt(c, j), l0);
      }
    }
  }

  // ---------------------------------------------------------------- the clashes

  /** The program of a path whose last round is the one that matters. */
  lemma {:induction false} FlatLast(pre: seq<seq<Step>>, x: seq<Step>)
    ensures Flat(pre + [x]) == Flat(pre) + x
  {
    if pre == [] {
      assert [x][1..] == [] && x + [] == x && [] + [x] == [x] && [] + x == x;
    } else {
      FlatLast(pre[1..], x);
      assert (pre + [x])[1..] == pre[1..] + [x];
      assert pre[0] + (Flat(pre[1..]) + x) == (pre[0] + Flat(pre[1..])) + x;
    }
  }

  lemma LastRound(g: Handler, p: Path, pre: seq<seq<Step>>, x: seq<Step>)
    requires Rounds(g, p) == pre + [x] && p.stop == |pre| + 1
    ensures Written(g, Flat(pre) + x) && Reaches(g, Outside, Flat(pre), Outside)
  {
    LastWritten(g, p, pre, x);
    RoundsReach(g, p);
    assert forall r :: r in pre ==> r in pre + [x];
    FlatReaches(g, pre);
  }

  lemma LastWritten(g: Handler, p: Path, pre: seq<seq<Step>>, x: seq<Step>)
    requires Rounds(g, p) == pre + [x] && p.stop == |pre| + 1
    ensures Written(g, Flat(pre) + x)
  {
    var rounds := Rounds(g, p);
    FlatLast(pre, x);
    assert rounds[..p.stop] == rounds;
    assert Flat(pre) + x == Program(g, p);
  }

  lemma OneRound(h: Handler, p: Path, x: seq<Step>)
    requires Rounds(h, p) == [x] && p.stop == 1
    ensures Written(h, x)
  {
    var pre: seq<seq<Step>> := [];
    assert pre + [x] == [x];
    LastRound(h, p, pre, x);
    assert Flat(pre) + x == x;
  }

  const PATH := Path(true, true, true, true, AudioKind, 0, 0, [], [], 5)

  lemma DestroyWritten(h: Handler, p: Path, program: seq<Step>)
    requires h == DestroyGroup && p.found && p.stop == 1 && program == DestroyProgram()
    ensures Written(h, program)
  {
    OneRound(h, p, program);
  }

  lemma DestroyGoesDown()
    ensures GoesDown(DestroyProgram(), Destroy, 3) && Written(DestroyGroup, DestroyProgram())
  {
    DestroyWritten(DestroyGroup, PATH.(stop := 1), DestroyProgram());
    forall j | 0 <= j <= 3
      ensures |DestroyProgram()| > 3
      ensures DestroyProgram()[j] == Down(Destroy, LockAt(Destroy, j)) && Place(Destroy, LockAt(Destroy, j)) == j
    {
      DownAt(Destroy, 0, 7, j);
      DestroyPlaces(j);
    }
  }

  lemma RelayCrosses(c: Chain, d: Chain)
    requires c == Destroy && d == Answer
    ensures Sectional(c) && LockAt(c, 3) == RelayRouters && Place(d, RelayRouters) == 0 && Place(c, Relays) < 3
  {
  }

  lemma DestroyMeets(mix: set<Handler>, h: Handler, g: Handler, c: Chain, d: Chain, program: seq<Step>, a: seq<Step>,
      b: seq<Step>)
    returns (trace: seq<seq<Task>>)
    requires h in mix && g in mix && c == Destroy && d == Answer
    requires GoesDown(program, c, 3) && Proper(h, Outside, program)
    requires Reaches(g, Outside, a, Outside)
      && Proper(g, Outside, a + ([Down(d, RelayRouters)] + ([Down(d, Relays)] + b)))
    ensures Run(trace, mix) && Stuck(trace[|trace| - 1])
    ensures trace[0] == [Task(h, Outside, program),
      Task(g, Outside, a + ([Down(d, RelayRouters)] + ([Down(d, Relays)] + b)))]
  {
    RelayCrosses(c, d);
    trace := ClashRun(mix, h, c, program, 3, g, a, d, RelayRouters, Relays, b);
  }

  lemma DestroyAnswers(mix: set<Handler>, a: seq<Step>)
    requires DestroyGroup in mix && RelayProducer in mix
    requires GoesDown(DestroyProgram(), Destroy, 3)
    requires Written(DestroyGroup, DestroyProgram()) && Proper(DestroyGroup, Outside, DestroyProgram())
    requires Written(RelayProducer, a + AnswerRound()) && Proper(RelayProducer, Outside, a + AnswerRound())
    requires Reaches(RelayProducer, Outside, a, Outside)
    ensures !DeadlockFreeAsWritten(mix)
  {
    var trace := DestroyMeets(mix, DestroyGroup, RelayProducer, Destroy, Answer, DestroyProgram(), a,
      [Down(Answer, PendingRelays)] + Ups(3));
    NotFree(mix, trace, Task(DestroyGroup, Outside, DestroyProgram()), Task(RelayProducer, Outside, a + AnswerRound()));
  }

  /** Tearing a room down and answering a relay request can block each other. */
  lemma DestroyClash(mix: set<Handler>)
    requires DestroyGroup in mix && RelayProducer in mix
    ensures !DeadlockFreeAsWritten(mix)
  {
    var p := PATH.(kept := false, kind := NoKind);
    var pre := [Touch(Relay, Relays), Touch(Room, RoomRouters), Nest(Load, Routers2Workers, Loads),
      Touch(Router, Routers)];
    assert Rounds(RelayProducer, p) == pre + [AnswerRound()];
    LastRound(RelayProducer, p, pre, AnswerRound());
    DestroyGoesDown();
    WrittenProper(DestroyGroup, DestroyProgram());
    WrittenProper(RelayProducer, Flat(pre) + AnswerRound());
    DestroyAnswers(mix, Flat(pre));
  }

  lemma LeaveGoesDown(k: nat)
    requires k < 10
    ensures GoesDown(LeaveProgram(0), Leave(Transport2Router), k) && Written(Disconnect, LeaveProgram(0))
  {
    var c := Leave(Transport2Router);
    OneRound(Disconnect, PATH.(stop := 1), LeaveProgram(0));
    DownAt(c, 0, 10, k);
    forall j | 0 <= j <= k ensures LeaveProgram(0)[j] == Down(c, LockAt(c, j)) && Place(c, LockAt(c, j)) == j {
      DownAt(c, 0, 10, j);
      LeavePlaces(Transport2Router, j);
    }
  }

  lemma BookPlace(l: Lock)
    requires LeavePlace(l) < 10
    ensures Place(Leave(Transport2Router), l) == LeavePlace(l)
    ensures LockAt(Leave(Transport2Router), LeavePlace(l)) == l
    ensures forall j :: 0 <= j < LeavePlace(l) ==> LockAt(Leave(Transport2Router), j) != l
  {
    LeaveAtPlace(Transport2Router, l);
    forall j | 0 <= j < LeavePlace(l) ensures LockAt(Leave(Transport2Router), j) != l {
      LeavePlaces(Transport2Router, j);
    }
  }

  /** Letting a peer go and a handler that takes two of its books the other way round. */
  lemma LeaveClash(mix: set<Handler>, g: Handler, p: Path, pre: seq<seq<Step>>, d: Chain, l0: Lock, l1: Lock,
      b: seq<Step>)
    requires Disconnect in mix && g in mix
    requires Rounds(g, p) == pre + [[Down(d, l0)] + ([Down(d, l1)] + b)] && p.stop == |pre| + 1
    requires Place(d, l0) == 0 && Place(d, l1) == 1 && LeavePlace(l1) < LeavePlace(l0) < 10
    ensures !DeadlockFreeAsWritten(mix)
  {
    var k := LeavePlace(l0);
    LastRound(g, p, pre, [Down(d, l0)] + ([Down(d, l1)] + b));
    LeaveGoesDown(k);
    BookPlace(l0);
    BookPlace(l1);
    LeaveBooks(mix, Disconnect, Leave(Transport2Router), LeaveProgram(0), k, g, Flat(pre), d, l0, l1, b);
  }

  lemma LeaveBooks(mix: set<Handler>, h: Handler, c: Chain, program: seq<Step>, k: nat, g: Handler, a: seq<Step>,
      d: Chain, l0: Lock, l1: Lock, b: seq<Step>)
    requires h in mix && g in mix
    requires Sectional(c) && k < 99 && GoesDown(program, c, k) && Written(h, program)
    requires Reaches(g, Outside, a, Outside) && Written(g, a + ([Down(d, l0)] + ([Down(d, l1)] + b)))
    requires LockAt(c, k) == l0 && Place(d, l0) == 0 && Place(c, l1) < k
    ensures !DeadlockFreeAsWritten(mix)
  {
    var other := a + ([Down(d, l0)] + ([Down(d, l1)] + b));
    WrittenProper(h, program);
    WrittenProper(g, other);
    var trace := ClashRun(mix, h, c, program, k, g, a, d, l0, l1, b);
    NotFree(mix, trace, Task(h, Outside, program), Task(g, Outside, other));
  }

  lemma NestSplit(d: Chain, l0: Lock, l1: Lock)
    ensures Nest(d, l0, l1) == [Down(d, l0)] + ([Down(d, l1)] + [Up, Up])
  {
  }

  lemma ProduceClash(mix: set<Handler>)
    requires Disconnect in mix && RelayProducer in mix
    ensures !DeadlockFreeAsWritten(mix)
  {
    var pre := [Touch(Relay, Relays), Touch(Relay, Relays), Touch(Room, RoomRouters), Touch(RelayRouter, RelayRouters)];
    assert Rounds(RelayProducer, PATH) == pre + [Nest(Audio, AudioProducers, Producers)];
    NestSplit(Audio, AudioProducers, Producers);
    LeaveClash(mix, RelayProducer, PATH, pre, Audio, AudioProducers, Producers, [Up, Up]);
  }

  /** A request for one producer that can be consumed. */
  lemma OneConsumable(h: Handler, listed: Chain, producers: Lock, c: Chain, consumed: Lock)
    ensures ConsumeRounds(listed, producers, c, consumed, [[Consumable]])
         == [Touch(listed, producers), Touch(c, consumed), Touch(Transport, Transport2Router),
           Touch(Router, Routers)] + [Nest(c, consumed, Consumers)]
  {
    assert [Consumable][1..] == [] && [[Consumable]][1..] == [];
    assert LookRounds(c, consumed, []) == [] && ConsumeRounds(listed, producers, c, consumed, []) == [];
  }

  lemma AudioClash(mix: set<Handler>)
    requires Disconnect in mix && AudioRequest in mix
    ensures !DeadlockFreeAsWritten(mix)
  {
    OneConsumable(AudioRequest, Audio, AudioProducers, ConsumeAudio, AudioConsumed);
    var pre := [Touch(Audio, AudioProducers), Touch(ConsumeAudio, AudioConsumed), Touch(Transport, Transport2Router),
      Touch(Router, Routers)];
    NestSplit(ConsumeAudio, AudioConsumed, Consumers);
    var p := PATH.(lists := [[Consumable]]);
    LeaveClash(mix, AudioRequest, p, pre, ConsumeAudio, AudioConsumed, Consumers, [Up, Up]);
  }

  lemma VideoClash(mix: set<Handler>)
    requires Disconnect in mix && VideoRequest in mix
    ensures !DeadlockFreeAsWritten(mix)
  {
    OneConsumable(VideoRequest, Video, VideoProducers, ConsumeVideo, VideoConsumed);
    var pre := [Touch(Video, VideoProducers), Touch(ConsumeVideo, VideoConsumed), Touch(Transport, Transport2Router),
      Touch(Router, Routers)];
    NestSplit(ConsumeVideo, VideoConsumed, Consumers);
    var p := PATH.(lists := [[Consumable]]);
    LeaveClash(mix, VideoRequest, p, pre, ConsumeVideo, VideoConsumed, Consumers, [Up, Up]);
  }

  lemma MovementClash(mix: set<Handler>)
    requires Disconnect in mix && MovementRequest in mix
    ensures !DeadlockFreeAsWritten(mix)
  {
    var p := PATH.(count := 1, stop := 1);
    assert Rounds(MovementRequest, p) == [] + [Nest(ConsumeMovement, MovementConsumed, DataConsumers)];
    NestSplit(ConsumeMovement, MovementConsumed, DataConsumers);
    LeaveClash(mix, MovementRequest, p, [], ConsumeMovement, MovementConsumed, DataConsumers, [Up, Up]);
  }

  lemma EventClash(mix: set<Handler>)
    requires Disconnect in mix && EventRequest in mix
    ensures !DeadlockFreeAsWritten(mix)
  {
    var p := PATH.(count := 1, stop := 1);
    assert Rounds(EventRequest, p) == [] + [Nest(ConsumeEvent, EventConsumed, DataConsumers)];
    NestSplit(ConsumeEvent, EventConsumed, DataConsumers);
    LeaveClash(mix, EventRequest, p, [], ConsumeEvent, EventConsumed, DataConsumers, [Up, Up]);
  }

  lemma ProduceMediaClash(mix: set<Handler>)
    requires Disconnect in mix && ProduceMedia in mix
    ensures !DeadlockFreeAsWritten(mix)
  {
    MediaOutSplit();
    LeaveClash(mix, ProduceMedia, PATH.(stop := 1), [], AudioOut(Transport2Router), AudioProducers, Producers, Ups(2));
  }

  lemma MediaOutSplit()
    ensures var c := AudioOut(Transport2Router);
      Rounds(ProduceMedia, PATH.(stop := 1)) == [] + [[Down(c, AudioProducers)] + ([Down(c, Producers)] + Ups(2))]
  {
    var c := AudioOut(Transport2Router);
    DownsTwo(c, 2);
    assert Downs(c, 2, 2) == [] && [Down(c, Producers)] + [] == [Down(c, Producers)];
    assert OutProgram(true, 0) == [Down(c, AudioProducers)] + ([Down(c, Producers)] + Ups(2));
  }

  lemma DownsTwo(c: Chain, k: nat)
    requires k >= 2
    ensures Downs(c, 0, k) == [Down(c, LockAt(c, 0))] + ([Down(c, LockAt(c, 1))] + Downs(c, 2, k))
  {
    assert Downs(c, 1, k) == [Down(c, LockAt(c, 1))] + Downs(c, 2, k);
  }

  lemma ProduceDataClash(mix: set<Handler>, h: Handler, c: Chain, consumed: Lock)
    requires Disconnect in mix && h in mix
    requires (h == ProduceMovement && c == MovementOut && consumed == MovementConsumed)
      || (h == ProduceEvents && c == EventOut && consumed == EventConsumed)
    ensures !DeadlockFreeAsWritten(mix)
  {
    var pre := [Touch(Transport, Transport2Router), Touch(Relay, Relays), Touch(Endpoint, Endpoints)];
    DataOutSplit(c, consumed);
    DataOutOf(h, c, PATH.(stop := 4));
    LeaveClash(mix, h, PATH.(stop := 4), pre, c, consumed, DataProducers, Downs(c, 2, 3) + Ups(3));
  }

  lemma DataOutOf(h: Handler, c: Chain, p: Path)
    requires (h == ProduceMovement && c == MovementOut) || (h == ProduceEvents && c == EventOut)
    ensures Rounds(h, p) == DataOutRounds(c)
  {
  }

  lemma DataOutSplit(c: Chain, consumed: Lock)
    requires (c == MovementOut && consumed == MovementConsumed) || (c == EventOut && consumed == EventConsumed)
    ensures Place(c, consumed) == 0 && Place(c, DataProducers) == 1
      && LeavePlace(DataProducers) < LeavePlace(consumed) < 10
    ensures DataOutRounds(c) == [Touch(Transport, Transport2Router), Touch(Relay, Relays), Touch(Endpoint, Endpoints)]
      + [[Down(c, consumed)] + ([Down(c, DataProducers)] + (Downs(c, 2, 3) + Ups(3)))]
  {
    DownsTwo(c, 3);
    assert Downs(c, 0, 3) + Ups(3) == [Down(c, consumed)] + ([Down(c, DataProducers)] + (Downs(c, 2, 3) + Ups(3)));
  }

  /** Tasks of some handlers can block one another for good exactly if two of the handlers clash -
      whether the tasks run the handlers' programs, or anything that keeps to the same sections. */
  lemma DeadlockFreeIff(mix: set<Handler>)
    ensures DeadlockFreeAsWritten(mix) <==> Peaceful(mix)
    ensures DeadlockFree(mix) <==> Peaceful(mix)
  {
    if Peaceful(mix) {
      PeacefulIsDeadlockFree(mix);
    } else {
      var a, b :| a in mix && b in mix && Clash(a, b);
      if a == DestroyGroup {
        DestroyClash(mix);
      } else {
        match b
        case RelayProducer => ProduceClash(mix);
        case AudioRequest => AudioClash(mix);
        case VideoRequest => VideoClash(mix);
        case MovementRequest => MovementClash(mix);
        case EventRequest => EventClash(mix);
        case ProduceMedia => ProduceMediaClash(mix);
        case ProduceMovement => ProduceDataClash(mix, ProduceMovement, MovementOut, MovementConsumed);
        case ProduceEvents => ProduceDataClash(mix, ProduceEvents, EventOut, EventConsumed);
      }
    }
  }
}
