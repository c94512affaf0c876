/** The course a participant takes through its machine, and why it ends: the clock advances whenever a
    poll finds nothing, and every message is taken once. */
module JoinstrCourse {
  import opened Bitcoin
  import opened Nostr
  import opened CoinJoinSpec
  import opened Signer
  import opened JoinstrSpec

  const LAST_MOMENT: u64 := U64_LIMIT - 1

  /** A run of the machine: its step, first state and first tick. Before tick `k`, `queued(k)` messages
      wait that can be taken before the clock moves. */
  datatype Course = Course(
    step: (State, Tick) -> State, start: State, ticks: nat -> Tick, from: nat, queued: nat -> nat)

  ghost function StateAt(c: Course, k: nat): State
    requires c.from <= k
  {
    Run(c.step, c.start, c.ticks, c.from, k)
  }

  /** The course takes the steps of a machine with this signer. */
  ghost predicate StepsWith(c: Course, signer: Option<Wallet>) {
    forall s: State, t: Tick {:trigger Step(signer, s, t)} :: c.step(s, t) == Step(signer, s, t)
  }

  lemma StepperSteps(c: Course, signer: Option<Wallet>)
    requires c.step == Stepper(signer)
    ensures StepsWith(c, signer)
  {}

  lemma Advance(c: Course, signer: Option<Wallet>, k: nat, s: State)
    requires c.from <= k && StepsWith(c, signer) && StateAt(c, k) == s
    ensures StateAt(c, k + 1) == Step(signer, s, c.ticks(k))
  {}

  /** The clock never goes back. While it stands, a poll that finds a message takes one, one that finds
      none makes the clock move, and nothing else changes the queue. */
  ghost predicate FedAt(c: Course, k: nat)
    requires c.from <= k
  {
    var t, next := c.ticks(k), c.ticks(k + 1).now;
    var polls := Polls(StateAt(c, k), t);
    && t.now <= next
    && (polls && t.recv.NoMessage? && t.now < LAST_MOMENT ==> t.now < next)
    && (polls && !t.recv.NoMessage? && t.now == next < LAST_MOMENT ==> c.queued(k + 1) + 1 == c.queued(k))
    && (!polls && t.now == next < LAST_MOMENT ==> c.queued(k + 1) == c.queued(k))
  }

  ghost predicate Fed(c: Course) {
    forall k: nat {:trigger FedAt(c, k)} :: c.from <= k ==> FedAt(c, k)
  }

  function Left(until: u64, now: u64): nat {
    if now < until then until - now else 0
  }

  /** After tick `k` less time is left until the deadline, or as much time and fewer messages. */
  ghost predicate Nearer(c: Course, until: u64, k: nat) {
    var left, next := Left(until, c.ticks(k).now), Left(until, c.ticks(k + 1).now);
    next < left || (next == left && c.queued(k + 1) < c.queued(k))
  }

  lemma PollBringsNearer(c: Course, until: u64, k: nat)
    requires c.from <= k && Fed(c) && Polls(StateAt(c, k), c.ticks(k)) && c.ticks(k).now < until
    ensures Nearer(c, until, k)
  {
    assert FedAt(c, k);
  }

  // ---------------------------------------------------------------- every course ends

  predicate Halted(s: State) {
    s.pc.Finished? || s.pc.Failed? || s.pc.Aborted?
  }

  function Deadline(s: State): u64 {
    match s.pc
    case Joining(until) => until
    case PeerRound(until, _, _, _) => until
    case OutputRound(until, _, _) => until
    case InputRound(until) => until
    case _ => 0
  }

  /** How many rounds are still to come. */
  function Rank(s: State): nat {
    match s.pc
    case Joining(_) => 12
    case DummyJoin(_, _, _) => 11
    case PeerRound(_, _, _, _) => 10
    case OwnOutput(_, _) => 9
    case OutputRound(_, _, _) => 8
    case OutputCheck(_, _, _) => 7
    case SignRound => 6
    case InputDeadline => 5
    case InputStart(_) => 4
    case InputRound(_) => 3
    case InputCheck(_) => 2
    case Broadcasting => 1
    case Finished => 0
    case Failed(_) => 0
    case Aborted(_) => 0
  }

  /** A step goes on to a later round, or it polled and waits for the same deadline. */
  ghost predicate Proceeds(s: State, s': State, t: Tick) {
    Rank(s') < Rank(s) || (Rank(s') == Rank(s) && Deadline(s') == Deadline(s) && Polls(s, t) && t.now < Deadline(s))
  }

  lemma GatheringProceeds(s: State, t: Tick)
    requires s.pc.Joining? || s.pc.DummyJoin? || s.pc.PeerRound?
    ensures Proceeds(s, StepGathering(s, t), t)
  {}

  lemma OutputsProceed(s: State, t: Tick)
    requires s.pc.OwnOutput? || s.pc.OutputRound? || s.pc.OutputCheck?
    ensures Proceeds(s, StepOutputs(s, t), t)
  {}

  lemma SignRoundProceeds(n: Inner, signer: Option<Wallet>, t: Tick)
    ensures Proceeds(State(n, SignRound), StepSignRound(n, signer, t), t)
  {}

  lemma RegisteringGoesOn(n: Inner, until: u64, i: InputDataSigned)
    requires n.coinjoin.Some?
    ensures var pc := RegisterAndFinalize(n, until, i).pc;
            pc == InputRound(until) || pc == InputCheck(until) || pc.Aborted?
  {}

  lemma InputRoundProceeds(n: Inner, until: u64, t: Tick)
    ensures Proceeds(State(n, InputRound(until)), StepInputRound(n, until, t), t)
  {
    if n.coinjoin.Some? {
      match Received(t)
      case Some(PsbtMessage(p)) =>
        if FromPsbt(p).PsbtOk? {
          RegisteringGoesOn(n, until, FromPsbt(p).input);
        }
      case Some(Input(i)) =>
        RegisteringGoesOn(n, until, i);
      case _ =>
    }
  }

  lemma InputsProceed(signer: Option<Wallet>, s: State, t: Tick)
    requires Rank(s) <= 6 && !Halted(s)
    ensures Proceeds(s, StepInputs(signer, s, t), t)
  {
    if s.pc.SignRound? {
      SignRoundProceeds(s.inner, signer, t);
    } else if s.pc.InputRound? {
      InputRoundProceeds(s.inner, s.pc.until, t);
    }
  }

  lemma StepProceeds(signer: Option<Wallet>, s: State, t: Tick)
    requires !Halted(s)
    ensures Proceeds(s, Step(signer, s, t), t)
  {
    if s.pc.Joining? || s.pc.DummyJoin? || s.pc.PeerRound? {
      GatheringProceeds(s, t);
    } else if s.pc.OwnOutput? || s.pc.OutputRound? || s.pc.OutputCheck? {
      OutputsProceed(s, t);
    } else {
      InputsProceed(signer, s, t);
    }
  }

  /** Every course ends, whatever the messages are: rounds follow each other, and within a round the
      time left and the messages waiting decrease lexicographically. */
  lemma {:induction false} EveryCourseHalts(c: Course, signer: Option<Wallet>, k: nat) returns (n: nat)
    requires c.from <= k && Fed(c) && StepsWith(c, signer)
    ensures k <= n && Halted(StateAt(c, n))
    decreases Rank(StateAt(c, k)), Left(Deadline(StateAt(c, k)), c.ticks(k).now), c.queued(k)
  {
    var s := StateAt(c, k);
    if Halted(s) {
      n := k;
    } else {
      Advance(c, signer, k, s);
      StepProceeds(signer, s, c.ticks(k));
      if Rank(StateAt(c, k + 1)) == Rank(s) {
        PollBringsNearer(c, Deadline(s), k);
      }
      n := EveryCourseHalts(c, signer, k + 1);
    }
  }

  // ---------------------------------------------------------------- a message queue and a clock

  datatype Item = Event(sender: Npub, message: PoolMessage) | Garbage

  function RecvOf(item: Item): Recv {
    match item
    case Event(sender, message) => Message(sender, message)
    case Garbage => BadEvent
  }

  datatype World = World(now: u64, queue: seq<Item>)

  /** What happens beside a step: time passes, and with it messages arrive; a send succeeds or not. */
  datatype Move = Move(elapsed: nat, arrived: seq<Item>, sendOk: bool, freshKey: Npub)

  function TickOf(w: World, m: Move): Tick {
    Tick(w.now, if w.queue == [] then NoMessage else RecvOf(w.queue[0]), m.sendOk, m.freshKey)
  }

  function Wait(now: u64, elapsed: nat): u64 {
    if now + elapsed < U64_LIMIT then now + elapsed else LAST_MOMENT
  }

  /** A poll takes the first message; one that finds none waits for at least a moment. Messages arrive
      when time passes. */
  function NextWorld(w: World, polls: bool, m: Move): World {
    var elapsed := if polls && w.queue == [] then m.elapsed + 1 else m.elapsed;
    var rest := if polls && w.queue != [] then w.queue[1..] else w.queue;
    if elapsed == 0 then World(w.now, rest) else World(Wait(w.now, elapsed), rest + m.arrived)
  }

  datatype Joint = Joint(state: State, world: World)

  function JointAfter(step: (State, Tick) -> State, s: State, w: World, moves: nat -> Move, k: nat): Joint {
    if k == 0 then Joint(s, w)
    else
      var j, m := JointAfter(step, s, w, moves, k - 1), moves(k - 1);
      var t := TickOf(j.world, m);
      Joint(step(j.state, t), NextWorld(j.world, Polls(j.state, t), m))
  }

  /** The course a participant takes in a world with a queue and a clock. */
  function CourseIn(step: (State, Tick) -> State, s: State, w: World, moves: nat -> Move): Course {
    Course(
      step, s,
      (k: nat) => TickOf(JointAfter(step, s, w, moves, k).world, moves(k)), 0,
      (k: nat) => |JointAfter(step, s, w, moves, k).world.queue|)
  }

  lemma {:induction false} RunMatches(
    step: (State, Tick) -> State, s: State, ticks: nat -> Tick, states: nat -> State, k: nat)
    requires states(0) == s && forall i: nat :: states(i + 1) == step(states(i), ticks(i))
    ensures Run(step, s, ticks, 0, k) == states(k)
  {
    if k > 0 {
      RunMatches(step, s, ticks, states, k - 1);
      assert states((k - 1) + 1) == step(states(k - 1), ticks(k - 1));
    }
  }

  lemma NextJoint(step: (State, Tick) -> State, s: State, w: World, moves: nat -> Move, k: nat)
    ensures var j := JointAfter(step, s, w, moves, k);
            var t := TickOf(j.world, moves(k));
            JointAfter(step, s, w, moves, k + 1)
                == Joint(step(j.state, t), NextWorld(j.world, Polls(j.state, t), moves(k)))
  {}

  lemma CourseMatches(step: (State, Tick) -> State, s: State, w: World, moves: nat -> Move, k: nat)
    ensures StateAt(CourseIn(step, s, w, moves), k) == JointAfter(step, s, w, moves, k).state
  {
    var c := CourseIn(step, s, w, moves);
    var states := (i: nat) => JointAfter(step, s, w, moves, i).state;
    forall i: nat
      ensures states(i + 1) == step(states(i), c.ticks(i))
    {
      NextJoint(step, s, w, moves, i);
    }
    RunMatches(step, s, c.ticks, states, k);
  }

  lemma NextWorldFeeds(w: World, polls: bool, m: Move)
    ensures var w' := NextWorld(w, polls, m);
            && w.now <= w'.now
            && (polls && w.queue == [] && w.now < LAST_MOMENT ==> w.now < w'.now)
            && (w.now == w'.now < LAST_MOMENT ==> |w'.queue| == |w.queue| - if polls && w.queue != [] then 1 else 0)
  {}

  lemma FedByWorld(c: Course, k: nat, w: World, m: Move)
    requires c.from <= k && c.ticks(k) == TickOf(w, m) && c.queued(k) == |w.queue|
    requires var next := NextWorld(w, Polls(StateAt(c, k), c.ticks(k)), m);
             c.ticks(k + 1).now == next.now && c.queued(k + 1) == |next.queue|
    ensures FedAt(c, k)
  {
    NextWorldFeeds(w, Polls(StateAt(c, k), c.ticks(k)), m);
  }

  lemma CourseFields(step: (State, Tick) -> State, s: State, w: World, moves: nat -> Move, k: nat)
    ensures var c, world := CourseIn(step, s, w, moves), JointAfter(step, s, w, moves, k).world;
            c.from == 0 && c.ticks(k) == TickOf(world, moves(k)) && c.queued(k) == |world.queue|
  {}

  lemma NextWorldInCourse(step: (State, Tick) -> State, s: State, w: World, moves: nat -> Move, k: nat)
    ensures var c, world := CourseIn(step, s, w, moves), JointAfter(step, s, w, moves, k).world;
            JointAfter(step, s, w, moves, k + 1).world
            == NextWorld(world, Polls(StateAt(c, k), TickOf(world, moves(k))), moves(k))
  {
    CourseMatches(step, s, w, moves, k);
    NextJoint(step, s, w, moves, k);
  }

  lemma WorldFeedsAt(step: (State, Tick) -> State, s: State, w: World, moves: nat -> Move, k: nat)
    ensures FedAt(CourseIn(step, s, w, moves), k)
  {
    var c := CourseIn(step, s, w, moves);
    var world, next := JointAfter(step, s, w, moves, k).world, JointAfter(step, s, w, moves, k + 1).world;
    CourseFields(step, s, w, moves, k);
    CourseFields(step, s, w, moves, k + 1);
    NextWorldInCourse(step, s, w, moves, k);
    FedBetween(c, k, world, next, moves(k), moves(k + 1));
  }

  lemma FedBetween(c: Course, k: nat, w: World, w': World, m: Move, m': Move)
    requires c.from == 0 && c.ticks(k) == TickOf(w, m) && c.queued(k) == |w.queue|
    requires c.ticks(k + 1) == TickOf(w', m') && c.queued(k + 1) == |w'.queue|
    requires w' == NextWorld(w, Polls(StateAt(c, k), TickOf(w, m)), m)
    ensures FedAt(c, k)
  {
    FedByWorld(c, k, w, m);
  }

  /** Such a world keeps the discipline that ends every course. */
  lemma WorldFeeds(step: (State, Tick) -> State, s: State, w: World, moves: nat -> Move)
    ensures Fed(CourseIn(step, s, w, moves))
  {
    forall k: nat
      ensures FedAt(CourseIn(step, s, w, moves), k)
    {
      WorldFeedsAt(step, s, w, moves, k);
    }
  }

  /** In every world with a queue and a clock every run ends. */
  lemma EveryRunHalts(signer: Option<Wallet>, s: State, w: World, moves: nat -> Move) returns (n: nat)
    ensures Halted(JointAfter(Stepper(signer), s, w, moves, n).state)
  {
    var c := CourseIn(Stepper(signer), s, w, moves);
    WorldFeeds(Stepper(signer), s, w, moves);
    StepperSteps(c, signer);
    n := EveryCourseHalts(c, signer, 0);
    CourseMatches(Stepper(signer), s, w, moves, n);
  }

  /** The messages that arrived before step `n`, in order. */
  function Arrived(step: (State, Tick) -> State, s: State, w: World, moves: nat -> Move, n: nat): seq<Item> {
    if n == 0 then w.queue
    else
      var j, m := JointAfter(step, s, w, moves, n - 1), moves(n - 1);
      var waits := Polls(j.state, TickOf(j.world, m)) && j.world.queue == [];
      Arrived(step, s, w, moves, n - 1) + if waits || m.elapsed > 0 then m.arrived else []
  }

  /** The messages that were polled before step `n`, in order. */
  function Taken(step: (State, Tick) -> State, s: State, w: World, moves: nat -> Move, n: nat): seq<Item> {
    if n == 0 then []
    else
      var j, m := JointAfter(step, s, w, moves, n - 1), moves(n - 1);
      Taken(step, s, w, moves, n - 1)
      + if Polls(j.state, TickOf(j.world, m)) && j.world.queue != [] then [j.world.queue[0]] else []
  }

  /** Every message that arrives is taken once, in the order of arrival, or still waits. */
  lemma {:induction false} EachMessageTakenOnce(step: (State, Tick) -> State, s: State, w: World, moves: nat -> Move,
      n: nat)
    ensures Arrived(step, s, w, moves, n)
         == Taken(step, s, w, moves, n) + JointAfter(step, s, w, moves, n).world.queue
  {
    if n == 0 {
      assert [] + w.queue == w.queue;
    } else {
      EachMessageTakenOnce(step, s, w, moves, n - 1);
      var j, m := JointAfter(step, s, w, moves, n - 1), moves(n - 1);
      TakenStep(j.world, Polls(j.state, TickOf(j.world, m)), m,
                Arrived(step, s, w, moves, n - 1), Taken(step, s, w, moves, n - 1));
    }
  }

  lemma TakenStep(w: World, polls: bool, m: Move, arrived: seq<Item>, taken: seq<Item>)
    requires arrived == taken + w.queue
    ensures arrived + (if (polls && w.queue == []) || m.elapsed > 0 then m.arrived else [])
         == taken + (if polls && w.queue != [] then [w.queue[0]] else []) + NextWorld(w, polls, m).queue
  {
    if polls && w.queue != [] {
      assert w.queue == [w.queue[0]] + w.queue[1..];
    }
  }
}
