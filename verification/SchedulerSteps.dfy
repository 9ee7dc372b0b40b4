/** The run queues and the sleep protocol: `Scheduler::push` against `Scheduler::find_work_or_park`.
    One step per atomic access, sequentially consistent memory, any number of workers and of other
    threads; the node is not quitting.

    Threads below `workers` are the workers; all others only push and poke. A queued service is an
    item. `spot` says where each item is from the moment `pending` counts it until `pending` lets it
    go, and is the content of the injector, the hand-off slots and the local queues: bags, since the
    order inside them plays no part here. A steal may fail for no reason, as in the block queue.
 */
module SchedulerSteps {

  type Tid = nat
  type Item = nat

  /** Idle bits are kept in words of this many. */
  const WORD := 64

  /** Why a worker scans the queues: between services, while spinning, or the last time before it
      sleeps. */
  datatype Kind = Plain | Spin | Final

  /** pop_runnable. */
  datatype Scanning =
    | Slot                   // about to swap its hand-off slot
    | Pending                // about to load pending
    | Tick                   // every so often: about to pop the injector first
    | Local                  // about to pop its own queue
    | Injector               // about to pop the injector
    | Steal                  // about to steal
    | Discount(i: Item)      // took an item: about to subtract one from pending

  /** push, after it counted its item in pending. */
  datatype Pushing =
    | Look                   // about to load searching
    | Share                  // somebody searches: about to push to the injector
    | Place                  // nobody to hand it to: about to place it
    | Offer(id: Tid)         // claimed a worker: about to offer it the item
    | PlaceFor(id: Tid)      // its slot was taken: about to place the item

  /** claim_idle, and the wake that must follow a claim. */
  datatype Claiming =
    | Load(word: nat)                   // about to load a word of the idle bitmap
    | Exchange(word: nat, bits: set<Tid>) // about to compare-exchange it

  datatype Pc =
    | Home                   // a worker between or inside services; any other thread outside
    | Push(i: Item, p: Pushing)
    | Hand(i: Item, c: Claiming)   // push, first claim: the item is still in hand
    | Recheck                // the item is out: about to load searching again
    | Again(c: Claiming)     // second claim, or poke's
    | Wake(id: Tid)          // about to unpark a claimed worker
    | Scan(k: Kind, s: Scanning)
    | Searching              // find_work_or_park: counted in searching, spinning or not
    | Marking                // about to set its idle bit
    | Leaving                // about to subtract itself from searching
    | Found                  // while spinning: about to subtract itself from searching
    | Parking
    | Clearing               // about to clear its idle bit

  datatype Spot = InHand(t: Tid) | InInjector | InSlot(w: Tid) | InLocal(w: Tid)

  datatype Shared = Shared(
    pending: int, searching: int, idle: set<Tid>, tokens: set<Tid>, spot: map<Item, Spot>, next: Item)

  datatype State = State(sh: Shared, threads: map<Tid, Pc>)

  datatype Next = Next(sh: Shared, pc: Pc)

  /** What a thread at home starts, and how a step that leaves a choice goes: `item` is the one a
      queue yields, `Other` the choice out of the ordinary. */
  datatype Event = CallPush | CallPoke | CallPop | CallFind | Ordinary | Other | Yield(item: Item)

  function At(s: State, t: Tid): Pc {
    if t in s.threads then s.threads[t] else Home
  }

  const INIT := State(Shared(0, 0, {}, {}, map[], 0), map[])

  function Put(sh: Shared, i: Item, x: Spot): Shared {
    sh.(spot := sh.spot[i := x])
  }

  predicate Occupied(sh: Shared, x: Spot) {
    exists i :: i in sh.spot && sh.spot[i] == x
  }

  /** The bits of one word of the idle bitmap. */
  function Bits(idle: set<Tid>, word: nat): set<Tid> {
    set w | w in idle && w / WORD == word
  }

  ghost predicate IsLowest(bits: set<Tid>, w: Tid) {
    w in bits && forall v :: v in bits ==> w <= v
  }

  /** The lowest of a non-empty set of bits. */
  ghost function Lowest(bits: set<Tid>): (w: Tid)
    requires bits != {}
    ensures w in bits
  {
    LowestExists(bits);
    var w :| IsLowest(bits, w);
    w
  }

  lemma {:induction false} LowestExists(bits: set<Tid>)
    requires bits != {}
    ensures exists w :: IsLowest(bits, w)
  {
    var w :| w in bits;
    var rest, least := bits - {w}, w;
    if rest != {} {
      LowestExists(rest);
      var v :| IsLowest(rest, v);
      least := if w < v then w else v;
    }
    forall v | v in bits ensures least <= v {
      assert v == w || v in rest;
    }
    assert IsLowest(bits, least);
  }

  ghost function Act(workers: nat, s: State, t: Tid, e: Event): State {
    var n := Advance(workers, s.sh, t, At(s, t), e);
    State(n.sh, s.threads[t := n.pc])
  }

  ghost function Advance(workers: nat, sh: Shared, t: Tid, pc: Pc, e: Event): Next {
    match pc
    case Home => Start(workers, sh, t, e)
    case Push(i, p) => Pusher(workers, sh, t, i, p, e)
    case Hand(i, c) => FirstClaim(workers, sh, i, c, e)
    case Recheck => Next(sh, if sh.searching == 0 then Again(Load(0)) else Home)
    case Again(c) => SecondClaim(workers, sh, c, e)
    case Wake(id) => Next(sh.(tokens := sh.tokens + {id}), Home)
    case Scan(k, x) => Scanner(workers, sh, t, k, x, e)
    case Searching => Next(sh, if e.Other? then Marking else Scan(Spin, Slot))
    case Marking => Next(sh.(idle := sh.idle + {t}), Leaving)
    case Leaving => Next(sh.(searching := sh.searching - 1), Scan(Final, Slot))
    case Found => Next(sh.(searching := sh.searching - 1), Home)
    case Parking =>
      if t in sh.tokens then Next(sh.(tokens := sh.tokens - {t}), Clearing)
      else if e.Other? then Next(sh, Clearing)       // a spurious return
      else Next(sh, Parking)
    case Clearing => Next(sh.(idle := sh.idle - {t}), Home)
  }

  function Start(workers: nat, sh: Shared, t: Tid, e: Event): Next {
    match e
    case CallPush =>
      // one more in pending
      Next(Put(sh, sh.next, InHand(t)).(pending := sh.pending + 1, next := sh.next + 1), Push(sh.next, Look))
    case CallPoke => Next(sh, if sh.pending > 0 then Again(Load(0)) else Home)
    case CallPop => Next(sh, Scan(Plain, if t < workers then Slot else Injector))
    case CallFind => if t < workers then Next(sh.(searching := sh.searching + 1), Searching) else Next(sh, Home)
    case _ => Next(sh, Home)
  }

  /** `push` from its first look at `searching`, and `place`. A worker places into its own queue
      unless it is full, which `Other` stands for; only other threads look again afterwards. */
  function Pusher(workers: nat, sh: Shared, t: Tid, i: Item, p: Pushing, e: Event): Next {
    match p
    case Look => Next(sh, if sh.searching > 0 then Push(i, Share) else Hand(i, Load(0)))
    case Share => Next(Put(sh, i, InInjector), Recheck)
    case Place => Next(Put(sh, i, Resting(workers, t, e)), if t < workers then Home else Recheck)
    case Offer(id) =>
      if Occupied(sh, InSlot(id)) then Next(sh, Push(i, PlaceFor(id))) else Next(Put(sh, i, InSlot(id)), Wake(id))
    case PlaceFor(id) => Next(Put(sh, i, Resting(workers, t, e)), Wake(id))
  }

  function Resting(workers: nat, t: Tid, e: Event): Spot {
    if t < workers && !e.Other? then InLocal(t) else InInjector
  }

  /** `claim_idle` word by word; compare_exchange_weak may fail for no reason. */
  ghost function FirstClaim(workers: nat, sh: Shared, i: Item, c: Claiming, e: Event): Next {
    match c
    case Load(word) =>
      if word * WORD >= workers then Next(sh, Push(i, Place))
      else Next(sh, Hand(i, Reload(sh, word)))
    case Exchange(word, bits) =>
      if bits != {} && Bits(sh.idle, word) == bits && !e.Other? then
        Next(sh.(idle := sh.idle - {Lowest(bits)}), Push(i, Offer(Lowest(bits))))
      else Next(sh, Hand(i, Reload(sh, word)))
  }

  ghost function SecondClaim(workers: nat, sh: Shared, c: Claiming, e: Event): Next {
    match c
    case Load(word) => if word * WORD >= workers then Next(sh, Home) else Next(sh, Again(Reload(sh, word)))
    case Exchange(word, bits) =>
      if bits != {} && Bits(sh.idle, word) == bits && !e.Other? then
        Next(sh.(idle := sh.idle - {Lowest(bits)}), Wake(Lowest(bits)))
      else Next(sh, Again(Reload(sh, word)))
  }

  /** Go on with the word as it is now; an empty word sends the claim to the next one. */
  function Reload(sh: Shared, word: nat): Claiming {
    if Bits(sh.idle, word) == {} then Load(word + 1) else Exchange(word, Bits(sh.idle, word))
  }

  /** `pop_runnable`; a thread that is not a worker only has the injector. */
  function Scanner(workers: nat, sh: Shared, t: Tid, k: Kind, x: Scanning, e: Event): Next {
    match x
    case Slot => TakeFrom(sh, t, k, InSlot(t), Pending, e)
    case Pending => Next(sh, if sh.pending == 0 then Missed(k) else Scan(k, if e.Other? then Tick else Local))
    case Tick => TakeFrom(sh, t, k, InInjector, Local, e)
    case Local => TakeFrom(sh, t, k, InLocal(t), Injector, e)
    case Injector =>
      if t >= workers && !Occupied(sh, InInjector) then Next(sh, Missed(k))
      else TakeFrom(sh, t, k, InInjector, Steal, e)
    case Steal =>
      if e.Yield? && e.item in sh.spot && sh.spot[e.item].InLocal? then
        Next(Put(sh, e.item, InHand(t)), Scan(k, Discount(e.item)))
      else Next(sh, Missed(k))
    case Discount(i) =>
      Next(sh.(spot := sh.spot - {i}, pending := sh.pending - 1),
           match k case Plain => Home case Spin => Found case Final => Clearing)
  }

  /** An empty place sends the scan on; a non-empty one yields one of its items. */
  function TakeFrom(sh: Shared, t: Tid, k: Kind, x: Spot, onward: Scanning, e: Event): Next {
    if !Occupied(sh, x) then Next(sh, Scan(k, onward))
    else if e.Yield? && e.item in sh.spot && sh.spot[e.item] == x then
      Next(Put(sh, e.item, InHand(t)), Scan(k, Discount(e.item)))
    else Next(sh, Scan(k, Back(onward)))
  }

  /** Still at the same place: the event did not name one of its items. */
  function Back(onward: Scanning): Scanning {
    match onward
    case Pending => Slot
    case Injector => Local
    case Steal => Injector
    case _ => Tick
  }

  function Missed(k: Kind): Pc {
    match k
    case Plain => Home
    case Spin => Searching
    case Final => Parking
  }

  ghost predicate Step(workers: nat, s: State, s': State) {
    exists t, e :: s' == Act(workers, s, t, e)
  }

  ghost predicate IsRun(workers: nat, run: seq<State>) {
    && workers > 0 && |run| > 0 && run[0] == INIT
    && forall i :: 0 <= i < |run| - 1 ==> Step(workers, run[i], run[i + 1])
  }

  ghost predicate Reachable(workers: nat, s: State) {
    exists run :: IsRun(workers, run) && run[|run| - 1] == s
  }
}
