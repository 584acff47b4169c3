/** MpmcQueue under any interleaving of any number of threads, one shared access a step.

    `enqueue` and `dequeue` exchange a tail pointer first and store the link to the new tail
    later, so both lists can have missing links. The spin locks exclude each other's critical
    sections; everything outside them interleaves freely. */
module MpmcConcurrent {
  import opened Options

  type Node = nat
  type Tid = nat
  type Elem = int

  datatype Pc =
    | Idle
    | EWant(x: Elem)                          // enqueue: waiting for sLk_
    | ESpin(x: Elem, pres: Node)              // about to load pres->next_
    | ECheck(x: Elem, pres: Node)             // it was null: about to compare sHead_ and sTail_
    | ERefill(x: Elem, pres: Node)            // they were equal: about to store a new node in sTail_
    | EAdv(x: Elem, pres: Node, nexts: Node)  // about to store sHead_ and release sLk_
    | EData(x: Elem, pres: Node)
    | EClear(x: Elem, pres: Node)
    | EExch(x: Elem, pres: Node)              // about to exchange uTail_
    | ELink(preu: Node, pres: Node)           // about to store preu->next_
    | EDone
    | DWant                                   // dequeue: waiting for uLk_
    | DSpin(preu: Node)
    | DCheck(preu: Node)
    | DAdv(preu: Node, nextu: Node)           // about to store uHead_
    | DMove(preu: Node, nextu: Node)          // about to read the data and release uLk_
    | DClear(preu: Node, out: Elem)
    | DExch(preu: Node, out: Elem)            // about to exchange sTail_
    | DLink(pres: Node, preu: Node, out: Elem)
    | DDone(result: Option<Elem>)

  datatype Place = Used | Spare | Own(t: Tid)

  /** The last four fields are auxiliary: the two lists in exchange order, where each node
      is, and who owes a node its link. No step looks at them. */
  datatype State = State(
    next: map<Node, Option<Node>>, data: map<Node, Elem>, top: Node,
    uHead: Node, uTail: Node, sHead: Node, sTail: Node,
    uLk: Option<Tid>, sLk: Option<Tid>, pc: map<Tid, Pc>,
    used: seq<Node>, spare: seq<Node>, place: map<Node, Place>, linker: map<Node, Tid>)

  datatype Action =
    | Start(t: Tid)
    | CallEnqueue(t: Tid, x: Elem)
    | CallDequeue(t: Tid)
    | Step(t: Tid)
    | Return(t: Tid)

  const INIT: State := State(
    map[0 := None, 1 := None], map[0 := 0, 1 := 0], 2,
    0, 0, 1, 1, None, None, map[],
    [0], [1], map[0 := Used, 1 := Spare], map[])

  predicate Enabled(s: State, a: Action) {
    match a
    case Start(t) => t !in s.pc
    case CallEnqueue(t, _) => t in s.pc && s.pc[t] == Idle
    case CallDequeue(t) => t in s.pc && s.pc[t] == Idle
    case Return(t) => t in s.pc && (s.pc[t].EDone? || s.pc[t].DDone?)
    case Step(t) =>
      t in s.pc &&
      match s.pc[t]
      case EWant(_) => s.sLk == None
      case DWant => s.uLk == None
      case Idle | EDone | DDone(_) => false
      case ESpin(_, pres) => pres in s.next
      case DSpin(preu) => preu in s.next
      case DMove(_, nextu) => nextu in s.data
      case _ => true
  }

  function Goto(s: State, t: Tid, p: Pc): State {
    s.(pc := s.pc[t := p])
  }

  function Apply(s: State, a: Action): State
    requires Enabled(s, a)
  {
    match a
    case Start(t) => Goto(s, t, Idle)
    case CallEnqueue(t, x) => Goto(s, t, EWant(x))
    case CallDequeue(t) => Goto(s, t, DWant)
    case Return(t) => Goto(s, t, Idle)
    case Step(t) => StepOf(s, t)
  }

  function StepOf(s: State, t: Tid): State
    requires Enabled(s, Step(t))
  {
    match s.pc[t]
    case EWant(x) => Goto(s, t, ESpin(x, s.sHead)).(sLk := Some(t))
    case ESpin(x, pres) =>
      Goto(s, t, if s.next[pres] == None then ECheck(x, pres) else EAdv(x, pres, s.next[pres].value))
    case ECheck(x, pres) => Goto(s, t, if s.sHead == s.sTail then ERefill(x, pres) else ESpin(x, pres))
    case ERefill(x, pres) => Refill(s, t, x, pres)
    case EAdv(x, pres, nexts) => TakeSpare(s, t, x, pres, nexts)
    case EData(x, pres) => Goto(s, t, EClear(x, pres)).(data := s.data[pres := x])
    case EClear(x, pres) => StoreNext(s, t, pres, None, EExch(x, pres))
    case EExch(x, pres) => ExchangeUsed(s, t, pres)
    case ELink(preu, pres) => StoreNext(s, t, preu, Some(pres), EDone)
    case DWant => Goto(s, t, DSpin(s.uHead)).(uLk := Some(t))
    case DSpin(preu) =>
      Goto(s, t, if s.next[preu] == None then DCheck(preu) else DAdv(preu, s.next[preu].value))
    case DCheck(preu) =>
      if s.uHead == s.uTail then Goto(s, t, DDone(None)).(uLk := None) else Goto(s, t, DSpin(preu))
    case DAdv(preu, nextu) => TakeUsed(s, t, preu, nextu)
    case DMove(preu, nextu) => Goto(s, t, DClear(preu, s.data[nextu])).(uLk := None)
    case DClear(preu, out) => StoreNext(s, t, preu, None, DExch(preu, out))
    case DExch(preu, out) => ExchangeSpare(s, t, preu, out)
    case DLink(pres, preu, out) => StoreNext(s, t, pres, Some(preu), DDone(Some(out)))
    case _ => s
  }

  function Refill(s: State, t: Tid, x: Elem, pres: Node): State {
    var n := s.top;
    Goto(s, t, EAdv(x, pres, n)).(
      next := s.next[n := None], data := s.data[n := 0], top := n + 1, sTail := n,
      spare := s.spare + [n], place := s.place[n := Spare], linker := s.linker[pres := t])
  }

  function TakeSpare(s: State, t: Tid, x: Elem, pres: Node, nexts: Node): State {
    Goto(s, t, EData(x, pres)).(sHead := nexts, sLk := None,
      spare := if s.spare == [] then [] else s.spare[1..], place := s.place[pres := Own(t)])
  }

  function TakeUsed(s: State, t: Tid, preu: Node, nextu: Node): State {
    Goto(s, t, DMove(preu, nextu)).(uHead := nextu,
      used := if s.used == [] then [] else s.used[1..], place := s.place[preu := Own(t)])
  }

  function ExchangeUsed(s: State, t: Tid, pres: Node): State {
    Goto(s, t, ELink(s.uTail, pres)).(uTail := pres,
      used := s.used + [pres], place := s.place[pres := Used], linker := s.linker[s.uTail := t])
  }

  function ExchangeSpare(s: State, t: Tid, preu: Node, out: Elem): State {
    Goto(s, t, DLink(s.sTail, preu, out)).(sTail := preu,
      spare := s.spare + [preu], place := s.place[preu := Spare], linker := s.linker[s.sTail := t])
  }

  function StoreNext(s: State, t: Tid, n: Node, v: Option<Node>, p: Pc): State {
    Goto(s, t, p).(next := s.next[n := v])
  }

  // ---------------------------------------------------------------- the refill window

  /** An enqueuer has compared sHead_ with sTail_ and not yet stored sTail_. */
  predicate WindowOpen(s: State) {
    exists u :: u in s.pc && s.pc[u].ERefill?
  }

  /** The schedule under which the queue is right: no dequeuer exchanges sTail_ between an
      enqueuer's comparison and its store. One atomic compare-and-set there would enforce it. */
  predicate Quiet(s: State, a: Action) {
    Enabled(s, a) && (a.Step? && s.pc[a.t].DExch? ==> !WindowOpen(s))
  }

  predicate Run(s: State, acts: seq<Action>)
    decreases |acts|
  {
    acts == [] || (Enabled(s, acts[0]) && Run(Apply(s, acts[0]), acts[1..]))
  }

  predicate QuietRun(s: State, acts: seq<Action>)
    decreases |acts|
  {
    acts == [] || (Quiet(s, acts[0]) && QuietRun(Apply(s, acts[0]), acts[1..]))
  }

  function Exec(s: State, acts: seq<Action>): State
    requires Run(s, acts)
    decreases |acts|
  {
    if acts == [] then s else Exec(Apply(s, acts[0]), acts[1..])
  }

  // ---------------------------------------------------------------- the invariant

  /** The node a thread has taken out of one list and not yet put into the other. */
  function NodeOf(p: Pc): Option<Node> {
    match p
    case EData(_, n) => Some(n)
    case EClear(_, n) => Some(n)
    case EExch(_, n) => Some(n)
    case DMove(n, _) => Some(n)
    case DClear(n, _) => Some(n)
    case DExch(n, _) => Some(n)
    case _ => None
  }

  /** The link a thread owes. */
  function Due(p: Pc): Option<(Node, Node)> {
    match p
    case ELink(a, b) => Some((a, b))
    case DLink(a, b, _) => Some((a, b))
    case EAdv(_, a, b) => Some((a, b))
    case _ => None
  }

  ghost predicate At(s: State, n: Node, p: Place) {
    n in s.place && s.place[n] == p
  }

  ghost predicate Owes(s: State, t: Tid, n: Node) {
    n in s.linker && s.linker[n] == t
  }

  /** The link from `a` to its successor `b` is there, or exactly one thread owes it. */
  ghost predicate Linked(s: State, a: Node, b: Node) {
    a in s.next &&
    (s.next[a] == Some(b) ||
     (s.next[a] == None && a in s.linker && s.linker[a] in s.pc && Due(s.pc[s.linker[a]]) == Some((a, b))))
  }

  ghost predicate Ends(s: State) {
    && s.used != [] && s.spare != []
    && s.uHead == s.used[0] && s.uTail == s.used[|s.used| - 1]
    && s.sHead == s.spare[0] && s.sTail == s.spare[|s.spare| - 1]
  }

  /** `c` lists the nodes that are at `p`, each once. */
  ghost predicate Holds(c: seq<Node>, place: map<Node, Place>, p: Place) {
    && (forall i :: 0 <= i < |c| ==> c[i] in place && place[c[i]] == p)
    && (forall i, j :: 0 <= i < j < |c| ==> c[i] != c[j])
    && (forall n :: n in place && place[n] == p ==> n in c)
  }

  /** A node that a thread owns is the one it has in hand. */
  ghost predicate InHand(place: map<Node, Place>, pc: map<Tid, Pc>) {
    forall n :: n in place && place[n].Own? ==> place[n].t in pc && NodeOf(pc[place[n].t]) == Some(n)
  }

  ghost predicate Places(s: State) {
    && Holds(s.used, s.place, Used) && Holds(s.spare, s.place, Spare) && InHand(s.place, s.pc)
    && (forall n :: n in s.place ==> n < s.top && n in s.next && n in s.data)
    && (forall n: Node :: n < s.top ==> n in s.place)
  }

  /** The links of the list `c`. */
  ghost predicate Chained(s: State, c: seq<Node>) {
    && (forall i :: 0 <= i < |c| - 1 ==> Linked(s, c[i], c[i + 1]))
    && (c != [] ==> c[|c| - 1] in s.next && s.next[c[|c| - 1]] == None)
  }

  ghost predicate Links(s: State) {
    Chained(s, s.used) && Chained(s, s.spare)
  }

  /** `b` follows `a` in list `c`. */
  ghost predicate Follows(c: seq<Node>, a: Node, b: Node) {
    forall i :: 0 <= i < |c| && c[i] == a ==> i + 1 < |c| && c[i + 1] == b
  }

  ghost predicate PcOk(s: State, t: Tid, p: Pc) {
    match p
    case Idle | EWant(_) | EDone | DWant | DDone(_) => true
    case ESpin(_, pres) => s.sLk == Some(t) && s.spare != [] && s.spare[0] == pres
    case ECheck(_, pres) => s.sLk == Some(t) && s.spare != [] && s.spare[0] == pres
    case ERefill(_, pres) => s.sLk == Some(t) && s.spare == [pres]
    case EAdv(_, pres, nexts) =>
      && s.sLk == Some(t) && |s.spare| >= 2 && s.spare[0] == pres && s.spare[1] == nexts
      && pres in s.next && (s.next[pres] == Some(nexts) || (s.next[pres] == None && Owes(s, t, pres)))
    case EData(_, pres) => At(s, pres, Own(t))
    case EClear(x, pres) => At(s, pres, Own(t)) && pres in s.data && s.data[pres] == x
    case EExch(x, pres) =>
      At(s, pres, Own(t)) && pres in s.data && s.data[pres] == x && pres in s.next && s.next[pres] == None
    case ELink(preu, pres) =>
      && Owes(s, t, preu) && preu in s.next && s.next[preu] == None
      && At(s, preu, Used) && Follows(s.used, preu, pres)
    case DSpin(preu) => s.uLk == Some(t) && s.used != [] && s.used[0] == preu
    case DCheck(preu) => s.uLk == Some(t) && s.used != [] && s.used[0] == preu
    case DAdv(preu, nextu) =>
      && s.uLk == Some(t) && |s.used| >= 2 && s.used[0] == preu && s.used[1] == nextu
      && preu in s.next && s.next[preu] == Some(nextu)
    case DMove(preu, nextu) =>
      s.uLk == Some(t) && At(s, preu, Own(t)) && s.used != [] && s.used[0] == nextu
    case DClear(preu, _) => At(s, preu, Own(t))
    case DExch(preu, _) => At(s, preu, Own(t)) && preu in s.next && s.next[preu] == None
    case DLink(pres, preu, _) =>
      && Owes(s, t, pres) && pres in s.next && s.next[pres] == None
      && At(s, pres, Spare) && Follows(s.spare, pres, preu)
  }

  ghost predicate Lists(s: State) {
    Ends(s) && Places(s) && Links(s)
  }

  ghost predicate Inv(s: State) {
    Lists(s) && (forall t :: t in s.pc ==> PcOk(s, t, s.pc[t]))
  }

  // ---------------------------------------------------------------- preservation

  /** Steps that move no node and store no link. */
  ghost predicate SameLists(s: State, s': State) {
    && s'.next == s.next && s'.top == s.top && s'.data.Keys == s.data.Keys
    && s'.uHead == s.uHead && s'.uTail == s.uTail && s'.sHead == s.sHead && s'.sTail == s.sTail
    && s'.used == s.used && s'.spare == s.spare && s'.place == s.place && s'.linker == s.linker
  }

  lemma ListsKept(s: State, s': State, t: Tid, p: Pc)
    requires Lists(s) && SameLists(s, s') && s'.pc == s.pc[t := p]
    requires t in s.pc ==> NodeOf(p) == NodeOf(s.pc[t]) && (Due(s.pc[t]) == None || Due(p) == Due(s.pc[t]))
    ensures Lists(s')
  {
    assert forall a, b :: Linked(s, a, b) ==> Linked(s', a, b);
  }

  /** Only the lock `t` takes or gives back, and the data of a node it owns, may change. */
  lemma OthersKept(s: State, s': State, t: Tid)
    requires Inv(s) && SameLists(s, s')
    requires s'.sLk == s.sLk || s.sLk == None || s.sLk == Some(t)
    requires s'.uLk == s.uLk || s.uLk == None || s.uLk == Some(t)
    requires forall n :: n in s.data && !At(s, n, Own(t)) ==> s'.data[n] == s.data[n]
    ensures forall u :: u in s.pc && u != t ==> PcOk(s', u, s.pc[u])
  {
    forall u | u in s.pc && u != t ensures PcOk(s', u, s.pc[u]) {
      assert PcOk(s, u, s.pc[u]);
    }
  }

  lemma CallInv(s: State, a: Action, p: Pc)
    requires Inv(s) && !a.Step?
    requires p in {Idle, DWant} || p.EWant?
    requires a.t in s.pc ==> s.pc[a.t] in {Idle, EDone} || s.pc[a.t].DDone?
    ensures Inv(Goto(s, a.t, p))
  {
    OthersKept(s, Goto(s, a.t, p), a.t);
    ListsKept(s, Goto(s, a.t, p), a.t, p);
    InvFromParts(s, Goto(s, a.t, p), a.t, p);
  }

  predicate LocalEnqueue(p: Pc) {
    p.EWant? || p.ESpin? || p.ECheck? || p.EData?
  }

  predicate LocalDequeue(p: Pc) {
    p.DWant? || p.DSpin? || p.DCheck? || p.DMove?
  }

  lemma LocalEnqueueInv(s: State, t: Tid)
    requires Inv(s) && Enabled(s, Step(t)) && LocalEnqueue(s.pc[t])
    ensures Inv(StepOf(s, t))
  {
    var s' := StepOf(s, t);
    LocalEnqueuePc(s, t);
    LocalEnqueueFrame(s, t);
    OthersKept(s, s', t);
    ListsKept(s, s', t, s'.pc[t]);
  }

  lemma LocalEnqueuePc(s: State, t: Tid)
    requires Inv(s) && Enabled(s, Step(t)) && LocalEnqueue(s.pc[t])
    ensures PcOk(StepOf(s, t), t, StepOf(s, t).pc[t])
  {
    assert PcOk(s, t, s.pc[t]);
    if s.pc[t].ESpin? && |s.spare| > 1 { assert Linked(s, s.spare[0], s.spare[1]); }
  }

  lemma LocalEnqueueFrame(s: State, t: Tid)
    requires Lists(s) && Enabled(s, Step(t)) && PcOk(s, t, s.pc[t]) && LocalEnqueue(s.pc[t])
    ensures var s' := StepOf(s, t);
            && SameLists(s, s') && s'.pc == s.pc[t := s'.pc[t]] && s'.uLk == s.uLk
            && (s'.sLk == s.sLk || s.sLk == None || s.sLk == Some(t))
            && (forall n :: n in s.data && !At(s, n, Own(t)) ==> s'.data[n] == s.data[n])
            && NodeOf(s'.pc[t]) == NodeOf(s.pc[t]) && Due(s.pc[t]) == None
  {
    match s.pc[t]
    case EWant(_) =>
    case ESpin(_, _) =>
    case ECheck(_, _) =>
    case EData(_, _) =>
  }

  lemma LocalDequeueInv(s: State, t: Tid)
    requires Inv(s) && Enabled(s, Step(t)) && LocalDequeue(s.pc[t])
    ensures Inv(StepOf(s, t))
  {
    var s' := StepOf(s, t);
    LocalDequeuePc(s, t);
    LocalDequeueFrame(s, t);
    OthersKept(s, s', t);
    ListsKept(s, s', t, s'.pc[t]);
  }

  lemma LocalDequeuePc(s: State, t: Tid)
    requires Inv(s) && Enabled(s, Step(t)) && LocalDequeue(s.pc[t])
    ensures PcOk(StepOf(s, t), t, StepOf(s, t).pc[t])
  {
    assert PcOk(s, t, s.pc[t]);
    if s.pc[t].DSpin? { SpinDequeuePc(s, t, s.pc[t].preu); }
  }

  lemma SpinDequeuePc(s: State, t: Tid, preu: Node)
    requires Chained(s, s.used) && Enabled(s, Step(t)) && s.pc[t] == DSpin(preu) && PcOk(s, t, s.pc[t])
    ensures PcOk(StepOf(s, t), t, StepOf(s, t).pc[t])
  {
    if |s.used| > 1 { assert Linked(s, s.used[0], s.used[1]); }
  }

  lemma LocalDequeueFrame(s: State, t: Tid)
    requires Lists(s) && Enabled(s, Step(t)) && PcOk(s, t, s.pc[t]) && LocalDequeue(s.pc[t])
    ensures var s' := StepOf(s, t);
            && SameLists(s, s') && s'.pc == s.pc[t := s'.pc[t]] && s'.sLk == s.sLk && s'.data == s.data
            && (s'.uLk == s.uLk || s.uLk == None || s.uLk == Some(t))
            && NodeOf(s'.pc[t]) == NodeOf(s.pc[t]) && Due(s.pc[t]) == None
  {
    LocalDequeueChanges(s, t, s.pc[t]);
  }

  lemma LocalDequeueChanges(s: State, t: Tid, p: Pc)
    requires Enabled(s, Step(t)) && p == s.pc[t] && LocalDequeue(p)
    ensures var s' := StepOf(s, t);
            && s' == s.(uLk := s'.uLk, pc := s.pc[t := s'.pc[t]])
            && (s'.uLk == s.uLk || p.DWant? || p.DCheck? || p.DMove?)
            && NodeOf(s'.pc[t]) == NodeOf(p) && Due(p) == None
  {
    match p
    case DWant =>
    case DSpin(_) =>
    case DCheck(_) =>
    case DMove(_, _) =>
  }

  // Steps that store a link or move a node, for the lists.

  /** No node is twice in the lists. */
  ghost predicate ListsApart(s: State) {
    && (forall i, j :: 0 <= i < j < |s.used| ==> s.used[i] != s.used[j])
    && (forall i, j :: 0 <= i < j < |s.spare| ==> s.spare[i] != s.spare[j])
    && (forall i, j :: 0 <= i < |s.used| && 0 <= j < |s.spare| ==> s.used[i] != s.spare[j])
  }

  lemma PlacesApart(s: State)
    requires Places(s)
    ensures ListsApart(s)
  {
  }

  lemma FirstTaken(c: seq<Node>, place: map<Node, Place>, p: Place, t: Tid)
    requires Holds(c, place, p) && c != [] && p != Own(t)
    ensures Holds(c[1..], place[c[0] := Own(t)], p)
  {
  }

  lemma OtherKept(c: seq<Node>, place: map<Node, Place>, p: Place, n: Node, q: Place)
    requires Holds(c, place, p) && (n in place ==> place[n] != p) && q != p
    ensures Holds(c, place[n := q], p)
  {
  }

  lemma Appended(c: seq<Node>, place: map<Node, Place>, p: Place, n: Node)
    requires Holds(c, place, p) && (n in place ==> place[n] != p)
    ensures Holds(c + [n], place[n := p], p)
  {
    assert forall i :: 0 <= i < |c| ==> (c + [n])[i] == c[i];
    assert (c + [n])[|c|] == n;
  }

  lemma TakenInHand(place: map<Node, Place>, pc: map<Tid, Pc>, n: Node, t: Tid, x: Pc)
    requires InHand(place, pc) && t in pc && NodeOf(pc[t]) == None && NodeOf(x) == Some(n)
    ensures InHand(place[n := Own(t)], pc[t := x])
  {
  }

  lemma GivenFromHand(place: map<Node, Place>, pc: map<Tid, Pc>, n: Node, p: Place, t: Tid, x: Pc)
    requires InHand(place, pc) && t in pc && n in place && place[n] == Own(t) && !p.Own?
    ensures InHand(place[n := p], pc[t := x])
  {
  }

  lemma SameInHand(place: map<Node, Place>, pc: map<Tid, Pc>, t: Tid, x: Pc)
    requires InHand(place, pc) && t in pc && NodeOf(x) == NodeOf(pc[t])
    ensures InHand(place, pc[t := x])
  {
  }

  /** A step of `t` leaves a list alone, in which it owes no link or goes on owing what it did. */
  lemma ChainKept(s: State, s': State, c: seq<Node>, t: Tid, p: Pc)
    requires Chained(s, c) && t in s.pc && s'.pc == s.pc[t := p]
    requires forall n :: n in c && n in s.next ==> n in s'.next && s'.next[n] == s.next[n]
    requires forall n :: n in c && n in s.linker ==> n in s'.linker && s'.linker[n] == s.linker[n]
    requires Due(s.pc[t]) == None || Due(s.pc[t]).value.0 !in c
    ensures Chained(s', c)
  {
    forall i | 0 <= i < |c| - 1 ensures Linked(s', c[i], c[i + 1]) {
      assert Linked(s, c[i], c[i + 1]);
    }
  }

  lemma ChainTail(s: State, c: seq<Node>)
    requires Chained(s, c) && |c| >= 2
    ensures Chained(s, c[1..])
  {
    forall i | 0 <= i < |c| - 2 ensures Linked(s, c[1..][i], c[1..][i + 1]) {
      assert Linked(s, c[i + 1], c[i + 2]);
    }
  }

  /** A step of `t` makes it owe the link from the last node of a list to the new last one. */
  lemma ChainExtended(s: State, s': State, c: seq<Node>, t: Tid, p: Pc, n: Node)
    requires Chained(s, c) && c != [] && forall i, j :: 0 <= i < j < |c| ==> c[i] != c[j]
    requires t in s.pc && Due(s.pc[t]) == None && s'.pc == s.pc[t := p] && Due(p) == Some((c[|c| - 1], n))
    requires forall m :: m in c && m in s.next ==> m in s'.next && s'.next[m] == s.next[m]
    requires s'.linker == s.linker[c[|c| - 1] := t] && n in s'.next && s'.next[n] == None
    ensures Chained(s', c + [n])
  {
    var l := |c| - 1;
    forall i | 0 <= i < l ensures Linked(s', c[i], c[i + 1]) {
      assert Linked(s, c[i], c[i + 1]) && c[i] != c[l];
    }
    assert Linked(s', c[l], n);
  }

  /** A step of `t` stores the link it owes. */
  lemma ChainLinked(s: State, s': State, c: seq<Node>, t: Tid, p: Pc, a: Node, b: Node)
    requires Chained(s, c) && t in s.pc && Due(s.pc[t]) == Some((a, b)) && Follows(c, a, b)
    requires s' == StoreNext(s, t, a, Some(b), p)
    ensures Chained(s', c)
  {
    forall i | 0 <= i < |c| - 1 ensures Linked(s', c[i], c[i + 1]) {
      assert Linked(s, c[i], c[i + 1]);
    }
  }

  lemma RefillPlaces(s: State, t: Tid, x: Elem, pres: Node)
    requires Places(s) && s.spare == [pres] && t in s.pc && s.pc[t] == ERefill(x, pres)
    ensures Places(Refill(s, t, x, pres))
  {
    OtherKept(s.used, s.place, Used, s.top, Spare);
    Appended(s.spare, s.place, Spare, s.top);
    SameInHand(s.place, s.pc, t, EAdv(x, pres, s.top));
  }

  lemma RefillLists(s: State, t: Tid, x: Elem, pres: Node)
    requires Lists(s) && s.spare == [pres] && t in s.pc && s.pc[t] == ERefill(x, pres)
    ensures Lists(Refill(s, t, x, pres))
  {
    RefillPlaces(s, t, x, pres);
    RefillLinks(s, t, x, pres);
  }

  lemma RefillLinks(s: State, t: Tid, x: Elem, pres: Node)
    requires Lists(s) && s.spare == [pres] && t in s.pc && s.pc[t] == ERefill(x, pres)
    ensures Links(Refill(s, t, x, pres))
  {
    var s', p := Refill(s, t, x, pres), EAdv(x, pres, s.top);
    assert At(s, s.spare[0], Spare);
    ChainKept(s, s', s.used, t, p);
    ChainExtended(s, s', s.spare, t, p, s.top);
  }

  lemma TakeSparePlaces(s: State, t: Tid, x: Elem, pres: Node, nexts: Node)
    requires Places(s) && t in s.pc && NodeOf(s.pc[t]) == None && s.spare != [] && s.spare[0] == pres
    ensures Places(TakeSpare(s, t, x, pres, nexts))
  {
    FirstTaken(s.spare, s.place, Spare, t);
    OtherKept(s.used, s.place, Used, pres, Own(t));
    TakenInHand(s.place, s.pc, pres, t, EData(x, pres));
  }

  lemma TakeSpareLists(s: State, t: Tid, x: Elem, pres: Node, nexts: Node)
    requires Lists(s) && t in s.pc && s.pc[t] == EAdv(x, pres, nexts) && PcOk(s, t, s.pc[t])
    ensures Lists(TakeSpare(s, t, x, pres, nexts))
  {
    TakeSparePlaces(s, t, x, pres, nexts);
    TakeSpareLinks(s, t, x, pres, nexts);
  }

  lemma TakeSpareLinks(s: State, t: Tid, x: Elem, pres: Node, nexts: Node)
    requires Lists(s) && t in s.pc && s.pc[t] == EAdv(x, pres, nexts) && PcOk(s, t, s.pc[t])
    ensures Links(TakeSpare(s, t, x, pres, nexts))
  {
    var s', p := TakeSpare(s, t, x, pres, nexts), EData(x, pres);
    assert At(s, s.spare[0], Spare);
    ChainKept(s, s', s.used, t, p);
    ChainTail(s, s.spare);
    ChainKept(s, s', s.spare[1..], t, p);
  }

  lemma TakeUsedPlaces(s: State, t: Tid, preu: Node, nextu: Node)
    requires Places(s) && t in s.pc && NodeOf(s.pc[t]) == None && s.used != [] && s.used[0] == preu
    ensures Places(TakeUsed(s, t, preu, nextu))
  {
    FirstTaken(s.used, s.place, Used, t);
    OtherKept(s.spare, s.place, Spare, preu, Own(t));
    TakenInHand(s.place, s.pc, preu, t, DMove(preu, nextu));
  }

  lemma TakeUsedLists(s: State, t: Tid, preu: Node, nextu: Node)
    requires Lists(s) && t in s.pc && s.pc[t] == DAdv(preu, nextu) && PcOk(s, t, s.pc[t])
    ensures Lists(TakeUsed(s, t, preu, nextu))
  {
    TakeUsedPlaces(s, t, preu, nextu);
    TakeUsedLinks(s, t, preu, nextu);
  }

  lemma TakeUsedLinks(s: State, t: Tid, preu: Node, nextu: Node)
    requires Lists(s) && t in s.pc && s.pc[t] == DAdv(preu, nextu) && PcOk(s, t, s.pc[t])
    ensures Links(TakeUsed(s, t, preu, nextu))
  {
    var s', p := TakeUsed(s, t, preu, nextu), DMove(preu, nextu);
    ChainTail(s, s.used);
    ChainKept(s, s', s.used[1..], t, p);
    ChainKept(s, s', s.spare, t, p);
  }

  lemma ExchangeUsedPlaces(s: State, t: Tid, x: Elem, pres: Node)
    requires Places(s) && t in s.pc && At(s, pres, Own(t))
    ensures Places(ExchangeUsed(s, t, pres))
  {
    Appended(s.used, s.place, Used, pres);
    OtherKept(s.spare, s.place, Spare, pres, Used);
    GivenFromHand(s.place, s.pc, pres, Used, t, ELink(s.uTail, pres));
  }

  lemma ExchangeUsedLists(s: State, t: Tid, x: Elem, pres: Node)
    requires Lists(s) && t in s.pc && s.pc[t] == EExch(x, pres) && PcOk(s, t, s.pc[t])
    ensures Lists(ExchangeUsed(s, t, pres))
  {
    ExchangeUsedPlaces(s, t, x, pres);
    PlacesApart(s);
    ExchangeUsedLinks(s, t, x, pres);
  }

  lemma ExchangeUsedLinks(s: State, t: Tid, x: Elem, pres: Node)
    requires Ends(s) && Links(s) && ListsApart(s) && t in s.pc && s.pc[t] == EExch(x, pres) && PcOk(s, t, s.pc[t])
    ensures Links(ExchangeUsed(s, t, pres))
  {
    var s', p := ExchangeUsed(s, t, pres), ELink(s.uTail, pres);
    ChainExtended(s, s', s.used, t, p, pres);
    ChainKept(s, s', s.spare, t, p);
  }

  lemma ExchangeSparePlaces(s: State, t: Tid, preu: Node, out: Elem)
    requires Places(s) && t in s.pc && At(s, preu, Own(t))
    ensures Places(ExchangeSpare(s, t, preu, out))
  {
    Appended(s.spare, s.place, Spare, preu);
    OtherKept(s.used, s.place, Used, preu, Spare);
    GivenFromHand(s.place, s.pc, preu, Spare, t, DLink(s.sTail, preu, out));
  }

  lemma ExchangeSpareLists(s: State, t: Tid, preu: Node, out: Elem)
    requires Lists(s) && t in s.pc && s.pc[t] == DExch(preu, out) && PcOk(s, t, s.pc[t])
    ensures Lists(ExchangeSpare(s, t, preu, out))
  {
    ExchangeSparePlaces(s, t, preu, out);
    PlacesApart(s);
    ExchangeSpareLinks(s, t, preu, out);
  }

  lemma ExchangeSpareLinks(s: State, t: Tid, preu: Node, out: Elem)
    requires Ends(s) && Links(s) && ListsApart(s) && t in s.pc && s.pc[t] == DExch(preu, out) && PcOk(s, t, s.pc[t])
    ensures Links(ExchangeSpare(s, t, preu, out))
  {
    var s', p := ExchangeSpare(s, t, preu, out), DLink(s.sTail, preu, out);
    ChainKept(s, s', s.used, t, p);
    ChainExtended(s, s', s.spare, t, p, preu);
  }

  lemma StoreKeepsPlaces(s: State, t: Tid, n: Node, v: Option<Node>, p: Pc)
    requires Ends(s) && Places(s) && t in s.pc && NodeOf(s.pc[t]) == NodeOf(p)
    ensures Ends(StoreNext(s, t, n, v, p)) && Places(StoreNext(s, t, n, v, p))
  {
    SameInHand(s.place, s.pc, t, p);
  }

  /** Clearing the link of an owned node. */
  lemma ClearLists(s: State, t: Tid, n: Node, p: Pc)
    requires Lists(s) && t in s.pc && NodeOf(s.pc[t]) == NodeOf(p) && Due(s.pc[t]) == Due(p) == None
    requires At(s, n, Own(t))
    ensures Lists(StoreNext(s, t, n, None, p))
  {
    StoreKeepsPlaces(s, t, n, None, p);
    ClearLinks(s, t, n, p);
  }

  lemma ClearLinks(s: State, t: Tid, n: Node, p: Pc)
    requires Lists(s) && t in s.pc && Due(s.pc[t]) == None && At(s, n, Own(t))
    ensures Links(StoreNext(s, t, n, None, p))
  {
    var s' := StoreNext(s, t, n, None, p);
    ChainKept(s, s', s.used, t, p);
    ChainKept(s, s', s.spare, t, p);
  }

  /** Storing the link a thread owes. */
  lemma LinkLists(s: State, t: Tid, a: Node, b: Node, p: Pc)
    requires Lists(s) && t in s.pc && Due(s.pc[t]) == Some((a, b)) && NodeOf(s.pc[t]) == NodeOf(p) == None
    requires Owes(s, t, a)
    requires (At(s, a, Used) && Follows(s.used, a, b)) || (At(s, a, Spare) && Follows(s.spare, a, b))
    ensures Lists(StoreNext(s, t, a, Some(b), p))
  {
    StoreKeepsPlaces(s, t, a, Some(b), p);
    LinkLinks(s, t, a, b, p);
  }

  lemma LinkLinks(s: State, t: Tid, a: Node, b: Node, p: Pc)
    requires Lists(s) && t in s.pc && Due(s.pc[t]) == Some((a, b)) && Owes(s, t, a)
    requires (At(s, a, Used) && Follows(s.used, a, b)) || (At(s, a, Spare) && Follows(s.spare, a, b))
    ensures Links(StoreNext(s, t, a, Some(b), p))
  {
    var s' := StoreNext(s, t, a, Some(b), p);
    ChainLinked(s, s', s.used, t, p, a, b);
    ChainLinked(s, s', s.spare, t, p, a, b);
  }

  // The same steps, for a thread `u` that does not take them.

  lemma RefillOther(s: State, t: Tid, x: Elem, pres: Node, u: Tid, p: Pc)
    requires Lists(s) && s.spare == [pres] && s.sLk == Some(t) && u != t && PcOk(s, u, p)
    ensures PcOk(Refill(s, t, x, pres), u, p)
  {
  }

  predicate Enqueues(p: Pc) {
    || p.EWant? || p.ESpin? || p.ECheck? || p.ERefill? || p.EAdv?
    || p.EData? || p.EClear? || p.EExch? || p.ELink? || p.EDone?
  }

  lemma TakeSpareOther(s: State, t: Tid, x: Elem, pres: Node, nexts: Node, u: Tid, p: Pc)
    requires Lists(s) && PcOk(s, t, EAdv(x, pres, nexts)) && u != t && PcOk(s, u, p)
    ensures PcOk(TakeSpare(s, t, x, pres, nexts), u, p)
  {
    var s' := TakeSpare(s, t, x, pres, nexts);
    assert At(s, s.spare[0], Spare);
    if Enqueues(p) { SpareTakenEnqueue(s, s', t, pres, u, p); } else { SpareTakenDequeue(s, s', t, pres, u, p); }
  }

  lemma SpareTakenEnqueue(s: State, s': State, t: Tid, pres: Node, u: Tid, p: Pc)
    requires Places(s) && At(s, pres, Spare) && u != t && PcOk(s, u, p) && Enqueues(p) && s.sLk == Some(t)
    requires s'.next == s.next && s'.data == s.data && s'.used == s.used && s'.linker == s.linker
    requires s'.place == s.place[pres := Own(t)]
    ensures PcOk(s', u, p)
  {
  }

  lemma SpareTakenDequeue(s: State, s': State, t: Tid, pres: Node, u: Tid, p: Pc)
    requires Places(s) && s.spare != [] && s.spare[0] == pres && At(s, pres, Spare)
    requires u != t && PcOk(s, u, p) && !Enqueues(p)
    requires s'.next == s.next && s'.data == s.data && s'.used == s.used && s'.linker == s.linker && s'.uLk == s.uLk
    requires s'.spare == s.spare[1..] && s'.place == s.place[pres := Own(t)] && |s.spare| >= 2
    requires s.next[pres] != None || Owes(s, t, pres)
    ensures PcOk(s', u, p)
  {
  }

  lemma TakeUsedOther(s: State, t: Tid, preu: Node, nextu: Node, u: Tid, p: Pc)
    requires Lists(s) && PcOk(s, t, DAdv(preu, nextu)) && u != t && PcOk(s, u, p)
    ensures PcOk(TakeUsed(s, t, preu, nextu), u, p)
  {
    var s' := TakeUsed(s, t, preu, nextu);
    assert At(s, s.used[0], Used);
    if Enqueues(p) { UsedTakenEnqueue(s, s', t, preu, u, p); } else { UsedTakenDequeue(s, s', t, preu, u, p); }
  }

  lemma UsedTakenDequeue(s: State, s': State, t: Tid, preu: Node, u: Tid, p: Pc)
    requires Places(s) && At(s, preu, Used) && u != t && PcOk(s, u, p) && !Enqueues(p) && s.uLk == Some(t)
    requires s'.next == s.next && s'.data == s.data && s'.spare == s.spare && s'.linker == s.linker
    requires s'.place == s.place[preu := Own(t)]
    ensures PcOk(s', u, p)
  {
  }

  lemma UsedTakenEnqueue(s: State, s': State, t: Tid, preu: Node, u: Tid, p: Pc)
    requires Places(s) && |s.used| >= 2 && s.used[0] == preu && At(s, preu, Used)
    requires u != t && PcOk(s, u, p) && Enqueues(p)
    requires s'.next == s.next && s'.data == s.data && s'.spare == s.spare && s'.linker == s.linker && s'.sLk == s.sLk
    requires s'.used == s.used[1..] && s'.place == s.place[preu := Own(t)] && preu in s.next && s.next[preu] != None
    ensures PcOk(s', u, p)
  {
  }

  lemma ExchangeUsedOther(s: State, t: Tid, x: Elem, pres: Node, u: Tid, p: Pc)
    requires Lists(s) && PcOk(s, t, EExch(x, pres)) && u != t && PcOk(s, u, p)
    ensures PcOk(ExchangeUsed(s, t, pres), u, p)
  {
  }

  lemma ExchangeSpareOther(s: State, t: Tid, preu: Node, out: Elem, u: Tid, p: Pc)
    requires Lists(s) && PcOk(s, t, DExch(preu, out)) && u != t && PcOk(s, u, p) && !p.ERefill?
    ensures PcOk(ExchangeSpare(s, t, preu, out), u, p)
  {
    assert At(s, s.spare[|s.spare| - 1], Spare);
  }

  lemma ClearOther(s: State, t: Tid, n: Node, q: Pc, u: Tid, p: Pc)
    requires Lists(s) && At(s, n, Own(t)) && u != t && PcOk(s, u, p)
    ensures PcOk(StoreNext(s, t, n, None, q), u, p)
  {
  }

  lemma LinkOther(s: State, t: Tid, a: Node, b: Node, q: Pc, u: Tid, p: Pc)
    requires Lists(s) && Owes(s, t, a) && a in s.next && s.next[a] == None && u != t && PcOk(s, u, p)
    requires At(s, a, Used) || At(s, a, Spare)
    ensures PcOk(StoreNext(s, t, a, Some(b), q), u, p)
  {
  }

  lemma RefillInv(s: State, t: Tid, x: Elem, pres: Node)
    requires Inv(s) && t in s.pc && s.pc[t] == ERefill(x, pres)
    ensures Enabled(s, Step(t)) && Inv(StepOf(s, t))
  {
    RefillKeeps(s, t, x, pres);
    assert StepOf(s, t) == Refill(s, t, x, pres);
  }

  lemma RefillKeeps(s: State, t: Tid, x: Elem, pres: Node)
    requires Inv(s) && t in s.pc && s.pc[t] == ERefill(x, pres)
    ensures Inv(Refill(s, t, x, pres))
  {
    assert PcOk(s, t, s.pc[t]);
    RefillLists(s, t, x, pres);
    forall u | u in s.pc && u != t ensures PcOk(Refill(s, t, x, pres), u, s.pc[u]) {
      RefillOther(s, t, x, pres, u, s.pc[u]);
    }
    RefillOwn(s, t, x, pres);
  }

  lemma RefillOwn(s: State, t: Tid, x: Elem, pres: Node)
    requires Lists(s) && PcOk(s, t, ERefill(x, pres))
    ensures PcOk(Refill(s, t, x, pres), t, Refill(s, t, x, pres).pc[t])
  {
  }

  lemma TakeSpareInv(s: State, t: Tid, x: Elem, pres: Node, nexts: Node)
    requires Inv(s) && t in s.pc && s.pc[t] == EAdv(x, pres, nexts)
    ensures Enabled(s, Step(t)) && Inv(StepOf(s, t))
  {
    TakeSpareKeeps(s, t, x, pres, nexts);
    assert StepOf(s, t) == TakeSpare(s, t, x, pres, nexts);
  }

  lemma TakeSpareKeeps(s: State, t: Tid, x: Elem, pres: Node, nexts: Node)
    requires Inv(s) && t in s.pc && s.pc[t] == EAdv(x, pres, nexts)
    ensures Inv(TakeSpare(s, t, x, pres, nexts))
  {
    assert PcOk(s, t, s.pc[t]);
    TakeSpareLists(s, t, x, pres, nexts);
    TakeSpareOthers(s, t, x, pres, nexts);
    TakeSpareOwn(s, t, x, pres, nexts);
    InvFromParts(s, TakeSpare(s, t, x, pres, nexts), t, EData(x, pres));
  }

  lemma TakeSpareOthers(s: State, t: Tid, x: Elem, pres: Node, nexts: Node)
    requires Inv(s) && PcOk(s, t, EAdv(x, pres, nexts))
    ensures forall u :: u in s.pc && u != t ==> PcOk(TakeSpare(s, t, x, pres, nexts), u, s.pc[u])
  {
    forall u | u in s.pc && u != t ensures PcOk(TakeSpare(s, t, x, pres, nexts), u, s.pc[u]) {
      TakeSpareOther(s, t, x, pres, nexts, u, s.pc[u]);
    }
  }

  lemma InvFromParts(s: State, s': State, t: Tid, p: Pc)
    requires Lists(s') && s'.pc == s.pc[t := p] && PcOk(s', t, p)
    requires forall u :: u in s.pc && u != t ==> PcOk(s', u, s.pc[u])
    ensures Inv(s')
  {
  }

  lemma TakeSpareOwn(s: State, t: Tid, x: Elem, pres: Node, nexts: Node)
    requires Lists(s) && PcOk(s, t, EAdv(x, pres, nexts))
    ensures PcOk(TakeSpare(s, t, x, pres, nexts), t, TakeSpare(s, t, x, pres, nexts).pc[t])
  {
  }

  lemma ExchangeUsedInv(s: State, t: Tid, x: Elem, pres: Node)
    requires Inv(s) && t in s.pc && s.pc[t] == EExch(x, pres)
    ensures Enabled(s, Step(t)) && Inv(StepOf(s, t))
  {
    ExchangeUsedKeeps(s, t, x, pres);
    assert StepOf(s, t) == ExchangeUsed(s, t, pres);
  }

  lemma ExchangeUsedKeeps(s: State, t: Tid, x: Elem, pres: Node)
    requires Inv(s) && t in s.pc && s.pc[t] == EExch(x, pres)
    ensures Inv(ExchangeUsed(s, t, pres))
  {
    assert PcOk(s, t, s.pc[t]);
    ExchangeUsedLists(s, t, x, pres);
    forall u | u in s.pc && u != t ensures PcOk(ExchangeUsed(s, t, pres), u, s.pc[u]) {
      ExchangeUsedOther(s, t, x, pres, u, s.pc[u]);
    }
    ExchangeUsedOwn(s, t, x, pres);
  }

  lemma ExchangeUsedOwn(s: State, t: Tid, x: Elem, pres: Node)
    requires Lists(s) && PcOk(s, t, EExch(x, pres))
    ensures PcOk(ExchangeUsed(s, t, pres), t, ExchangeUsed(s, t, pres).pc[t])
  {
  }

  lemma TakeUsedInv(s: State, t: Tid, preu: Node, nextu: Node)
    requires Inv(s) && t in s.pc && s.pc[t] == DAdv(preu, nextu)
    ensures Enabled(s, Step(t)) && Inv(StepOf(s, t))
  {
    TakeUsedKeeps(s, t, preu, nextu);
    assert StepOf(s, t) == TakeUsed(s, t, preu, nextu);
  }

  lemma TakeUsedKeeps(s: State, t: Tid, preu: Node, nextu: Node)
    requires Inv(s) && t in s.pc && s.pc[t] == DAdv(preu, nextu)
    ensures Inv(TakeUsed(s, t, preu, nextu))
  {
    assert PcOk(s, t, s.pc[t]);
    TakeUsedLists(s, t, preu, nextu);
    forall u | u in s.pc && u != t ensures PcOk(TakeUsed(s, t, preu, nextu), u, s.pc[u]) {
      TakeUsedOther(s, t, preu, nextu, u, s.pc[u]);
    }
    TakeUsedOwn(s, t, preu, nextu);
  }

  lemma TakeUsedOwn(s: State, t: Tid, preu: Node, nextu: Node)
    requires Lists(s) && PcOk(s, t, DAdv(preu, nextu))
    ensures PcOk(TakeUsed(s, t, preu, nextu), t, TakeUsed(s, t, preu, nextu).pc[t])
  {
  }

  lemma ExchangeSpareInv(s: State, t: Tid, preu: Node, out: Elem)
    requires Inv(s) && t in s.pc && s.pc[t] == DExch(preu, out) && !WindowOpen(s)
    ensures Enabled(s, Step(t)) && Inv(StepOf(s, t))
  {
    ExchangeSpareKeeps(s, t, preu, out);
    assert StepOf(s, t) == ExchangeSpare(s, t, preu, out);
  }

  lemma ExchangeSpareKeeps(s: State, t: Tid, preu: Node, out: Elem)
    requires Inv(s) && t in s.pc && s.pc[t] == DExch(preu, out) && !WindowOpen(s)
    ensures Inv(ExchangeSpare(s, t, preu, out))
  {
    assert PcOk(s, t, s.pc[t]);
    ExchangeSpareLists(s, t, preu, out);
    forall u | u in s.pc && u != t ensures PcOk(ExchangeSpare(s, t, preu, out), u, s.pc[u]) {
      ExchangeSpareOther(s, t, preu, out, u, s.pc[u]);
    }
    ExchangeSpareOwn(s, t, preu, out);
  }

  lemma ExchangeSpareOwn(s: State, t: Tid, preu: Node, out: Elem)
    requires Lists(s) && PcOk(s, t, DExch(preu, out))
    ensures PcOk(ExchangeSpare(s, t, preu, out), t, ExchangeSpare(s, t, preu, out).pc[t])
  {
  }

  lemma MoveInv(s: State, t: Tid)
    requires Inv(s) && Quiet(s, Step(t))
    requires s.pc[t].ERefill? || s.pc[t].EAdv? || s.pc[t].EExch? || s.pc[t].DAdv? || s.pc[t].DExch?
    ensures Inv(StepOf(s, t))
  {
    match s.pc[t]
    case ERefill(x, pres) => RefillInv(s, t, x, pres);
    case EAdv(x, pres, nexts) => TakeSpareInv(s, t, x, pres, nexts);
    case EExch(x, pres) => ExchangeUsedInv(s, t, x, pres);
    case DAdv(preu, nextu) => TakeUsedInv(s, t, preu, nextu);
    case DExch(preu, out) => ExchangeSpareInv(s, t, preu, out);
  }

  lemma StoreInv(s: State, t: Tid)
    requires Inv(s) && Enabled(s, Step(t)) && Stores(s.pc[t])
    ensures Inv(StepOf(s, t))
  {
    if s.pc[t].EClear? || s.pc[t].DClear? { ClearStoreInv(s, t); } else { LinkStoreInv(s, t); }
  }

  lemma ClearStoreInv(s: State, t: Tid)
    requires Inv(s) && t in s.pc && (s.pc[t].EClear? || s.pc[t].DClear?)
    ensures Enabled(s, Step(t)) && Inv(StepOf(s, t))
  {
    match s.pc[t]
    case EClear(x, pres) => ClearSpareInv(s, t, x, pres);
    case DClear(preu, out) => ClearUsedInv(s, t, preu, out);
  }

  lemma ClearSpareInv(s: State, t: Tid, x: Elem, pres: Node)
    requires Inv(s) && t in s.pc && s.pc[t] == EClear(x, pres)
    ensures Inv(StoreNext(s, t, pres, None, EExch(x, pres)))
  {
    assert PcOk(s, t, s.pc[t]);
    ClearInv(s, t, pres, EExch(x, pres));
  }

  lemma ClearUsedInv(s: State, t: Tid, preu: Node, out: Elem)
    requires Inv(s) && t in s.pc && s.pc[t] == DClear(preu, out)
    ensures Inv(StoreNext(s, t, preu, None, DExch(preu, out)))
  {
    assert PcOk(s, t, s.pc[t]);
    ClearInv(s, t, preu, DExch(preu, out));
  }

  lemma LinkStoreInv(s: State, t: Tid)
    requires Inv(s) && t in s.pc && (s.pc[t].ELink? || s.pc[t].DLink?)
    ensures Enabled(s, Step(t)) && Inv(StepOf(s, t))
  {
    assert PcOk(s, t, s.pc[t]);
    match s.pc[t]
    case ELink(preu, pres) => LinkInv(s, t, preu, pres, EDone);
    case DLink(pres, preu, out) => LinkInv(s, t, pres, preu, DDone(Some(out)));
  }

  lemma ClearInv(s: State, t: Tid, n: Node, p: Pc)
    requires Inv(s) && t in s.pc && NodeOf(s.pc[t]) == NodeOf(p) && Due(s.pc[t]) == Due(p) == None
    requires At(s, n, Own(t)) && PcOk(StoreNext(s, t, n, None, p), t, p)
    ensures Inv(StoreNext(s, t, n, None, p))
  {
    ClearLists(s, t, n, p);
    forall u | u in s.pc && u != t ensures PcOk(StoreNext(s, t, n, None, p), u, s.pc[u]) {
      ClearOther(s, t, n, p, u, s.pc[u]);
    }
  }

  lemma LinkInv(s: State, t: Tid, a: Node, b: Node, p: Pc)
    requires Inv(s) && t in s.pc && Due(s.pc[t]) == Some((a, b)) && NodeOf(s.pc[t]) == NodeOf(p) == None
    requires p.EDone? || p.DDone?
    requires Owes(s, t, a) && a in s.next && s.next[a] == None
    requires (At(s, a, Used) && Follows(s.used, a, b)) || (At(s, a, Spare) && Follows(s.spare, a, b))
    ensures Inv(StoreNext(s, t, a, Some(b), p))
  {
    LinkLists(s, t, a, b, p);
    LinkOthers(s, t, a, b, p);
    InvFromParts(s, StoreNext(s, t, a, Some(b), p), t, p);
  }

  lemma LinkOthers(s: State, t: Tid, a: Node, b: Node, p: Pc)
    requires Inv(s) && Owes(s, t, a) && a in s.next && s.next[a] == None && (At(s, a, Used) || At(s, a, Spare))
    ensures forall u :: u in s.pc && u != t ==> PcOk(StoreNext(s, t, a, Some(b), p), u, s.pc[u])
  {
    forall u | u in s.pc && u != t ensures PcOk(StoreNext(s, t, a, Some(b), p), u, s.pc[u]) {
      LinkOther(s, t, a, b, p, u, s.pc[u]);
    }
  }

  lemma NextInv(s: State, a: Action)
    requires Inv(s) && Quiet(s, a)
    ensures Inv(Apply(s, a))
  {
    match a
    case Start(t) => CallInv(s, a, Idle);
    case CallEnqueue(t, x) => CallInv(s, a, EWant(x));
    case CallDequeue(t) => CallInv(s, a, DWant);
    case Return(t) => CallInv(s, a, Idle);
    case Step(t) =>
      if LocalEnqueue(s.pc[t]) { LocalEnqueueInv(s, t); }
      else if LocalDequeue(s.pc[t]) { LocalDequeueInv(s, t); }
      else if Stores(s.pc[t]) { StoreInv(s, t); }
      else { MoveInv(s, t); }
  }

  lemma {:induction false} RunInv(s: State, acts: seq<Action>)
    requires Inv(s) && QuietRun(s, acts)
    ensures Run(s, acts) && Inv(Exec(s, acts))
    decreases |acts|
  {
    if acts != [] {
      NextInv(s, acts[0]);
      RunInv(Apply(s, acts[0]), acts[1..]);
    }
  }

  lemma InitInv()
    ensures Inv(INIT)
  {
  }

  // ---------------------------------------------------------------- refinement of an atomic queue

  /** The elements: the data behind the dummy, in exchange order. */
  function Contents(s: State): seq<Elem> {
    if s.used == [] then []
    else
      seq(|s.used| - 1, i requires 0 <= i < |s.used| - 1 =>
        if s.used[i + 1] in s.data then s.data[s.used[i + 1]] else 0)
  }

  /** How far an operation on an atomic queue would be. */
  datatype Status = Quiescent | Enqueuing(x: Elem) | Enqueued | Dequeuing | Dequeued(result: Option<Elem>)

  function StatusOf(s: State, p: Pc): Status {
    match p
    case Idle => Quiescent
    case EWant(x) => Enqueuing(x)
    case ESpin(x, _) => Enqueuing(x)
    case ECheck(x, _) => Enqueuing(x)
    case ERefill(x, _) => Enqueuing(x)
    case EAdv(x, _, _) => Enqueuing(x)
    case EData(x, _) => Enqueuing(x)
    case EClear(x, _) => Enqueuing(x)
    case EExch(x, _) => Enqueuing(x)
    case ELink(_, _) => Enqueued
    case EDone => Enqueued
    case DWant | DSpin(_) | DCheck(_) | DAdv(_, _) => Dequeuing
    case DMove(_, nextu) => Dequeued(if nextu in s.data then Some(s.data[nextu]) else None)
    case DClear(_, out) => Dequeued(Some(out))
    case DExch(_, out) => Dequeued(Some(out))
    case DLink(_, _, out) => Dequeued(Some(out))
    case DDone(result) => Dequeued(result)
  }

  /** One step of thread's operation on an atomic queue with contents `q`: either nothing
      happens, or the operation takes effect, once, with its result. */
  ghost predicate AtomicStep(q: seq<Elem>, st: Status, q': seq<Elem>, st': Status) {
    || (q' == q && st' == st)
    || (st.Enqueuing? && q' == q + [st.x] && st' == Enqueued)
    || (st == Dequeuing && q == [] && q' == [] && st' == Dequeued(None))
    || (st == Dequeuing && q != [] && q' == q[1..] && st' == Dequeued(Some(q[0])))
  }

  lemma ContentsSame(s: State, s': State)
    requires Places(s) && s'.used == s.used
    requires forall n :: At(s, n, Used) ==> n in s'.data && s'.data[n] == s.data[n]
    ensures Contents(s') == Contents(s)
  {
  }

  function Entered(s: State, a: Action): seq<Elem> {
    if a.Step? && a.t in s.pc && s.pc[a.t].EExch? then [s.pc[a.t].x] else []
  }

  function Left(s: State, a: Action): seq<Elem> {
    if a.Step? && a.t in s.pc && s.pc[a.t].DAdv? && Contents(s) != [] then [Contents(s)[0]] else []
  }

  /** The step of `t` from `s` to `s'` is a step of its operation on an atomic queue, and no
      step of any other operation; and it moves the elements it should. */
  ghost predicate Refines(s: State, t: Tid, s': State) {
    && t in s.pc && t in s'.pc
    && AtomicStep(Contents(s), StatusOf(s, s.pc[t]), Contents(s'), StatusOf(s', s'.pc[t]))
    && (forall u :: u in s.pc && u != t ==> u in s'.pc && StatusOf(s', s'.pc[u]) == StatusOf(s, s.pc[u]))
    && Left(s, Step(t)) + Contents(s') == Contents(s) + Entered(s, Step(t))
  }

  /** What the data of used nodes is, no step but its own changes about an operation. */
  ghost predicate DataKept(s: State, s': State) {
    forall n :: At(s, n, Used) ==> n in s.data && n in s'.data && s'.data[n] == s.data[n]
  }

  lemma OthersStatus(s: State, s': State, t: Tid, p: Pc)
    requires Inv(s) && DataKept(s, s') && s'.pc == s.pc[t := p]
    ensures forall u :: u in s.pc && u != t ==> u in s'.pc && StatusOf(s', s'.pc[u]) == StatusOf(s, s.pc[u])
  {
  }

  lemma SilentStep(s: State, s': State, t: Tid, p: Pc)
    requires Inv(s) && DataKept(s, s') && t in s.pc && s'.pc == s.pc[t := p] && s'.used == s.used
    requires StatusOf(s', p) == StatusOf(s, s.pc[t]) && !s.pc[t].DAdv? && !s.pc[t].EExch?
    ensures Refines(s, t, s')
  {
    OthersStatus(s, s', t, p);
    ContentsSame(s, s');
  }

  lemma UsedHaveData(s: State)
    requires Places(s)
    ensures forall i :: 0 <= i < |s.used| ==> s.used[i] in s.data
    ensures forall n :: At(s, n, Used) ==> n in s.data
  {
  }

  lemma LocalEnqueueRefines(s: State, t: Tid)
    requires Inv(s) && Enabled(s, Step(t)) && LocalEnqueue(s.pc[t])
    ensures Refines(s, t, StepOf(s, t))
  {
    assert PcOk(s, t, s.pc[t]);
    UsedHaveData(s);
    LocalEnqueueFrame(s, t);
    LocalEnqueueStatus(s, t);
    SilentStep(s, StepOf(s, t), t, StepOf(s, t).pc[t]);
  }

  lemma LocalEnqueueStatus(s: State, t: Tid)
    requires Enabled(s, Step(t)) && LocalEnqueue(s.pc[t])
    ensures StatusOf(StepOf(s, t), StepOf(s, t).pc[t]) == StatusOf(s, s.pc[t])
  {
    match s.pc[t]
    case EWant(_) =>
    case ESpin(_, _) =>
    case ECheck(_, _) =>
    case EData(_, _) =>
  }

  lemma LocalDequeueRefines(s: State, t: Tid)
    requires Inv(s) && Enabled(s, Step(t)) && LocalDequeue(s.pc[t])
    ensures Refines(s, t, StepOf(s, t))
  {
    assert PcOk(s, t, s.pc[t]);
    UsedHaveData(s);
    LocalDequeueFrame(s, t);
    var s' := StepOf(s, t);
    LocalDequeueStatus(s, t);
    if s.pc[t].DCheck? && s.uHead == s.uTail {
      assert |s.used| == 1;
      OthersStatus(s, s', t, s'.pc[t]);
      ContentsSame(s, s');
    } else {
      SilentStep(s, s', t, s'.pc[t]);
    }
  }

  lemma LocalDequeueStatus(s: State, t: Tid)
    requires Enabled(s, Step(t)) && LocalDequeue(s.pc[t])
    ensures StatusOf(StepOf(s, t), StepOf(s, t).pc[t]) ==
            if s.pc[t].DCheck? && s.uHead == s.uTail then Dequeued(None) else StatusOf(s, s.pc[t])
  {
    match s.pc[t]
    case DWant =>
    case DSpin(_) =>
    case DCheck(_) =>
    case DMove(_, _) =>
  }

  lemma RefillRefines(s: State, t: Tid, x: Elem, pres: Node)
    requires Inv(s) && t in s.pc && s.pc[t] == ERefill(x, pres)
    ensures Refines(s, t, StepOf(s, t))
  {
    UsedHaveData(s);
    RefillIsStep(s, t, x, pres);
    SilentStep(s, Refill(s, t, x, pres), t, EAdv(x, pres, s.top));
  }

  lemma RefillIsStep(s: State, t: Tid, x: Elem, pres: Node)
    requires t in s.pc && s.pc[t] == ERefill(x, pres)
    ensures StepOf(s, t) == Refill(s, t, x, pres)
  {
  }

  lemma TakeSpareRefines(s: State, t: Tid, x: Elem, pres: Node, nexts: Node)
    requires Inv(s) && t in s.pc && s.pc[t] == EAdv(x, pres, nexts)
    ensures Refines(s, t, StepOf(s, t))
  {
    UsedHaveData(s);
    TakeSpareIsStep(s, t, x, pres, nexts);
    SilentStep(s, TakeSpare(s, t, x, pres, nexts), t, EData(x, pres));
  }

  lemma TakeSpareIsStep(s: State, t: Tid, x: Elem, pres: Node, nexts: Node)
    requires t in s.pc && s.pc[t] == EAdv(x, pres, nexts)
    ensures StepOf(s, t) == TakeSpare(s, t, x, pres, nexts)
  {
  }

  lemma ExchangeSpareRefines(s: State, t: Tid, preu: Node, out: Elem)
    requires Inv(s) && t in s.pc && s.pc[t] == DExch(preu, out)
    ensures Refines(s, t, StepOf(s, t))
  {
    UsedHaveData(s);
    ExchangeSpareIsStep(s, t, preu, out);
    SilentStep(s, ExchangeSpare(s, t, preu, out), t, DLink(s.sTail, preu, out));
  }

  lemma ExchangeSpareIsStep(s: State, t: Tid, preu: Node, out: Elem)
    requires t in s.pc && s.pc[t] == DExch(preu, out)
    ensures StepOf(s, t) == ExchangeSpare(s, t, preu, out)
  {
  }

  lemma StoreNextRefines(s: State, t: Tid, n: Node, v: Option<Node>, p: Pc)
    requires Inv(s) && t in s.pc && StatusOf(s, s.pc[t]) == StatusOf(StoreNext(s, t, n, v, p), p)
    requires !s.pc[t].DAdv? && !s.pc[t].EExch?
    ensures Refines(s, t, StoreNext(s, t, n, v, p))
  {
    UsedHaveData(s);
    SilentStep(s, StoreNext(s, t, n, v, p), t, p);
  }

  predicate Stores(p: Pc) {
    p.EClear? || p.DClear? || p.ELink? || p.DLink?
  }

  function StoreOf(p: Pc): (Node, Option<Node>, Pc)
    requires Stores(p)
  {
    match p
    case EClear(x, pres) => (pres, None, EExch(x, pres))
    case DClear(preu, out) => (preu, None, DExch(preu, out))
    case ELink(preu, pres) => (preu, Some(pres), EDone)
    case DLink(pres, preu, out) => (pres, Some(preu), DDone(Some(out)))
  }

  lemma StoreStep(s: State, t: Tid)
    requires Enabled(s, Step(t)) && Stores(s.pc[t])
    ensures var (n, v, p) := StoreOf(s.pc[t]);
            && StepOf(s, t) == StoreNext(s, t, n, v, p)
            && forall s' :: StatusOf(s', p) == StatusOf(s, s.pc[t])
  {
  }

  lemma StoreRefines(s: State, t: Tid)
    requires Inv(s) && Enabled(s, Step(t)) && Stores(s.pc[t])
    ensures Refines(s, t, StepOf(s, t))
  {
    StoreStep(s, t);
    var (n, v, p) := StoreOf(s.pc[t]);
    StoreNextRefines(s, t, n, v, p);
  }

  /** The exchange of uTail_ is where an enqueue takes effect. */
  lemma ExchangeUsedRefines(s: State, t: Tid, x: Elem, pres: Node)
    requires Inv(s) && t in s.pc && s.pc[t] == EExch(x, pres)
    ensures Refines(s, t, StepOf(s, t))
  {
    var s' := ExchangeUsed(s, t, pres);
    ExchangeUsedIsStep(s, t, x, pres);
    assert PcOk(s, t, s.pc[t]);
    UsedHaveData(s);
    OthersStatus(s, s', t, ELink(s.uTail, pres));
    ContentsGrown(s, s', pres, x);
    ExchangeUsedAtomic(s, t, x, pres);
  }

  lemma ExchangeUsedAtomic(s: State, t: Tid, x: Elem, pres: Node)
    requires t in s.pc && s.pc[t] == EExch(x, pres) && Contents(ExchangeUsed(s, t, pres)) == Contents(s) + [x]
    requires var s' := ExchangeUsed(s, t, pres);
             forall u :: u in s.pc && u != t ==> u in s'.pc && StatusOf(s', s'.pc[u]) == StatusOf(s, s.pc[u])
    ensures Refines(s, t, ExchangeUsed(s, t, pres))
  {
  }

  lemma ContentsGrown(s: State, s': State, n: Node, x: Elem)
    requires s.used != [] && s'.used == s.used + [n] && s'.data == s.data && n in s.data && s.data[n] == x
    ensures Contents(s') == Contents(s) + [x]
  {
  }

  lemma ExchangeUsedIsStep(s: State, t: Tid, x: Elem, pres: Node)
    requires t in s.pc && s.pc[t] == EExch(x, pres)
    ensures StepOf(s, t) == ExchangeUsed(s, t, pres)
  {
  }

  /** The store of uHead_ is where a dequeue takes effect. */
  lemma TakeUsedRefines(s: State, t: Tid, preu: Node, nextu: Node)
    requires Inv(s) && t in s.pc && s.pc[t] == DAdv(preu, nextu)
    ensures Refines(s, t, StepOf(s, t))
  {
    TakeUsedOwnStatus(s, t, preu, nextu);
    UsedHaveData(s);
    OthersStatus(s, TakeUsed(s, t, preu, nextu), t, DMove(preu, nextu));
    TakeUsedAtomic(s, t, preu, nextu);
    TakeUsedIsStep(s, t, preu, nextu);
  }

  lemma TakeUsedIsStep(s: State, t: Tid, preu: Node, nextu: Node)
    requires t in s.pc && s.pc[t] == DAdv(preu, nextu)
    ensures StepOf(s, t) == TakeUsed(s, t, preu, nextu)
  {
  }

  lemma TakeUsedAtomic(s: State, t: Tid, preu: Node, nextu: Node)
    requires t in s.pc && s.pc[t] == DAdv(preu, nextu)
    requires nextu in s.data && Contents(s) == [s.data[nextu]] + Contents(TakeUsed(s, t, preu, nextu))
    requires var s' := TakeUsed(s, t, preu, nextu);
             forall u :: u in s.pc && u != t ==> u in s'.pc && StatusOf(s', s'.pc[u]) == StatusOf(s, s.pc[u])
    ensures Refines(s, t, TakeUsed(s, t, preu, nextu))
  {
    OneTaken(Contents(s), s.data[nextu], Contents(TakeUsed(s, t, preu, nextu)));
  }

  lemma OneTaken(q: seq<Elem>, x: Elem, q': seq<Elem>)
    requires q == [x] + q'
    ensures q != [] && q[0] == x && q[1..] == q' && [x] + q' == q + []
  {
  }

  lemma TakeUsedOwnStatus(s: State, t: Tid, preu: Node, nextu: Node)
    requires Inv(s) && t in s.pc && s.pc[t] == DAdv(preu, nextu)
    ensures nextu in s.data && Contents(s) == [s.data[nextu]] + Contents(TakeUsed(s, t, preu, nextu))
  {
    assert PcOk(s, t, s.pc[t]);
    UsedHaveData(s);
    TakeUsedContents(s, t, preu, nextu);
  }

  lemma TakeUsedContents(s: State, t: Tid, preu: Node, nextu: Node)
    requires |s.used| >= 2 && s.used[1] == nextu && nextu in s.data
    ensures Contents(s) == [s.data[nextu]] + Contents(TakeUsed(s, t, preu, nextu))
  {
  }

  /** Every step of every thread is a step of its operation on an atomic FIFO queue: an
      enqueue takes effect at its exchange of uTail_, a dequeue at its store of uHead_, and a
      dequeue reports an empty queue only at a moment at which the queue is empty. */
  lemma StepRefinesAtomicQueue(s: State, t: Tid)
    requires Inv(s) && Enabled(s, Step(t))
    ensures Refines(s, t, StepOf(s, t))
  {
    match s.pc[t]
    case ERefill(x, pres) => RefillRefines(s, t, x, pres);
    case EAdv(x, pres, nexts) => TakeSpareRefines(s, t, x, pres, nexts);
    case EExch(x, pres) => ExchangeUsedRefines(s, t, x, pres);
    case DAdv(preu, nextu) => TakeUsedRefines(s, t, preu, nextu);
    case DExch(preu, out) => ExchangeSpareRefines(s, t, preu, out);
    case EClear(_, _) | DClear(_, _) | ELink(_, _) | DLink(_, _, _) => StoreRefines(s, t);
    case EWant(_) | ESpin(_, _) | ECheck(_, _) | EData(_, _) => LocalEnqueueRefines(s, t);
    case DWant | DSpin(_) | DCheck(_) | DMove(_, _) => LocalDequeueRefines(s, t);
  }

  // ---------------------------------------------------------------- whole runs

  function AllEntered(s: State, acts: seq<Action>): seq<Elem>
    requires Run(s, acts)
    decreases |acts|
  {
    if acts == [] then [] else Entered(s, acts[0]) + AllEntered(Apply(s, acts[0]), acts[1..])
  }

  function AllLeft(s: State, acts: seq<Action>): seq<Elem>
    requires Run(s, acts)
    decreases |acts|
  {
    if acts == [] then [] else Left(s, acts[0]) + AllLeft(Apply(s, acts[0]), acts[1..])
  }

  lemma StepFlow(s: State, a: Action)
    requires Inv(s) && Quiet(s, a)
    ensures Left(s, a) + Contents(Apply(s, a)) == Contents(s) + Entered(s, a)
  {
    if a.Step? {
      StepRefinesAtomicQueue(s, a.t);
      FlowOfRefinement(s, a.t, StepOf(s, a.t));
    } else {
      CallFlow(s, a);
    }
  }

  lemma CallFlow(s: State, a: Action)
    requires Places(s) && Enabled(s, a) && !a.Step?
    ensures Left(s, a) + Contents(Apply(s, a)) == Contents(s) + Entered(s, a)
  {
    UsedHaveData(s);
    ContentsSame(s, Apply(s, a));
  }

  lemma FlowOfRefinement(s: State, t: Tid, s': State)
    requires Refines(s, t, s')
    ensures Left(s, Step(t)) + Contents(s') == Contents(s) + Entered(s, Step(t))
  {
  }

  lemma FlowConcat(l: seq<Elem>, c: seq<Elem>, c1: seq<Elem>, e: seq<Elem>, l1: seq<Elem>, c2: seq<Elem>, e1: seq<Elem>)
    requires l + c1 == c + e && l1 + c2 == c1 + e1
    ensures (l + l1) + c2 == c + (e + e1)
  {
    assert (l + l1) + c2 == l + (c1 + e1) == (c + e) + e1;
  }

  /** First in, first out, nothing lost or doubled, over every quiet run from any reachable
      state: what left the queue, followed by what is in it, is what was in it, followed by
      what entered. */
  lemma {:induction false} FifoOverRuns(s: State, acts: seq<Action>)
    requires Inv(s) && QuietRun(s, acts)
    ensures Run(s, acts)
    ensures AllLeft(s, acts) + Contents(Exec(s, acts)) == Contents(s) + AllEntered(s, acts)
    decreases |acts|
  {
    if acts != [] {
      var a := acts[0];
      NextInv(s, a);
      FifoOverRuns(Apply(s, a), acts[1..]);
      StepFlow(s, a);
      FlowConcat(Left(s, a), Contents(s), Contents(Apply(s, a)), Entered(s, a),
                 AllLeft(Apply(s, a), acts[1..]), Contents(Exec(s, acts)), AllEntered(Apply(s, a), acts[1..]));
    }
  }

  /** In every state of every quiet run each allocated node is in exactly one place: once in
      one of the lists, or in the hands of exactly one thread; in particular no node is
      recycled while it is still in the used list. */
  lemma EveryNodeInOnePlace(acts: seq<Action>, n: Node)
    requires QuietRun(INIT, acts)
    ensures Run(INIT, acts)
    ensures var s := Exec(INIT, acts);
            n < s.top ==>
              && !(n in s.used && n in s.spare)
              && (forall i, j :: 0 <= i < j < |s.used| ==> !(s.used[i] == n == s.used[j]))
              && (forall i, j :: 0 <= i < j < |s.spare| ==> !(s.spare[i] == n == s.spare[j]))
              && ((n !in s.used && n !in s.spare) <==> exists t :: t in s.pc && NodeOf(s.pc[t]) == Some(n))
              && (forall t, u :: t in s.pc && u in s.pc && NodeOf(s.pc[t]) == Some(n) && NodeOf(s.pc[u]) == Some(n)
                    ==> t == u)
  {
    InitInv();
    RunInv(INIT, acts);
    var s := Exec(INIT, acts);
    if n < s.top {
      forall t | t in s.pc && NodeOf(s.pc[t]) == Some(n) ensures At(s, n, Own(t)) {
        assert PcOk(s, t, s.pc[t]);
      }
      if n in s.used { assert At(s, n, Used); }
      if n in s.spare { assert At(s, n, Spare); }
    }
  }

  /** A link missing in the used list is owed by exactly one enqueuer, the one between its
      exchange of uTail_ and its store; nothing else can be missing. */
  lemma MissingLinkHasOneEnqueuer(s: State, i: nat)
    requires Inv(s) && i + 1 < |s.used|
    ensures s.used[i] in s.next
    ensures s.next[s.used[i]] != Some(s.used[i + 1]) ==>
              && s.next[s.used[i]] == None
              && (exists t :: t in s.pc && s.pc[t] == ELink(s.used[i], s.used[i + 1]))
              && (forall t, u, b, c ::
                    t in s.pc && u in s.pc && s.pc[t] == ELink(s.used[i], b) && s.pc[u] == ELink(s.used[i], c)
                    ==> t == u)
  {
  }

  /** A dequeuer never spins for nothing: while the queue it looks at is not empty and the link is
      missing, exactly one thread stands right before the store of that link, and it can go on. */
  lemma SpinningDequeuerHasLinker(s: State, t: Tid) returns (u: Tid)
    requires Inv(s) && t in s.pc && (s.pc[t].DSpin? || s.pc[t].DCheck?)
    requires s.uHead != s.uTail && s.uHead in s.next && s.next[s.uHead] == None
    ensures |s.used| >= 2 && u in s.pc && s.pc[u] == ELink(s.uHead, s.used[1])
    ensures Enabled(s, Step(u)) && s.uHead in StepOf(s, u).next && StepOf(s, u).next[s.uHead] == Some(s.used[1])
    ensures forall v, b :: v in s.pc && s.pc[v] == ELink(s.uHead, b) ==> v == u
  {
    assert Linked(s, s.used[0], s.used[1]) && At(s, s.uHead, Used);
    u := s.linker[s.uHead];
    assert PcOk(s, u, s.pc[u]) && PcOk(s, t, s.pc[t]);
    forall v, b | v in s.pc && s.pc[v] == ELink(s.uHead, b) ensures v == u {
      assert PcOk(s, v, s.pc[v]);
    }
  }

  /** Neither does an enqueuer: its link is owed by exactly one dequeuer that recycles a node. */
  lemma SpinningEnqueuerHasLinker(s: State, t: Tid) returns (u: Tid)
    requires Inv(s) && t in s.pc && (s.pc[t].ESpin? || s.pc[t].ECheck?)
    requires s.sHead != s.sTail && s.sHead in s.next && s.next[s.sHead] == None
    ensures |s.spare| >= 2 && u in s.pc && s.pc[u].DLink? && s.pc[u].pres == s.sHead && s.pc[u].preu == s.spare[1]
    ensures Enabled(s, Step(u)) && s.sHead in StepOf(s, u).next && StepOf(s, u).next[s.sHead] == Some(s.spare[1])
    ensures forall v :: v in s.pc && s.pc[v].DLink? && s.pc[v].pres == s.sHead ==> v == u
  {
    assert Linked(s, s.spare[0], s.spare[1]) && At(s, s.sHead, Spare);
    u := s.linker[s.sHead];
    assert PcOk(s, u, s.pc[u]) && PcOk(s, t, s.pc[t]);
    forall v | v in s.pc && s.pc[v].DLink? && s.pc[v].pres == s.sHead ensures v == u {
      assert PcOk(s, v, s.pc[v]);
    }
  }

  // ---------------------------------------------------------------- undisturbed operations

  /** Whether an operation at `p` that is left alone gets on: its lock is free if it still needs it,
      and it does not wait for another thread's link. */
  predicate Clear(s: State, p: Pc) {
    match p
    case EWant(_) => s.sLk == None && SpareLinked(s)
    case ESpin(_, _) => SpareLinked(s)
    case ECheck(_, _) => s.sHead == s.sTail
    case DWant => s.uLk == None && UsedLinked(s)
    case DSpin(_) => UsedLinked(s)
    case DCheck(_) => s.uHead == s.uTail
    case _ => true
  }

  predicate SpareLinked(s: State) {
    s.sHead == s.sTail || (s.sHead in s.next && s.next[s.sHead] != None)
  }

  predicate UsedLinked(s: State) {
    s.uHead == s.uTail || (s.uHead in s.next && s.next[s.uHead] != None)
  }

  /** How many steps an operation that is left alone has to go at most. */
  function ToGo(p: Pc): nat {
    match p
    case EWant(_) => 9
    case ESpin(_, _) => 8
    case ECheck(_, _) => 7
    case ERefill(_, _) => 6
    case EAdv(_, _, _) => 5
    case EData(_, _) => 4
    case EClear(_, _) => 3
    case EExch(_, _) => 2
    case ELink(_, _) => 1
    case DWant => 8
    case DSpin(_) => 7
    case DCheck(_) => 6
    case DAdv(_, _) => 5
    case DMove(_, _) => 4
    case DClear(_, _) => 3
    case DExch(_, _) => 2
    case DLink(_, _, _) => 1
    case Idle | EDone | DDone(_) => 0
  }

  /** The step of `t` from `p` to `p'` brings its operation closer to its end, which is of the same
      kind. */
  predicate Nearer(p: Pc, p': Pc) {
    p' != Idle && ToGo(p') < ToGo(p) && (Enqueues(p') <==> Enqueues(p))
  }

  lemma EarlyEnqueueGetsOn(s: State, t: Tid, p: Pc)
    requires Ends(s) && s.sHead in s.next && t in s.pc && s.pc[t] == p && PcOk(s, t, p) && Clear(s, p)
    requires p.EWant? || p.ESpin? || p.ECheck?
    ensures Enabled(s, Step(t))
    ensures var s' := StepOf(s, t);
            s'.pc == s.pc[t := s'.pc[t]] && Nearer(p, s'.pc[t]) && Clear(s', s'.pc[t])
  {
  }

  lemma LateEnqueueGetsOn(s: State, t: Tid, p: Pc)
    requires t in s.pc && s.pc[t] == p
    requires p.ERefill? || p.EAdv? || p.EData? || p.EClear? || p.EExch? || p.ELink?
    ensures Enabled(s, Step(t))
    ensures var s' := StepOf(s, t);
            s'.pc == s.pc[t := s'.pc[t]] && Nearer(p, s'.pc[t]) && Clear(s', s'.pc[t])
  {
  }

  lemma EarlyDequeueGetsOn(s: State, t: Tid, p: Pc)
    requires Ends(s) && s.uHead in s.next && t in s.pc && s.pc[t] == p && PcOk(s, t, p) && Clear(s, p)
    requires p.DWant? || p.DSpin? || p.DCheck?
    ensures Enabled(s, Step(t))
    ensures var s' := StepOf(s, t);
            s'.pc == s.pc[t := s'.pc[t]] && Nearer(p, s'.pc[t]) && Clear(s', s'.pc[t])
  {
  }

  lemma LateDequeueGetsOn(s: State, t: Tid, p: Pc)
    requires t in s.pc && s.pc[t] == p && (p.DMove? ==> p.nextu in s.data)
    requires p.DAdv? || p.DMove? || p.DClear? || p.DExch? || p.DLink?
    ensures Enabled(s, Step(t))
    ensures var s' := StepOf(s, t);
            s'.pc == s.pc[t := s'.pc[t]] && Nearer(p, s'.pc[t]) && Clear(s', s'.pc[t])
  {
  }

  /** An operation of `t` is under way, or has just ended, and nothing is in its way. */
  ghost predicate Undisturbed(s: State, t: Tid) {
    && Inv(s) && t in s.pc && s.pc[t] != Idle && Clear(s, s.pc[t]) && (Enqueues(s.pc[t]) || !WindowOpen(s))
  }

  /** From `s` to `s'` the operation of `t`, and no other, has moved, by one step on an atomic queue. */
  ghost predicate Effect(s: State, s': State, t: Tid) {
    && t in s.pc && t in s'.pc && s'.pc == s.pc[t := s'.pc[t]]
    && (Enqueues(s'.pc[t]) <==> Enqueues(s.pc[t]))
    && AtomicStep(Contents(s), StatusOf(s, s.pc[t]), Contents(s'), StatusOf(s', s'.pc[t]))
  }

  lemma EffectThen(s: State, s1: State, s2: State, t: Tid)
    requires Effect(s, s1, t) && Effect(s1, s2, t)
    ensures Effect(s, s2, t)
  {
    PcsThen(s.pc, s1.pc, s2.pc, t);
    AtomicThen(Contents(s), StatusOf(s, s.pc[t]), Contents(s1), StatusOf(s1, s1.pc[t]),
               Contents(s2), StatusOf(s2, s2.pc[t]));
  }

  lemma PcsThen(pc: map<Tid, Pc>, pc1: map<Tid, Pc>, pc2: map<Tid, Pc>, t: Tid)
    requires t in pc1 && t in pc2 && pc1 == pc[t := pc1[t]] && pc2 == pc1[t := pc2[t]]
    ensures pc2 == pc[t := pc2[t]]
  {
  }

  lemma AtomicThen(q: seq<Elem>, st: Status, q1: seq<Elem>, st1: Status, q2: seq<Elem>, st2: Status)
    requires AtomicStep(q, st, q1, st1) && AtomicStep(q1, st1, q2, st2)
    ensures AtomicStep(q, st, q2, st2)
  {
  }

  /** Left alone, every operation that is under way ends, by at most nine steps of its own, and from
      wherever it is to its end it is one step on an atomic queue. */
  lemma {:induction false} SoloFinishes(s: State, t: Tid) returns (acts: seq<Action>, s': State)
    requires Undisturbed(s, t)
    ensures Reaches(s, acts, s') && |acts| <= ToGo(s.pc[t]) && forall a :: a in acts ==> a == Step(t)
    ensures Effect(s, s', t) && (s'.pc[t].EDone? || s'.pc[t].DDone?)
    decreases ToGo(s.pc[t])
  {
    acts, s' := [], s;
    if ToGo(s.pc[t]) > 0 {
      var s1 := SoloStep(s, t);
      var more;
      more, s' := SoloFinishes(s1, t);
      acts := SoloMore(s, t, more, s');
      EffectThen(s, s1, s', t);
    }
  }

  lemma SoloMore(s: State, t: Tid, more: seq<Action>, s': State) returns (acts: seq<Action>)
    requires Enabled(s, Step(t)) && Reaches(StepOf(s, t), more, s') && forall a :: a in more ==> a == Step(t)
    ensures Reaches(s, acts, s') && |acts| == |more| + 1 && forall a :: a in acts ==> a == Step(t)
  {
    ReachesStep(s, Step(t), more, s');
    acts := [Step(t)] + more;
  }

  lemma SoloStep(s: State, t: Tid) returns (s1: State)
    requires Undisturbed(s, t) && ToGo(s.pc[t]) > 0
    ensures Enabled(s, Step(t)) && s1 == StepOf(s, t) && Undisturbed(s1, t) && Effect(s, s1, t)
    ensures ToGo(s1.pc[t]) < ToGo(s.pc[t])
  {
    GetsOn(s, t);
    s1 := StepOf(s, t);
    StepHasEffect(s, t);
    NextInv(s, Step(t));
    if !Enqueues(s1.pc[t]) { WindowStaysShut(s, s1, t); }
  }

  lemma GetsOn(s: State, t: Tid)
    requires Inv(s) && t in s.pc && ToGo(s.pc[t]) > 0 && Clear(s, s.pc[t])
    ensures Enabled(s, Step(t))
    ensures var s' := StepOf(s, t);
            s'.pc == s.pc[t := s'.pc[t]] && Nearer(s.pc[t], s'.pc[t]) && Clear(s', s'.pc[t])
  {
    var p := s.pc[t];
    assert PcOk(s, t, p) && At(s, s.used[0], Used) && At(s, s.spare[0], Spare);
    if p.DWant? || p.DSpin? || p.DCheck? {
      EarlyDequeueGetsOn(s, t, p);
    } else if p.EWant? || p.ESpin? || p.ECheck? {
      EarlyEnqueueGetsOn(s, t, p);
    } else if Enqueues(p) {
      LateEnqueueGetsOn(s, t, p);
    } else {
      LateDequeueGetsOn(s, t, p);
    }
  }

  lemma StepHasEffect(s: State, t: Tid)
    requires Inv(s) && Enabled(s, Step(t))
    requires var s1 := StepOf(s, t); t in s1.pc && s1.pc == s.pc[t := s1.pc[t]] && Nearer(s.pc[t], s1.pc[t])
    ensures Effect(s, StepOf(s, t), t)
  {
    StepRefinesAtomicQueue(s, t);
  }

  lemma WindowStaysShut(s: State, s1: State, t: Tid)
    requires t in s.pc && t in s1.pc && s1.pc == s.pc[t := s1.pc[t]] && !Enqueues(s1.pc[t])
    ensures WindowOpen(s1) ==> WindowOpen(s)
  {
    if WindowOpen(s1) {
      var u :| u in s1.pc && s1.pc[u].ERefill?;
      assert u in s.pc && s.pc[u].ERefill?;
    }
  }

  /** A new thread can join at any time, and does nothing yet. */
  lemma ThreadJoins(s: State, t: Tid)
    requires Inv(s) && t !in s.pc
    ensures Enabled(s, Start(t)) && Apply(s, Start(t)) == s.(pc := s.pc[t := Idle]) && Inv(Apply(s, Start(t)))
  {
    NextInv(s, Start(t));
  }

  /** A whole call of `enqueue` that is left alone, recycled node or new one, appends its element. */
  lemma EnqueueAlone(s: State, t: Tid, x: Elem) returns (acts: seq<Action>, s': State)
    requires Inv(s) && t in s.pc && s.pc[t] == Idle && s.sLk == None && SpareLinked(s)
    ensures Reaches(s, acts, s') && acts != [] && acts[0] == CallEnqueue(t, x) && s'.pc == s.pc
    ensures Contents(s') == Contents(s) + [x]
  {
    var s1 := Goto(s, t, EWant(x));
    NextInv(s, CallEnqueue(t, x));
    var more, s2 := SoloFinishes(s1, t);
    EnqueueEffect(s, t, x, s2);
    acts, s' := CalledAndReturned(s, s1, s2, CallEnqueue(t, x), more);
  }

  lemma EnqueueEffect(s: State, t: Tid, x: Elem, s2: State)
    requires t in s.pc && Effect(Goto(s, t, EWant(x)), s2, t) && (s2.pc[t].EDone? || s2.pc[t].DDone?)
    ensures s2.pc[t].EDone? && Contents(s2) == Contents(s) + [x]
    ensures s2.pc == s.pc[t := s2.pc[t]]
  {
    assert Contents(Goto(s, t, EWant(x))) == Contents(s);
    PcsThen(s.pc, Goto(s, t, EWant(x)).pc, s2.pc, t);
  }

  /** A whole call of `dequeue` that is left alone returns the first element and takes it out, or
      reports an empty queue. */
  lemma DequeueAlone(s: State, t: Tid) returns (acts: seq<Action>, s': State, result: Option<Elem>)
    requires Inv(s) && t in s.pc && s.pc[t] == Idle && s.uLk == None && UsedLinked(s) && !WindowOpen(s)
    ensures Reaches(s, acts, s') && acts != [] && acts[0] == CallDequeue(t) && s'.pc == s.pc
    ensures if Contents(s) == [] then result == None && Contents(s') == []
            else result == Some(Contents(s)[0]) && Contents(s') == Contents(s)[1..]
  {
    var s1 := Goto(s, t, DWant);
    NextInv(s, CallDequeue(t));
    WindowStaysShut(s, s1, t);
    var more, s2 := SoloFinishes(s1, t);
    DequeueEffect(s, t, s2);
    result := s2.pc[t].result;
    acts, s' := CalledAndReturned(s, s1, s2, CallDequeue(t), more);
  }

  lemma DequeueEffect(s: State, t: Tid, s2: State)
    requires t in s.pc && Effect(Goto(s, t, DWant), s2, t) && (s2.pc[t].EDone? || s2.pc[t].DDone?)
    ensures s2.pc[t].DDone? && s2.pc == s.pc[t := s2.pc[t]]
    ensures if Contents(s) == [] then s2.pc[t].result == None && Contents(s2) == []
            else s2.pc[t].result == Some(Contents(s)[0]) && Contents(s2) == Contents(s)[1..]
  {
    assert Contents(Goto(s, t, DWant)) == Contents(s);
    PcsThen(s.pc, Goto(s, t, DWant).pc, s2.pc, t);
  }

  lemma CalledAndReturned(s: State, s1: State, s2: State, a: Action, more: seq<Action>)
    returns (acts: seq<Action>, s': State)
    requires a.t in s.pc && s.pc[a.t] == Idle && Enabled(s, a) && s1 == Apply(s, a)
    requires Reaches(s1, more, s2) && a.t in s2.pc && s2.pc == s.pc[a.t := s2.pc[a.t]]
    requires s2.pc[a.t].EDone? || s2.pc[a.t].DDone?
    ensures Reaches(s, acts, s') && acts != [] && acts[0] == a && s'.pc == s.pc
    ensures Contents(s') == Contents(s2)
  {
    s' := Apply(s2, Return(a.t));
    assert Reaches(s', [], s');
    ReachesStep(s2, Return(a.t), [], s');
    RunThen(s1, more, s2, [Return(a.t)] + [], s');
    ReachesStep(s, a, more + ([Return(a.t)] + []), s');
    acts := [a] + (more + ([Return(a.t)] + []));
  }

  // ---------------------------------------------------------------- the window matters

  /** From a reachable state a dequeuer's exchange of sTail_ keeps the invariant if and only
      if no enqueuer stands between its comparison and its store. */
  lemma ExchangeSafeExactlyOutsideWindow(s: State, t: Tid)
    requires Inv(s) && t in s.pc && s.pc[t].DExch?
    ensures Inv(StepOf(s, t)) <==> !WindowOpen(s)
  {
    if WindowOpen(s) {
      var u :| u in s.pc && s.pc[u].ERefill?;
      assert PcOk(s, u, s.pc[u]);
      assert |StepOf(s, t).spare| == 2;
      assert !PcOk(StepOf(s, t), u, StepOf(s, t).pc[u]);
    } else {
      NextInv(s, Step(t));
    }
  }

  /** With the two accesses of the refill apart, as the code has them, the queue breaks: from
      every reachable state with an enqueuer in the window and a dequeuer at its exchange of
      sTail_, eight further steps put behind the last element a node that nobody enqueued. */
  lemma OpenWindowBreaksQueue(s: State, e: Tid, d: Tid) returns (s': State)
    requires Inv(s) && e in s.pc && d in s.pc && s.pc[e].ERefill? && s.pc[d].DExch?
    ensures Reaches(s, [Step(d), Step(e), Step(e), Step(e), Step(e), Step(e), Step(e), Step(d)], s')
    ensures Contents(s') == Contents(s) + [s.pc[e].x]
    ensures s'.uTail in s'.next && s'.next[s'.uTail] == Some(s.pc[d].preu) && s.pc[d].preu !in s'.used
    ensures s' == Broken(Disturbed(s, e, d), e, d, s.pc[e].x, s.pc[e].pres, s.pc[d].preu, s.pc[d].out)
  {
    var x, pres, preu, out := s.pc[e].x, s.pc[e].pres, s.pc[d].preu, s.pc[d].out;
    assert PcOk(s, e, s.pc[e]) && PcOk(s, d, s.pc[d]) && At(s, pres, Spare);
    UsedHaveData(s);
    BrokenRun(s, e, d);
    assert pres !in s.used && preu !in s.used && preu != pres by {
      assert preu in s.used ==> At(s, preu, Used);
      assert pres in s.used ==> At(s, pres, Used);
    }
    BrokenQueue(s, e, d);
    s' := Broken(Disturbed(s, e, d), e, d, x, pres, preu, out);
  }

  lemma BrokenRun(s: State, e: Tid, d: Tid)
    requires e in s.pc && d in s.pc && s.pc[e].ERefill? && s.pc[d].DExch? && s.sTail == s.pc[e].pres
    ensures var acts := [Step(d), Step(e), Step(e), Step(e), Step(e), Step(e), Step(e), Step(d)];
            Reaches(s, acts, Broken(Disturbed(s, e, d), e, d, s.pc[e].x, s.pc[e].pres, s.pc[d].preu, s.pc[d].out))
  {
    var s5 := Disturbed(s, e, d);
    var s8 := Broken(s5, e, d, s.pc[e].x, s.pc[e].pres, s.pc[d].preu, s.pc[d].out);
    DisturbedRest(s, s5, e, d);
    DisturbedRun(s, e, d, [Step(e), Step(e), Step(d)], s8);
    assert [Step(d), Step(e), Step(e), Step(e), Step(e)] + [Step(e), Step(e), Step(d)]
        == [Step(d), Step(e), Step(e), Step(e), Step(e), Step(e), Step(e), Step(d)];
  }

  lemma BrokenQueue(s: State, e: Tid, d: Tid)
    requires e in s.pc && d in s.pc && s.pc[e].ERefill? && s.pc[d].DExch?
    requires s.used != [] && s.uTail == s.used[|s.used| - 1]
    requires forall i :: 0 <= i < |s.used| ==> s.used[i] in s.data && s.used[i] != s.pc[e].pres && s.used[i] != s.top
    requires s.pc[d].preu !in s.used && s.pc[d].preu != s.pc[e].pres
    ensures var s' := Broken(Disturbed(s, e, d), e, d, s.pc[e].x, s.pc[e].pres, s.pc[d].preu, s.pc[d].out);
            && Contents(s') == Contents(s) + [s.pc[e].x]
            && s'.uTail in s'.next && s'.next[s'.uTail] == Some(s.pc[d].preu) && s.pc[d].preu !in s'.used
  {
  }

  /** After the dequeuer's exchange and the enqueuer's next four steps. */
  function Disturbed(s: State, e: Tid, d: Tid): State
    requires e in s.pc && d in s.pc && s.pc[e].ERefill? && s.pc[d].DExch?
  {
    var x, pres := s.pc[e].x, s.pc[e].pres;
    var s1 := ExchangeSpare(s, d, s.pc[d].preu, s.pc[d].out);
    var s3 := TakeSpare(Refill(s1, e, x, pres), e, x, pres, s1.top);
    var s4 := Goto(s3, e, EClear(x, pres)).(data := s3.data[pres := x]);
    StoreNext(s4, e, pres, None, EExch(x, pres))
  }

  function Broken(s: State, e: Tid, d: Tid, x: Elem, pres: Node, preu: Node, out: Elem): State {
    var s7 := StoreNext(ExchangeUsed(s, e, pres), e, s.uTail, Some(pres), EDone);
    StoreNext(s7, d, pres, Some(preu), DDone(Some(out)))
  }

  lemma DisturbedRun(s: State, e: Tid, d: Tid, rest: seq<Action>, last: State)
    requires e in s.pc && d in s.pc && s.pc[e].ERefill? && s.pc[d].DExch?
    requires Reaches(Disturbed(s, e, d), rest, last)
    ensures Reaches(s, [Step(d), Step(e), Step(e), Step(e), Step(e)] + rest, last)
  {
    var x, pres := s.pc[e].x, s.pc[e].pres;
    var s1 := ExchangeSpare(s, d, s.pc[d].preu, s.pc[d].out);
    var s2 := Refill(s1, e, x, pres);
    var s3 := TakeSpare(s2, e, x, pres, s1.top);
    var s4 := Goto(s3, e, EClear(x, pres)).(data := s3.data[pres := x]);
    var r4 := [Step(e)] + rest;
    var r3 := [Step(e)] + r4;
    var r2 := [Step(e)] + r3;
    var r1 := [Step(e)] + r2;
    ReachesStep(s4, Step(e), rest, last);
    ReachesStep(s3, Step(e), r4, last);
    ReachesStep(s2, Step(e), r3, last);
    ReachesStep(s1, Step(e), r2, last);
    ReachesStep(s, Step(d), r1, last);
    assert [Step(d)] + r1 == [Step(d), Step(e), Step(e), Step(e), Step(e)] + rest;
  }

  lemma DisturbedPcs(s: State, e: Tid, d: Tid)
    requires e in s.pc && d in s.pc && s.pc[e].ERefill? && s.pc[d].DExch? && s.sTail == s.pc[e].pres
    ensures var s5, pres := Disturbed(s, e, d), s.pc[e].pres;
            && e in s5.pc && s5.pc[e] == EExch(s.pc[e].x, pres)
            && d in s5.pc && s5.pc[d] == DLink(pres, s.pc[d].preu, s.pc[d].out)
  {
  }

  lemma DisturbedRest(s: State, s5: State, e: Tid, d: Tid)
    requires e in s.pc && d in s.pc && s.pc[e].ERefill? && s.pc[d].DExch? && s5 == Disturbed(s, e, d)
    requires s.sTail == s.pc[e].pres
    ensures Reaches(s5, [Step(e), Step(e), Step(d)],
                    Broken(s5, e, d, s.pc[e].x, s.pc[e].pres, s.pc[d].preu, s.pc[d].out))
  {
    var x, pres, preu, out := s.pc[e].x, s.pc[e].pres, s.pc[d].preu, s.pc[d].out;
    DisturbedPcs(s, e, d);
    var s6 := ExchangeUsed(s5, e, pres);
    ExchangeUsedIsStep(s5, e, x, pres);
    BothLink(s6, e, d, s5.uTail, pres, preu, out);
    ReachesStep(s5, Step(e), [Step(e), Step(d)], Broken(s5, e, d, x, pres, preu, out));
    assert [Step(e)] + [Step(e), Step(d)] == [Step(e), Step(e), Step(d)];
  }

  lemma BothLink(s: State, e: Tid, d: Tid, last: Node, pres: Node, preu: Node, out: Elem)
    requires e in s.pc && d in s.pc && s.pc[e] == ELink(last, pres) && s.pc[d] == DLink(pres, preu, out)
    ensures var s7 := StoreNext(s, e, last, Some(pres), EDone);
            Reaches(s, [Step(e), Step(d)], StoreNext(s7, d, pres, Some(preu), DDone(Some(out))))
  {
    var s7 := StoreNext(s, e, last, Some(pres), EDone);
    var s8 := StoreNext(s7, d, pres, Some(preu), DDone(Some(out)));
    assert Reaches(s8, [], s8);
    ReachesStep(s7, Step(d), [], s8);
    ReachesStep(s, Step(e), [Step(d)], s8);
    assert [Step(e)] + [Step(d)] == [Step(e), Step(d)];
  }

  ghost predicate Reaches(s: State, acts: seq<Action>, s': State) {
    Run(s, acts) && Exec(s, acts) == s'
  }

  lemma ReachesStep(s: State, a: Action, acts: seq<Action>, s': State)
    requires Enabled(s, a) && Reaches(Apply(s, a), acts, s')
    ensures Reaches(s, [a] + acts, s')
  {
  }

  // ---------------------------------------------------------------- a run that breaks

  /** What the code itself works on: the state without the auxiliary fields. */
  datatype Core = Core(
    next: map<Node, Option<Node>>, data: map<Node, Elem>, top: Node,
    uHead: Node, uTail: Node, sHead: Node, sTail: Node,
    uLk: Option<Tid>, sLk: Option<Tid>, pc: map<Tid, Pc>)

  function CoreOf(s: State): Core {
    Core(s.next, s.data, s.top, s.uHead, s.uTail, s.sHead, s.sTail, s.uLk, s.sLk, s.pc)
  }

  predicate NeverEnqueues(acts: seq<Action>, v: Elem) {
    forall i :: 0 <= i < |acts| ==> !(acts[i].CallEnqueue? && acts[i].x == v)
  }

  /** Some run, a quiet one if that is asked, in which nobody enqueues `v`, ends in `s`. */
  ghost predicate Reachable(s: State, v: Elem, quiet: bool) {
    exists acts :: Reaches(INIT, acts, s) && NeverEnqueues(acts, v) && (quiet ==> QuietRun(INIT, acts))
  }

  lemma {:induction false} RunThen(s: State, acts: seq<Action>, s1: State, more: seq<Action>, s2: State)
    requires Reaches(s, acts, s1) && Reaches(s1, more, s2)
    ensures Reaches(s, acts + more, s2)
    decreases |acts|
  {
    if acts == [] {
      assert [] + more == more;
    } else {
      RunThen(Apply(s, acts[0]), acts[1..], s1, more, s2);
      assert (acts + more)[1..] == acts[1..] + more;
    }
  }

  lemma {:induction false} QuietRunThen(s: State, acts: seq<Action>, s1: State, a: Action)
    requires QuietRun(s, acts) && Reaches(s, acts, s1) && Quiet(s1, a)
    ensures QuietRun(s, acts + [a])
    decreases |acts|
  {
    if acts != [] {
      QuietRunThen(Apply(s, acts[0]), acts[1..], s1, a);
      assert (acts + [a])[1..] == acts[1..] + [a];
    }
  }

  lemma Moved(s: State, a: Action, v: Elem, quiet: bool) returns (s': State)
    requires Reachable(s, v, quiet) && Enabled(s, a) && (quiet ==> Quiet(s, a)) && NeverEnqueues([a], v)
    ensures Reachable(s', v, quiet) && s' == Apply(s, a)
  {
    var acts :| Reaches(INIT, acts, s) && NeverEnqueues(acts, v) && (quiet ==> QuietRun(INIT, acts));
    s' := Apply(s, a);
    if quiet { QuietRunThen(INIT, acts, s, a); }
    assert Reaches(s', [], s');
    ReachesStep(s, a, [], s');
    assert [a] + [] == [a];
    RunThen(INIT, acts, s, [a], s');
    assert NeverEnqueues(acts + [a], v);
  }

  /** `t` takes its next step, which leads to `c` as far as the code is concerned. */
  lemma Took(s: State, t: Tid, v: Elem, quiet: bool, c: Core) returns (s': State)
    requires Reachable(s, v, quiet) && Enabled(s, Step(t)) && (quiet ==> !s.pc[t].DExch?)
    requires CoreOf(StepOf(s, t)) == c
    ensures Reachable(s', v, quiet) && CoreOf(s') == c
  {
    s' := Moved(s, Step(t), v, quiet);
  }

  lemma Twice(pc: map<Tid, Pc>, t: Tid, p: Pc, q: Pc)
    ensures pc[t := p][t := q] == pc[t := q]
  {
  }

  lemma CallsEnqueue(s: State, t: Tid, x: Elem, v: Elem) returns (s': State)
    requires Reachable(s, v, true) && t in s.pc && s.pc[t] == Idle && s.sLk == None && x != v
    ensures Reachable(s', v, true) && CoreOf(s') == CoreOf(s).(sLk := Some(t), pc := s.pc[t := ESpin(x, s.sHead)])
  {
    s' := Moved(s, CallEnqueue(t, x), v, true);
    Twice(s.pc, t, EWant(x), ESpin(x, s.sHead));
    s' := Took(s', t, v, true, CoreOf(s).(sLk := Some(t), pc := s.pc[t := ESpin(x, s.sHead)]));
  }

  lemma FindsNoSpare(s: State, t: Tid, x: Elem, pres: Node, v: Elem) returns (s': State)
    requires Reachable(s, v, true) && t in s.pc && s.pc[t] == ESpin(x, pres)
    requires s.sHead == s.sTail && pres in s.next && s.next[pres] == None
    ensures Reachable(s', v, true) && CoreOf(s') == CoreOf(s).(pc := s.pc[t := ERefill(x, pres)])
  {
    s' := Took(s, t, v, true, CoreOf(s).(pc := s.pc[t := ECheck(x, pres)]));
    Twice(s.pc, t, ECheck(x, pres), ERefill(x, pres));
    s' := Took(s', t, v, true, CoreOf(s).(pc := s.pc[t := ERefill(x, pres)]));
  }

  lemma Refills(s: State, t: Tid, x: Elem, pres: Node, v: Elem) returns (s': State)
    requires Reachable(s, v, true) && t in s.pc && s.pc[t] == ERefill(x, pres)
    ensures Reachable(s', v, true)
    ensures var n := s.top;
            CoreOf(s') == CoreOf(s).(next := s.next[n := None], data := s.data[n := 0], top := n + 1,
                                     sHead := n, sTail := n, sLk := None, pc := s.pc[t := EData(x, pres)])
  {
    var n := s.top;
    var c := CoreOf(s).(next := s.next[n := None], data := s.data[n := 0], top := n + 1, sTail := n);
    s' := Took(s, t, v, true, c.(pc := s.pc[t := EAdv(x, pres, n)]));
    Twice(s.pc, t, EAdv(x, pres, n), EData(x, pres));
    s' := Took(s', t, v, true, c.(sHead := n, sLk := None, pc := s.pc[t := EData(x, pres)]));
  }

  lemma Fills(s: State, t: Tid, x: Elem, pres: Node, v: Elem) returns (s': State)
    requires Reachable(s, v, true) && t in s.pc && s.pc[t] == EData(x, pres)
    ensures Reachable(s', v, true)
    ensures CoreOf(s') == CoreOf(s).(next := s.next[pres := None], data := s.data[pres := x],
                                     pc := s.pc[t := EExch(x, pres)])
  {
    s' := Took(s, t, v, true, CoreOf(s).(data := s.data[pres := x], pc := s.pc[t := EClear(x, pres)]));
    Twice(s.pc, t, EClear(x, pres), EExch(x, pres));
    s' := Took(s', t, v, true,
               CoreOf(s).(next := s.next[pres := None], data := s.data[pres := x], pc := s.pc[t := EExch(x, pres)]));
  }

  lemma LinksIn(s: State, t: Tid, x: Elem, pres: Node, v: Elem) returns (s': State)
    requires Reachable(s, v, true) && t in s.pc && s.pc[t] == EExch(x, pres)
    ensures Reachable(s', v, true)
    ensures CoreOf(s') == CoreOf(s).(next := s.next[s.uTail := Some(pres)], uTail := pres, pc := s.pc[t := EDone])
  {
    s' := Took(s, t, v, true, CoreOf(s).(uTail := pres, pc := s.pc[t := ELink(s.uTail, pres)]));
    Twice(s.pc, t, ELink(s.uTail, pres), EDone);
    s' := Took(s', t, v, true,
               CoreOf(s).(next := s.next[s.uTail := Some(pres)], uTail := pres, pc := s.pc[t := EDone]));
  }

  lemma Returns(s: State, t: Tid, v: Elem, quiet: bool) returns (s': State)
    requires Reachable(s, v, quiet) && Enabled(s, Return(t))
    ensures Reachable(s', v, quiet) && CoreOf(s') == CoreOf(s).(pc := s.pc[t := Idle])
  {
    s' := Moved(s, Return(t), v, quiet);
  }

  lemma CallsDequeue(s: State, t: Tid, v: Elem, quiet: bool) returns (s': State)
    requires Reachable(s, v, quiet) && t in s.pc && s.pc[t] == Idle && s.uLk == None
    ensures Reachable(s', v, quiet) && CoreOf(s') == CoreOf(s).(uLk := Some(t), pc := s.pc[t := DSpin(s.uHead)])
  {
    s' := Moved(s, CallDequeue(t), v, quiet);
    Twice(s.pc, t, DWant, DSpin(s.uHead));
    s' := Took(s', t, v, quiet, CoreOf(s).(uLk := Some(t), pc := s.pc[t := DSpin(s.uHead)]));
  }

  lemma Takes(s: State, t: Tid, preu: Node, n: Node, v: Elem, quiet: bool) returns (s': State)
    requires Reachable(s, v, quiet) && t in s.pc && s.pc[t] == DSpin(preu) && preu in s.next && s.next[preu] == Some(n)
    ensures Reachable(s', v, quiet) && CoreOf(s') == CoreOf(s).(uHead := n, pc := s.pc[t := DMove(preu, n)])
  {
    s' := Took(s, t, v, quiet, CoreOf(s).(pc := s.pc[t := DAdv(preu, n)]));
    Twice(s.pc, t, DAdv(preu, n), DMove(preu, n));
    s' := Took(s', t, v, quiet, CoreOf(s).(uHead := n, pc := s.pc[t := DMove(preu, n)]));
  }

  lemma Reads(s: State, t: Tid, preu: Node, n: Node, v: Elem, quiet: bool) returns (s': State)
    requires Reachable(s, v, quiet) && t in s.pc && s.pc[t] == DMove(preu, n) && n in s.data
    ensures Reachable(s', v, quiet)
    ensures CoreOf(s') == CoreOf(s).(next := s.next[preu := None], uLk := None, pc := s.pc[t := DExch(preu, s.data[n])])
  {
    s' := Took(s, t, v, quiet, CoreOf(s).(uLk := None, pc := s.pc[t := DClear(preu, s.data[n])]));
    Twice(s.pc, t, DClear(preu, s.data[n]), DExch(preu, s.data[n]));
    s' := Took(s', t, v, quiet,
               CoreOf(s).(next := s.next[preu := None], uLk := None, pc := s.pc[t := DExch(preu, s.data[n])]));
  }

  lemma Recycles(s: State, t: Tid, preu: Node, out: Elem, v: Elem) returns (s': State)
    requires Reachable(s, v, false) && t in s.pc && s.pc[t] == DExch(preu, out)
    ensures Reachable(s', v, false)
    ensures CoreOf(s') == CoreOf(s).(next := s.next[s.sTail := Some(preu)], sTail := preu,
                                     pc := s.pc[t := DDone(Some(out))])
  {
    s' := Took(s, t, v, false, CoreOf(s).(sTail := preu, pc := s.pc[t := DLink(s.sTail, preu, out)]));
    Twice(s.pc, t, DLink(s.sTail, preu, out), DDone(Some(out)));
    s' := Took(s', t, v, false,
               CoreOf(s).(next := s.next[s.sTail := Some(preu)], sTail := preu, pc := s.pc[t := DDone(Some(out))]));
  }

  /** A whole enqueue up to its return, by a thread that finds no spare node. */
  lemma EnqueueUpToExchange(s: State, t: Tid, x: Elem, v: Elem) returns (s': State)
    requires Reachable(s, v, true) && t in s.pc && s.pc[t] == Idle && s.sLk == None && x != v
    requires s.sHead == s.sTail && s.sHead in s.next && s.next[s.sHead] == None
    ensures Reachable(s', v, true)
    ensures var n, pres := s.top, s.sHead;
            CoreOf(s') == CoreOf(s).(next := s.next[n := None][pres := None], data := s.data[n := 0][pres := x],
                                     top := n + 1, sHead := n, sTail := n, pc := s.pc[t := EExch(x, pres)])
  {
    var pres := s.sHead;
    s' := CallsEnqueue(s, t, x, v);
    Twice(s.pc, t, ESpin(x, pres), ERefill(x, pres));
    s' := FindsNoSpare(s', t, x, pres, v);
    Twice(s.pc, t, ERefill(x, pres), EData(x, pres));
    s' := Refills(s', t, x, pres, v);
    Twice(s.pc, t, EData(x, pres), EExch(x, pres));
    s' := Fills(s', t, x, pres, v);
  }

  lemma WholeEnqueue(s: State, t: Tid, x: Elem, v: Elem) returns (s': State)
    requires Reachable(s, v, true) && t in s.pc && s.pc[t] == Idle && s.sLk == None && x != v
    requires s.sHead == s.sTail && s.sHead in s.next && s.next[s.sHead] == None
    ensures Reachable(s', v, true)
    ensures var n, pres := s.top, s.sHead;
            CoreOf(s') == CoreOf(s).(next := s.next[n := None][pres := None][s.uTail := Some(pres)],
                                     data := s.data[n := 0][pres := x], top := n + 1, uTail := pres,
                                     sHead := n, sTail := n, pc := s.pc[t := Idle])
  {
    var pres := s.sHead;
    s' := EnqueueUpToExchange(s, t, x, v);
    Twice(s.pc, t, EExch(x, pres), EDone);
    s' := LinksIn(s', t, x, pres, v);
    Twice(s.pc, t, EDone, Idle);
    s' := Returns(s', t, v, true);
  }

  /** A dequeue up to its exchange of sTail_: it takes whatever the head's link points to. */
  lemma DequeueUpToExchange(s: State, t: Tid, n: Node, v: Elem, quiet: bool) returns (s': State)
    requires Reachable(s, v, quiet) && t in s.pc && s.pc[t] == Idle && s.uLk == None
    requires s.uHead in s.next && s.next[s.uHead] == Some(n) && n in s.data
    ensures Reachable(s', v, quiet)
    ensures CoreOf(s') == CoreOf(s).(next := s.next[s.uHead := None], uHead := n,
                                     pc := s.pc[t := DExch(s.uHead, s.data[n])])
  {
    var preu := s.uHead;
    s' := CallsDequeue(s, t, v, quiet);
    Twice(s.pc, t, DSpin(preu), DMove(preu, n));
    s' := Takes(s', t, preu, n, v, quiet);
    Twice(s.pc, t, DMove(preu, n), DExch(preu, s.data[n]));
    s' := Reads(s', t, preu, n, v, quiet);
  }

  /** A whole dequeue up to its return: the result is the data of the node the head's link points to. */
  lemma WholeDequeue(s: State, t: Tid, n: Node, v: Elem) returns (s': State)
    requires Reachable(s, v, false) && t in s.pc && s.pc[t] == Idle && s.uLk == None
    requires s.uHead in s.next && s.next[s.uHead] == Some(n) && n in s.data
    ensures Reachable(s', v, false)
    ensures CoreOf(s') == CoreOf(s).(next := s.next[s.uHead := None][s.sTail := Some(s.uHead)], uHead := n,
                                     sTail := s.uHead, pc := s.pc[t := DDone(Some(s.data[n]))])
  {
    s' := DequeueUpToExchange(s, t, n, v, false);
    Twice(s.pc, t, DExch(s.uHead, s.data[n]), DDone(Some(s.data[n])));
    s' := Recycles(s', t, s.uHead, s.data[n], v);
  }

  /** After the first enqueue; with the window open; and with the queue broken. */
  const ONE_ELEMENT: Core := Core(
    map[0 := Some(1), 1 := None, 2 := None], map[0 := 0, 1 := 7, 2 := 0], 3, 0, 1, 2, 2, None, None,
    map[0 := Idle, 1 := Idle])
  const WINDOW: Core := Core(
    map[0 := None, 1 := None, 2 := None], map[0 := 0, 1 := 7, 2 := 0], 3, 1, 1, 2, 2, None, Some(0),
    map[0 := ERefill(8, 2), 1 := DExch(0, 7)])
  const BROKEN: Core := Core(
    map[0 := None, 1 := Some(2), 2 := Some(0), 3 := None], map[0 := 0, 1 := 7, 2 := 8, 3 := 0],
    4, 1, 2, 3, 3, None, None,
    map[0 := EDone, 1 := DDone(Some(7))])

  lemma TwoThreads() returns (s: State)
    ensures Reachable(s, 0, true) && CoreOf(s) == CoreOf(INIT).(pc := map[0 := Idle, 1 := Idle])
  {
    assert Reaches(INIT, [], INIT) && NeverEnqueues([], 0) && QuietRun(INIT, []);
    s := Moved(INIT, Start(0), 0, true);
    s := Moved(s, Start(1), 0, true);
  }

  lemma FirstEnqueue() returns (s: State)
    ensures Reachable(s, 0, true) && CoreOf(s) == ONE_ELEMENT
  {
    s := TwoThreads();
    var c := CoreOf(s);
    s := WholeEnqueue(s, 0, 7, 0);
    FirstMaps(c, CoreOf(s));
  }

  lemma FirstMaps(c: Core, c': Core)
    requires c == CoreOf(INIT).(pc := map[0 := Idle, 1 := Idle])
    requires c' == c.(next := c.next[2 := None][1 := None][0 := Some(1)], data := c.data[2 := 0][1 := 7], top := 3,
                      uTail := 1, sHead := 2, sTail := 2, pc := c.pc[0 := Idle])
    ensures c' == ONE_ELEMENT
  {
    assert c'.next == ONE_ELEMENT.next && c'.data == ONE_ELEMENT.data && c'.pc == ONE_ELEMENT.pc;
  }

  /** The window does open with a dequeuer at its exchange: two threads are enough, one that
      enqueues twice and one that dequeues once. */
  lemma WindowCanOpen() returns (s: State)
    ensures Reachable(s, 0, true) && CoreOf(s) == WINDOW
  {
    s := FirstEnqueue();
    s := DequeueUpToExchange(s, 1, 1, 0, true);
    s := SecondEnqueue(s);
  }

  lemma SecondEnqueue(s: State) returns (s': State)
    requires Reachable(s, 0, true)
    requires CoreOf(s) == ONE_ELEMENT.(next := ONE_ELEMENT.next[0 := None], uHead := 1,
                                       pc := ONE_ELEMENT.pc[1 := DExch(0, 7)])
    ensures Reachable(s', 0, true) && CoreOf(s') == WINDOW
  {
    s' := CallsEnqueue(s, 0, 8, 0);
    s' := FindsNoSpare(s', 0, 8, 2, 0);
    WindowMaps();
  }

  lemma WindowMaps()
    ensures ONE_ELEMENT.next[0 := None] == WINDOW.next
    ensures ONE_ELEMENT.pc[1 := DExch(0, 7)][0 := ESpin(8, 2)][0 := ERefill(8, 2)] == WINDOW.pc
  {
  }

  lemma ReachableInv(s: State, v: Elem)
    requires Reachable(s, v, true)
    ensures Inv(s)
  {
    var acts :| Reaches(INIT, acts, s) && NeverEnqueues(acts, v) && QuietRun(INIT, acts);
    InitInv();
    RunInv(INIT, acts);
  }

  /** After the window the queue holds 8, and behind it node 0 with the 0 it was made with. */
  lemma BrokenQueueReached() returns (s: State)
    ensures Reachable(s, 0, false) && CoreOf(s) == BROKEN && Contents(s) == [8]
  {
    var s0 := WindowCanOpen();
    ReachableInv(s0, 0);
    BrokenCore(s0, 0, 1, 8, 2, 0, 7);
    var acts :| Reaches(INIT, acts, s0) && NeverEnqueues(acts, 0);
    s := BrokenFrom(s0, 0, 1, acts, 0);
    BrokenMaps(CoreOf(s));
  }

  lemma BrokenFrom(s: State, e: Tid, d: Tid, acts: seq<Action>, v: Elem) returns (s': State)
    requires Inv(s) && e in s.pc && d in s.pc && s.pc[e].ERefill? && s.pc[d].DExch? && s.uHead == s.uTail
    requires Reaches(INIT, acts, s) && NeverEnqueues(acts, v)
    ensures Reachable(s', v, false) && Contents(s') == [s.pc[e].x]
    ensures s' == Broken(Disturbed(s, e, d), e, d, s.pc[e].x, s.pc[e].pres, s.pc[d].preu, s.pc[d].out)
  {
    var more;
    more, s' := OpenWindowLeads(s, e, d);
    RunThen(INIT, acts, s, more, s');
    assert NeverEnqueues(acts + more, v);
  }

  lemma DisturbedCore(s: State, e: Tid, d: Tid, x: Elem, pres: Node, preu: Node, out: Elem)
    requires e in s.pc && d in s.pc && s.pc[e] == ERefill(x, pres) && s.pc[d] == DExch(preu, out) && s.sTail == pres
    ensures CoreOf(Disturbed(s, e, d)) ==
            CoreOf(s).(next := s.next[s.top := None][pres := None], data := s.data[s.top := 0][pres := x],
                       top := s.top + 1, sHead := s.top, sTail := s.top, sLk := None,
                       pc := s.pc[e := EExch(x, pres)][d := DLink(pres, preu, out)])
  {
    assert Disturbed(s, e, d).pc == s.pc[e := EExch(x, pres)][d := DLink(pres, preu, out)];
  }

  lemma BrokenCore(s: State, e: Tid, d: Tid, x: Elem, pres: Node, preu: Node, out: Elem)
    requires e in s.pc && d in s.pc && s.pc[e] == ERefill(x, pres) && s.pc[d] == DExch(preu, out) && s.sTail == pres
    ensures CoreOf(Broken(Disturbed(s, e, d), e, d, x, pres, preu, out)) ==
            CoreOf(s).(next := s.next[s.top := None][pres := None][s.uTail := Some(pres)][pres := Some(preu)],
                       data := s.data[s.top := 0][pres := x], top := s.top + 1, uTail := pres,
                       sHead := s.top, sTail := s.top, sLk := None, pc := s.pc[e := EDone][d := DDone(Some(out))])
  {
    DisturbedCore(s, e, d, x, pres, preu, out);
    var s5 := Disturbed(s, e, d);
    assert s5.pc[e := ELink(s5.uTail, pres)][e := EDone][d := DDone(Some(out))]
        == s.pc[e := EDone][d := DDone(Some(out))];
  }

  lemma BrokenMaps(c: Core)
    requires c == WINDOW.(next := WINDOW.next[3 := None][2 := None][1 := Some(2)][2 := Some(0)],
                          data := WINDOW.data[3 := 0][2 := 8], top := 4, uTail := 2,
                          sHead := 3, sTail := 3, sLk := None, pc := WINDOW.pc[0 := EDone][1 := DDone(Some(7))])
    ensures c == BROKEN
  {
    BrokenNext();
    BrokenData();
    assert c.pc == BROKEN.pc;
  }

  lemma BrokenNext()
    ensures WINDOW.next[3 := None][2 := None][1 := Some(2)][2 := Some(0)] == BROKEN.next
  {
  }

  lemma BrokenData()
    ensures WINDOW.data[3 := 0][2 := 8] == BROKEN.data
  {
  }

  /** Behind the last element stands a node that nobody enqueued. */
  predicate ForeignBehindTail(s: State) {
    s.uTail in s.next && s.next[s.uTail].Some? && s.next[s.uTail].value !in s.used
  }

  /** So the queue as written breaks in some run. */
  lemma QueueCanBreak()
    ensures exists acts, s :: Reaches(INIT, acts, s) && ForeignBehindTail(s)
  {
    var s0 := WindowCanOpen();
    ReachableInv(s0, 0);
    var acts :| Reaches(INIT, acts, s0) && NeverEnqueues(acts, 0);
    var all, s := WindowBreaks(s0, acts);
  }

  lemma WindowBreaks(s0: State, acts: seq<Action>) returns (all: seq<Action>, s: State)
    requires Inv(s0) && CoreOf(s0) == WINDOW && Reaches(INIT, acts, s0)
    ensures Reaches(INIT, all, s) && ForeignBehindTail(s)
  {
    var more;
    more, s := OpenWindowLeads(s0, 0, 1);
    RunThen(INIT, acts, s0, more, s);
    all := acts + more;
  }

  lemma OpenWindowLeads(s: State, e: Tid, d: Tid) returns (more: seq<Action>, s': State)
    requires Inv(s) && e in s.pc && d in s.pc && s.pc[e].ERefill? && s.pc[d].DExch?
    ensures Reaches(s, more, s') && (forall i :: 0 <= i < |more| ==> more[i].Step?) && ForeignBehindTail(s')
    ensures s.uHead == s.uTail ==> Contents(s') == [s.pc[e].x]
    ensures s' == Broken(Disturbed(s, e, d), e, d, s.pc[e].x, s.pc[e].pres, s.pc[d].preu, s.pc[d].out)
  {
    more := [Step(d), Step(e), Step(e), Step(e), Step(e), Step(e), Step(e), Step(d)];
    s' := OpenWindowBreaksQueue(s, e, d);
    if s.uHead == s.uTail { OneNode(s); }
  }

  lemma OneNode(s: State)
    requires Inv(s) && s.uHead == s.uTail
    ensures Contents(s) == []
  {
  }

  lemma SevenGone(c: Core, c': Core)
    requires c == BROKEN.(pc := BROKEN.pc[1 := Idle])
    requires c' == c.(next := c.next[1 := None][3 := Some(1)], uHead := 2, sTail := 1, pc := c.pc[1 := DDone(Some(8))])
    ensures 2 in c'.next && c'.next[2] == Some(0) && 1 in c'.pc && c'.uLk == None && 0 in c'.data && c'.data[0] == 0
  {
  }

  /** The next dequeue after that returns 8, and leaves the foreign node next in the queue. */
  lemma EightDequeued() returns (s: State)
    ensures Reachable(s, 0, false) && 1 in s.pc && s.pc[1] == DDone(Some(8)) && s.uLk == None
    ensures s.uHead == 2 && 2 in s.next && s.next[2] == Some(0) && 0 in s.data && s.data[0] == 0
  {
    s := BrokenQueueReached();
    s := Returns(s, 1, 0, false);
    var c := CoreOf(s);
    s := WholeDequeue(s, 1, 2, 0);
    SevenGone(c, CoreOf(s));
  }

  /** And what comes of it: a dequeue succeeds with an element that nobody ever enqueued. */
  lemma GarbageIsDequeued()
    ensures exists acts, s, v :: Reaches(INIT, acts, s) && NeverEnqueues(acts, v)
              && 1 in s.pc && s.pc[1] == DDone(Some(v))
  {
    var s := EightDequeued();
    s := Returns(s, 1, 0, false);
    s := WholeDequeue(s, 1, 0, 0);
    var acts :| Reaches(INIT, acts, s) && NeverEnqueues(acts, 0);
  }
}
