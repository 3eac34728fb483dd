/** What the commands of a topic do to the messages it holds, apart from how the heaps do it. */
module TopicModel {

  /** The four heaps of a topic. */
  datatype Queue = Ready | Delayed | Using | Sleeping

  /** A live message: the heap it sits in and the fields the commands read or write. */
  datatype Slot = Slot(queue: Queue, priority: int, activetime: int, delay: int)

  type State = map<int, Slot>

  datatype Command =
    | Add(id: int, priority: int, activetime: int, d: int)
    | Get
    | Sleep(id: int)
    | Reuse(id: int, d: int)
    | WakeUp(id: int, d: int)
    | Del(id: int)
    | Tick(t: int)

  function Max0(d: int): nat {
    if d >= 0 then d else 0
  }

  /** A message (re)entering the topic with delay `d`. */
  function Enqueued(s: Slot, d: int): Slot {
    Slot(if d > 0 then Delayed else Ready, s.priority, s.activetime + Max0(d), Max0(d))
  }

  predicate Sits(s: State, id: int, q: Queue) {
    id in s && s[id].queue == q
  }

  /** Messages due by `t` become ready; nothing else moves. */
  function Ticked(s: State, t: int): State {
    map id | id in s ::
      if s[id].queue == Delayed && s[id].activetime <= t then Slot(Ready, s[id].priority, s[id].activetime, 0) else s[id]
  }

  /** `id` is ready and no ready message has a smaller priority value. */
  ghost predicate BestReady(s: State, id: int) {
    Sits(s, id, Ready) && forall j :: Sits(s, j, Ready) ==> s[id].priority <= s[j].priority
  }

  ghost function Due(s: State, t: int): set<int> {
    set id | id in s && s[id].queue == Delayed && s[id].activetime <= t
  }

  ghost predicate NothingDue(s: State, t: int) {
    forall id :: Sits(s, id, Delayed) ==> t < s[id].activetime
  }

  lemma PutBack(s: State, id: int)
    requires id in s
    ensures (s - {id})[id := s[id]] == s
  {
  }

  /** The messages in `done` made ready. */
  function Ripened(s: State, done: set<int>): State {
    map id | id in s :: if id in done then Slot(Ready, s[id].priority, s[id].activetime, 0) else s[id]
  }

  lemma RipenOne(s: State, done: set<int>, id: int, t: int, x: Slot)
    requires done <= Due(s, t) && Sits(Ripened(s, done), id, Delayed)
    requires Ripened(s, done)[id].activetime <= t
    requires x == Slot(Ready, Ripened(s, done)[id].priority, Ripened(s, done)[id].activetime, 0)
    ensures id in Due(s, t) && id !in done && id in s
    ensures (Ripened(s, done) - {id})[id := x] == Ripened(s, done + {id})
  {
  }

  /** Once nothing left is due, the due messages are exactly those made ready. */
  lemma RipenedAll(s: State, done: set<int>, t: int)
    requires done <= Due(s, t)
    requires NothingDue(Ripened(s, done), t)
    ensures Ripened(s, done) == Ticked(s, t)
  {
    forall id | id in Due(s, t)
      ensures id in done
    {
      assert id !in done ==> Sits(Ripened(s, done), id, Delayed);
    }
  }

  function Move(s: State, id: int, q: Queue): State
    requires id in s
  {
    s[id := s[id].(queue := q)]
  }

  /** One command. Only `Get` has a choice, among ready messages of equal priority. */
  ghost predicate Next(s: State, c: Command, t: State) {
    match c
    case Add(id, priority, activetime, d) =>
      id !in s && t == s[id := Enqueued(Slot(Ready, priority, activetime, 0), d)]
    case Get =>
      if exists j :: Sits(s, j, Ready) then exists id :: BestReady(s, id) && t == Move(s, id, Using) else t == s
    case Sleep(id) => t == if Sits(s, id, Using) then Move(s, id, Sleeping) else s
    case Reuse(id, d) => t == if Sits(s, id, Using) then s[id := Enqueued(s[id], d)] else s
    case WakeUp(id, d) => t == if Sits(s, id, Sleeping) then s[id := Enqueued(s[id], d)] else s
    case Del(id) => t == if Sits(s, id, Using) || Sits(s, id, Sleeping) then s - {id} else s
    case Tick(now) => t == Ticked(s, now)
  }

  // Each command as the dropping of a message followed by its return in another place.

  lemma NotFound(s: State, id: int)
    requires !Sits(s, id, Using)
    ensures Next(s, Sleep(id), s) && forall d :: Next(s, Reuse(id, d), s)
  {
  }

  lemma NotAsleep(s: State, id: int)
    requires !Sits(s, id, Sleeping)
    ensures forall d :: Next(s, WakeUp(id, d), s)
  {
  }

  lemma NoneToGet(s: State)
    requires forall id :: !Sits(s, id, Ready)
    ensures Next(s, Get, s)
  {
  }

  lemma PutToSleep(s: State, id: int, x: Slot)
    requires Sits(s, id, Using) && x == s[id].(queue := Sleeping)
    ensures Next(s, Sleep(id), (s - {id})[id := x])
  {
  }

  lemma Requeued(s: State, id: int, x: Slot, d: int)
    requires id in s && x.priority == s[id].priority && x.activetime == s[id].activetime
    ensures Sits(s, id, Using) ==> Next(s, Reuse(id, d), (s - {id})[id := Enqueued(x, d)])
    ensures Sits(s, id, Sleeping) ==> Next(s, WakeUp(id, d), (s - {id})[id := Enqueued(x, d)])
  {
    assert (s - {id})[id := Enqueued(x, d)] == s[id := Enqueued(s[id], d)];
  }

  lemma HandedOut(s: State, id: int, x: Slot)
    requires BestReady(s, id) && x == s[id].(queue := Using)
    ensures (s - {id})[id := x] == Move(s, id, Using)
    ensures Next(s, Get, (s - {id})[id := x])
  {
  }

  // ----- whole runs -----

  /** `s` are the states a run of the commands `c` goes through. */
  ghost predicate Run(s: seq<State>, c: seq<Command>) {
    |s| == |c| + 1 && forall i :: 0 <= i < |c| ==> Next(s[i], c[i], s[i + 1])
  }

  predicate Addresses(c: Command, id: int) {
    match c
    case Add(j, _, _, _) => j == id
    case Get => false
    case Sleep(j) => j == id
    case Reuse(j, _) => j == id
    case WakeUp(j, _) => j == id
    case Del(j) => j == id
    case Tick(_) => false
  }

  /** A command addressed to another id leaves a message alone; a message that stays in its
      heap keeps its key; and only add and del change which messages are live. */
  lemma StepFrame(s: State, c: Command, t: State, id: int)
    requires Next(s, c, t)
    ensures !c.Get? && !c.Tick? && !Addresses(c, id) ==> (id in t <==> id in s) && (id in s ==> t[id] == s[id])
    ensures id in s && id in t && s[id].queue == t[id].queue ==> s[id] == t[id]
    ensures !c.Add? && !c.Del? ==> t.Keys == s.Keys
    ensures id in s && id !in t ==> c == Del(id) && s[id].queue in {Using, Sleeping}
    ensures id !in s && id in t ==> c.Add? && c.id == id
  {
  }

  /** A message given to the queues: delayed by `d` from its due time, or ready at once. */
  lemma EnqueuedMeaning(x: Slot, d: int)
    ensures Enqueued(x, d) ==
      if d > 0 then Slot(Delayed, x.priority, x.activetime + d, d) else Slot(Ready, x.priority, x.activetime, 0)
  {
  }

  /** What each command does to the messages, field by field. */
  lemma StepMeaning(s: State, c: Command, t: State)
    requires Next(s, c, t)
    ensures match c
      case Add(id, priority, activetime, d) =>
        && id !in s
        && t == s[id := if d > 0 then Slot(Delayed, priority, activetime + d, d) else Slot(Ready, priority, activetime, 0)]
      case Get =>
        if forall j :: j in s ==> s[j].queue != Ready then t == s
        else exists id ::
          && id in s && s[id].queue == Ready
          && (forall j :: j in s && s[j].queue == Ready ==> s[id].priority <= s[j].priority)
          && t == s[id := Slot(Using, s[id].priority, s[id].activetime, s[id].delay)]
      case Sleep(id) =>
        t == if id in s && s[id].queue == Using
             then s[id := Slot(Sleeping, s[id].priority, s[id].activetime, s[id].delay)] else s
      case Reuse(id, d) =>
        if id in s && s[id].queue == Using then
          t == s[id := if d > 0 then Slot(Delayed, s[id].priority, s[id].activetime + d, d)
                       else Slot(Ready, s[id].priority, s[id].activetime, 0)]
        else t == s
      case WakeUp(id, d) =>
        if id in s && s[id].queue == Sleeping then
          t == s[id := if d > 0 then Slot(Delayed, s[id].priority, s[id].activetime + d, d)
                       else Slot(Ready, s[id].priority, s[id].activetime, 0)]
        else t == s
      case Del(id) =>
        t == if id in s && (s[id].queue == Using || s[id].queue == Sleeping) then s - {id} else s
      case Tick(now) =>
        && t.Keys == s.Keys
        && forall j :: j in s ==>
             t[j] == if s[j].queue == Delayed && s[j].activetime <= now
                     then Slot(Ready, s[j].priority, s[j].activetime, 0) else s[j]
  {
    if c.Get? {
      if exists j :: Sits(s, j, Ready) {
        var id :| BestReady(s, id) && t == Move(s, id, Using);
        forall j | j in s && s[j].queue == Ready
          ensures s[id].priority <= s[j].priority
        {
          assert Sits(s, j, Ready);
        }
      } else {
        assert forall j :: j in s ==> !Sits(s, j, Ready);
      }
    }
  }

  /** Before state `b` of a run, the message was there from the start or was just added. */
  predicate Born(s: seq<State>, c: seq<Command>, id: int, b: nat)
    requires |s| == |c| + 1 && b <= |c|
  {
    if b == 0 then id in s[0] else c[b - 1].Add? && c[b - 1].id == id
  }

  /** A del that finds the message being used or sleeping. */
  predicate Kills(s: State, c: Command, id: int) {
    c == Del(id) && id in s && (s[id].queue == Using || s[id].queue == Sleeping)
  }

  /** Born before state `b`, and no del has found the message being used or sleeping since. */
  ghost predicate LiveSince(s: seq<State>, c: seq<Command>, id: int, b: nat)
    requires |s| == |c| + 1 && b <= |c|
  {
    Born(s, c, id, b) && forall k :: b <= k < |c| ==> !Kills(s[k], c[k], id)
  }

  lemma {:induction false} NotKilled(s: seq<State>, c: seq<Command>, id: int, b: nat)
    requires Run(s, c) && b <= |c| && LiveSince(s, c, id, b)
    ensures id in s[|c|]
  {
    if |c| > 0 {
      var n := |c| - 1;
      StepMeaning(s[n], c[n], s[n + 1]);
      if b <= n {
        NotKilled(s[..n + 1], c[..n], id, b);
        assert !Kills(s[n], c[n], id);
      }
    }
  }

  lemma {:induction false} BornOnce(s: seq<State>, c: seq<Command>, id: int) returns (b: nat)
    requires Run(s, c) && id in s[|c|]
    ensures b <= |c| && LiveSince(s, c, id, b)
  {
    b := |c|;
    if |c| > 0 && !(c[|c| - 1].Add? && c[|c| - 1].id == id) {
      var n := |c| - 1;
      StepMeaning(s[n], c[n], s[n + 1]);
      b := BornOnce(s[..n + 1], c[..n], id);
      assert forall k :: b <= k < n ==> s[..n + 1][k] == s[k] && c[..n][k] == c[k];
    }
  }

  /** A message is live at the end of a run exactly when it was there or was added at some point
      and no del has found it being used or sleeping since. */
  lemma LiveExactly(s: seq<State>, c: seq<Command>, id: int)
    requires Run(s, c)
    ensures id in s[|c|] <==> exists b: nat :: b <= |c| && LiveSince(s, c, id, b)
  {
    if id in s[|c|] {
      var b := BornOnce(s, c, id);
    }
    if b: nat :| b <= |c| && LiveSince(s, c, id, b) {
      NotKilled(s, c, id, b);
    }
  }

  /** A message disappears only through del, and appears only through add. */
  lemma {:induction false} LiveUntilDeleted(s: seq<State>, c: seq<Command>, id: int)
    requires Run(s, c)
    ensures id in s[0] && Del(id) !in c ==> forall i :: 0 <= i < |s| ==> id in s[i]
    ensures id !in s[0] && (forall k :: 0 <= k < |c| && c[k].Add? ==> c[k].id != id)
      ==> forall i :: 0 <= i < |s| ==> id !in s[i]
  {
    if |c| > 0 {
      var n := |c| - 1;
      LiveUntilDeleted(s[..n + 1], c[..n], id);
      assert s[..n + 1][n] == s[n] && c[n] in c;
      StepFrame(s[n], c[n], s[n + 1], id);
      forall i | 0 <= i < |s|
        ensures i <= n ==> s[i] == s[..n + 1][i]
      {
      }
    }
  }

  /** The delay a step adds to a message's due time. */
  function Applied(s: State, c: Command, id: int): nat {
    match c
    case Reuse(j, d) => if j == id && Sits(s, id, Using) then Max0(d) else 0
    case WakeUp(j, d) => if j == id && Sits(s, id, Sleeping) then Max0(d) else 0
    case _ => 0
  }

  function TotalApplied(s: seq<State>, c: seq<Command>, id: int): nat
    requires |s| == |c| + 1
  {
    if c == [] then 0 else TotalApplied(s[..|c|], c[..|c| - 1], id) + Applied(s[|c| - 1], c[|c| - 1], id)
  }

  /** Over a whole run a message keeps its priority, and its due time moves by exactly the
      delays of the reuse and wakeup commands that found it. */
  lemma {:induction false} DueTimeLedger(s: seq<State>, c: seq<Command>, id: int)
    requires Run(s, c) && id in s[0] && Del(id) !in c
    ensures id in s[|c|] && s[|c|][id].priority == s[0][id].priority
    ensures s[|c|][id].activetime == s[0][id].activetime + TotalApplied(s, c, id)
  {
    if |c| > 0 {
      var n := |c| - 1;
      DueTimeLedger(s[..n + 1], c[..n], id);
      assert c[n] in c;
      StepDueTime(s[n], c[n], s[n + 1], id);
    }
  }

  lemma StepDueTime(s: State, c: Command, t: State, id: int)
    requires Next(s, c, t) && id in s && c != Del(id)
    ensures id in t && t[id].priority == s[id].priority
    ensures t[id].activetime == s[id].activetime + Applied(s, c, id)
  {
  }

  /** A delayed message is untouched until a tick reaches its due time, and that tick makes
      it ready. */
  lemma {:induction false} DelayedUntilDue(s: seq<State>, c: seq<Command>, id: int)
    requires Run(s, c) && |c| > 0 && Sits(s[0], id, Delayed)
    requires forall k :: 0 <= k < |c| - 1 && c[k].Tick? ==> c[k].t < s[0][id].activetime
    ensures id in s[|c| - 1] && s[|c| - 1][id] == s[0][id]
    ensures id in s[|c|]
    ensures s[|c|][id].queue == Ready <==> c[|c| - 1].Tick? && s[0][id].activetime <= c[|c| - 1].t
    ensures s[|c|][id].queue != Ready ==> s[|c|][id] == s[0][id]
  {
    var n := |c| - 1;
    if n > 0 {
      DelayedUntilDue(s[..n + 1], c[..n], id);
      assert s[..n + 1][n] == s[n] && c[..n][n - 1] == c[n - 1];
    }
    DelayedStep(s[n], c[n], s[n + 1], id);
  }

  lemma DelayedStep(s: State, c: Command, t: State, id: int)
    requires Next(s, c, t) && Sits(s, id, Delayed)
    ensures id in t
    ensures t[id].queue == Ready <==> c.Tick? && s[id].activetime <= c.t
    ensures t[id].queue != Ready ==> t[id] == s[id]
  {
  }

  /** Building a message counts its delay once and adding it counts it again: published at
      time `now` with delay `d`, it is ready only from `now + 2 * d` on. */
  lemma PublishedDelayCountsTwice(s: State, id: int, priority: int, now: int, d: int, t: State, tick: int)
    requires Next(s, Add(id, priority, now + d, d), t)
    ensures Sits(Ticked(t, tick), id, Ready) <==> d <= 0 || now + 2 * d <= tick
    ensures d > 0 ==> !Sits(Ticked(t, now + d), id, Ready)
  {
  }
}
