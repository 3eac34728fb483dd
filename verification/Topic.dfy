/** A topic and its four heaps (base_queue/topic.c). */
module Topics {
  import HeapOrder
  import opened Messages
  import opened Heaps
  import opened TopicModel

  /** The live messages placed in heap `q`, each once. */
  ghost function Share(live: map<int, Message>, place: map<int, Queue>, q: Queue): set<Message>
    requires live.Keys == place.Keys
  {
    set id | id in live && place[id] == q :: live[id]
  }

  ghost predicate WellKeyed(live: map<int, Message>) {
    forall id :: id in live ==> live[id].messageid == id
  }

  lemma ShareMembers(live: map<int, Message>, place: map<int, Queue>, q: Queue)
    requires live.Keys == place.Keys && WellKeyed(live)
    ensures forall m :: m in Share(live, place, q) ==>
      m.messageid in live && live[m.messageid] == m && m in live.Values && place[m.messageid] == q
    ensures forall id :: id in live && place[id] == q ==> live[id] in Share(live, place, q)
  {
  }

  lemma ShareInLive(live: map<int, Message>, place: map<int, Queue>)
    requires live.Keys == place.Keys
    ensures forall q :: Share(live, place, q) <= live.Values
  {
  }

  lemma ShareEmpty()
    ensures forall q :: Share(map[], map[], q) == {}
  {
  }

  /** Dropping a message takes it out of its own heap's share and no other. */
  lemma ShareDrop(live: map<int, Message>, place: map<int, Queue>, m: Message, q: Queue)
    requires live.Keys == place.Keys && WellKeyed(live) && m in Share(live, place, q)
    ensures m.messageid in live && live[m.messageid] == m && m.messageid in place && place[m.messageid] == q
    ensures var l, p := live - {m.messageid}, place - {m.messageid};
      && l.Keys == p.Keys && WellKeyed(l)
      && multiset(Share(l, p, q)) == multiset(Share(live, place, q)) - multiset{m}
      && forall r :: r != q ==> Share(l, p, r) == Share(live, place, r)
  {
    var l, p := live - {m.messageid}, place - {m.messageid};
    forall r, x | x in Share(live, place, r) && x != m
      ensures x in Share(l, p, r)
    {
      assert x.messageid != m.messageid && l[x.messageid] == x;
    }
  }

  lemma ShareAdd(live: map<int, Message>, place: map<int, Queue>, m: Message, q: Queue)
    requires live.Keys == place.Keys && WellKeyed(live) && m.messageid !in live
    ensures var l, p := live[m.messageid := m], place[m.messageid := q];
      && l.Keys == p.Keys && WellKeyed(l)
      && multiset(Share(l, p, q)) == multiset(Share(live, place, q)) + multiset{m}
      && forall r :: r != q ==> Share(l, p, r) == Share(live, place, r)
  {
    var l, p := live[m.messageid := m], place[m.messageid := q];
    assert l[m.messageid] == m;
    forall r, x | x in Share(live, place, r)
      ensures x in Share(l, p, r)
    {
      assert l[x.messageid] == x;
    }
  }

  /** A heap in order that holds exactly its share of the messages. */
  ghost predicate Part(h: Heap, share: set<Message>)
    reads h, h.data, share
  {
    && h.len <= h.data.Length
    && h.Bag() == multiset(share)
    && (assert forall m :: m in h.data[..h.len] ==> m in h.Bag() && m in share; h.Valid())
  }

  lemma PartValid(h: Heap, share: set<Message>)
    requires Part(h, share)
    ensures h.Valid() && h.Bag() == multiset(share)
  {
  }

  lemma ValidPart(h: Heap, share: set<Message>)
    requires h.Valid() && h.Bag() == multiset(share)
    ensures Part(h, share)
  {
  }

  ghost function SlotOf(m: Message, q: Queue): Slot
    reads m
  {
    Slot(q, m.priority, m.activetime, m.delay)
  }

  ghost function ViewOf(live: map<int, Message>, place: map<int, Queue>): (v: State)
    reads live.Values
    ensures v.Keys == live.Keys * place.Keys
  {
    map id | id in live && id in place :: SlotOf(live[id], place[id])
  }

  lemma ViewDrop(live: map<int, Message>, place: map<int, Queue>, id: int)
    ensures ViewOf(live - {id}, place - {id}) == ViewOf(live, place) - {id}
    ensures id in live && id in place ==> ViewOf(live, place)[id] == SlotOf(live[id], place[id])
  {
  }

  lemma ViewAdd(live: map<int, Message>, place: map<int, Queue>, m: Message, q: Queue)
    ensures ViewOf(live[m.messageid := m], place[m.messageid := q])
      == ViewOf(live, place)[m.messageid := SlotOf(m, q)]
  {
  }

  /** A message outside the topic can change without the topic noticing. */
  lemma Outside(live: map<int, Message>, m: Message)
    requires WellKeyed(live) && m.messageid !in live
    ensures m !in live.Values
  {
    assert forall id :: id in live ==> live[id] != m;
  }

  class Topic {
    const readyQueue: Heap
    const delayQueue: Heap
    const usingPool: Heap
    const sleepQueue: Heap
    /** The live messages by id, and the heap each was last put in. */
    ghost var live: map<int, Message>
    ghost var place: map<int, Queue>

    function HeapOf(q: Queue): Heap {
      match q
      case Ready => readyQueue
      case Delayed => delayQueue
      case Using => usingPool
      case Sleeping => sleepQueue
    }

    /** Four heaps over four arrays, the delay queue ordered by due time. */
    ghost predicate Shape()
      reads readyQueue, delayQueue, usingPool, sleepQueue
    {
      && (forall q, r {:trigger HeapOf(q), HeapOf(r)} :: q != r ==>
            HeapOf(q) != HeapOf(r) && HeapOf(q).data != HeapOf(r).data)
      && (forall q {:trigger HeapOf(q)} :: HeapOf(q).order == if q == Delayed then ByActiveTime else ByPriority)
    }

    ghost function Footprint(): set<object>
      reads this, readyQueue, delayQueue, usingPool, sleepQueue
    {
      {this, readyQueue, delayQueue, usingPool, sleepQueue,
       readyQueue.data, delayQueue.data, usingPool.data, sleepQueue.data}
    }

    ghost predicate Valid()
      reads this, Footprint(), live.Values
    {
      && Shape()
      && live.Keys == place.Keys && WellKeyed(live)
      && (ShareInLive(live, place); forall q :: Part(HeapOf(q), Share(live, place, q)))
    }

    /** The live messages as the model sees them. */
    ghost function View(): State
      reads this, live.Values
    {
      ViewOf(live, place)
    }

    constructor ()
      ensures Valid() && live == map[]
      ensures fresh(readyQueue) && fresh(delayQueue) && fresh(usingPool) && fresh(sleepQueue)
      ensures fresh(readyQueue.data) && fresh(delayQueue.data) && fresh(usingPool.data) && fresh(sleepQueue.data)
    {
      hide Heap.Valid, Heap.Bag, Heap.Contents, Share, Part, Shape;
      ShareEmpty();
      var r := new Heap(ByPriority);
      var d := new Heap(ByActiveTime);
      assert r.Valid() && r.data != d.data;
      var u := new Heap(ByPriority);
      assert r.Valid() && d.Valid() && r.data != u.data && d.data != u.data;
      var s := new Heap(ByPriority);
      assert r.Valid() && d.Valid() && u.Valid() && r.data != s.data && d.data != s.data && u.data != s.data;
      readyQueue, delayQueue, usingPool, sleepQueue := r, d, u, s;
      live, place := map[], map[];
      new;
      ShapeOfNew();
      ValidPart(r, {});
      ValidPart(d, {});
      ValidPart(u, {});
      ValidPart(s, {});
      assert forall q :: HeapOf(q) == match q case Ready => r case Delayed => d case Using => u case Sleeping => s;
    }

    lemma ShapeOfNew()
      requires readyQueue != delayQueue && readyQueue != usingPool && readyQueue != sleepQueue
      requires delayQueue != usingPool && delayQueue != sleepQueue && usingPool != sleepQueue
      requires readyQueue.data != delayQueue.data && readyQueue.data != usingPool.data
      requires readyQueue.data != sleepQueue.data && delayQueue.data != usingPool.data
      requires delayQueue.data != sleepQueue.data && usingPool.data != sleepQueue.data
      requires readyQueue.order == usingPool.order == sleepQueue.order == ByPriority
      requires delayQueue.order == ByActiveTime
      ensures Shape()
    {
    }

    // Taking a message out of a heap drops it from the topic; putting one in adds it.

    ghost predicate Dropped(v: State, m: Message, q: Queue)
      reads this, live.Values, m
    {
      && m.messageid !in live
      && m.messageid in v && v[m.messageid] == SlotOf(m, q)
      && View() == v - {m.messageid}
    }

    /** One heap may have moved to a new array. */
    twostate lemma ShapeStays(q: Queue)
      requires old(Shape())
      requires forall r {:trigger HeapOf(r)} :: r != q ==> HeapOf(r).data == old(HeapOf(r).data)
      requires HeapOf(q).data == old(HeapOf(q).data) || fresh(HeapOf(q).data)
      ensures Shape()
    {
    }

    lemma HeapsDiffer(q: Queue)
      requires Shape()
      ensures forall r {:trigger HeapOf(r)} :: r != q ==>
        HeapOf(r) != HeapOf(q) && HeapOf(r).data != HeapOf(q).data
    {
    }

    lemma PartOf(q: Queue)
      requires Valid()
      ensures Part(HeapOf(q), Share(live, place, q))
    {
    }

    /** What a heap and the others hold after one of them has changed. */
    ghost predicate Holds(l: map<int, Message>, p: map<int, Queue>)
      reads Footprint(), l.Values
    {
      && Shape() && l.Keys == p.Keys && WellKeyed(l)
      && (ShareInLive(l, p); forall r :: Part(HeapOf(r), Share(l, p, r)))
    }

    method RemoveFrom(h: Heap, k: nat, ghost q: Queue) returns (m: Message)
      requires Valid() && h == HeapOf(q) && k < h.len
      modifies h, h.data
      ensures m == old(h.data[k]) && h.len == old(h.len) - 1 && h.data == old(h.data)
      ensures m.messageid in live && live[m.messageid] == m && m.messageid in place && place[m.messageid] == q
      ensures Holds(live - {m.messageid}, place - {m.messageid})
    {
      hide Part, Heap.Valid, Heap.Bag, Heap.Contents, Share, WellKeyed, HeapOrder.Log2, Shape;
      HeapsDiffer(q);
      PartValid(h, Share(live, place, q));
      h.SlotInBag(k);
      ShareDrop(live, place, h.data[k], q);
      ghost var l, p := live - {h.data[k].messageid}, place - {h.data[k].messageid};
      label Before:
      m := h.Remove(k);
      ValidPart(h, Share(l, p, q));
      forall r
        ensures Part(HeapOf(r), Share(l, p, r))
      {
        if r != q {
          assert old@Before(Part(HeapOf(r), Share(live, place, r)));
        }
      }
      ShapeStays(q);
    }

    method Take(h: Heap, k: nat, ghost q: Queue) returns (m: Message)
      requires Valid() && h == HeapOf(q) && k < h.len
      modifies Footprint()
      ensures Valid() && Footprint() == old(Footprint())
      ensures m == old(h.data[k]) && h.len == old(h.len) - 1
      ensures Dropped(old(View()), m, q) && m in old(live.Values)
      ensures live.Values <= old(live.Values)
    {
      hide Part, Share, WellKeyed, ViewOf, SlotOf, Shape;
      m := RemoveFrom(h, k, q);
      ViewDrop(live, place, m.messageid);
      live, place := live - {m.messageid}, place - {m.messageid};
    }

    method InsertInto(h: Heap, m: Message, ghost q: Queue)
      requires Valid() && h == HeapOf(q) && m.messageid !in live
      modifies h, h.data
      ensures h.data == old(h.data) || fresh(h.data)
      ensures Holds(live[m.messageid := m], place[m.messageid := q])
    {
      hide Part, Heap.Valid, Heap.Bag, Heap.Contents, Share, WellKeyed, HeapOrder.Log2, Shape;
      HeapsDiffer(q);
      ShareAdd(live, place, m, q);
      PartValid(h, Share(live, place, q));
      ghost var l, p := live[m.messageid := m], place[m.messageid := q];
      label Before:
      h.Insert(m);
      ValidPart(h, Share(l, p, q));
      forall r
        ensures Part(HeapOf(r), Share(l, p, r))
      {
        if r != q {
          assert old@Before(Part(HeapOf(r), Share(live, place, r)));
        }
      }
      ShapeStays(q);
    }

    method Put(h: Heap, m: Message, ghost q: Queue)
      requires Valid() && h == HeapOf(q) && m.messageid !in View()
      modifies Footprint()
      ensures Valid() && fresh(Footprint() - old(Footprint()))
      ensures View() == old(View()[m.messageid := SlotOf(m, q)])
      ensures live.Values <= old(live.Values) + {m}
    {
      hide Part, Share, WellKeyed, ViewOf, SlotOf, Shape;
      ViewAdd(live, place, m, q);
      InsertInto(h, m, q);
      live, place := live[m.messageid := m], place[m.messageid := q];
    }

    /** The root of the delay queue is due no later than anything else delayed. */
    lemma EarliestDelayed()
      requires Valid() && HeapOf(Delayed).len > 0
      ensures forall id :: Sits(View(), id, Delayed) ==> delayQueue.data[0].activetime <= View()[id].activetime
    {
      PartOf(Delayed);
      delayQueue.RootIsLeast();
      ShareMembers(live, place, Delayed);
      assert forall m :: m in Share(live, place, Delayed) ==> m in delayQueue.Bag();
    }

    lemma MostUrgentReady()
      requires Valid() && HeapOf(Ready).len > 0
      ensures forall id :: Sits(View(), id, Ready) ==> readyQueue.data[0].priority <= View()[id].priority
    {
      PartOf(Ready);
      readyQueue.RootIsLeast();
      ShareMembers(live, place, Ready);
      assert forall m :: m in Share(live, place, Ready) ==> m in readyQueue.Bag();
    }

    /** Delays a message that is in no heap: the topic does not notice. */
    method Delay(m: Message, d: int)
      requires Valid() && m.messageid !in View()
      modifies m
      ensures Valid() && View() == old(View())
      ensures m.activetime == old(m.activetime) + Max0(d) && m.delay == Max0(d)
    {
      hide Part, Heap.Valid, Heap.Bag, Heap.Contents, Share, WellKeyed, ViewOf, SlotOf, HeapOrder.Log2;
      Outside(live, m);
      ShareInLive(live, place);
      label Before:
      m.SetMessageDelay(if d >= 0 then d else 0);
      forall r
        ensures Part(HeapOf(r), Share(live, place, r))
      {
        assert old@Before(Part(HeapOf(r), Share(live, place, r)));
      }
    }

    /** Puts a message into the delay queue, or the ready queue when there is no delay. */
    method AddMessage(m: Message, d: int)
      requires Valid() && m.messageid !in View()
      modifies Footprint(), m
      ensures Valid() && fresh(Footprint() - old(Footprint()))
      ensures View() == old(View()[m.messageid := Enqueued(SlotOf(m, Ready), d)])
      ensures live.Values <= old(live.Values) + {m}
    {
      hide Valid, View;
      Delay(m, d);
      if d > 0 {
        Put(delayQueue, m, Delayed);
      } else {
        Put(readyQueue, m, Ready);
      }
    }

    /** Builds a message and adds it, as the `add` command does. */
    method Publish(id: int, priority: int, createtime: int, d: int) returns (m: Message)
      requires Valid() && id !in View()
      modifies Footprint()
      ensures Valid() && fresh(Footprint() - old(Footprint()))
      ensures fresh(m) && m.messageid == id
      ensures View() == old(View())[id :=
        if d > 0 then Slot(Delayed, priority, createtime + d + d, d) else Slot(Ready, priority, createtime + d, 0)]
      ensures Next(old(View()), Add(id, priority, createtime + d, d), View())
    {
      hide Valid, View;
      m := new Message(id, priority, createtime, d);
      AddMessage(m, d);
    }

    lemma NoneReady()
      requires Valid() && readyQueue.len == 0
      ensures forall id :: !Sits(View(), id, Ready)
    {
      PartOf(Ready);
      ShareMembers(live, place, Ready);
    }

    lemma ReadyRoot(m: Message, v: State)
      requires m.messageid in v && v[m.messageid] == SlotOf(m, Ready)
      requires forall id :: Sits(v, id, Ready) ==> m.priority <= v[id].priority
      ensures BestReady(v, m.messageid)
    {
    }

    /** Hands out a ready message of the least priority value, or null when none is ready. */
    method GetReadyMessage() returns (m: Message?)
      requires Valid()
      modifies Footprint()
      ensures Valid() && fresh(Footprint() - old(Footprint()))
      ensures Next(old(View()), Get, View())
      ensures m == null <==> forall id :: !Sits(old(View()), id, Ready)
      ensures m == null ==> View() == old(View())
      ensures m != null ==>
        && BestReady(old(View()), m.messageid)
        && View() == old(View())[m.messageid := old(View())[m.messageid].(queue := Using)]
    {
      hide Valid, View, Next, Enqueued;
      if readyQueue.len == 0 {
        NoneReady();
        NoneToGet(View());
        m := null;
      } else {
        MostUrgentReady();
        m := Take(readyQueue, 0, Ready);
        ReadyRoot(m, old(View()));
        HandedOut(old(View()), m.messageid, SlotOf(m, Using));
        Put(usingPool, m, Using);
      }
    }

    method Find(h: Heap, id: int, ghost q: Queue) returns (i: int)
      requires Valid() && h == HeapOf(q)
      ensures i == -1 <==> !Sits(View(), id, q)
      ensures i != -1 ==> 0 <= i < HeapOf(q).len && HeapOf(q).data[i].messageid == id
    {
      hide Share;
      PartOf(q);
      i := h.FindIndex(id);
      ShareMembers(live, place, q);
      assert forall m :: m in Share(live, place, q) <==> m in h.Bag();
      if i != -1 {
        h.SlotInBag(i);
      }
    }

    /** Puts a message that is being used to sleep. */
    method SleepMessage(id: int) returns (result: int)
      requires Valid()
      modifies Footprint()
      ensures Valid() && fresh(Footprint() - old(Footprint()))
      ensures Next(old(View()), Sleep(id), View())
      ensures result == if Sits(old(View()), id, Using) then 1 else -1
      ensures View() ==
        if result == 1 then old(View())[id := old(View())[id].(queue := Sleeping)] else old(View())
    {
      hide Valid, View, Next, Enqueued;
      var i := Find(usingPool, id, Using);
      if i == -1 {
        NotFound(View(), id);
        return -1;
      }
      var m := Take(usingPool, i, Using);
      PutToSleep(old(View()), id, SlotOf(m, Sleeping));
      Put(sleepQueue, m, Sleeping);
      result := 1;
    }

    /** Gives a message that is being used back to the queues. */
    method ReuseMessage(id: int, d: int) returns (result: int)
      requires Valid()
      modifies Footprint(), live.Values
      ensures Valid() && fresh(Footprint() - old(Footprint()))
      ensures Next(old(View()), Reuse(id, d), View())
      ensures result == if Sits(old(View()), id, Using) then 1 else -1
      ensures result == -1 ==> View() == old(View())
    {
      hide Valid, View, Next, Enqueued;
      var i := Find(usingPool, id, Using);
      if i == -1 {
        NotFound(View(), id);
        return -1;
      }
      var m := Take(usingPool, i, Using);
      Requeued(old(View()), id, SlotOf(m, Ready), d);
      AddMessage(m, d);
      result := 1;
    }

    /** Gives a sleeping message back to the queues. */
    method WakeUpMessage(id: int, d: int) returns (result: int)
      requires Valid()
      modifies Footprint(), live.Values
      ensures Valid() && fresh(Footprint() - old(Footprint()))
      ensures Next(old(View()), WakeUp(id, d), View())
      ensures result == if Sits(old(View()), id, Sleeping) then 1 else -1
      ensures result == -1 ==> View() == old(View())
    {
      hide Valid, View, Next, Enqueued;
      var i := Find(sleepQueue, id, Sleeping);
      if i == -1 {
        NotAsleep(View(), id);
        return -1;
      }
      var m := Take(sleepQueue, i, Sleeping);
      Requeued(old(View()), id, SlotOf(m, Ready), d);
      AddMessage(m, d);
      result := 1;
    }

    /** Deletes a message that is being used or sleeping. */
    method DelMessage(id: int) returns (result: int)
      requires Valid()
      modifies Footprint()
      ensures Valid() && fresh(Footprint() - old(Footprint()))
      ensures Next(old(View()), Del(id), View())
      ensures result == if Sits(old(View()), id, Using) || Sits(old(View()), id, Sleeping) then 1 else -1
      ensures View() == if result == 1 then old(View()) - {id} else old(View())
    {
      hide Valid, View;
      var i := Find(usingPool, id, Using);
      if i != -1 {
        var m := Take(usingPool, i, Using);
        return 1;
      }
      i := Find(sleepQueue, id, Sleeping);
      if i != -1 {
        var m := Take(sleepQueue, i, Sleeping);
        return 1;
      }
      result := -1;
    }

    lemma NoneDelayed()
      requires Valid() && delayQueue.len == 0
      ensures forall id :: !Sits(View(), id, Delayed)
    {
      PartOf(Delayed);
      ShareMembers(live, place, Delayed);
      PartValid(delayQueue, Share(live, place, Delayed));
    }

    /** Takes the earliest delayed message out and makes it ready if it is due by `t`;
        otherwise puts it back, and then nothing is due. */
    method TickOne(t: int, ghost v0: State, ghost done: set<int>) returns (more: bool, ghost done': set<int>)
      requires Valid() && View() == Ripened(v0, done) && done <= Due(v0, t)
      modifies Footprint(), live.Values
      ensures Valid() && fresh(Footprint() - old(Footprint())) && live.Values <= old(live.Values)
      ensures View() == Ripened(v0, done') && done <= done' <= Due(v0, t)
      ensures if more then done < done' else NothingDue(View(), t)
    {
      hide Valid, View, Ripened;
      more, done' := false, done;
      if delayQueue.len == 0 {
        NoneDelayed();
        return;
      }
      EarliestDelayed();
      ghost var v := View();
      var m := Take(delayQueue, 0, Delayed);
      if m.IsWaitFinished(t) {
        RipenOne(v0, done, m.messageid, t, Enqueued(SlotOf(m, Ready), 0));
        AddMessage(m, 0);
        more, done' := true, done + {m.messageid};
      } else {
        assert NothingDue(v, t);
        PutBack(v, m.messageid);
        Put(delayQueue, m, Delayed);
      }
    }

    /** Makes every message due by `t` ready, stopping at the first that is not due. */
    method TickTopic(t: int)
      requires Valid()
      modifies Footprint(), live.Values
      ensures Valid() && fresh(Footprint() - old(Footprint()))
      ensures Next(old(View()), Tick(t), View())
      ensures View() == map id | id in old(View()) ::
        if old(View())[id].queue == Delayed && old(View())[id].activetime <= t
        then old(View())[id].(queue := Ready, delay := 0) else old(View())[id]
    {
      hide Valid, View;
      ghost var v0 := View();
      ghost var done: set<int> := {};
      var more := true;
      while more
        invariant Valid() && fresh(Footprint() - old(Footprint()))
        invariant live.Values <= old(live.Values)
        invariant View() == Ripened(v0, done) && done <= Due(v0, t)
        invariant !more ==> NothingDue(View(), t)
        decreases more, Due(v0, t) - done
      {
        more, done := TickOne(t, v0, done);
      }
      RipenedAll(v0, done, t);
    }
  }
}
