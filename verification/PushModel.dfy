/** Push fan-out on values (app_queue/push.c, app_queue/subscribe.c): messages wait in topics, are
    copied to the pushers of the topic's subscribers, pushed, and acknowledged. */
module PushModel {

  /** A queued reference to a message of a topic. */
  datatype Copy = Copy(message: int, topic: nat)

  datatype Pusher = Pusher(ready: seq<Copy>, pushed: seq<Copy>, busy: bool)

  /** `waiting` are the ready messages of each topic, in the order the topic hands them out;
      `subscribers` the pushers of each topic's subscribers; `relate` each message's count. */
  datatype State = State(
    waiting: seq<seq<int>>,
    subscribers: seq<seq<nat>>,
    pushers: seq<Pusher>,
    relate: map<int, int>,
    using: set<int>,
    deleted: set<int>)

  datatype Command =
    | Publish(topic: nat, message: int, at: nat)
    | Dispatch
    | PushAll
    | Complete(pusher: nat)
    | Ack(pusher: nat, message: int)

  // ----- steps -----

  predicate WellFormed(s: State) {
    && |s.waiting| == |s.subscribers|
    && (forall k :: 0 <= k < |s.waiting| ==> forall i :: 0 <= i < |s.waiting[k]| ==> s.waiting[k][i] in s.relate)
    && (forall k, i :: 0 <= k < |s.subscribers| && 0 <= i < |s.subscribers[k]| ==> s.subscribers[k][i] < |s.pushers|)
  }

  /** addMessageToPusher, and the count that goes with it. */
  function Enqueue(s: State, p: nat, c: Copy): State
    requires p < |s.pushers| && c.message in s.relate
  {
    s.(pushers := s.pushers[p := s.pushers[p].(ready := s.pushers[p].ready + [c])],
       relate := s.relate[c.message := s.relate[c.message] + 1])
  }

  /** pushMessageToSubscribeList. */
  function EnqueueAll(s: State, targets: seq<nat>, c: Copy): (t: State)
    requires c.message in s.relate && forall i :: 0 <= i < |targets| ==> targets[i] < |s.pushers|
    ensures |t.pushers| == |s.pushers| && t.relate.Keys == s.relate.Keys
    ensures t.waiting == s.waiting && t.subscribers == s.subscribers
    ensures t.using == s.using && t.deleted == s.deleted
    decreases |targets|
  {
    if targets == [] then s else EnqueueAll(Enqueue(s, targets[0], c), targets[1..], c)
  }

  /** getReadyMessage. */
  function Take(s: State, k: nat): (t: State)
    requires k < |s.waiting| && s.waiting[k] != []
  {
    s.(waiting := s.waiting[k := s.waiting[k][1..]], using := s.using + {s.waiting[k][0]})
  }

  /** A topic has an entry to visit only once somebody is listed under it. */
  predicate Dispatches(s: State, k: nat)
    requires k < |s.waiting| == |s.subscribers|
  {
    s.subscribers[k] != [] && s.waiting[k] != []
  }

  function DispatchTopic(s: State, k: nat): (t: State)
    requires WellFormed(s) && k < |s.waiting|
    ensures WellFormed(t) && |t.waiting| == |s.waiting| && |t.pushers| == |s.pushers| && t.deleted == s.deleted
  {
    if Dispatches(s, k) then EnqueueAll(Take(s, k), s.subscribers[k], Copy(s.waiting[k][0], k)) else s
  }

  /** processSubscribeTopic from topic `k` on. */
  function DispatchFrom(s: State, k: nat): (t: State)
    requires WellFormed(s) && k <= |s.waiting|
    ensures WellFormed(t) && |t.pushers| == |s.pushers| && t.deleted == s.deleted
    decreases |s.waiting| - k
  {
    if k == |s.waiting| then s else DispatchFrom(DispatchTopic(s, k), k + 1)
  }

  /** pushToTarget. */
  function PushOne(s: State, p: nat): State
    requires p < |s.pushers|
  {
    var q := s.pushers[p];
    if q.busy || q.ready == [] then s else
      s.(pushers := s.pushers[p := Pusher(q.ready[1..], q.pushed + [q.ready[0]], true)])
  }

  /** processPush from pusher `p` on. */
  function PushFrom(s: State, p: nat): (t: State)
    requires p <= |s.pushers|
    ensures t.deleted == s.deleted
    decreases |s.pushers| - p
  {
    if p == |s.pushers| then s else PushFrom(PushOne(s, p), p + 1)
  }

  /** The client took everything that was being sent. */
  function CompleteOne(s: State, p: nat): State
    requires p < |s.pushers|
  {
    s.(pushers := s.pushers[p := s.pushers[p].(busy := false)])
  }

  predicate Mentions(copies: seq<Copy>, m: int) {
    exists i :: 0 <= i < |copies| && copies[i].message == m
  }

  /** delMessage, on a message in use. */
  function Delete(s: State, m: int): State {
    if m in s.using then s.(using := s.using - {m}, deleted := s.deleted + {m}) else s
  }

  /** pushMessageRecived: only a message pushed to this pusher counts. */
  function AckOne(s: State, p: nat, m: int): State
    requires p < |s.pushers|
  {
    if m > 0 && m in s.relate && Mentions(s.pushers[p].pushed, m) then
      var t := s.(relate := s.relate[m := s.relate[m] - 1]);
      if t.relate[m] <= 0 then Delete(t, m) else t
    else s
  }

  function PublishOne(s: State, k: nat, m: int, at: nat): State
    requires k < |s.waiting| && at <= |s.waiting[k]|
  {
    s.(waiting := s.waiting[k := s.waiting[k][..at] + [m] + s.waiting[k][at..]], relate := s.relate[m := 0])
  }

  /** The commands that can be given: ids are fresh and positive. */
  predicate Enabled(s: State, c: Command) {
    match c
    case Publish(k, m, at) => k < |s.waiting| && at <= |s.waiting[k]| && m > 0 && m !in s.relate
    case Dispatch => true
    case PushAll => true
    case Complete(p) => p < |s.pushers|
    case Ack(p, m) => p < |s.pushers|
  }

  function Apply(s: State, c: Command): State
    requires WellFormed(s) && Enabled(s, c)
  {
    match c
    case Publish(k, m, at) => PublishOne(s, k, m, at)
    case Dispatch => DispatchFrom(s, 0)
    case PushAll => PushFrom(s, 0)
    case Complete(p) => CompleteOne(s, p)
    case Ack(p, m) => AckOne(s, p, m)
  }

  // ----- counting -----

  function Count(copies: seq<Copy>, m: int): (n: nat)
    ensures n <= |copies|
  {
    if copies == [] then 0 else
      Count(copies[..|copies| - 1], m) + if copies[|copies| - 1].message == m then 1 else 0
  }

  lemma {:induction false} CountSplits(a: seq<Copy>, b: seq<Copy>, m: int)
    ensures Count(a + b, m) == Count(a, m) + Count(b, m)
  {
    if b == [] {
      assert a + b == a;
    } else {
      CountSplits(a, b[..|b| - 1], m);
      assert (a + b)[..|a + b| - 1] == a + b[..|b| - 1];
    }
  }

  lemma {:induction false} CountMentions(copies: seq<Copy>, m: int)
    ensures Count(copies, m) > 0 <==> Mentions(copies, m)
  {
    if copies != [] {
      var n := |copies| - 1;
      CountMentions(copies[..n], m);
      if Mentions(copies[..n], m) {
        var i :| 0 <= i < n && copies[..n][i].message == m;
        assert copies[i].message == m;
      }
      if copies[n].message == m {
        assert Mentions(copies, m);
      }
      if Mentions(copies, m) && copies[n].message != m {
        var i :| 0 <= i < |copies| && copies[i].message == m;
        assert copies[..n][i].message == m;
      }
    }
  }

  /** What happened so far: every copy ever queued for each pusher, in order, and how often each
      pusher acknowledged each message. */
  datatype Ledger = Ledger(history: seq<seq<Copy>>, acks: map<(nat, int), nat>)

  function Acks(l: Ledger, p: nat, m: int): nat {
    if (p, m) in l.acks then l.acks[(p, m)] else 0
  }

  /** Copies of `m` ever queued. */
  function Queued(history: seq<seq<Copy>>, m: int): nat {
    if history == [] then 0 else Queued(history[..|history| - 1], m) + Count(history[|history| - 1], m)
  }

  /** Acknowledgements of `m` by the first `n` pushers. */
  function Acknowledged(l: Ledger, n: nat, m: int): nat {
    if n == 0 then 0 else Acknowledged(l, n - 1, m) + Acks(l, n - 1, m)
  }

  lemma {:induction false} QueuedAppend(history: seq<seq<Copy>>, p: nat, c: Copy, m: int)
    requires p < |history|
    ensures Queued(history[p := history[p] + [c]], m) == Queued(history, m) + if c.message == m then 1 else 0
  {
    var n := |history| - 1;
    var after := history[p := history[p] + [c]];
    if p == n {
      assert after[..n] == history[..n];
      assert (history[n] + [c])[..|history[n]|] == history[n];
    } else {
      QueuedAppend(history[..n], p, c, m);
      assert after[..n] == history[..n][p := history[p] + [c]];
    }
  }

  lemma {:induction false} AcknowledgedUpdate(l: Ledger, p: nat, m: int, n: nat, other: int)
    ensures Acknowledged(Acked(l, p, m), n, other) == Acknowledged(l, n, other) + if p < n && m == other then 1 else 0
  {
    if n > 0 {
      AcknowledgedUpdate(l, p, m, n - 1, other);
    }
  }

  function Acked(l: Ledger, p: nat, m: int): Ledger {
    l.(acks := l.acks[(p, m) := Acks(l, p, m) + 1])
  }

  lemma {:induction false} AcknowledgedIgnoresHistory(l: Ledger, history: seq<seq<Copy>>, n: nat, m: int)
    ensures Acknowledged(l.(history := history), n, m) == Acknowledged(l, n, m)
  {
    if n > 0 {
      AcknowledgedIgnoresHistory(l, history, n - 1, m);
    }
  }

  /** With no pusher acknowledging more than it was sent, one that has something left, in its ready
      list or unacknowledged, keeps the totals apart. */
  lemma {:induction false} AcknowledgedBelowQueued(l: Ledger, n: nat, m: int, p: nat)
    requires n <= |l.history| && forall q :: 0 <= q < n ==> Acks(l, q, m) <= Count(l.history[q], m)
    ensures Acknowledged(l, n, m) <= Queued(l.history[..n], m)
    ensures p < n && Acks(l, p, m) < Count(l.history[p], m) ==> Acknowledged(l, n, m) < Queued(l.history[..n], m)
  {
    if n > 0 {
      AcknowledgedBelowQueued(l, n - 1, m, p);
      assert l.history[..n][..n - 1] == l.history[..n - 1];
    }
  }

  // ----- the ledger of a run -----

  function LogAll(l: Ledger, targets: seq<nat>, c: Copy): (r: Ledger)
    requires forall i :: 0 <= i < |targets| ==> targets[i] < |l.history|
    ensures |r.history| == |l.history| && r.acks == l.acks
    decreases |targets|
  {
    if targets == [] then l else
      LogAll(l.(history := l.history[targets[0] := l.history[targets[0]] + [c]]), targets[1..], c)
  }

  function LogDispatch(s: State, l: Ledger, k: nat): (r: Ledger)
    requires WellFormed(s) && k <= |s.waiting| && |l.history| == |s.pushers|
    ensures |r.history| == |l.history|
    decreases |s.waiting| - k
  {
    if k == |s.waiting| then l else
      LogDispatch(DispatchTopic(s, k),
                  if Dispatches(s, k) then LogAll(l, s.subscribers[k], Copy(s.waiting[k][0], k)) else l, k + 1)
  }

  function Log(s: State, l: Ledger, c: Command): Ledger
    requires WellFormed(s) && Enabled(s, c) && |l.history| == |s.pushers|
  {
    match c
    case Dispatch => LogDispatch(s, l, 0)
    case Ack(p, m) => if m > 0 && m in s.relate && Mentions(s.pushers[p].pushed, m) then Acked(l, p, m) else l
    case _ => l
  }

  /** A client acknowledges each copy it was pushed at most once. */
  predicate Honest(s: State, l: Ledger, c: Command)
    requires Enabled(s, c)
  {
    c.Ack? && Mentions(s.pushers[c.pusher].pushed, c.message) ==>
      Acks(l, c.pusher, c.message) < Count(s.pushers[c.pusher].pushed, c.message)
  }

  // ----- what every run keeps -----

  ghost predicate History(s: State, l: Ledger) {
    && |l.history| == |s.pushers|
    && forall p :: 0 <= p < |s.pushers| ==> l.history[p] == s.pushers[p].pushed + s.pushers[p].ready
  }

  /** Only messages there are have copies, and only what was pushed is acknowledged. */
  ghost predicate Known(s: State, l: Ledger) {
    && (forall m <- s.relate :: m > 0)
    && (forall p, i :: 0 <= p < |l.history| && 0 <= i < |l.history[p]| ==> l.history[p][i].message in s.relate)
    && (forall p, m {:trigger Acks(l, p, m)} :: 0 <= p < |s.pushers| && Acks(l, p, m) > 0 ==>
          Mentions(s.pushers[p].pushed, m))
  }

  ghost predicate Fair(s: State, l: Ledger) {
    forall p, m {:trigger Acks(l, p, m)} :: 0 <= p < |s.pushers| ==> Acks(l, p, m) <= Count(s.pushers[p].pushed, m)
  }

  /** The count of every message is its copies queued less its acknowledgements. */
  ghost predicate Balanced(s: State, l: Ledger) {
    forall m <- s.relate :: s.relate[m] == Queued(l.history, m) - Acknowledged(l, |s.pushers|, m)
  }

  /** A message is deleted exactly when it had copies and its count went down to nothing. */
  ghost predicate Lives(s: State, l: Ledger) {
    && (forall m <- s.relate :: m in s.deleted <==> Queued(l.history, m) > 0 && s.relate[m] <= 0)
    && (forall m <- s.relate :: Queued(l.history, m) > 0 ==> m in s.using || m in s.deleted)
    && (forall m <- s.using :: m in s.relate && m !in s.deleted)
    && (forall m <- s.deleted :: m in s.relate)
  }

  ghost predicate Waiting(s: State, l: Ledger) {
    && |s.waiting| == |s.subscribers|
    && (forall k, i :: 0 <= k < |s.waiting| && 0 <= i < |s.waiting[k]| ==>
          var m := s.waiting[k][i]; m in s.relate && m !in s.using && m !in s.deleted && Queued(l.history, m) == 0)
    && (forall k, i, j :: 0 <= k < |s.waiting| && 0 <= i < j < |s.waiting[k]| ==> s.waiting[k][i] != s.waiting[k][j])
    && (forall k, n, i, j :: 0 <= k < n < |s.waiting| && 0 <= i < |s.waiting[k]| && 0 <= j < |s.waiting[n]| ==>
          s.waiting[k][i] != s.waiting[n][j])
  }

  /** What holds whatever the clients do. */
  ghost predicate Base(s: State, l: Ledger) {
    WellFormed(s) && History(s, l) && Known(s, l) && Balanced(s, l) && Lives(s, l) && Waiting(s, l)
  }

  /** A message handed out has copies. */
  ghost predicate Handed(s: State, l: Ledger) {
    forall m <- s.using :: Queued(l.history, m) > 0
  }

  ghost predicate Inv(s: State, l: Ledger) { Base(s, l) && Handed(s, l) && Fair(s, l) }

  // ----- what each command keeps -----

  lemma Inserted(queue: seq<int>, m: int, at: nat)
    requires at <= |queue|
    ensures var longer := queue[..at] + [m] + queue[at..];
      forall i :: 0 <= i < |longer| ==> longer[i] == if i < at then queue[i] else if i == at then m else queue[i - 1]
  {
  }

  lemma PublishWaits(s: State, l: Ledger, k: nat, m: int, at: nat)
    requires Base(s, l) && Enabled(s, Publish(k, m, at)) && Queued(l.history, m) == 0
    ensures Waiting(PublishOne(s, k, m, at), l)
  {
    hide Queued, History, Known, Balanced;
    Inserted(s.waiting[k], m, at);
  }

  lemma PublishKeeps(s: State, l: Ledger, k: nat, m: int, at: nat)
    requires Base(s, l) && Enabled(s, Publish(k, m, at))
    ensures Base(PublishOne(s, k, m, at), l)
    ensures Handed(s, l) ==> Handed(PublishOne(s, k, m, at), l)
    ensures Fair(s, l) ==> Fair(PublishOne(s, k, m, at), l)
  {
    hide Mentions, Queued, Acknowledged, Count, Acks;
    QueuedNone(l.history, m);
    NeverAcknowledged(s, l, m);
    var t := PublishOne(s, k, m, at);
    Inserted(s.waiting[k], m, at);
    assert History(t, l) && Known(t, l) && Balanced(t, l) && Lives(t, l);
    PublishWaits(s, l, k, m, at);
  }

  lemma {:induction false} QueuedNone(history: seq<seq<Copy>>, m: int)
    requires forall p, i :: 0 <= p < |history| && 0 <= i < |history[p]| ==> history[p][i].message != m
    ensures Queued(history, m) == 0
  {
    if history != [] {
      var n := |history| - 1;
      QueuedNone(history[..n], m);
      CountMentions(history[n], m);
    }
  }

  lemma {:induction false} QueuedSome(history: seq<seq<Copy>>, m: int, p: nat)
    requires p < |history| && Count(history[p], m) > 0
    ensures Queued(history, m) > 0
  {
    var n := |history| - 1;
    if p < n {
      QueuedSome(history[..n], m, p);
    }
  }

  lemma {:induction false} AcknowledgedNone(l: Ledger, n: nat, m: int)
    requires forall p :: 0 <= p < n ==> Acks(l, p, m) == 0
    ensures Acknowledged(l, n, m) == 0
  {
    if n > 0 {
      AcknowledgedNone(l, n - 1, m);
    }
  }

  lemma HistoryCounts(s: State, l: Ledger, q: nat, m: int)
    requires History(s, l) && q < |s.pushers|
    ensures Count(l.history[q], m) == Count(s.pushers[q].pushed, m) + Count(s.pushers[q].ready, m)
    ensures Count(s.pushers[q].pushed, m) > 0 <==> Mentions(s.pushers[q].pushed, m)
    ensures Count(s.pushers[q].ready, m) > 0 <==> Mentions(s.pushers[q].ready, m)
  {
    CountSplits(s.pushers[q].pushed, s.pushers[q].ready, m);
    CountMentions(s.pushers[q].pushed, m);
    CountMentions(s.pushers[q].ready, m);
  }

  lemma NeverAcknowledged(s: State, l: Ledger, m: int)
    requires History(s, l) && Known(s, l) && Queued(l.history, m) == 0
    ensures Acknowledged(l, |s.pushers|, m) == 0
  {
    hide Mentions, Queued, Count, Acks;
    forall p | 0 <= p < |s.pushers|
      ensures Acks(l, p, m) == 0
    {
      HistoryCounts(s, l, p, m);
      if Acks(l, p, m) > 0 {
        QueuedSome(l.history, m, p);
      }
    }
    AcknowledgedNone(l, |s.pushers|, m);
  }

  lemma TakeKeeps(s: State, l: Ledger, k: nat)
    requires Base(s, l) && k < |s.waiting| && s.waiting[k] != []
    ensures Base(Take(s, k), l)
    ensures Fair(s, l) ==> Fair(Take(s, k), l)
  {
    hide Queued, Acknowledged, Acks, Count, Mentions;
  }

  lemma EnqueueKeeps(s: State, l: Ledger, p: nat, c: Copy)
    requires Base(s, l) && p < |s.pushers| && c.message in s.using
    ensures c.message in s.relate
    ensures var t, r := Enqueue(s, p, c), l.(history := l.history[p := l.history[p] + [c]]);
      && Base(t, r) && (Fair(s, l) ==> Fair(t, r))
      && forall m :: Queued(r.history, m) == Queued(l.history, m) + if c.message == m then 1 else 0
  {
    hide Mentions, Queued, Acknowledged, Acks, Count;
    var t, r := Enqueue(s, p, c), l.(history := l.history[p := l.history[p] + [c]]);
    forall m
      ensures Queued(r.history, m) == Queued(l.history, m) + if c.message == m then 1 else 0
      ensures Acknowledged(r, |s.pushers|, m) == Acknowledged(l, |s.pushers|, m)
    {
      QueuedAppend(l.history, p, c, m);
      AcknowledgedIgnoresHistory(l, r.history, |s.pushers|, m);
    }
    if Queued(l.history, c.message) == 0 {
      NeverAcknowledged(s, l, c.message);
    }
    forall q, m | 0 <= q < |s.pushers|
      ensures Acks(r, q, m) == Acks(l, q, m)
    {
      SameAcks(l, r.history, q, m);
    }
  }

  lemma SameAcks(l: Ledger, history: seq<seq<Copy>>, p: nat, m: int)
    ensures Acks(l.(history := history), p, m) == Acks(l, p, m)
  {
  }

  lemma PushedMentions(copies: seq<Copy>, c: Copy, m: int)
    ensures Count(copies, m) <= Count(copies + [c], m)
    ensures Mentions(copies, m) ==> Mentions(copies + [c], m)
  {
    CountSplits(copies, [c], m);
    CountMentions(copies, m);
    CountMentions(copies + [c], m);
  }

  lemma PushKeeps(s: State, l: Ledger, p: nat)
    requires Base(s, l) && p < |s.pushers|
    ensures Base(PushOne(s, p), l)
    ensures Handed(s, l) ==> Handed(PushOne(s, p), l)
    ensures Fair(s, l) ==> Fair(PushOne(s, p), l)
  {
    hide Mentions, Queued, Acknowledged, Acks, Count;
    var q := s.pushers[p];
    if !q.busy && q.ready != [] {
      assert q.pushed + q.ready == (q.pushed + [q.ready[0]]) + q.ready[1..];
      forall m
        ensures Count(q.pushed, m) <= Count(q.pushed + [q.ready[0]], m)
        ensures Mentions(q.pushed, m) ==> Mentions(q.pushed + [q.ready[0]], m)
      {
        PushedMentions(q.pushed, q.ready[0], m);
      }
    }
  }

  lemma CompleteKeeps(s: State, l: Ledger, p: nat)
    requires Base(s, l) && p < |s.pushers|
    ensures Base(CompleteOne(s, p), l)
    ensures Handed(s, l) ==> Handed(CompleteOne(s, p), l)
    ensures Fair(s, l) ==> Fair(CompleteOne(s, p), l)
  {
    hide Mentions, Queued, Acknowledged, Acks, Count;
  }

  /** An acknowledgement is written down, and the last one deletes. */
  lemma AckKeeps(s: State, l: Ledger, p: nat, m: int)
    requires Base(s, l) && p < |s.pushers|
    ensures var t, r := AckOne(s, p, m), Log(s, l, Ack(p, m));
      && Base(t, r) && (Handed(s, l) ==> Handed(t, r))
      && (Fair(s, l) && Honest(s, l, Ack(p, m)) ==> Fair(t, r))
      && (m !in s.deleted && m in t.deleted ==> t.relate[m] == 0)
  {
    hide Queued, Acknowledged, Count;
    var t, r := AckOne(s, p, m), Log(s, l, Ack(p, m));
    if m > 0 && m in s.relate && Mentions(s.pushers[p].pushed, m) {
      HistoryCounts(s, l, p, m);
      QueuedSome(l.history, m, p);
      hide Mentions, Acks;
      forall n | n in s.relate
        ensures Acknowledged(r, |s.pushers|, n) == Acknowledged(l, |s.pushers|, n) + if m == n then 1 else 0
      {
        AcknowledgedUpdate(l, p, m, |s.pushers|, n);
      }
      forall q, n | 0 <= q < |s.pushers|
        ensures Acks(r, q, n) == Acks(l, q, n) + if q == p && n == m then 1 else 0
      {
        AckedOnce(l, p, m, q, n);
      }
      assert t.relate[m] == s.relate[m] - 1;
      assert History(t, r) && Known(t, r);
      assert Balanced(t, r);
      assert Lives(t, r);
      assert Waiting(t, r);
    }
  }

  lemma AckedOnce(l: Ledger, p: nat, m: int, q: nat, n: int)
    ensures Acks(Acked(l, p, m), q, n) == Acks(l, q, n) + if q == p && n == m then 1 else 0
  {
  }

  // ----- commands and runs -----

  lemma {:induction false} EnqueueAllKeeps(s: State, l: Ledger, targets: seq<nat>, c: Copy)
    requires Base(s, l) && c.message in s.using && forall i :: 0 <= i < |targets| ==> targets[i] < |s.pushers|
    ensures c.message in s.relate
    ensures var t, r := EnqueueAll(s, targets, c), LogAll(l, targets, c);
      && Base(t, r) && (Fair(s, l) ==> Fair(t, r))
      && (forall m :: Queued(r.history, m) >= Queued(l.history, m))
      && (targets != [] ==> Queued(r.history, c.message) > 0)
    decreases |targets|
  {
    hide History, Known, Fair, Balanced, Waiting, Enqueue, Queued;
    if targets != [] {
      HistoryShape(s, l);
      EnqueueKeeps(s, l, targets[0], c);
      EnqueueStill(s, targets[0], c);
      var r := l.(history := l.history[targets[0] := l.history[targets[0]] + [c]]);
      EnqueueAllKeeps(Enqueue(s, targets[0], c), r, targets[1..], c);
    }
  }

  lemma HistoryShape(s: State, l: Ledger)
    requires History(s, l)
    ensures |l.history| == |s.pushers|
  {
  }

  lemma EnqueueStill(s: State, p: nat, c: Copy)
    requires p < |s.pushers| && c.message in s.relate
    ensures Enqueue(s, p, c).using == s.using && |Enqueue(s, p, c).pushers| == |s.pushers|
  {
  }

  lemma DispatchTopicKeeps(s: State, l: Ledger, k: nat)
    requires Base(s, l) && k < |s.waiting|
    ensures var t := DispatchTopic(s, k);
      var r := if Dispatches(s, k) then LogAll(l, s.subscribers[k], Copy(s.waiting[k][0], k)) else l;
      Base(t, r) && (Handed(s, l) ==> Handed(t, r)) && (Fair(s, l) ==> Fair(t, r))
  {
    hide History, Known, Fair, Balanced, Lives, Waiting, Queued;
    if Dispatches(s, k) {
      TakeKeeps(s, l, k);
      EnqueueAllKeeps(Take(s, k), l, s.subscribers[k], Copy(s.waiting[k][0], k));
    }
  }

  lemma {:induction false} DispatchKeeps(s: State, l: Ledger, k: nat)
    requires Base(s, l) && |l.history| == |s.pushers| && k <= |s.waiting|
    ensures var t, r := DispatchFrom(s, k), LogDispatch(s, l, k);
      Base(t, r) && (Handed(s, l) ==> Handed(t, r)) && (Fair(s, l) ==> Fair(t, r))
    decreases |s.waiting| - k
  {
    hide Base, Handed, Fair, DispatchTopic, LogAll;
    if k < |s.waiting| {
      BaseShape(s, l);
      DispatchTopicKeeps(s, l, k);
      DispatchKeeps(DispatchTopic(s, k),
        if Dispatches(s, k) then LogAll(l, s.subscribers[k], Copy(s.waiting[k][0], k)) else l, k + 1);
    }
  }

  lemma BaseShape(s: State, l: Ledger)
    requires Base(s, l)
    ensures WellFormed(s) && |l.history| == |s.pushers|
  {
  }

  lemma {:induction false} PushAllKeeps(s: State, l: Ledger, p: nat)
    requires Base(s, l) && p <= |s.pushers|
    ensures var t := PushFrom(s, p);
      Base(t, l) && (Handed(s, l) ==> Handed(t, l)) && (Fair(s, l) ==> Fair(t, l))
    decreases |s.pushers| - p
  {
    hide Base, Handed, Fair;
    if p < |s.pushers| {
      PushKeeps(s, l, p);
      PushAllKeeps(PushOne(s, p), l, p + 1);
    }
  }

  /** What a command keeps whatever the clients do, and what it keeps when they are honest. */
  lemma StepKeeps(s: State, l: Ledger, c: Command)
    requires Base(s, l) && Handed(s, l) && Enabled(s, c)
    ensures WellFormed(s) && |l.history| == |s.pushers|
    ensures Base(Apply(s, c), Log(s, l, c)) && Handed(Apply(s, c), Log(s, l, c))
    ensures Fair(s, l) && Honest(s, l, c) ==> Fair(Apply(s, c), Log(s, l, c))
    ensures forall m :: m !in s.deleted && m in Apply(s, c).deleted ==> m in Apply(s, c).relate && Apply(s, c).relate[m] == 0
  {
    hide Base, Handed, Fair, PublishOne, AckOne, CompleteOne, PushFrom, DispatchFrom, LogDispatch;
    BaseShape(s, l);
    match c
    case Publish(k, m, at) =>
      PublishKeeps(s, l, k, m, at);
      PublishDeletes(s, k, m, at);
    case Dispatch => DispatchKeeps(s, l, 0);
    case PushAll => PushAllKeeps(s, l, 0);
    case Complete(p) =>
      CompleteKeeps(s, l, p);
      CompleteDeletes(s, p);
    case Ack(p, m) =>
      AckKeeps(s, l, p, m);
      AckDeletes(s, p, m);
  }

  lemma PublishDeletes(s: State, k: nat, m: int, at: nat)
    requires Enabled(s, Publish(k, m, at))
    ensures PublishOne(s, k, m, at).deleted == s.deleted
  {
  }

  lemma CompleteDeletes(s: State, p: nat)
    requires p < |s.pushers|
    ensures CompleteOne(s, p).deleted == s.deleted
  {
  }

  lemma AckDeletes(s: State, p: nat, m: int)
    requires p < |s.pushers|
    ensures forall n :: n !in s.deleted && n in AckOne(s, p, m).deleted ==> n == m && n in AckOne(s, p, m).relate
  {
  }

  /** No message yet. */
  ghost predicate Initial(s: State, l: Ledger) {
    && WellFormed(s) && s.relate == map[] && s.using == {} && s.deleted == {}
    && (forall k :: 0 <= k < |s.waiting| ==> s.waiting[k] == [])
    && (forall p :: 0 <= p < |s.pushers| ==> s.pushers[p] == Pusher([], [], false))
    && |l.history| == |s.pushers| && (forall p :: 0 <= p < |l.history| ==> l.history[p] == [])
    && l.acks == map[]
  }

  /** A run: states and ledgers between commands. */
  ghost predicate Run(states: seq<State>, ledgers: seq<Ledger>, commands: seq<Command>) {
    && |states| == |ledgers| == |commands| + 1
    && Initial(states[0], ledgers[0])
    && forall i :: 0 <= i < |commands| ==>
         && WellFormed(states[i]) && |ledgers[i].history| == |states[i].pushers|
         && Enabled(states[i], commands[i])
         && states[i + 1] == Apply(states[i], commands[i])
         && ledgers[i + 1] == Log(states[i], ledgers[i], commands[i])
  }

  /** No client acknowledges a copy twice before state `n`. */
  ghost predicate HonestUntil(states: seq<State>, ledgers: seq<Ledger>, commands: seq<Command>, n: nat)
    requires Run(states, ledgers, commands) && n <= |commands|
  {
    forall i :: 0 <= i < n ==> Honest(states[i], ledgers[i], commands[i])
  }

  lemma InitialInv(s: State, l: Ledger)
    requires Initial(s, l)
    ensures Inv(s, l)
  {
    forall p, m | 0 <= p < |s.pushers|
      ensures Acks(l, p, m) == 0
    {
      assert (p, m) !in l.acks;
    }
  }

  lemma {:induction false} RunKeeps(states: seq<State>, ledgers: seq<Ledger>, commands: seq<Command>, i: nat)
    requires Run(states, ledgers, commands) && i <= |commands|
    ensures Base(states[i], ledgers[i]) && Handed(states[i], ledgers[i])
    ensures HonestUntil(states, ledgers, commands, i) ==> Fair(states[i], ledgers[i])
  {
    hide Base, Handed, Fair, Apply, Log, Honest, Enabled, Initial, WellFormed;
    if i == 0 {
      InitialInv(states[0], ledgers[0]);
      InvParts(states[0], ledgers[0]);
    } else {
      RunKeeps(states, ledgers, commands, i - 1);
      StepKeeps(states[i - 1], ledgers[i - 1], commands[i - 1]);
    }
  }

  lemma InvParts(s: State, l: Ledger)
    requires Inv(s, l)
    ensures Base(s, l) && Handed(s, l) && Fair(s, l)
  {
  }

  // ----- who is owed what -----

  /** Pusher `q` still has to send `m`, or its client to acknowledge it. */
  predicate Owed(s: State, l: Ledger, q: nat, m: int)
    requires q < |s.pushers|
  {
    Mentions(s.pushers[q].ready, m) || Acks(l, q, m) < Count(s.pushers[q].pushed, m)
  }

  predicate SomeOwed(s: State, l: Ledger, m: int) {
    exists q :: 0 <= q < |s.pushers| && Owed(s, l, q, m)
  }

  /** The client of pusher `q` acknowledged more copies of `m` than it was sent. */
  predicate Overdone(s: State, l: Ledger, q: nat, m: int)
    requires q < |s.pushers|
  {
    Acks(l, q, m) > Count(s.pushers[q].pushed, m)
  }

  predicate SomeOverdone(s: State, l: Ledger, m: int) {
    exists q :: 0 <= q < |s.pushers| && Overdone(s, l, q, m)
  }

  /** With nothing left to acknowledge anywhere the totals have met, and one client that acknowledged too
      much puts them past it. */
  lemma {:induction false} QueuedBelowAcknowledged(l: Ledger, n: nat, m: int, p: nat)
    requires n <= |l.history| && forall q :: 0 <= q < n ==> Count(l.history[q], m) <= Acks(l, q, m)
    ensures Queued(l.history[..n], m) <= Acknowledged(l, n, m)
    ensures p < n && Count(l.history[p], m) < Acks(l, p, m) ==> Queued(l.history[..n], m) < Acknowledged(l, n, m)
  {
    if n > 0 {
      QueuedBelowAcknowledged(l, n - 1, m, p);
      assert l.history[..n][..n - 1] == l.history[..n - 1];
    }
  }

  /** Somebody is owed a message whose count is positive. */
  lemma CountedOwed(s: State, l: Ledger, m: int)
    requires Base(s, l) && m in s.relate
    ensures s.relate[m] > 0 ==> SomeOwed(s, l, m)
    ensures s.relate[m] == 0 && SomeOverdone(s, l, m) ==> SomeOwed(s, l, m)
  {
    hide Queued, Acknowledged, Acks, Count, Mentions, Lives, Waiting, Known;
    if !SomeOwed(s, l, m) {
      forall q | 0 <= q < |s.pushers|
        ensures Count(l.history[q], m) == Count(s.pushers[q].pushed, m) <= Acks(l, q, m)
      {
        HistoryCounts(s, l, q, m);
        assert !Owed(s, l, q, m);
      }
      assert l.history[..|s.pushers|] == l.history;
      QueuedBelowAcknowledged(l, |s.pushers|, m, 0);
      if SomeOverdone(s, l, m) {
        var p :| 0 <= p < |s.pushers| && Overdone(s, l, p, m);
        QueuedBelowAcknowledged(l, |s.pushers|, m, p);
      }
    }
  }

  /** Somebody acknowledged too much when a message is owed whose count is down. */
  lemma OwedOverdone(s: State, l: Ledger, m: int)
    requires Base(s, l) && m in s.relate && s.relate[m] <= 0 && SomeOwed(s, l, m)
    ensures SomeOverdone(s, l, m)
  {
    hide Queued, Acknowledged, Acks, Count, Mentions, Lives, Waiting, Known;
    if !SomeOverdone(s, l, m) {
      forall q | 0 <= q < |s.pushers|
        ensures Acks(l, q, m) <= Count(s.pushers[q].pushed, m) <= Count(l.history[q], m)
      {
        HistoryCounts(s, l, q, m);
        assert !Overdone(s, l, q, m);
      }
      assert l.history[..|s.pushers|] == l.history;
      var p :| 0 <= p < |s.pushers| && Owed(s, l, p, m);
      HistoryCounts(s, l, p, m);
      AcknowledgedBelowQueued(l, |s.pushers|, m, p);
    }
  }

  // ----- over whole runs -----

  /** What holds after every run of publishing, dispatching, pushing and acknowledging, whatever the clients
      acknowledge and how often. */
  lemma AnyRun(states: seq<State>, ledgers: seq<Ledger>, commands: seq<Command>, i: nat)
    requires Run(states, ledgers, commands) && i <= |commands|
    // the count of a message is its copies queued less its acknowledgements
    ensures var s, l := states[i], ledgers[i];
      forall m <- s.relate :: s.relate[m] == Queued(l.history, m) - Acknowledged(l, |s.pushers|, m)
    // it is deleted exactly when it had copies and there were as many acknowledgements
    ensures var s, l := states[i], ledgers[i];
      forall m <- s.relate ::
        m in s.deleted <==> Queued(l.history, m) > 0 && Queued(l.history, m) <= Acknowledged(l, |s.pushers|, m)
    // one in use has a copy that is still to be pushed or acknowledged
    ensures forall m <- states[i].using :: SomeOwed(states[i], ledgers[i], m)
    // what a pusher pushed and what it has ready are its history, in order
    ensures var s, l := states[i], ledgers[i];
      |l.history| == |s.pushers| &&
      forall p :: 0 <= p < |s.pushers| ==> l.history[p] == s.pushers[p].pushed + s.pushers[p].ready
  {
    hide Queued, Acknowledged, Acks, Count, Apply, Log, Honest, Enabled, Initial, SomeOwed, Known, Waiting;
    RunKeeps(states, ledgers, commands, i);
    var s, l := states[i], ledgers[i];
    forall m | m in s.using
      ensures SomeOwed(s, l, m)
    {
      CountedOwed(s, l, m);
    }
  }

  /** And as long as every client acknowledges each copy at most once: a message is deleted exactly when the
      last of its copies is acknowledged, and in use exactly while somebody is owed it. */
  lemma EveryRun(states: seq<State>, ledgers: seq<Ledger>, commands: seq<Command>, i: nat)
    requires Run(states, ledgers, commands) && i <= |commands| && HonestUntil(states, ledgers, commands, i)
    ensures var s, l := states[i], ledgers[i];
      forall m <- s.relate :: s.relate[m] == Queued(l.history, m) - Acknowledged(l, |s.pushers|, m) >= 0
    ensures var s, l := states[i], ledgers[i];
      forall m <- s.relate ::
        m in s.deleted <==> Queued(l.history, m) > 0 && Queued(l.history, m) == Acknowledged(l, |s.pushers|, m)
    ensures forall m <- states[i].relate :: m in states[i].using <==> SomeOwed(states[i], ledgers[i], m)
    // so nothing waits to be pushed for a deleted message
    ensures var s := states[i];
      forall p, j :: 0 <= p < |s.pushers| && 0 <= j < |s.pushers[p].ready| ==>
        s.pushers[p].ready[j].message !in s.deleted
    ensures var s, l := states[i], ledgers[i];
      |l.history| == |s.pushers| &&
      forall p :: 0 <= p < |s.pushers| ==> l.history[p] == s.pushers[p].pushed + s.pushers[p].ready
  {
    hide Queued, Acknowledged, Acks, Count, Apply, Log, Honest, Enabled, Initial, SomeOwed, Known, Waiting, HonestUntil,
         WellFormed;
    RunKeeps(states, ledgers, commands, i);
    var s, l := states[i], ledgers[i];
    forall m
      ensures !SomeOverdone(s, l, m)
    {
      NoneOverdone(s, l, m);
    }
    forall m | m in s.relate
      ensures Acknowledged(l, |s.pushers|, m) <= Queued(l.history, m)
    {
      Bound(s, l, m);
    }
    forall m | m in s.relate
      ensures m in s.using <==> SomeOwed(s, l, m)
    {
      CountedOwed(s, l, m);
      if SomeOwed(s, l, m) {
        OwedQueued(s, l, m);
        if s.relate[m] <= 0 {
          OwedOverdone(s, l, m);
        }
      }
    }
    forall p, j | 0 <= p < |s.pushers| && 0 <= j < |s.pushers[p].ready|
      ensures s.pushers[p].ready[j].message !in s.deleted
    {
      var m := s.pushers[p].ready[j].message;
      assert l.history[p][|s.pushers[p].pushed| + j].message == m;
      ReadyOwed(s, l, p, j);
    }
  }

  lemma ReadyOwed(s: State, l: Ledger, p: nat, j: nat)
    requires p < |s.pushers| && j < |s.pushers[p].ready|
    ensures SomeOwed(s, l, s.pushers[p].ready[j].message)
  {
    assert Mentions(s.pushers[p].ready, s.pushers[p].ready[j].message);
    assert Owed(s, l, p, s.pushers[p].ready[j].message);
  }

  lemma OwedQueued(s: State, l: Ledger, m: int)
    requires Base(s, l) && SomeOwed(s, l, m)
    ensures Queued(l.history, m) > 0
  {
    hide Queued, Count, Mentions, Acks;
    var q :| 0 <= q < |s.pushers| && Owed(s, l, q, m);
    HistoryCounts(s, l, q, m);
    QueuedSome(l.history, m, q);
  }

  lemma NoneOverdone(s: State, l: Ledger, m: int)
    requires Fair(s, l)
    ensures !SomeOverdone(s, l, m)
  {
    hide Acks, Count;
  }

  lemma Bound(s: State, l: Ledger, m: int)
    requires History(s, l) && Fair(s, l)
    ensures Acknowledged(l, |s.pushers|, m) <= Queued(l.history, m)
  {
    hide Queued, Acknowledged, Acks, Count, Mentions;
    forall q | 0 <= q < |s.pushers|
      ensures Acks(l, q, m) <= Count(l.history[q], m)
    {
      HistoryCounts(s, l, q, m);
      assert Acks(l, q, m) <= Count(s.pushers[q].pushed, m);
    }
    AcknowledgedBelowQueued(l, |s.pushers|, m, 0);
    assert l.history[..|s.pushers|] == l.history;
  }

  // ----- exactly when a message goes too soon -----

  /** In every run, whatever the clients do: the acknowledgement that deletes a message leaves somebody who
      is owed it exactly when some client has acknowledged more copies of it than it was sent. */
  lemma TooSoon(states: seq<State>, ledgers: seq<Ledger>, commands: seq<Command>, i: nat, m: int)
    requires Run(states, ledgers, commands) && i < |commands|
    requires m !in states[i].deleted && m in states[i + 1].deleted
    ensures SomeOwed(states[i + 1], ledgers[i + 1], m) <==> SomeOverdone(states[i + 1], ledgers[i + 1], m)
  {
    hide Base, Handed, Fair, Apply, Log, Honest, Enabled, Initial, SomeOwed, SomeOverdone, WellFormed;
    RunKeeps(states, ledgers, commands, i);
    StepKeeps(states[i], ledgers[i], commands[i]);
    var s, l := states[i + 1], ledgers[i + 1];
    CountedOwed(s, l, m);
    if SomeOwed(s, l, m) {
      OwedOverdone(s, l, m);
    }
  }

  /** After honest clients: one acknowledgement makes a message both deleted and owed exactly when its count
      was one and the client had acknowledged all it was sent of it already. */
  lemma OneAckTooMany(s: State, l: Ledger, p: nat, m: int)
    requires Inv(s, l) && p < |s.pushers|
    ensures var t, r := AckOne(s, p, m), Log(s, l, Ack(p, m));
      m in t.deleted && SomeOwed(t, r, m) <==>
      && m in s.relate && s.relate[m] == 1 && Mentions(s.pushers[p].pushed, m)
      && !Honest(s, l, Ack(p, m))
  {
    hide Queued, Acknowledged, Count, Mentions, SomeOwed, Waiting;
    var t, r := AckOne(s, p, m), Log(s, l, Ack(p, m));
    AckKeeps(s, l, p, m);
    NoneOverdone(s, l, m);
    if m in s.deleted {
      Bound(s, l, m);
      if SomeOwed(t, r, m) {
        StillOwed(s, l, p, m);
        OwedOverdone(s, l, m);
      }
    } else if m in t.deleted {
      CountedOwed(t, r, m);
      OneOverdone(s, l, p, m);
      if SomeOwed(t, r, m) {
        OwedOverdone(t, r, m);
      }
    }
  }

  /** An acknowledgement leaves nobody owed who was not. */
  lemma StillOwed(s: State, l: Ledger, p: nat, m: int)
    requires WellFormed(s) && |l.history| == |s.pushers| && p < |s.pushers|
    requires SomeOwed(AckOne(s, p, m), Log(s, l, Ack(p, m)), m)
    ensures SomeOwed(s, l, m)
  {
    hide Count, Mentions;
    var t, r := AckOne(s, p, m), Log(s, l, Ack(p, m));
    var q :| 0 <= q < |t.pushers| && Owed(t, r, q, m);
    AckedOnce(l, p, m, q, m);
    assert Owed(s, l, q, m);
  }

  /** Only the client that acknowledges can have acknowledged too much by it. */
  lemma OneOverdone(s: State, l: Ledger, p: nat, m: int)
    requires Fair(s, l) && p < |s.pushers| && m > 0 && m in s.relate && Mentions(s.pushers[p].pushed, m)
    ensures SomeOverdone(AckOne(s, p, m), Acked(l, p, m), m) <==> !Honest(s, l, Ack(p, m))
  {
    hide Count, Mentions, Acks;
    var t, r := AckOne(s, p, m), Acked(l, p, m);
    forall q | 0 <= q < |s.pushers|
      ensures Acks(r, q, m) == Acks(l, q, m) + if q == p then 1 else 0
      ensures Acks(l, q, m) <= Count(s.pushers[q].pushed, m)
    {
      AckedOnce(l, p, m, q, m);
    }
    if Overdone(t, r, p, m) {
      assert SomeOverdone(t, r, m);
    }
  }

  // ----- without honesty -----

  /** One topic and two pushers subscribed to it. */
  function Pair(waiting: seq<int>, p: Pusher, q: Pusher, relate: map<int, int>, using: set<int>, deleted: set<int>):
    State
  {
    State([waiting], [[0, 1]], [p, q], relate, using, deleted)
  }

  predicate Leads(s: State, c: Command, t: State) {
    WellFormed(s) && Enabled(s, c) && t == Apply(s, c)
  }

  lemma DispatchBoth(m: int, p: Pusher, q: Pusher, relate: map<int, int>, using: set<int>, deleted: set<int>)
    requires m in relate && relate[m] == 0
    ensures var s, c := Pair([m], p, q, relate, using, deleted), Copy(m, 0);
      Leads(s, Dispatch, Pair([], p.(ready := p.ready + [c]), q.(ready := q.ready + [c]), relate[m := 2],
                              using + {m}, deleted))
  {
    var s, c := Pair([m], p, q, relate, using, deleted), Copy(m, 0);
    var t := Take(s, 0);
    assert [m][1..] == [] && t.waiting == [[]] && [0, 1][1..] == [1] && [1][1..] == [];
    var e := Enqueue(t, 0, c);
    assert e.pushers == [p.(ready := p.ready + [c]), q];
    assert EnqueueAll(t, [0, 1], c) == EnqueueAll(e, [1], c) == EnqueueAll(Enqueue(e, 1, c), [], c);
    assert Enqueue(e, 1, c).pushers == [p.(ready := p.ready + [c]), q.(ready := q.ready + [c])];
    assert relate[m := 1][m := 2] == relate[m := 2];
    assert DispatchFrom(s, 0) == DispatchFrom(DispatchTopic(s, 0), 1);
  }

  lemma PushBoth(p: Pusher, q: Pusher, relate: map<int, int>, using: set<int>, deleted: set<int>)
    ensures var s := Pair([], p, q, relate, using, deleted);
      Leads(s, PushAll, Pair([], Pushed(p), Pushed(q), relate, using, deleted))
  {
    var s := Pair([], p, q, relate, using, deleted);
    var t := PushOne(s, 0);
    assert t.pushers == [Pushed(p), q];
    assert PushOne(t, 1).pushers == [Pushed(p), Pushed(q)];
    assert PushFrom(s, 0) == PushFrom(t, 1) == PushFrom(PushOne(t, 1), 2);
  }

  function Pushed(p: Pusher): Pusher {
    if p.busy || p.ready == [] then p else Pusher(p.ready[1..], p.pushed + [p.ready[0]], true)
  }

  lemma PublishTo(m: int, p: Pusher, q: Pusher, relate: map<int, int>, using: set<int>, deleted: set<int>)
    requires m > 0 && m !in relate
    ensures var s, c := Pair([], p, q, relate, using, deleted), Publish(0, m, 0);
      Leads(s, c, Pair([m], p, q, relate[m := 0], using, deleted))
  {
    var s := Pair([], p, q, relate, using, deleted);
    var none: seq<int> := [];
    assert none[..0] + [m] + none[0..] == [m];
    assert PublishOne(s, 0, m, 0).waiting == [[m]];
  }

  lemma AckFirst(m: int, p: Pusher, q: Pusher, relate: map<int, int>, using: set<int>, deleted: set<int>)
    requires m > 0 && m in relate && Mentions(p.pushed, m) && m in using
    ensures var s, c := Pair([], p, q, relate, using, deleted), Ack(0, m);
      Leads(s, c, if relate[m] > 1
                  then Pair([], p, q, relate[m := relate[m] - 1], using, deleted)
                  else Pair([], p, q, relate[m := relate[m] - 1], using - {m}, deleted + {m}))
  {
  }

  /** And it happens, from the start: two messages go out to two pushers, the second of which is
      still sending the first message; the client of the other acknowledges its copy of the second message
      twice, and the message is deleted while a copy of it waits to be pushed. */
  lemma AckedTwice() returns (states: seq<State>, commands: seq<Command>)
    ensures commands == [Publish(0, 6, 0), Dispatch, PushAll, Complete(0), Publish(0, 7, 0), Dispatch, PushAll, Ack(0, 7),
                         Ack(0, 7)]
    ensures |states| == |commands| + 1 && Initial(states[0], Ledger([[], []], map[]))
    ensures forall i :: 0 <= i < |commands| ==> Leads(states[i], commands[i], states[i + 1])
    ensures 7 in states[9].deleted && |states[9].pushers| == 2 && states[9].pushers[1].ready == [Copy(7, 0)]
  {
    hide Leads, Pair, Initial;
    var six, seven, none := Copy(6, 0), Copy(7, 0), Pusher([], [], false);
    var queued, got, sending := Pusher([six], [], false), Pusher([], [six], false), Pusher([], [six], true);
    var next, both, behind := Pusher([seven], [six], false), Pusher([], [six, seven], true), Pusher([seven], [six], true);
    var r1, r3: map<int, int> := map[6 := 0], map[6 := 0][6 := 2][7 := 0];
    var r2, r4, r5 := r1[6 := 2], r3[7 := 2], r3[7 := 2][7 := 1];
    var u1: set<int>, d1: set<int> := {} + {6}, {} + {7};
    var u2 := u1 + {7};
    PublishTo(6, none, none, map[], {}, {});
    DispatchBoth(6, none, none, r1, {}, {});
    assert none.ready + [six] == [six] && none.ready + [seven] == [seven];
    PushBoth(queued, queued, r2, u1, {});
    assert Pushed(queued) == sending;
    CompleteFirst(sending, sending, r2, u1, {});
    PublishTo(7, got, sending, r2, u1, {});
    DispatchBoth(7, got, sending, r3, u1, {});
    PushBoth(next, behind, r4, u2, {});
    assert Pushed(next) == both && Pushed(behind) == behind;
    assert both.pushed[1].message == 7;
    AckFirst(7, both, behind, r4, u2, {});
    AckFirst(7, both, behind, r5, u2, {});
    StartsEmpty();
    PairHas([], both, behind, r5[7 := 0], u2 - {7}, d1);
    commands := [Publish(0, 6, 0), Dispatch, PushAll, Complete(0), Publish(0, 7, 0), Dispatch, PushAll, Ack(0, 7),
                 Ack(0, 7)];
    states := [Pair([], none, none, map[], {}, {}), Pair([6], none, none, r1, {}, {}),
               Pair([], queued, queued, r2, u1, {}), Pair([], sending, sending, r2, u1, {}),
               Pair([], got, sending, r2, u1, {}), Pair([7], got, sending, r3, u1, {}),
               Pair([], next, behind, r4, u2, {}), Pair([], both, behind, r4, u2, {}),
               Pair([], both, behind, r5, u2, {}), Pair([], both, behind, r5[7 := 0], u2 - {7}, d1)];
  }

  lemma PairHas(waiting: seq<int>, p: Pusher, q: Pusher, relate: map<int, int>, using: set<int>, deleted: set<int>)
    ensures var s := Pair(waiting, p, q, relate, using, deleted);
      s.deleted == deleted && |s.pushers| == 2 && s.pushers[1] == q
  {
  }

  lemma StartsEmpty()
    ensures Initial(Pair([], Pusher([], [], false), Pusher([], [], false), map[], {}, {}), Ledger([[], []], map[]))
  {
  }

  lemma CompleteFirst(p: Pusher, q: Pusher, relate: map<int, int>, using: set<int>, deleted: set<int>)
    ensures var s := Pair([], p, q, relate, using, deleted);
      Leads(s, Complete(0), Pair([], p.(busy := false), q, relate, using, deleted))
  {
  }
}
