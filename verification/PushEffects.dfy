/** What each command of the push server does to its lists, field by field (app_queue/push.c,
    app_queue/subscribe.c). */
module PushEffects {
  import opened PushModel

  /** How often a pusher is listed: once for each subscription that pushes through it. */
  function Listed(targets: seq<nat>, p: nat): (n: nat)
    ensures n <= |targets|
  {
    if targets == [] then 0 else (if targets[0] == p then 1 else 0) + Listed(targets[1..], p)
  }

  function Copies(c: Copy, n: nat): (copies: seq<Copy>)
    ensures |copies| == n
  {
    seq(n, _ => c)
  }

  /** What the first `n` topics hand to pusher `p`: for each topic with subscribers and a waiting message, in
      order, its first message once for each time `p` is listed. */
  function Handed(s: State, p: nat, n: nat): seq<Copy>
    requires n <= |s.waiting| == |s.subscribers|
  {
    if n == 0 then [] else
      Handed(s, p, n - 1) +
      if s.subscribers[n - 1] != [] && s.waiting[n - 1] != []
      then Copies(Copy(s.waiting[n - 1][0], n - 1), Listed(s.subscribers[n - 1], p)) else []
  }

  /** How many copies of `m` the first `n` topics hand out. */
  function Raised(s: State, m: int, n: nat): nat
    requires n <= |s.waiting| == |s.subscribers|
  {
    if n == 0 then 0 else
      Raised(s, m, n - 1) +
      if s.waiting[n - 1] != [] && s.waiting[n - 1][0] == m then |s.subscribers[n - 1]| else 0
  }

  /** From `s` to `t` the first `n` topics have been served. */
  ghost predicate Served(s: State, t: State, n: nat)
    requires WellFormed(s) && n <= |s.waiting|
  {
    && t.subscribers == s.subscribers && t.deleted == s.deleted
    && |t.waiting| == |s.waiting|
    && (forall k {:trigger t.waiting[k]} :: 0 <= k < |s.waiting| ==>
          t.waiting[k] == if k < n && s.subscribers[k] != [] && s.waiting[k] != [] then s.waiting[k][1..] else s.waiting[k])
    && (forall m :: m in t.using <==>
          m in s.using || exists k :: 0 <= k < n && s.subscribers[k] != [] && s.waiting[k] != [] && s.waiting[k][0] == m)
    && t.relate.Keys == s.relate.Keys
    && (forall m :: m in s.relate ==> t.relate[m] == s.relate[m] + Raised(s, m, n))
    && |t.pushers| == |s.pushers|
    && forall p :: 0 <= p < |s.pushers| ==>
         t.pushers[p] == Pusher(s.pushers[p].ready + Handed(s, p, n), s.pushers[p].pushed, s.pushers[p].busy)
  }

  /** A message goes to every subscriber of the list, in order. */
  lemma {:induction false} EnqueueAllEffect(s: State, targets: seq<nat>, c: Copy)
    requires c.message in s.relate && forall i :: 0 <= i < |targets| ==> targets[i] < |s.pushers|
    ensures var t := EnqueueAll(s, targets, c);
      && t == s.(pushers := t.pushers, relate := s.relate[c.message := s.relate[c.message] + |targets|])
      && |t.pushers| == |s.pushers|
      && forall p :: 0 <= p < |s.pushers| ==>
           t.pushers[p] == s.pushers[p].(ready := s.pushers[p].ready + Copies(c, Listed(targets, p)))
    decreases |targets|
  {
    if targets == [] {
      forall p | 0 <= p < |s.pushers|
        ensures s.pushers[p].ready + Copies(c, 0) == s.pushers[p].ready
      {
      }
      assert s.relate[c.message := s.relate[c.message]] == s.relate;
    } else {
      var u := Enqueue(s, targets[0], c);
      EnqueueAllEffect(u, targets[1..], c);
      forall p | 0 <= p < |s.pushers|
        ensures s.pushers[p].ready + Copies(c, Listed(targets, p)) == u.pushers[p].ready + Copies(c, Listed(targets[1..], p))
      {
        if p == targets[0] {
          assert [c] + Copies(c, Listed(targets[1..], p)) == Copies(c, Listed(targets, p));
        }
      }
    }
  }

  lemma ServeOne(s: State, t: State, n: nat)
    requires WellFormed(s) && n < |s.waiting| && Served(s, t, n) && WellFormed(t)
    ensures Served(s, DispatchTopic(t, n), n + 1)
  {
    hide EnqueueAll, Listed, Copies;
    if t.subscribers[n] != [] && t.waiting[n] != [] {
      EnqueueAllEffect(Take(t, n), t.subscribers[n], Copy(t.waiting[n][0], n));
    }
  }

  lemma {:induction false} ServeFrom(s: State, t: State, n: nat)
    requires WellFormed(s) && n <= |s.waiting| && Served(s, t, n) && WellFormed(t)
    ensures Served(s, DispatchFrom(t, n), |s.waiting|)
    decreases |s.waiting| - n
  {
    hide Served, DispatchTopic;
    ServedShape(s, t, n);
    if n < |s.waiting| {
      ServeOne(s, t, n);
      ServeFrom(s, DispatchTopic(t, n), n + 1);
    }
  }

  lemma ServedShape(s: State, t: State, n: nat)
    requires WellFormed(s) && n <= |s.waiting| && Served(s, t, n)
    ensures |t.waiting| == |s.waiting|
  {
  }

  lemma NoneServed(s: State)
    requires WellFormed(s)
    ensures Served(s, s, 0)
  {
    forall p | 0 <= p < |s.pushers|
      ensures s.pushers[p].ready + Handed(s, p, 0) == s.pushers[p].ready
    {
    }
  }

  /** One dispatch: every topic with subscribers and a waiting message hands out its first, to each of them, and
      nothing else changes. */
  lemma DispatchEffect(s: State)
    requires WellFormed(s)
    ensures var t := Apply(s, Dispatch);
      && t.subscribers == s.subscribers && t.deleted == s.deleted && |t.waiting| == |s.waiting|
      && (forall k {:trigger t.waiting[k]} :: 0 <= k < |s.waiting| ==>
            t.waiting[k] == if s.subscribers[k] != [] && s.waiting[k] != [] then s.waiting[k][1..] else s.waiting[k])
      && (forall m :: m in t.using <==>
            m in s.using ||
            exists k :: 0 <= k < |s.waiting| && s.subscribers[k] != [] && s.waiting[k] != [] && s.waiting[k][0] == m)
      && t.relate.Keys == s.relate.Keys
      && (forall m :: m in s.relate ==> t.relate[m] == s.relate[m] + Raised(s, m, |s.waiting|))
      && |t.pushers| == |s.pushers|
      && forall p :: 0 <= p < |s.pushers| ==>
           t.pushers[p] ==
           Pusher(s.pushers[p].ready + Handed(s, p, |s.waiting|), s.pushers[p].pushed, s.pushers[p].busy)
  {
    hide DispatchFrom, Handed, Raised;
    NoneServed(s);
    ServeFrom(s, s, 0);
  }

  // ----- the count of a message handed out -----

  lemma {:induction false} RaisedAlone(s: State, k: nat, n: nat)
    requires k < |s.waiting| == |s.subscribers| && n <= |s.waiting| && s.waiting[k] != []
    requires forall j :: 0 <= j < |s.waiting| && j != k && s.waiting[j] != [] ==> s.waiting[j][0] != s.waiting[k][0]
    ensures Raised(s, s.waiting[k][0], n) == if k < n then |s.subscribers[k]| else 0
  {
    if n > 0 {
      RaisedAlone(s, k, n - 1);
    }
  }

  /** In every state of a run, a message that is handed out counts one for each subscription of its topic. */
  lemma HandedOutCount(s: State, l: Ledger, k: nat)
    requires Base(s, l) && k < |s.waiting| && s.waiting[k] != [] && s.subscribers[k] != []
    ensures s.waiting[k][0] in Apply(s, Dispatch).relate
    ensures Apply(s, Dispatch).relate[s.waiting[k][0]] == |s.subscribers[k]|
  {
    hide Apply, Raised, Queued, Acknowledged, Acks, Count, Mentions;
    var m := s.waiting[k][0];
    NeverAcknowledged(s, l, m);
    DispatchEffect(s);
    RaisedAlone(s, k, |s.waiting|);
  }

  /** The `n`th state of repeated dispatching. */
  function Dispatched(s: State, n: nat): (t: State)
    requires WellFormed(s)
    ensures WellFormed(t)
  {
    if n == 0 then s else Apply(Dispatched(s, n - 1), Dispatch)
  }

  /** No topic is passed over: a topic with subscribers hands out one message a dispatch, in order, until none
      is waiting; one without keeps them all. */
  lemma {:induction false} NobodyPassedOver(s: State, n: nat, k: nat)
    requires WellFormed(s) && k < |s.waiting|
    ensures var t := Dispatched(s, n);
      && |t.waiting| == |s.waiting| && t.subscribers == s.subscribers
      && t.waiting[k] ==
         if s.subscribers[k] == [] then s.waiting[k]
         else if n <= |s.waiting[k]| then s.waiting[k][n..] else []
  {
    hide Apply;
    if n > 0 {
      NobodyPassedOver(s, n - 1, k);
      DispatchEffect(Dispatched(s, n - 1));
    }
  }

  // ----- the other commands -----

  lemma PushOneEffect(s: State, p: nat)
    requires p < |s.pushers|
    ensures PushOne(s, p) == s.(pushers := s.pushers[p :=
      var q := s.pushers[p];
      if q.busy || q.ready == [] then q else Pusher(q.ready[1..], q.pushed + [q.ready[0]], true)])
  {
    assert s.pushers[p := s.pushers[p]] == s.pushers;
  }

  lemma {:induction false} PushFromEffect(s: State, n: nat)
    requires n <= |s.pushers|
    ensures var t := PushFrom(s, n);
      && t == s.(pushers := t.pushers) && |t.pushers| == |s.pushers|
      && forall p :: 0 <= p < |s.pushers| ==>
           var q := s.pushers[p];
           t.pushers[p] == if p < n || q.busy || q.ready == [] then q
                           else Pusher(q.ready[1..], q.pushed + [q.ready[0]], true)
    decreases |s.pushers| - n
  {
    hide PushOne;
    if n < |s.pushers| {
      PushOneEffect(s, n);
      PushFromEffect(PushOne(s, n), n + 1);
    }
  }

  /** Every pusher that is not busy and has something ready sends its first copy; nothing else changes. */
  lemma PushAllEffect(s: State)
    requires WellFormed(s)
    ensures var t := Apply(s, PushAll);
      && t == s.(pushers := t.pushers) && |t.pushers| == |s.pushers|
      && forall p :: 0 <= p < |s.pushers| ==>
           var q := s.pushers[p];
           t.pushers[p] == if q.busy || q.ready == [] then q else Pusher(q.ready[1..], q.pushed + [q.ready[0]], true)
  {
    hide PushFrom;
    PushFromEffect(s, 0);
  }

  /** An acknowledgement counts when the message was pushed to that client; at zero the message, if it is still
      in use, is deleted. */
  lemma AckEffect(s: State, p: nat, m: int)
    requires WellFormed(s) && p < |s.pushers|
    ensures var t := Apply(s, Ack(p, m));
      && t.waiting == s.waiting && t.subscribers == s.subscribers && t.pushers == s.pushers
      && if m > 0 && m in s.relate && exists i :: 0 <= i < |s.pushers[p].pushed| && s.pushers[p].pushed[i].message == m
         then
           && t.relate == s.relate[m := s.relate[m] - 1]
           && (if s.relate[m] <= 1 && m in s.using
               then t.using == s.using - {m} && t.deleted == s.deleted + {m}
               else t.using == s.using && t.deleted == s.deleted)
         else t == s
  {
  }

  /** Publishing puts the message in its place with a count of nothing; completing frees the pusher. */
  lemma PublishAndComplete(s: State, k: nat, m: int, at: nat, p: nat)
    requires WellFormed(s)
    ensures Enabled(s, Publish(k, m, at)) ==>
      var t := Apply(s, Publish(k, m, at));
      && t == s.(waiting := t.waiting, relate := s.relate[m := 0])
      && |t.waiting| == |s.waiting| && (forall j :: 0 <= j < |s.waiting| && j != k ==> t.waiting[j] == s.waiting[j])
      && |t.waiting[k]| == |s.waiting[k]| + 1 && t.waiting[k][at] == m
      && t.waiting[k][..at] == s.waiting[k][..at] && t.waiting[k][at + 1..] == s.waiting[k][at..]
    ensures p < |s.pushers| ==>
      var t := Apply(s, Complete(p));
      && t == s.(pushers := t.pushers) && |t.pushers| == |s.pushers|
      && (forall q :: 0 <= q < |s.pushers| && q != p ==> t.pushers[q] == s.pushers[q])
      && t.pushers[p] == Pusher(s.pushers[p].ready, s.pushers[p].pushed, false)
  {
  }
}
