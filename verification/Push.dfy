/** The push server and the dispatching side of the subscribe server (app_queue/push.c,
    app_queue/subscribe.c) as an object: lists are sequences that its methods reassign. */
module Pushes {
  import opened PushModel
  import PushEffects
  import opened Text

  datatype Result = Success | ParamError | MessageNotFound

  class PushServer {
    var waiting: seq<seq<int>>
    var subscribers: seq<seq<nat>>
    var pushers: seq<Pusher>
    var relate: map<int, int>
    var using: set<int>
    var deleted: set<int>

    ghost function View(): State
      reads this
    {
      State(waiting, subscribers, pushers, relate, using, deleted)
    }

    constructor (subscribers: seq<seq<nat>>, pushers: nat)
      requires forall k, i :: 0 <= k < |subscribers| && 0 <= i < |subscribers[k]| ==> subscribers[k][i] < pushers
      ensures WellFormed(View())
      ensures Initial(View(), Ledger(seq(pushers, _ => []), map[]))
    {
      this.subscribers := subscribers;
      waiting := seq(|subscribers|, _ => []);
      this.pushers := seq(pushers, _ => Pusher([], [], false));
      relate, using, deleted := map[], {}, {};
    }

    method PublishMessage(topic: nat, message: int, at: nat)
      requires topic < |waiting| && at <= |waiting[topic]|
      modifies this
      ensures View() == PublishOne(old(View()), topic, message, at)
    {
      waiting := waiting[topic := waiting[topic][..at] + [message] + waiting[topic][at..]];
      relate := relate[message := 0];
    }

    method GetReadyMessage(topic: nat) returns (found: bool, message: int)
      requires topic < |waiting|
      modifies this
      ensures found <==> old(waiting[topic]) != []
      ensures found ==> message == old(waiting[topic])[0] && View() == Take(old(View()), topic)
      ensures !found ==> View() == old(View())
    {
      if waiting[topic] == [] {
        return false, 0;
      }
      found, message := true, waiting[topic][0];
      waiting := waiting[topic := waiting[topic][1..]];
      using := using + {message};
    }

    method AddMessageToPusher(p: nat, c: Copy)
      requires p < |pushers|
      modifies `pushers
      ensures pushers == old(pushers)[p := old(pushers)[p].(ready := old(pushers)[p].ready + [c])]
    {
      pushers := pushers[p := pushers[p].(ready := pushers[p].ready + [c])];
    }

    method PushMessageToSubscribeList(targets: seq<nat>, message: int, topic: nat)
      requires message in relate && forall i :: 0 <= i < |targets| ==> targets[i] < |pushers|
      modifies this
      ensures View() == EnqueueAll(old(View()), targets, Copy(message, topic))
    {
      ghost var c := Copy(message, topic);
      var i := 0;
      while i < |targets|
        invariant i <= |targets| && |pushers| == |old(pushers)| && message in relate
        invariant EnqueueAll(View(), targets[i..], c) == EnqueueAll(old(View()), targets, c)
      {
        ghost var before := View();
        AddMessageToPusher(targets[i], Copy(message, topic));
        relate := relate[message := relate[message] + 1];
        assert View() == Enqueue(before, targets[i], c);
        assert targets[i..][0] == targets[i] && targets[i..][1..] == targets[i + 1..];
        i := i + 1;
      }
    }

    /** Every topic that has subscribers, and so an entry, and a ready message hands one out, to all of them. */
    method ProcessSubscribeTopic()
      requires WellFormed(View())
      modifies this
      ensures WellFormed(View()) && View() == DispatchFrom(old(View()), 0)
      ensures |waiting| == |old(waiting)| && |pushers| == |old(pushers)| && subscribers == old(subscribers)
      ensures forall k {:trigger waiting[k]} :: 0 <= k < |waiting| ==>
        waiting[k] == if subscribers[k] != [] && old(waiting)[k] != [] then old(waiting)[k][1..] else old(waiting)[k]
      ensures forall p :: 0 <= p < |pushers| ==>
        pushers[p].ready == old(pushers)[p].ready + PushEffects.Handed(old(View()), p, |waiting|)
    {
      hide PushEffects.Handed, PushEffects.Listed, EnqueueAll;
      var k := 0;
      while k < |waiting|
        invariant WellFormed(View()) && k <= |waiting|
        invariant DispatchFrom(View(), k) == DispatchFrom(old(View()), 0)
        decreases |waiting| - k
      {
        ghost var before := View();
        if subscribers[k] != [] {
          var found, message := GetReadyMessage(k);
          if found {
            PushMessageToSubscribeList(subscribers[k], message, k);
          }
        }
        assert View() == DispatchTopic(before, k);
        k := k + 1;
      }
      PushEffects.DispatchEffect(old(View()));
    }

    /** Sends the first ready message, unless something is still being sent. */
    method PushToTarget(p: nat)
      requires p < |pushers|
      modifies `pushers
      ensures View() == PushOne(old(View()), p)
    {
      var q := pushers[p];
      if !q.busy {
        if q.ready != [] {
          var c := q.ready[0];
          q := q.(ready := q.ready[1..]);
          q := q.(busy := true);
          q := q.(pushed := q.pushed + [c]);
          pushers := pushers[p := q];
        }
      }
    }

    method ProcessPush()
      modifies `pushers
      ensures View() == PushFrom(old(View()), 0)
    {
      var p := 0;
      while p < |pushers|
        invariant p <= |pushers|
        invariant PushFrom(View(), p) == PushFrom(old(View()), 0)
        decreases |pushers| - p
      {
        PushToTarget(p);
        p := p + 1;
      }
    }

    method SendComplete(p: nat)
      requires p < |pushers|
      modifies `pushers
      ensures View() == CompleteOne(old(View()), p)
    {
      pushers := pushers[p := pushers[p].(busy := false)];
    }

    method IsPushed(p: nat, message: int) returns (found: bool)
      requires p < |pushers|
      ensures found == Mentions(pushers[p].pushed, message)
    {
      var i := 0;
      while i < |pushers[p].pushed|
        invariant i <= |pushers[p].pushed|
        invariant forall j :: 0 <= j < i ==> pushers[p].pushed[j].message != message
      {
        if pushers[p].pushed[i].message == message {
          return true;
        }
        i := i + 1;
      }
      found := false;
    }

    method DelMessage(message: int)
      modifies `using, `deleted
      ensures View() == Delete(old(View()), message)
    {
      if message in using {
        using := using - {message};
        deleted := deleted + {message};
      }
    }

    /** The answer is success only for the acknowledgement that deletes the message. The copy stays in
        the pushed list. */
    method PushMessageReceived(p: nat, message: int, topicName: string) returns (result: Result)
      requires p < |pushers| && forall i :: 0 <= i < |pushers[p].pushed| ==> pushers[p].pushed[i].message in relate
      modifies this
      ensures message <= 0 || IsBlank(topicName) ==> result == ParamError && View() == old(View())
      ensures message > 0 && !IsBlank(topicName) ==>
        && View() == AckOne(old(View()), p, message)
        && result == if Mentions(old(pushers)[p].pushed, message) && relate[message] <= 0 then Success else MessageNotFound
    {
      if message <= 0 || IsBlank(topicName) {
        return ParamError;
      }
      if pushers[p].pushed != [] {
        var found := IsPushed(p, message);
        if found {
          relate := relate[message := relate[message] - 1];
          if relate[message] <= 0 {
            DelMessage(message);
            return Success;
          }
        }
      }
      result := MessageNotFound;
    }
  }
}
