/** The subscribe server's index and the topic list as an object (app_queue/subscribe.c,
    base_queue/topic_router.c): lists are sequences that its methods reassign. */
module Subscribes {
  import opened Text
  import opened Numbers
  import opened SubscribeModel

  datatype Result = Success | ParamEmpty | TopicNotFound

  // ----- topics without a name -----

  /** The names in a topic list. A blank name put a NULL there, which has none. */
  function Names(topics: seq<Option<string>>): seq<string> {
    if topics == [] then []
    else (if topics[0].Some? then [topics[0].value] else []) + Names(topics[1..])
  }

  /** The names before the first NULL. */
  function BeforeNameless(topics: seq<Option<string>>): seq<string> {
    if topics == [] || topics[0].None? then [] else [topics[0].value] + BeforeNameless(topics[1..])
  }

  lemma {:induction false} NamesJoin(a: seq<Option<string>>, b: seq<Option<string>>)
    ensures Names(a + b) == Names(a) + Names(b)
  {
    if a == [] {
      assert a + b == b;
    } else {
      var first := if a[0].Some? then [a[0].value] else [];
      NamesJoin(a[1..], b);
      assert (a + b)[1..] == a[1..] + b;
      assert first + (Names(a[1..]) + Names(b)) == first + Names(a[1..]) + Names(b);
    }
  }

  lemma {:induction false} NamesHave(topics: seq<Option<string>>, name: string)
    ensures name in Names(topics) <==> Some(name) in topics
  {
    if topics != [] {
      NamesHave(topics[1..], name);
      assert topics == [topics[0]] + topics[1..];
    }
  }

  lemma {:induction false} NoneNamed(topics: seq<Option<string>>)
    ensures Names(topics) == [] <==> forall i :: 0 <= i < |topics| ==> topics[i].None?
  {
    if topics != [] {
      NoneNamed(topics[1..]);
      assert topics == [topics[0]] + topics[1..];
    }
  }

  /** The topics that do not have this name. */
  function OtherTopics(topics: seq<Option<string>>, name: string): seq<Option<string>> {
    if topics == [] then [] else
      var n := |topics| - 1;
      OtherTopics(topics[..n], name) + if topics[n] == Some(name) then [] else [topics[n]]
  }

  lemma {:induction false} DroppedJoin(a: seq<string>, b: seq<string>, name: string)
    ensures Dropped(a + b, name) == Dropped(a, name) + Dropped(b, name)
  {
    if a == [] {
      assert a + b == b;
    } else {
      var first := if a[0] == name then [] else [a[0]];
      DroppedJoin(a[1..], b, name);
      assert (a + b)[1..] == a[1..] + b;
      assert first + (Dropped(a[1..], name) + Dropped(b, name)) == first + Dropped(a[1..], name) + Dropped(b, name);
    }
  }

  lemma {:induction false} OtherTopicsAre(topics: seq<Option<string>>, name: string)
    ensures Names(OtherTopics(topics, name)) == Dropped(Names(topics), name)
    ensures None in OtherTopics(topics, name) <==> None in topics
  {
    if topics != [] {
      var n := |topics| - 1;
      var last := [topics[n]];
      OtherTopicsAre(topics[..n], name);
      assert topics == topics[..n] + last;
      NamesJoin(topics[..n], last);
      DroppedJoin(Names(topics[..n]), Names(last), name);
      NamesJoin(OtherTopics(topics[..n], name), if topics[n] == Some(name) then [] else last);
      OneTopic(topics[n], name);
    }
  }

  lemma OneTopic(topic: Option<string>, name: string)
    ensures Dropped(Names([topic]), name) == Names(if topic == Some(name) then [] else [topic])
  {
    if topic.Some? {
      assert Names([topic]) == [topic.value];
      assert Dropped([topic.value], name) == if topic.value == name then [] else [topic.value];
    }
  }

  /** No named topic stands behind a nameless one. */
  ghost predicate NamelessLast(topics: seq<Option<string>>) {
    forall i, j :: 0 <= i < j < |topics| && topics[i].None? ==> topics[j].None?
  }

  /** A loop that ends at the first NULL reaches every topic exactly when no topic with a name was added
      after one without. */
  lemma {:induction false} AllReached(topics: seq<Option<string>>)
    ensures BeforeNameless(topics) == Names(topics) <==> NamelessLast(topics)
  {
    if topics != [] {
      var rest := topics[1..];
      assert topics == [topics[0]] + rest;
      if topics[0].None? {
        NoneNamed(rest);
        assert NamelessLast(topics) <==> forall i :: 0 <= i < |rest| ==> rest[i].None? by {
          assert forall i :: 0 <= i < |rest| ==> rest[i] == topics[i + 1];
        }
      } else {
        AllReached(rest);
        LastBehind(topics);
        var first := [topics[0].value];
        assert (first + BeforeNameless(rest))[1..] == BeforeNameless(rest) && (first + Names(rest))[1..] == Names(rest);
      }
    }
  }

  lemma LastBehind(topics: seq<Option<string>>)
    requires topics != [] && topics[0].Some?
    ensures NamelessLast(topics) <==> NamelessLast(topics[1..])
  {
    var rest := topics[1..];
    assert forall i :: 0 <= i < |rest| ==> rest[i] == topics[i + 1];
    if NamelessLast(rest) {
      forall i, j | 0 <= i < j < |topics| && topics[i].None?
        ensures topics[j].None?
      {
        assert rest[i - 1].None? && rest[j - 1] == topics[j];
      }
    }
  }

  /** Once there is a nameless topic, no topic added later is reached. */
  lemma {:induction false} NeverReached(topics: seq<Option<string>>, later: seq<Option<string>>)
    requires None in topics
    ensures BeforeNameless(topics + later) == BeforeNameless(topics)
  {
    assert topics == [topics[0]] + topics[1..];
    assert (topics + later)[1..] == topics[1..] + later;
    if topics[0].Some? {
      NeverReached(topics[1..], later);
    }
  }

  lemma {:induction false} AddAtPlace(index: seq<Entry>, name: string, id: nat, k: nat)
    requires k < |index| && index[k].name == name && forall i :: 0 <= i < k ==> index[i].name != name
    ensures Add(index, name, id) == index[k := Entry(name, index[k].subscribers + [id])]
  {
    if k > 0 {
      AddAtPlace(index[1..], name, id, k - 1);
      assert index == [index[0]] + index[1..];
    }
  }

  lemma {:induction false} AddAtEnd(index: seq<Entry>, name: string, id: nat)
    requires forall i :: 0 <= i < |index| ==> index[i].name != name
    ensures Add(index, name, id) == index + [Entry(name, [id])]
  {
    if index != [] {
      AddAtEnd(index[1..], name, id);
      assert index == [index[0]] + index[1..];
    }
  }

  class SubscribeServer {
    const matching: Matching
    /** The topic list, with nothing for a topic that got no name. */
    var topics: seq<Option<string>>
    var keywords: seq<string>
    /** Where each subscriber is to be reached, and the push server's list of their pushers. */
    var targets: seq<(string, int)>
    var pushers: seq<nat>
    var index: seq<Entry>

    ghost function View(): State
      reads this
    {
      State(Names(topics), keywords, index)
    }

    constructor (matching: Matching)
      ensures this.matching == matching && View() == State([], [], [])
    {
      this.matching := matching;
      topics, keywords, targets, pushers, index := [], [], [], [], [];
    }

    method FindEntry(name: string) returns (k: nat)
      ensures k <= |index| && forall i :: 0 <= i < k ==> index[i].name != name
      ensures k < |index| ==> index[k].name == name
    {
      k := 0;
      while k < |index|
        invariant k <= |index| && forall i :: 0 <= i < k ==> index[i].name != name
      {
        if index[k].name == name {
          return;
        }
        k := k + 1;
      }
    }

    method AddSubscribeTopic(name: string, id: nat)
      modifies `index
      ensures index == Add(old(index), name, id)
    {
      var k := FindEntry(name);
      if k == |index| {
        AddAtEnd(index, name, id);
        index := index + [Entry(name, [])];
        assert [] + [id] == [id];
      } else {
        AddAtPlace(index, name, id, k);
      }
      index := index[k := index[k].(subscribers := index[k].subscribers + [id])];
    }

    method AddSubscribeTopicsByList(names: seq<string>, id: nat)
      modifies `index
      ensures index == AddAll(old(index), names, id)
    {
      var i := 0;
      while i < |names|
        invariant i <= |names|
        invariant AddAll(index, names[i..], id) == AddAll(old(index), names, id)
      {
        AddSubscribeTopic(names[i], id);
        assert names[i..][0] == names[i] && names[i..][1..] == names[i + 1..];
        i := i + 1;
      }
    }

    method GetTopicListByKeyword(keyword: string) returns (names: seq<string>)
      ensures names == Matched(Names(topics), keyword, matching)
    {
      names := [];
      var i := 0;
      while i < |topics|
        invariant i <= |topics|
        invariant names + Matched(Names(topics[i..]), keyword, matching) == Matched(Names(topics), keyword, matching)
      {
        assert topics[i..][0] == topics[i] && topics[i..][1..] == topics[i + 1..];
        if topics[i].Some? {
          assert Names(topics[i..])[1..] == Names(topics[i + 1..]);
          if matching.subscribing(topics[i].value, keyword) {
            names := names + [topics[i].value];
          }
        } else {
          assert Names(topics[i..]) == Names(topics[i + 1..]);
        }
        i := i + 1;
      }
    }

    /** A new subscriber, listed under the live topics that match, with a pusher of its own. A port that is
        no port number makes the code read through a null pointer before it looks. */
    method AddSubscribe(keyword: string, remoteHost: string, remotePort: string) returns (result: Result)
      requires !IsBlank(keyword) && !IsBlank(remoteHost) && !IsBlank(remotePort) ==> 0 < Atoi(remotePort) <= 65535
      modifies this
      ensures result == if IsBlank(keyword) || IsBlank(remoteHost) || IsBlank(remotePort) then ParamEmpty else Success
      ensures result == ParamEmpty ==>
        View() == old(View()) && targets == old(targets) && pushers == old(pushers) && topics == old(topics)
      ensures result == Success ==>
        && View() == SubscribeOne(old(View()), keyword, matching) && topics == old(topics)
        && targets == old(targets) + [(remoteHost, Atoi(remotePort))]
        && pushers == old(pushers) + [|old(keywords)|]
    {
      if IsBlank(keyword) || IsBlank(remoteHost) || IsBlank(remotePort) {
        return ParamEmpty;
      }
      var id := |keywords|;
      keywords := keywords + [keyword];
      targets := targets + [(remoteHost, Atoi(remotePort))];
      pushers := pushers + [id];
      var names := GetTopicListByKeyword(keyword);
      if names != [] {
        AddSubscribeTopicsByList(names, id);
      }
      result := Success;
    }

    method UpdateSubscribeAfterAddTopic(name: string)
      modifies `index
      ensures View() == Update(old(View()), name, matching)
    {
      var i := 0;
      while i < |keywords|
        invariant i <= |keywords|
        invariant UpdateFrom(index, keywords, name, matching, i) == UpdateFrom(old(index), keywords, name, matching, 0)
      {
        if matching.adding(name, keywords[i]) {
          AddSubscribeTopic(name, i);
        }
        i := i + 1;
      }
    }

    method UpdateSubscribeAfterRemoveTopic(name: string) returns (result: Result)
      modifies `index
      ensures index == Without(old(index), name)
      ensures result == if |index| == |old(index)| then TopicNotFound else Success
    {
      var kept: seq<Entry>, i := [], 0;
      while i < |index|
        invariant i <= |index|
        invariant kept + Without(index[i..], name) == Without(index, name)
      {
        assert index[i..][0] == index[i] && index[i..][1..] == index[i + 1..];
        if index[i].name != name {
          kept := kept + [index[i]];
        }
        i := i + 1;
      }
      result := if |kept| == |index| then TopicNotFound else Success;
      index := kept;
    }

    /** A blank name puts a nameless topic in the list. */
    method AddTopic(name: string) returns (code: int)
      modifies this
      ensures View() == AddOne(old(View()), name, matching)
      ensures code == if name in old(View().topics) then -1 else 0
      ensures topics == if code == -1 then old(topics) else old(topics) + [if IsBlank(name) then None else Some(name)]
    {
      NamesHave(topics, name);
      if Some(name) in topics {
        return -1;
      }
      code := 0;
      NamesJoin(topics, [if IsBlank(name) then None else Some(name)]);
      assert Names([Some(name)]) == [name] && Names([None]) == [];
      if IsBlank(name) {
        topics := topics + [None];
      } else {
        topics := topics + [Some(name)];
        UpdateSubscribeAfterAddTopic(name);
      }
    }

    /** Topics with the name go; nameless ones stay. */
    method RemoveTopic(name: string) returns (count: int)
      modifies this
      ensures View() == RemoveOne(old(View()), name)
      ensures count == |old(topics)| - |topics|
      ensures None in topics <==> None in old(topics)
    {
      var kept: seq<Option<string>>, i := [], 0;
      while i < |topics|
        invariant i <= |topics| && kept == OtherTopics(topics[..i], name)
      {
        assert topics[..i + 1][..i] == topics[..i];
        if topics[i] != Some(name) {
          kept := kept + [topics[i]];
        }
        i := i + 1;
      }
      assert topics[..|topics|] == topics;
      OtherTopicsAre(topics, name);
      count := |topics| - |kept|;
      topics := kept;
      var result := UpdateSubscribeAfterRemoveTopic(name);
    }

    /** tickTopics: the topics it ticks, up to the first without a name. */
    method TickTopics() returns (ticked: seq<string>)
      ensures ticked == BeforeNameless(topics)
      ensures ticked == View().topics <==> NamelessLast(topics)
    {
      AllReached(topics);
      ticked := [];
      var i := 0;
      while i < |topics| && topics[i].Some?
        invariant i <= |topics|
        invariant ticked + BeforeNameless(topics[i..]) == BeforeNameless(topics)
      {
        assert topics[i..][0] == topics[i] && topics[i..][1..] == topics[i + 1..];
        ticked := ticked + [topics[i].value];
        i := i + 1;
      }
    }

    method CleanTopic(name: string) returns (code: int)
      modifies this
      ensures View() == AddOne(RemoveOne(old(View()), name), name, matching)
      ensures code == 0
    {
      var count := RemoveTopic(name);
      DroppedLeaves(old(View().topics), name);
      code := AddTopic(name);
    }

    /** The router's add command. */
    method RequestTopic(name: string) returns (code: int)
      modifies this
      ensures View() == RequestOne(old(View()), name, matching)
      ensures code == if name in old(View().topics) then -1 else 0
    {
      code := AddTopic(name);
      if code != -1 {
        if !IsBlank(name) {
          UpdateSubscribeAfterAddTopic(name);
        }
      }
    }
  }
}
