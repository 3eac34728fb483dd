/** The subscription index on values (app_queue/subscribe.c, base_queue/topic_router.c): which
    subscribers are listed under which topic. */
module SubscribeModel {
  import opened Text

  /** Whether a topic name matches a keyword, asked in two places: when somebody subscribes, and when
      a topic is added. */
  datatype Matching = Matching(subscribing: (string, string) -> bool, adding: (string, string) -> bool)

  datatype Entry = Entry(name: string, subscribers: seq<nat>)

  /** Live topics; the keywords of the subscribers, who are known by their place; the index. */
  datatype State = State(topics: seq<string>, keywords: seq<string>, index: seq<Entry>)

  datatype Command =
    | Subscribe(keyword: string)
    | AddTopic(name: string)
    | RemoveTopic(name: string)
    | CleanTopic(name: string)
    | RequestTopic(name: string)

  // ----- the index -----

  /** addSubscribeTopic: under the topic's entry, or under a new one at the end. */
  function Add(index: seq<Entry>, name: string, id: nat): seq<Entry> {
    if index == [] then [Entry(name, [id])]
    else if index[0].name == name then [Entry(name, index[0].subscribers + [id])] + index[1..]
    else [index[0]] + Add(index[1..], name, id)
  }

  /** addSubscribeTopicsByList. */
  function AddAll(index: seq<Entry>, names: seq<string>, id: nat): seq<Entry>
    decreases |names|
  {
    if names == [] then index else AddAll(Add(index, names[0], id), names[1..], id)
  }

  /** The subscribers listed under a name. */
  function Listed(index: seq<Entry>, name: string): seq<nat> {
    if index == [] then [] else if index[0].name == name then index[0].subscribers else Listed(index[1..], name)
  }

  function Without(index: seq<Entry>, name: string): seq<Entry> {
    if index == [] then []
    else if index[0].name == name then Without(index[1..], name)
    else [index[0]] + Without(index[1..], name)
  }

  function Dropped(topics: seq<string>, name: string): seq<string> {
    if topics == [] then []
    else if topics[0] == name then Dropped(topics[1..], name)
    else [topics[0]] + Dropped(topics[1..], name)
  }

  /** getTopicListByKeyword. */
  function Matched(topics: seq<string>, keyword: string, m: Matching): (names: seq<string>)
    ensures forall n <- names :: n in topics
  {
    if topics == [] then []
    else if m.subscribing(topics[0], keyword) then [topics[0]] + Matched(topics[1..], keyword, m)
    else Matched(topics[1..], keyword, m)
  }

  /** UpdateSubscribeAfterAddTopic from subscriber `i` on. */
  function UpdateFrom(index: seq<Entry>, keywords: seq<string>, name: string, m: Matching, i: nat): seq<Entry>
    requires i <= |keywords|
    decreases |keywords| - i
  {
    if i == |keywords| then index
    else UpdateFrom(if m.adding(name, keywords[i]) then Add(index, name, i) else index, keywords, name, m, i + 1)
  }

  // ----- commands -----

  function SubscribeOne(s: State, keyword: string, m: Matching): State {
    if IsBlank(keyword) then s else
      State(s.topics, s.keywords + [keyword], AddAll(s.index, Matched(s.topics, keyword, m), |s.keywords|))
  }

  /** UpdateSubscribeAfterAddTopic. */
  function Update(s: State, name: string, m: Matching): State {
    s.(index := UpdateFrom(s.index, s.keywords, name, m, 0))
  }

  /** addTopic. A blank name adds a NULL topic, which has no name to match and is not listed. */
  function AddOne(s: State, name: string, m: Matching): State {
    if name in s.topics || IsBlank(name) then s else Update(s.(topics := s.topics + [name]), name, m)
  }

  function RemoveOne(s: State, name: string): State {
    State(Dropped(s.topics, name), s.keywords, Without(s.index, name))
  }

  /** The add command of the router updates the index again after addTopic has done so. */
  function RequestOne(s: State, name: string, m: Matching): State {
    if name in s.topics || IsBlank(name) then s else Update(AddOne(s, name, m), name, m)
  }

  function Apply(s: State, c: Command, m: Matching): State {
    match c
    case Subscribe(keyword) => SubscribeOne(s, keyword, m)
    case AddTopic(name) => AddOne(s, name, m)
    case RemoveTopic(name) => RemoveOne(s, name)
    case CleanTopic(name) => AddOne(RemoveOne(s, name), name, m)
    case RequestTopic(name) => RequestOne(s, name, m)
  }

  // ----- what the index should hold -----

  /** The subscribers from place `lo` up to `hi` whose keyword matches, in order. */
  function Hits(matches: (string, string) -> bool, name: string, keywords: seq<string>, lo: nat, hi: nat): seq<nat>
    requires lo <= hi <= |keywords|
    decreases hi - lo
  {
    if lo == hi then [] else
      Hits(matches, name, keywords, lo, hi - 1) + if matches(name, keywords[hi - 1]) then [hi - 1] else []
  }

  lemma {:induction false} HitsAre(f: (string, string) -> bool, name: string, keywords: seq<string>, lo: nat, hi: nat)
    requires lo <= hi <= |keywords|
    ensures forall i :: i in Hits(f, name, keywords, lo, hi) <==> lo <= i < hi && f(name, keywords[i])
    decreases hi - lo
  {
    if lo < hi {
      HitsAre(f, name, keywords, lo, hi - 1);
    }
  }

  /** For each live topic, how many subscribers there were when it was added, and how often the index
      was updated for it then. */
  type Ledger = map<string, (nat, nat)>

  function Log(s: State, l: Ledger, c: Command): Ledger {
    match c
    case Subscribe(_) => l
    case AddTopic(name) => if name in s.topics || IsBlank(name) then l else l[name := (|s.keywords|, 1)]
    case RemoveTopic(name) => l - {name}
    case CleanTopic(name) => if IsBlank(name) then l - {name} else (l - {name})[name := (|s.keywords|, 1)]
    case RequestTopic(name) => if name in s.topics || IsBlank(name) then l else l[name := (|s.keywords|, 2)]
  }

  function Repeat(h: seq<nat>, n: nat): seq<nat> {
    if n == 0 then [] else Repeat(h, n - 1) + h
  }

  function Expected(s: State, m: Matching, name: string, since: nat, times: nat): seq<nat>
    requires since <= |s.keywords|
  {
    Repeat(Hits(m.adding, name, s.keywords, 0, since), times) +
    Hits(m.subscribing, name, s.keywords, since, |s.keywords|)
  }

  ghost predicate Distinct(names: seq<string>) {
    forall i, j :: 0 <= i < j < |names| ==> names[i] != names[j]
  }

  ghost predicate Inv(s: State, l: Ledger, m: Matching) {
    && Distinct(s.topics)
    && (forall n :: n in s.topics <==> n in l)
    && (forall n <- l :: l[n].0 <= |s.keywords| && l[n].1 > 0)
    && (forall n <- l :: Listed(s.index, n) == Expected(s, m, n, l[n].0, l[n].1))
    && (forall n: string :: n !in l ==> Listed(s.index, n) == [])
  }

  // ----- lemmas -----

  lemma {:induction false} ListedAdd(index: seq<Entry>, name: string, id: nat, other: string)
    ensures Listed(Add(index, name, id), other) == Listed(index, other) + if other == name then [id] else []
  {
    if index != [] && index[0].name != name {
      ListedAdd(index[1..], name, id, other);
      assert ([index[0]] + Add(index[1..], name, id))[1..] == Add(index[1..], name, id);
    } else if index != [] {
      assert ([Entry(name, index[0].subscribers + [id])] + index[1..])[1..] == index[1..];
    }
  }

  lemma {:induction false} ListedAddAll(index: seq<Entry>, names: seq<string>, id: nat, other: string)
    requires Distinct(names)
    ensures Listed(AddAll(index, names, id), other) == Listed(index, other) + if other in names then [id] else []
    decreases |names|
  {
    if names != [] {
      ListedAdd(index, names[0], id, other);
      assert Distinct(names[1..]);
      ListedAddAll(Add(index, names[0], id), names[1..], id, other);
      assert other in names[1..] ==> other != names[0];
    }
  }

  lemma {:induction false} ListedWithout(index: seq<Entry>, name: string, other: string)
    ensures Listed(Without(index, name), other) == if other == name then [] else Listed(index, other)
  {
    if index != [] {
      ListedWithout(index[1..], name, other);
      if index[0].name != name {
        assert ([index[0]] + Without(index[1..], name))[1..] == Without(index[1..], name);
      }
    }
  }

  lemma DistinctCons(name: string, names: seq<string>)
    ensures Distinct([name] + names) <==> Distinct(names) && name !in names
  {
    var all := [name] + names;
    assert forall i :: 0 <= i < |names| ==> all[i + 1] == names[i];
    if Distinct(all) {
      forall i, j | 0 <= i < j < |names|
        ensures names[i] != names[j]
      {
        assert all[i + 1] != all[j + 1];
      }
      forall i | 0 <= i < |names|
        ensures names[i] != name
      {
        assert all[0] != all[i + 1];
      }
    }
  }

  lemma {:induction false} DroppedLeaves(topics: seq<string>, name: string)
    ensures forall n :: n in Dropped(topics, name) <==> n in topics && n != name
    ensures Distinct(topics) ==> Distinct(Dropped(topics, name))
  {
    if topics != [] {
      DroppedLeaves(topics[1..], name);
      assert topics == [topics[0]] + topics[1..];
      DistinctCons(topics[0], topics[1..]);
      DistinctCons(topics[0], Dropped(topics[1..], name));
    }
  }

  lemma {:induction false} MatchedAre(topics: seq<string>, keyword: string, m: Matching)
    ensures forall n :: n in Matched(topics, keyword, m) <==> n in topics && m.subscribing(n, keyword)
    ensures Distinct(topics) ==> Distinct(Matched(topics, keyword, m))
  {
    if topics != [] {
      MatchedAre(topics[1..], keyword, m);
      assert topics == [topics[0]] + topics[1..];
      DistinctCons(topics[0], topics[1..]);
      DistinctCons(topics[0], Matched(topics[1..], keyword, m));
    }
  }

  lemma {:induction false} ListedUpdate(index: seq<Entry>, keywords: seq<string>, name: string, m: Matching, i: nat,
                                        other: string)
    requires i <= |keywords|
    ensures Listed(UpdateFrom(index, keywords, name, m, i), other) ==
      Listed(index, other) + if other == name then Hits(m.adding, name, keywords, i, |keywords|) else []
    decreases |keywords| - i
  {
    if i < |keywords| {
      var next := if m.adding(name, keywords[i]) then Add(index, name, i) else index;
      ListedUpdate(next, keywords, name, m, i + 1, other);
      ListedAdd(index, name, i, other);
      HitsFirst(m.adding, name, keywords, i, |keywords|);
    }
  }

  lemma {:induction false} HitsFirst(f: (string, string) -> bool, name: string, keywords: seq<string>, lo: nat, hi: nat)
    requires lo < hi <= |keywords|
    ensures Hits(f, name, keywords, lo, hi) ==
      (if f(name, keywords[lo]) then [lo] else []) + Hits(f, name, keywords, lo + 1, hi)
    decreases hi - lo
  {
    if lo + 1 < hi {
      HitsFirst(f, name, keywords, lo, hi - 1);
    } else {
      assert Hits(f, name, keywords, lo, lo) == [];
      assert Hits(f, name, keywords, lo + 1, hi) == [];
    }
  }

  /** Later subscribers do not change the earlier hits. */
  lemma {:induction false} HitsExtend(f: (string, string) -> bool, name: string, keywords: seq<string>,
                                      more: seq<string>, lo: nat, hi: nat)
    requires lo <= hi <= |keywords|
    ensures Hits(f, name, keywords + more, lo, hi) == Hits(f, name, keywords, lo, hi)
    decreases hi - lo
  {
    if lo < hi {
      HitsExtend(f, name, keywords, more, lo, hi - 1);
    }
  }

  lemma HitsSplit(s: State, m: Matching, keyword: string, name: string, since: nat, times: nat)
    requires since <= |s.keywords|
    ensures Expected(s.(keywords := s.keywords + [keyword]), m, name, since, times) ==
      Expected(s, m, name, since, times) + if m.subscribing(name, keyword) then [|s.keywords|] else []
  {
    HitsExtend(m.adding, name, s.keywords, [keyword], 0, since);
    HitsExtend(m.subscribing, name, s.keywords, [keyword], since, |s.keywords|);
  }

  lemma {:induction false} DroppedPlace(topics: seq<string>, i: nat)
    requires i < |topics| && Distinct(topics)
    ensures Dropped(topics, topics[i]) == topics[..i] + topics[i + 1..]
  {
    var name := topics[i];
    assert topics == [topics[0]] + topics[1..];
    DistinctCons(topics[0], topics[1..]);
    if i > 0 {
      DroppedPlace(topics[1..], i - 1);
      assert topics[..i] == [topics[0]] + topics[1..][..i - 1] && topics[1..][i..] == topics[i + 1..];
    } else {
      DroppedNone(topics[1..], name);
    }
  }

  lemma {:induction false} DroppedNone(topics: seq<string>, name: string)
    requires name !in topics
    ensures Dropped(topics, name) == topics
  {
    if topics != [] {
      DroppedNone(topics[1..], name);
    }
  }

  /** Whoever subscribes is listed once under each topic there is whose name matches, after those listed before,
      even when the keyword is known already. */
  lemma SubscribeMeaning(s: State, keyword: string, m: Matching)
    requires Distinct(s.topics)
    ensures var t := Apply(s, Subscribe(keyword), m);
      if IsBlank(keyword) then t == s
      else
        && t.topics == s.topics && t.keywords == s.keywords + [keyword]
        && forall n :: Listed(t.index, n) ==
             Listed(s.index, n) + if n in s.topics && m.subscribing(n, keyword) then [|s.keywords|] else []
  {
    if !IsBlank(keyword) {
      MatchedAre(s.topics, keyword, m);
      var t := SubscribeOne(s, keyword, m);
      forall n
        ensures Listed(t.index, n) ==
          Listed(s.index, n) + if n in s.topics && m.subscribing(n, keyword) then [|s.keywords|] else []
      {
        ListedAddAll(s.index, Matched(s.topics, keyword, m), |s.keywords|, n);
      }
    }
  }

  /** A topic that is added comes last, and the subscribers who match are listed under it in order: once when it
      is added, twice when it is requested. A name there is already, and a blank one, change nothing. */
  lemma AddMeaning(s: State, name: string, m: Matching)
    ensures var t, u := Apply(s, AddTopic(name), m), Apply(s, RequestTopic(name), m);
      var hits := Hits(m.adding, name, s.keywords, 0, |s.keywords|);
      if name in s.topics || IsBlank(name) then t == s && u == s
      else
        && t.topics == u.topics == s.topics + [name] && t.keywords == u.keywords == s.keywords
        && Listed(t.index, name) == Listed(s.index, name) + hits
        && Listed(u.index, name) == Listed(s.index, name) + hits + hits
        && forall n :: n != name ==> Listed(t.index, n) == Listed(u.index, n) == Listed(s.index, n)
  {
    var t := AddOne(s, name, m);
    forall n
      ensures Listed(Update(s, name, m).index, n) ==
        Listed(s.index, n) + if n == name then Hits(m.adding, name, s.keywords, 0, |s.keywords|) else []
      ensures Listed(Update(t, name, m).index, n) ==
        Listed(t.index, n) + if n == name then Hits(m.adding, name, t.keywords, 0, |t.keywords|) else []
    {
      ListedUpdate(s.index, s.keywords, name, m, 0, n);
      ListedUpdate(t.index, t.keywords, name, m, 0, n);
    }
  }

  /** A topic that is removed goes, with everybody listed under it; cleaned, it comes back last with the
      subscribers who match; nothing else changes. */
  lemma RemoveMeaning(s: State, name: string, m: Matching)
    requires Distinct(s.topics)
    ensures var t, u := Apply(s, RemoveTopic(name), m), Apply(s, CleanTopic(name), m);
      && t.keywords == u.keywords == s.keywords
      && (if name !in s.topics then t.topics == s.topics
          else exists i :: 0 <= i < |s.topics| && s.topics[i] == name && t.topics == s.topics[..i] + s.topics[i + 1..])
      && u.topics == t.topics + (if IsBlank(name) then [] else [name])
      && Listed(t.index, name) == []
      && Listed(u.index, name) == (if IsBlank(name) then [] else Hits(m.adding, name, s.keywords, 0, |s.keywords|))
      && forall n :: n != name ==> Listed(t.index, n) == Listed(u.index, n) == Listed(s.index, n)
  {
    var t := RemoveOne(s, name);
    DroppedLeaves(s.topics, name);
    AddMeaning(t, name, m);
    if name in s.topics {
      var i :| 0 <= i < |s.topics| && s.topics[i] == name;
      DroppedPlace(s.topics, i);
    } else {
      DroppedNone(s.topics, name);
    }
    forall n
      ensures Listed(t.index, n) == if n == name then [] else Listed(s.index, n)
    {
      ListedWithout(s.index, name, n);
    }
  }

  lemma SubscribeKeeps(s: State, l: Ledger, m: Matching, keyword: string)
    requires Inv(s, l, m)
    ensures Inv(SubscribeOne(s, keyword, m), l, m)
  {
    hide Expected, Listed;
    if !IsBlank(keyword) {
      var names, t := Matched(s.topics, keyword, m), SubscribeOne(s, keyword, m);
      MatchedAre(s.topics, keyword, m);
      forall n: string
        ensures Listed(t.index, n) == Listed(s.index, n) + if n in names then [|s.keywords|] else []
      {
        ListedAddAll(s.index, names, |s.keywords|, n);
      }
      forall n | n in l
        ensures Listed(t.index, n) == Expected(t, m, n, l[n].0, l[n].1)
      {
        HitsSplit(s, m, keyword, n, l[n].0, l[n].1);
        SameKeywords(t, s.(keywords := s.keywords + [keyword]), m, n, l[n].0, l[n].1);
      }
    }
  }

  lemma SameKeywords(s: State, t: State, m: Matching, name: string, since: nat, times: nat)
    requires s.keywords == t.keywords && since <= |s.keywords|
    ensures Expected(s, m, name, since, times) == Expected(t, m, name, since, times)
  {
  }

  /** Adding a topic nobody is listed under lists the matching subscribers, once per update. */
  lemma AddKeeps(s: State, l: Ledger, m: Matching, name: string)
    requires Inv(s, l, m) && name !in s.topics && !IsBlank(name)
    ensures Inv(AddOne(s, name, m), l[name := (|s.keywords|, 1)], m)
  {
    hide Expected, Listed, Hits;
    var t := AddOne(s, name, m);
    forall n: string
      ensures Listed(t.index, n) ==
        Listed(s.index, n) + if n == name then Hits(m.adding, name, s.keywords, 0, |s.keywords|) else []
    {
      ListedUpdate(s.index, s.keywords, name, m, 0, n);
    }
    ExpectedNow(t, m, name, 1);
    Others(s, t, l, m, name);
  }

  lemma ExpectedNow(s: State, m: Matching, name: string, times: nat)
    ensures times == 1 ==> Expected(s, m, name, |s.keywords|, times) == Hits(m.adding, name, s.keywords, 0, |s.keywords|)
    ensures var h := Hits(m.adding, name, s.keywords, 0, |s.keywords|);
      times == 2 ==> Expected(s, m, name, |s.keywords|, times) == h + h
  {
    var h := Hits(m.adding, name, s.keywords, 0, |s.keywords|);
    assert Repeat(h, 1) == h;
  }

  lemma Others(s: State, t: State, l: Ledger, m: Matching, name: string)
    requires s.keywords == t.keywords && forall n <- l :: l[n].0 <= |s.keywords|
    ensures forall n <- l :: Expected(t, m, n, l[n].0, l[n].1) == Expected(s, m, n, l[n].0, l[n].1)
  {
  }

  lemma RequestKeeps(s: State, l: Ledger, m: Matching, name: string)
    requires Inv(s, l, m) && name !in s.topics && !IsBlank(name)
    ensures Inv(RequestOne(s, name, m), l[name := (|s.keywords|, 2)], m)
  {
    hide Expected, Listed, Hits, AddOne;
    var a, t := AddOne(s, name, m), RequestOne(s, name, m);
    AddKeeps(s, l, m, name);
    AddShape(s, name, m);
    forall n: string
      ensures Listed(t.index, n) ==
        Listed(a.index, n) + if n == name then Hits(m.adding, name, s.keywords, 0, |s.keywords|) else []
    {
      ListedUpdate(a.index, s.keywords, name, m, 0, n);
    }
    ExpectedNow(a, m, name, 1);
    ExpectedNow(t, m, name, 2);
    Others(a, t, l, m, name);
  }

  /** A topic added by request lists everybody who was there twice. */
  lemma RequestListsTwice(s: State, l: Ledger, m: Matching, name: string)
    requires Inv(s, l, m) && name !in s.topics && !IsBlank(name)
    ensures var h := Hits(m.adding, name, s.keywords, 0, |s.keywords|);
      && Listed(AddOne(s, name, m).index, name) == h
      && Listed(RequestOne(s, name, m).index, name) == h + h
  {
    hide Hits, Listed, IsBlank;
    AddKeeps(s, l, m, name);
    RequestKeeps(s, l, m, name);
    ExpectedNow(AddOne(s, name, m), m, name, 1);
    ExpectedNow(RequestOne(s, name, m), m, name, 2);
  }

  lemma AddShape(s: State, name: string, m: Matching)
    ensures AddOne(s, name, m).keywords == s.keywords
  {
  }

  lemma RemoveKeeps(s: State, l: Ledger, m: Matching, name: string)
    requires Inv(s, l, m)
    ensures Inv(RemoveOne(s, name), l - {name}, m)
    ensures name !in RemoveOne(s, name).topics
  {
    hide Expected, Listed;
    var t := RemoveOne(s, name);
    DroppedLeaves(s.topics, name);
    forall n: string
      ensures Listed(t.index, n) == if n == name then [] else Listed(s.index, n)
    {
      ListedWithout(s.index, name, n);
    }
    Others(s, t, l, m, name);
  }

  lemma StepKeeps(s: State, l: Ledger, m: Matching, c: Command)
    requires Inv(s, l, m)
    ensures Inv(Apply(s, c, m), Log(s, l, c), m)
  {
    hide Expected, Listed, IsBlank, SubscribeOne, RemoveOne, Inv;
    match c
    case Subscribe(keyword) => SubscribeKeeps(s, l, m, keyword);
    case AddTopic(name) =>
      if name !in s.topics && !IsBlank(name) {
        AddKeeps(s, l, m, name);
      }
    case RemoveTopic(name) => RemoveKeeps(s, l, m, name);
    case CleanTopic(name) =>
      RemoveKeeps(s, l, m, name);
      RemoveShape(s, name);
      if !IsBlank(name) {
        AddKeeps(RemoveOne(s, name), l - {name}, m, name);
      }
    case RequestTopic(name) =>
      if name !in s.topics && !IsBlank(name) {
        RequestKeeps(s, l, m, name);
      }
  }

  lemma RemoveShape(s: State, name: string)
    ensures RemoveOne(s, name).keywords == s.keywords
  {
  }

  ghost predicate Run(states: seq<State>, ledgers: seq<Ledger>, commands: seq<Command>, m: Matching) {
    && |states| == |ledgers| == |commands| + 1
    && states[0] == State([], [], []) && ledgers[0] == map[]
    && forall i :: 0 <= i < |commands| ==>
         states[i + 1] == Apply(states[i], commands[i], m) && ledgers[i + 1] == Log(states[i], ledgers[i], commands[i])
  }

  lemma {:induction false} RunKeeps(states: seq<State>, ledgers: seq<Ledger>, commands: seq<Command>, m: Matching,
                                    i: nat)
    requires Run(states, ledgers, commands, m) && i <= |commands|
    ensures Inv(states[i], ledgers[i], m)
  {
    hide Apply, Log;
    if i > 0 {
      RunKeeps(states, ledgers, commands, m, i - 1);
      StepKeeps(states[i - 1], ledgers[i - 1], m, commands[i - 1]);
    }
  }

  /** After every run the list of a live topic is, in order: the subscribers there were when it was
      added whose keyword matches as adding asks it, once for each update then; after them the later
      ones whose keyword matches as subscribing asks it, once. Nobody is listed under another name. */
  lemma EveryRun(states: seq<State>, ledgers: seq<Ledger>, commands: seq<Command>, m: Matching, i: nat, name: string)
    requires Run(states, ledgers, commands, m) && i <= |commands|
    ensures var s, l := states[i], ledgers[i];
      && (name in s.topics <==> name in l)
      && (name !in s.topics ==> Listed(s.index, name) == [])
      && (name in s.topics ==>
            && l[name].0 <= |s.keywords|
            && Listed(s.index, name) == Expected(s, m, name, l[name].0, l[name].1)
            && forall id: nat :: id in Listed(s.index, name) <==>
                 && id < |s.keywords|
                 && if id < l[name].0 then m.adding(name, s.keywords[id]) else m.subscribing(name, s.keywords[id]))
  {
    hide Hits, Listed, Apply, Log;
    RunKeeps(states, ledgers, commands, m, i);
    var s, l := states[i], ledgers[i];
    if name in s.topics {
      var h := Hits(m.adding, name, s.keywords, 0, l[name].0);
      HitsAre(m.adding, name, s.keywords, 0, l[name].0);
      HitsAre(m.subscribing, name, s.keywords, l[name].0, |s.keywords|);
      RepeatHas(h, l[name].1);
    }
  }

  lemma {:induction false} RepeatHas(h: seq<nat>, n: nat)
    requires n > 0
    ensures forall i :: i in Repeat(h, n) <==> i in h
  {
    if n > 1 {
      RepeatHas(h, n - 1);
    } else {
      assert Repeat(h, 1) == h;
    }
  }

  /** Where both places ask the same question, the index is the match relation, whatever came first. */
  lemma IndexIsMatching(states: seq<State>, ledgers: seq<Ledger>, commands: seq<Command>, m: Matching, i: nat,
                        name: string)
    requires Run(states, ledgers, commands, m) && i <= |commands|
    requires forall k: string :: m.adding(name, k) == m.subscribing(name, k)
    ensures name in states[i].topics ==> forall id: nat ::
      id in Listed(states[i].index, name) <==>
      id < |states[i].keywords| && m.subscribing(name, states[i].keywords[id])
  {
    EveryRun(states, ledgers, commands, m, i, name);
  }

  /** And only there: for one topic and one keyword, who came first does not matter exactly when the
      two questions have the same answer. */
  lemma OrderMatters(m: Matching, name: string, keyword: string)
    requires !IsBlank(name) && !IsBlank(keyword)
    ensures
      var early := Apply(Apply(State([], [], []), Subscribe(keyword), m), AddTopic(name), m);
      var late := Apply(Apply(State([], [], []), AddTopic(name), m), Subscribe(keyword), m);
      Listed(early.index, name) == Listed(late.index, name) <==> m.adding(name, keyword) == m.subscribing(name, keyword)
  {
    hide IsBlank, Listed;
    var nothing := State([], [], []);
    assert [] + [keyword] == [keyword] && [] + [name] == [name];
    var early := Apply(Apply(nothing, Subscribe(keyword), m), AddTopic(name), m);
    assert early.index == UpdateFrom([], [keyword], name, m, 0);
    ListedUpdate([], [keyword], name, m, 0, name);
    assert Hits(m.adding, name, [keyword], 0, 0) == [];
    assert Hits(m.adding, name, [keyword], 0, 1) == if m.adding(name, keyword) then [0] else [];
    var late := Apply(Apply(nothing, AddTopic(name), m), Subscribe(keyword), m);
    var names := Matched([name], keyword, m);
    MatchedAre([name], keyword, m);
    assert late.index == AddAll([], names, 0);
    ListedAddAll([], names, 0, name);
    NothingListed(name);
  }

  lemma NothingListed(name: string)
    ensures Listed([], name) == []
  {
  }

  // ----- the questions as the code asks them -----

  function Lower(c: char): char { if 'A' <= c <= 'Z' then c - 'A' + 'a' else c }

  predicate SameButCase(a: string, b: string) {
    |a| == |b| && forall i :: 0 <= i < |a| ==> Lower(a[i]) == Lower(b[i])
  }

  /** Names compared without case when subscribing, with case when adding; the regular expression
      never counts, since a match answers 1 and success is 0. */
  function AsCoded(): Matching {
    Matching((name, keyword) => SameButCase(name, keyword), (name, keyword) => name == keyword)
  }

  lemma CaseDecides()
    ensures
      var early := Apply(Apply(State([], [], []), Subscribe("News"), AsCoded()), AddTopic("news"), AsCoded());
      var late := Apply(Apply(State([], [], []), AddTopic("news"), AsCoded()), Subscribe("News"), AsCoded());
      Listed(early.index, "news") != Listed(late.index, "news")
  {
    hide Apply;
    assert "news"[0] != "News"[0];
    assert SameButCase("news", "News");
    assert !IsBlank("news") by {
      assert "news"[0] in "news";
    }
    assert !IsBlank("News") by {
      assert "News"[0] in "News";
    }
    OrderMatters(AsCoded(), "news", "News");
  }
}
